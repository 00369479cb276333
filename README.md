# Writer: the output buffer of node-ts2hx

node-ts2hx translates TypeScript source text into Haxe source text. The
repository's src/writer.js defines `Writer`, a mutable text buffer with one
private string field. It offers:

- an `output` getter and setter over that field;
- `write(str)`, which appends;
- `writeLineBreak()`, which appends a newline;
- `clearOutput()`, which resets the buffer to the empty string.

This project models that class and proves what its operations do, one call at
a time and over any sequence of calls.

The project has two modules:

- `OutputWriter` (writer.dfy) is the class itself. `Writer` has a `string`
  field `value` standing for the private field. Its methods change the field
  in place under `modifies this`. Each mutating method states its new contents
  as an equation on `old(value)`. It also states them as one `Step` of the
  trace semantics below. `Write` goes through the getter and the setter, as
  `this.output += str` does. `WriteLineBreak` calls `Write("\n")`.
  `ClearOutput` calls the setter with `""`. Client methods build fresh
  writers with any starting contents and show what callers can rely on;
  `RunOnWriter` shows a sequence of calls on an object ending where `Run`
  says it does.
- `WriterTrace` (writer_trace.dfy) gives the reference meaning of a sequence
  of calls. `Op` names the four mutating calls. `Step` is the contents after
  one call and `Run` the contents after a sequence of calls made in order.
  The lemmas there cover how writes accumulate, clearing and setting, and
  line breaks.

## Model

| member | source | states |
|---|---|---|
| OutputWriter.Writer.constructor | src/writer.js:4-6 | a new writer holds exactly its argument, and the empty string when none is given |
| OutputWriter.Writer.Output | src/writer.js:8-10 | the getter returns the current contents and changes nothing (no modifies clause) |
| OutputWriter.Writer.SetOutput | src/writer.js:12-14 | after the setter the contents are exactly the value set, whatever they were before; this is one Assign step |
| OutputWriter.Writer.Write | src/writer.js:16-18 | the new contents are the old contents followed by `str`; the old contents survive as a prefix; this is one Write step; nothing outside the writer changes |
| OutputWriter.Writer.WriteLineBreak | src/writer.js:20-22 | appends exactly one newline, and its step equals the step of `write("\n")` |
| OutputWriter.Writer.ClearOutput | src/writer.js:24-26 | the contents become empty whatever they were; this is one Clear step |
| OutputWriter.ConstructThenRead | src/writer.js:4-10 | a writer built with no argument reads back `""`, one built with `v` reads back `v` |
| OutputWriter.WriteTwiceThenRead | src/writer.js:8-18 | on a writer holding `init`, reading gives `init`; after `write(a)` and `write(b)` it gives `init + a + b`, in call order |
| OutputWriter.SetThenRead | src/writer.js:8-14 | setting the output to `v` and reading it back gives `v`, whatever the writer held |
| OutputWriter.ClearThenWrite | src/writer.js:16-26 | clearing once and clearing twice both read back `""`; a write of `s` after a clear reads back exactly `s` |
| OutputWriter.RunOnWriter | src/writer.js:16-26 | on a writer holding `init`, clear, clear, `write(s)`, `writeLineBreak()` leave exactly the contents `Run` gives for those four calls, which is `s` plus one newline |
| OutputWriter.LineBreakThenRead | src/writer.js:16-22 | `writeLineBreak()` and `write("\n")` leave the same contents, the old contents plus one newline |
| WriterTrace.Writes | src/writer.js:16-18 | the write calls for a list of strings: one call per string, in the same order |
| WriterTrace.Lowered | src/writer.js:20-22 | keeps the length; at each position a `writeLineBreak()` becomes exactly `write("\n")` and every other call is kept; no line-break call is left |
| WriterTrace.RunConcat | src/writer.js:12-26 | doing two sequences of calls one after the other gives the same contents as doing their concatenation |
| WriterTrace.WritesAccumulate | src/writer.js:16-18 | successive writes leave the old contents followed by every written string, joined in call order |
| WriterTrace.AllAppendAt | src/writer.js:16-22 | a call sequence is append-only exactly when every call in it is a write or a line break (both directions) |
| WriterTrace.AppendsAddSameText | src/writer.js:16-22 | a sequence of writes and line breaks adds the same text whatever the writer held before |
| WriterTrace.AppendsKeepPrefix | src/writer.js:16-22 | under writes and line breaks the old contents stay a prefix of the contents |
| WriterTrace.ResetForgets | src/writer.js:12-14 | after a setter or clear call, the contents depend only on that call and the calls after it |
| WriterTrace.ResetForgetsStart | src/writer.js:24-26 | once a reset has happened, any two starting contents give the same contents |
| WriterTrace.ClearEmpties | src/writer.js:24-26 | `clearOutput()` as the last call leaves `""` after any earlier calls |
| WriterTrace.AssignThenRead | src/writer.js:12-14 | setting the output to `v` as the last call leaves exactly `v` after any earlier calls |
| WriterTrace.ClearIdempotent | src/writer.js:24-26 | two clears in a row give the same contents as one clear, before and after any other calls |
| WriterTrace.EmptyWriteIsNoop | src/writer.js:16-18 | `write("")` changes nothing, wherever it stands in a sequence of calls |
| WriterTrace.ClearThenWrites | src/writer.js:16-26 | a clear followed by writes leaves exactly the written strings joined in order |
| WriterTrace.LineBreakIsWriteNewline | src/writer.js:20-22 | replacing every `writeLineBreak()` in any call sequence by `write("\n")` gives the same contents |

## Left out

- The translation engine `src/ts2hx`, which test/base_tests.js requires at line 3, is not part of this model: without its code there is nothing to model against.
- test/base_tests.js is a mocha/chai test suite over that engine's output. It has no logic of its own to model.
- OutputWriter.Writer.Write: `str` is a string. The model does not cover JavaScript turning a non-string argument into text in `+=`.
- OutputWriter.Writer.SetOutput: `v` is a string. The source's setter stores any value, and a later `write` turns it into text (`output = 42` then `write("x")` leaves `"42x"`); the model does not cover that.
- OutputWriter.Writer.constructor: the argument is a string. The source stores whatever value it is given ("" only when the argument is `undefined`).
- The privacy of the field (`#value`) and the `module.exports` line are language and packaging details with no behaviour. The model's field is public so that contracts can name it.
- JavaScript strings are sequences of UTF-16 code units and may hold unpaired surrogates. The model uses Dafny's `string`, whose characters are Unicode scalar values, so a string with an unpaired surrogate cannot be represented. For example, `write("\uD83D")` followed by `write("\uDE00")` builds a valid pair in JavaScript, but neither argument exists in the model.
