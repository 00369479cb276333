/**
 The output accumulator of src/writer.js: a mutable text buffer that callers
 append to, read back and reset. Every mutating method states its new
 contents outright and as one Step of WriterTrace; RunOnWriter shows a
 sequence of calls on an object landing on the contents Run gives.
 */
module OutputWriter {
  import opened WriterTrace

  class Writer {
    /** The buffered text (the private field of the source). */
    var value: string

    /** A new buffer holding `v`, empty when no argument is given. */
    constructor (v: string := "")
      ensures value == v
    {
      value := v;
    }

    /** The `output` getter: the current contents; the buffer is left as it is. */
    method Output() returns (r: string)
      ensures r == value
    {
      r := value;
    }

    /** The `output` setter: the contents become exactly `v`, whatever they were. */
    method SetOutput(v: string)
      modifies this
      ensures value == v
      ensures value == Step(old(value), Assign(v))
    {
      value := v;
    }

    /** Appends `str` through the getter and the setter, as `output += str` does. */
    method Write(str: string)
      modifies this
      ensures value == old(value) + str
      ensures old(value) <= value
      ensures value == Step(old(value), Op.Write(str))
    {
      var current := Output();
      SetOutput(current + str);
    }

    /** Appends one newline by writing "\n". */
    method WriteLineBreak()
      modifies this
      ensures value == old(value) + "\n"
      ensures value == Step(old(value), LineBreak)
      ensures value == Step(old(value), Op.Write("\n"))
    {
      Write("\n");
    }

    /** Empties the buffer by setting the output to "". */
    method ClearOutput()
      modifies this
      ensures value == ""
      ensures value == Step(old(value), Clear)
    {
      SetOutput("");
    }
  }

  /** A buffer built without an argument reads back empty; one built with `v` reads back `v`. */
  method ConstructThenRead(v: string) returns (empty: string, given: string)
    ensures empty == ""
    ensures given == v
  {
    var w0 := new Writer();
    empty := w0.Output();
    var w := new Writer(v);
    given := w.Output();
  }

  /** Two writes on a buffer holding `init` leave `init`, then `a`, then `b`; reading changes nothing. */
  method WriteTwiceThenRead(init: string, a: string, b: string) returns (before: string, after: string)
    ensures before == init
    ensures after == init + a + b
  {
    var w := new Writer(init);
    before := w.Output();
    w.Write(a);
    w.Write(b);
    after := w.Output();
  }

  /** Setting the output of a buffer holding `init` to `v` and reading it back gives `v`. */
  method SetThenRead(init: string, v: string) returns (r: string)
    ensures r == v
  {
    var w := new Writer(init);
    w.SetOutput(v);
    r := w.Output();
  }

  /** Clearing once and clearing twice both leave the empty buffer; a write after a clear leaves just `s`. */
  method ClearThenWrite(init: string, s: string) returns (once: string, twice: string, written: string)
    ensures once == "" && twice == ""
    ensures written == s
  {
    var w := new Writer(init);
    w.ClearOutput();
    once := w.Output();
    w.ClearOutput();
    twice := w.Output();
    w.Write(s);
    written := w.Output();
  }

  /**
   clearOutput, clearOutput, write(s), writeLineBreak() on a buffer holding `init`
   leave the contents that Run gives for those calls, so the WriterTrace lemmas
   about them speak of the object.
   */
  method RunOnWriter(init: string, s: string) returns (r: string)
    ensures r == Run(init, [Clear, Clear, Op.Write(s), LineBreak])
    ensures r == s + "\n"
  {
    var w := new Writer(init);
    w.ClearOutput();
    w.ClearOutput();
    w.Write(s);
    w.WriteLineBreak();
    r := w.Output();
    var ops := [Clear, Clear, Op.Write(s), LineBreak];
    assert ops[1..] == [Clear, Op.Write(s), LineBreak];
    assert ops[1..][1..] == [Op.Write(s), LineBreak];
    assert ops[1..][1..][1..] == [LineBreak];
    assert ops[1..][1..][1..][1..] == [];
    assert Run(init, ops) == Run("", ops[1..]);
    assert Run("", ops[1..]) == Run("", ops[1..][1..]);
    assert "" + s == s;
    assert Run("", ops[1..][1..]) == Run(s, ops[1..][1..][1..]);
    assert Run(s, ops[1..][1..][1..]) == Run(s + "\n", []);
  }

  /** writeLineBreak and write("\n") leave the same contents on equal buffers. */
  method LineBreakThenRead(init: string) returns (viaLineBreak: string, viaWrite: string)
    ensures viaLineBreak == viaWrite == init + "\n"
  {
    var w1 := new Writer(init);
    w1.WriteLineBreak();
    viaLineBreak := w1.Output();
    var w2 := new Writer(init);
    w2.Write("\n");
    viaWrite := w2.Output();
  }
}
