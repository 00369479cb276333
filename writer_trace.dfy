/**
 The calls that change a Writer's buffer, as values, and the contents their
 sequence leaves behind. This is the reference meaning of src/writer.js that
 the class in OutputWriter is tied to: every mutating method of the class
 promises to move the buffer by exactly one Step, and the lemmas below state
 what a sequence of calls does, whatever the contents were before it.
 */
module WriterTrace {

  /** One mutating call on a Writer: the `output` setter, write, writeLineBreak, clearOutput. */
  datatype Op =
    | Assign(v: string)
    | Write(str: string)
    | LineBreak
    | Clear

  /** The buffer's contents after one call, given the contents before it. */
  function Step(out: string, op: Op): string
  {
    match op
    case Assign(v) => v
    case Write(str) => out + str
    case LineBreak => out + "\n"
    case Clear => ""
  }

  /** The buffer's contents after the calls `ops`, made in order, starting from `out`. */
  function Run(out: string, ops: seq<Op>): string
    decreases |ops|
  {
    if ops == [] then out else Run(Step(out, ops[0]), ops[1..])
  }

  /** Calls that only append to the buffer. */
  predicate Appends(op: Op)
  {
    op.Write? || op.LineBreak?
  }

  /** Every call of `ops` only appends. */
  predicate AllAppend(ops: seq<Op>)
  {
    ops == [] || (Appends(ops[0]) && AllAppend(ops[1..]))
  }

  /** AllAppend holds exactly when every call of `ops`, at every position, only appends. */
  lemma {:induction false} AllAppendAt(ops: seq<Op>)
    ensures AllAppend(ops) <==> forall i :: 0 <= i < |ops| ==> Appends(ops[i])
    decreases |ops|
  {
    if ops != [] {
      AllAppendAt(ops[1..]);
      assert forall i :: 1 <= i < |ops| ==> ops[i] == ops[1..][i - 1];
    }
  }

  /** Calls that replace the buffer without looking at it. */
  predicate Resets(op: Op)
  {
    op.Assign? || op.Clear?
  }

  /** The strings `ss` joined in order. */
  function Concat(ss: seq<string>): string
  {
    if ss == [] then "" else ss[0] + Concat(ss[1..])
  }

  /** One write call per string of `ss`, in order. */
  function Writes(ss: seq<string>): (ops: seq<Op>)
    ensures |ops| == |ss|
    ensures forall i :: 0 <= i < |ops| ==> ops[i] == Write(ss[i])
  {
    if ss == [] then [] else [Write(ss[0])] + Writes(ss[1..])
  }

  /** `ops` with every writeLineBreak replaced by write("\n"). */
  function Lowered(ops: seq<Op>): (r: seq<Op>)
    ensures |r| == |ops|
    ensures forall i :: 0 <= i < |r| ==> !r[i].LineBreak?
    ensures forall i :: 0 <= i < |r| ==> r[i] == (if ops[i].LineBreak? then Write("\n") else ops[i])
  {
    if ops == [] then []
    else [if ops[0].LineBreak? then Write("\n") else ops[0]] + Lowered(ops[1..])
  }

  /** Running two call sequences one after the other is running their concatenation. */
  lemma {:induction false} RunConcat(out: string, xs: seq<Op>, ys: seq<Op>)
    ensures Run(out, xs + ys) == Run(Run(out, xs), ys)
    decreases |xs|
  {
    if xs == [] {
      assert xs + ys == ys;
    } else {
      assert (xs + ys)[0] == xs[0];
      assert (xs + ys)[1..] == xs[1..] + ys;
      RunConcat(Step(out, xs[0]), xs[1..], ys);
    }
  }

  /** Successive writes accumulate in call order after the old contents. */
  lemma {:induction false} WritesAccumulate(out: string, ss: seq<string>)
    ensures Run(out, Writes(ss)) == out + Concat(ss)
    decreases |ss|
  {
    if ss != [] {
      var ops := Writes(ss);
      assert ops[0] == Write(ss[0]);
      assert ops[1..] == Writes(ss[1..]);
      WritesAccumulate(out + ss[0], ss[1..]);
    }
  }

  /** A run of write and writeLineBreak calls adds the same text whatever the buffer held before. */
  lemma {:induction false} AppendsAddSameText(out: string, ops: seq<Op>)
    requires AllAppend(ops)
    ensures Run(out, ops) == out + Run("", ops)
    decreases |ops|
  {
    if ops != [] {
      var added, rest := Step("", ops[0]), ops[1..];
      assert Appends(ops[0]);
      assert Step(out, ops[0]) == out + added;
      assert Run(out, ops) == Run(out + added, rest);
      assert Run("", ops) == Run(added, rest) by {
        assert Step("", ops[0]) == added;
      }
      AppendsAddSameText(out + added, rest);
      AppendsAddSameText(added, rest);
      assert (out + added) + Run("", rest) == out + (added + Run("", rest));
    }
  }

  /** Under write and writeLineBreak calls the old contents survive as a prefix. */
  lemma AppendsKeepPrefix(out: string, ops: seq<Op>)
    requires AllAppend(ops)
    ensures out <= Run(out, ops)
  {
    AppendsAddSameText(out, ops);
    var r := Run(out, ops);
    assert r[..|out|] == out;
  }

  /**
   After a setter or clearOutput call at position k, the contents depend only
   on that call and the ones after it: everything before is forgotten.
   */
  lemma ResetForgets(out: string, ops: seq<Op>, k: nat)
    requires k < |ops| && Resets(ops[k])
    ensures Run(out, ops) == Run(Step("", ops[k]), ops[k + 1..])
  {
    var tail := ops[k..];
    assert ops == ops[..k] + tail;
    RunConcat(out, ops[..k], tail);
    assert tail[0] == ops[k];
    assert tail[1..] == ops[k + 1..];
  }

  /** Any two starting contents give the same result once a reset has happened. */
  lemma ResetForgetsStart(out1: string, out2: string, ops: seq<Op>, k: nat)
    requires k < |ops| && Resets(ops[k])
    ensures Run(out1, ops) == Run(out2, ops)
  {
    ResetForgets(out1, ops, k);
    ResetForgets(out2, ops, k);
  }

  /** clearOutput empties the buffer whatever came before it. */
  lemma ClearEmpties(out: string, ops: seq<Op>)
    ensures Run(out, ops + [Clear]) == ""
  {
    RunConcat(out, ops, [Clear]);
  }

  /** Setting `output` to v and reading it back gives v whatever came before. */
  lemma AssignThenRead(out: string, ops: seq<Op>, v: string)
    ensures Run(out, ops + [Assign(v)]) == v
  {
    RunConcat(out, ops, [Assign(v)]);
  }

  /** Calling clearOutput twice in a row is the same as calling it once, in any context. */
  lemma ClearIdempotent(out: string, xs: seq<Op>, ys: seq<Op>)
    ensures Run(out, xs + [Clear, Clear] + ys) == Run(out, xs + [Clear] + ys)
  {
    assert xs + [Clear, Clear] + ys == xs + ([Clear, Clear] + ys);
    assert xs + [Clear] + ys == xs + ([Clear] + ys);
    RunConcat(out, xs, [Clear, Clear] + ys);
    RunConcat(out, xs, [Clear] + ys);
    assert ([Clear, Clear] + ys)[1..] == [Clear] + ys;
    assert ([Clear] + ys)[1..] == ys;
  }

  /** write("") leaves the buffer unchanged, in any context. */
  lemma EmptyWriteIsNoop(out: string, xs: seq<Op>, ys: seq<Op>)
    ensures Run(out, xs + [Write("")] + ys) == Run(out, xs + ys)
  {
    assert xs + [Write("")] + ys == xs + ([Write("")] + ys);
    RunConcat(out, xs, [Write("")] + ys);
    RunConcat(out, xs, ys);
    assert ([Write("")] + ys)[1..] == ys;
    assert Run(out, xs) + "" == Run(out, xs);
  }

  /** clearOutput followed by writes leaves exactly the written text. */
  lemma ClearThenWrites(out: string, ss: seq<string>)
    ensures Run(out, [Clear] + Writes(ss)) == Concat(ss)
  {
    assert ([Clear] + Writes(ss))[1..] == Writes(ss);
    WritesAccumulate("", ss);
  }

  /** writeLineBreak is write("\n"): replacing every one of them changes no result. */
  lemma {:induction false} LineBreakIsWriteNewline(out: string, ops: seq<Op>)
    ensures Run(out, ops) == Run(out, Lowered(ops))
    decreases |ops|
  {
    if ops != [] {
      var low := Lowered(ops);
      assert low[1..] == Lowered(ops[1..]);
      assert Step(out, ops[0]) == Step(out, low[0]);
      LineBreakIsWriteNewline(Step(out, ops[0]), ops[1..]);
    }
  }
}
