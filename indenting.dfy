/** An indenting line sink. Text is appended to the line in progress; the
    line's indentation level is fixed by the first write on it; ending a
    line on which nothing was written gives an empty line with no
    indentation. Indentation is kept as a level per line; the indent string
    itself is configuration and is not modelled. */
module Indenting {

  /** A finished output line: its indentation level and its text. */
  datatype Line = Line(indent: nat, text: string)

  /** One step a helper outside the writer performs on the sink. */
  datatype SinkOp = Write(text: string) | EndLine

  /** The value held by the sink. `atLineStart` is true while nothing has
      been written on the line in progress; `currentIndent` is that line's
      level once something has been. */
  datatype Sink = Sink(lines: seq<Line>, current: string, currentIndent: nat, atLineStart: bool, level: nat)
  {
    ghost predicate Valid()
    {
      atLineStart ==> current == ""
    }

    /** The line in progress sits at the current level, or will once
        something is written on it. */
    ghost predicate Aligned()
    {
      atLineStart || currentIndent == level
    }

    /** The level the line in progress has, or will have. */
    function IndentOf(): nat
    {
      if atLineStart then level else currentIndent
    }

    function Print(s: string): Sink
    {
      this.(current := current + s, currentIndent := IndentOf(), atLineStart := false)
    }

    function NewLine(): Sink
    {
      this.(lines := lines + [Line(if atLineStart then 0 else currentIndent, current)],
            current := "", atLineStart := true)
    }

    function Println(s: string): Sink
    {
      Print(s).NewLine()
    }

    function Indent(): Sink
    {
      this.(level := level + 1)
    }

    function Outdent(): Sink
      requires level > 0
    {
      this.(level := level - 1)
    }

    function Step(op: SinkOp): Sink
    {
      match op
      case Write(t) => Print(t)
      case EndLine => NewLine()
    }

    /** The sink after performing `ops` in order. */
    function Apply(ops: seq<SinkOp>): Sink
      decreases |ops|
    {
      if ops == [] then this else Apply(ops[..|ops| - 1]).Step(ops[|ops| - 1])
    }

    /** Everything written so far, without indentation, lines ended by "\n". */
    function Emitted(): string
    {
      LinesText(lines) + current
    }
  }

  function LinesText(ls: seq<Line>): string
    decreases |ls|
  {
    if ls == [] then "" else LinesText(ls[..|ls| - 1]) + ls[|ls| - 1].text + "\n"
  }

  /** Text written by a sequence of sink steps. */
  function OpsText(ops: seq<SinkOp>): string
    decreases |ops|
  {
    if ops == [] then ""
    else OpsText(ops[..|ops| - 1]) + (match ops[|ops| - 1] case Write(t) => t case EndLine => "\n")
  }

  /** Performing steps keeps the level, keeps the finished lines as a
      prefix, and keeps the sink valid and aligned. */
  lemma {:induction false} ApplyPreserves(w: Sink, ops: seq<SinkOp>)
    requires w.Valid()
    ensures var r := w.Apply(ops);
      r.Valid() && r.level == w.level && w.lines <= r.lines && (w.Aligned() ==> r.Aligned())
    decreases |ops|
  {
    if ops != [] {
      ApplyPreserves(w, ops[..|ops| - 1]);
    }
  }

  /** Performing steps adds exactly their text to what was emitted. */
  lemma {:induction false} ApplyEmitted(w: Sink, ops: seq<SinkOp>)
    ensures w.Apply(ops).Emitted() == w.Emitted() + OpsText(ops)
    decreases |ops|
  {
    if ops == [] {
      assert w.Emitted() + "" == w.Emitted();
    } else {
      var p := w.Apply(ops[..|ops| - 1]);
      ApplyEmitted(w, ops[..|ops| - 1]);
      match ops[|ops| - 1]
      case Write(t) =>
        PrintEmitted(p, t);
      case EndLine =>
        NewLineEmitted(p);
    }
  }

  lemma PrintEmitted(w: Sink, s: string)
    ensures w.Print(s).Emitted() == w.Emitted() + s
  {
    assert LinesText(w.lines) + (w.current + s) == LinesText(w.lines) + w.current + s;
  }

  lemma NewLineEmitted(w: Sink)
    ensures w.NewLine().Emitted() == w.Emitted() + "\n"
  {
    var ls := w.NewLine().lines;
    assert ls[..|ls| - 1] == w.lines;
  }

  /** The sink as an object: its fields are updated in place by
      the writer's print and println calls and by the indented block. */
  class IndentingWriter {
    var lines: seq<Line>
    var current: string
    var currentIndent: nat
    var atLineStart: bool
    var level: nat

    function State(): Sink
      reads this
    {
      Sink(lines, current, currentIndent, atLineStart, level)
    }

    ghost predicate Valid()
      reads this
    {
      State().Valid()
    }

    constructor ()
      ensures Valid()
      ensures State() == Sink([], "", 0, true, 0)
    {
      lines, current, currentIndent, atLineStart, level := [], "", 0, true, 0;
    }

    /** Appends `s` to the line in progress; the first write on a line fixes
        its indentation at the current level. */
    method Print(s: string)
      requires Valid()
      modifies this
      ensures Valid()
      ensures State() == old(State()).Print(s)
    {
      if atLineStart {
        currentIndent := level;
        atLineStart := false;
      }
      current := current + s;
    }

    /** Ends the line in progress. */
    method NewLine()
      requires Valid()
      modifies this
      ensures Valid()
      ensures State() == old(State()).NewLine()
    {
      lines := lines + [Line(if atLineStart then 0 else currentIndent, current)];
      current := "";
      atLineStart := true;
    }

    method Println(s: string)
      requires Valid()
      modifies this
      ensures Valid()
      ensures State() == old(State()).Println(s)
    {
      Print(s);
      NewLine();
    }

    /** Entering an indented block. */
    method Indent()
      requires Valid()
      modifies this
      ensures Valid()
      ensures State() == old(State()).Indent()
    {
      level := level + 1;
    }

    /** Leaving an indented block; only ever done after entering one. */
    method Outdent()
      requires Valid()
      requires level > 0
      modifies this
      ensures Valid()
      ensures State() == old(State()).Outdent()
    {
      level := level - 1;
    }
  }
}
