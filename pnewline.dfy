// The indenting printer (pnewline.go): output on one line until a
// `Newline` call, which writes line breaks and changes the indentation
// level; the indentation itself is written lazily, by the next call that
// writes something.
module Indenting {
  import opened Common
  import opened Write
  import opened Printer
  import Sp = ScanSpec

  /**
   * The state of an `IndentingPrinter`: the indent unit, the closers owed,
   * the indentation level, whether indentation is pending, whether a
   * separator is pending, and the output.
   */
  datatype IndState = IndState(indent: string, nest: seq<char>, indlvl: int, needind: bool, needsep: bool, out: string)

  /** `Indenting(wr, indent)`: nothing owed, level 0, nothing pending, nothing written. */
  function Fresh(indent: string): IndState
  {
    IndState(indent, [], 0, false, false, [])
  }

  /** The indentation `doIndent` writes: `indlvl` units if indentation is pending. */
  function Pending(p: IndState): string
  {
    if p.needind then Repeat(p.indent, p.indlvl) else ""
  }

  /** `doIndent`: write the pending indentation, once. */
  function DoIndentStep(p: IndState): (r: IndState)
    ensures !r.needind && r.out == p.out + Pending(p)
    ensures r.(needind := p.needind, out := p.out) == p
  {
    p.(needind := false, out := p.out + Pending(p))
  }

  /** The separator `Begin` and `Atom` write. */
  function Sep(p: IndState): string
  {
    if p.needsep then " " else ""
  }

  /**
   * `Begin`: indentation, the pending separator (which is then cleared), the
   * meta prefix; then the bracket's low byte is checked and written, and the
   * closer pushed. A rejected bracket leaves the stack alone but not the output.
   */
  function BeginStep(p: IndState, bracket: char, meta: bool): (r: (IndState, Option<PrintError>))
  {
    var q := DoIndentStep(p);
    var out1 := q.out + Sep(p) + (if meta then MetaStr else "");
    if Sp.IsOpen(LowByte(bracket)) then
      (q.(needsep := false, nest := p.nest + [ClosingRune(bracket)], out := out1 + [CharOf(LowByte(bracket))]), None)
    else
      (q.(needsep := false, out := out1), Some(IllegalBracket(bracket)))
  }

  /**
   * `End`: indentation, then pop and write the closer and ask for a separator.
   * pnewline.go has no guard for an empty stack; the Go index panic is the
   * error `EmptyNest`, after the indentation was written.
   */
  function EndStep(p: IndState): (r: (IndState, Option<PrintError>))
  {
    var q := DoIndentStep(p);
    if |q.nest| == 0 then (q, Some(EmptyNest))
    else (q.(nest := q.nest[..|q.nest| - 1], out := q.out + [q.nest[|q.nest| - 1]], needsep := true), None)
  }

  /** `Atom`: indentation, the pending separator, the atom; a separator is pending afterwards. */
  function AtomStep(p: IndState, atom: string, meta: bool, quote: int): (r: (IndState, Option<PrintError>))
  {
    var q := DoIndentStep(p);
    (q.(needsep := true, out := q.out + Sep(p) + AtomText(atom, meta, quote)), None)
  }

  /** `Newline`: `count` line breaks, the level moved by `indent`, indentation pending, no separator. */
  function NewlineStep(p: IndState, count: int, indent: int): (r: (IndState, Option<PrintError>))
  {
    (p.(out := p.out + Repeat("\n", count), indlvl := p.indlvl + indent, needind := true, needsep := false), None)
  }

  /** One printer call. */
  function Step(p: IndState, c: Call): (IndState, Option<PrintError>)
  {
    match c
    case Begin(b, m) => BeginStep(p, b, m)
    case End => EndStep(p)
    case Atom(a, m, q) => AtomStep(p, a, m, q)
    case Newline(n, d) => NewlineStep(p, n, d)
  }

  /** The stack holds closing brackets only. */
  predicate Valid(p: IndState)
  {
    forall i :: 0 <= i < |p.nest| ==> IsCloser(p.nest[i])
  }

  /**
   * Every call keeps the stack made of closers and the indent unit, only
   * appends to the output, changes the depth by one exactly on a successful
   * `Begin` or `End`, and changes the level only on `Newline`.
   */
  lemma StepInvariant(p: IndState, c: Call)
    requires Valid(p)
    ensures var (q, err) := Step(p, c);
      Valid(q) && p.out <= q.out && q.indent == p.indent &&
      |q.nest| == |p.nest| + (if err.None? && c.Begin? then 1 else 0) - (if err.None? && c.End? then 1 else 0) &&
      q.indlvl == p.indlvl + (if c.Newline? then c.indent else 0)
  {
    var (q, err) := Step(p, c);
    match c
    case Begin(b, m) =>
      assert Sp.IsOpen(LowByte(b)) ==> IsCloser(ClosingRune(b));
      assert forall i :: 0 <= i < |p.nest| ==> q.nest[i] == p.nest[i];
    case End =>
      assert forall i :: 0 <= i < |q.nest| ==> q.nest[i] == p.nest[i];
    case Atom(_, _, _) =>
    case Newline(_, _) =>
  }

  /**
   * `Begin` accepts a rune exactly when its low byte is `(`, `[` or `{`; it
   * then writes that byte and owes its closer, so U+0128 opens like `(`.
   */
  lemma BeginAccepts(p: IndState, bracket: char, meta: bool)
    ensures var (q, err) := BeginStep(p, bracket, meta);
      (err.None? <==> Sp.IsOpen(LowByte(bracket))) &&
      (err.None? ==> q.out[|q.out| - 1] == CharOf(LowByte(bracket)) && q.nest == p.nest + [ClosingRune(bracket)]) &&
      (err.Some? ==> q.nest == p.nest && err == Some(IllegalBracket(bracket)))
  {
  }

  /** U+0128 is written as `(` and closed by `)`. */
  lemma BeginTruncates(p: IndState)
    ensures BeginStep(p, 0x128 as char, false) ==
      (p.(needind := false, needsep := false, nest := p.nest + [')'], out := p.out + Pending(p) + Sep(p) + "("), None)
  {
    assert LowByte(0x128 as char) == LPAREN;
    assert CharOf(LPAREN) == '(';
    assert ClosingRune(0x128 as char) == ')';
    var q := DoIndentStep(p);
    assert q.out + Sep(p) + "" + ['('] == p.out + Pending(p) + Sep(p) + "(";
  }

  /** `End` on an empty stack writes the pending indentation and fails. */
  lemma EndOnEmpty(p: IndState)
    requires p.nest == []
    ensures EndStep(p) == (DoIndentStep(p), Some(EmptyNest))
  {
  }

  /**
   * Indentation is written once: a call other than `Newline` writes the
   * pending indentation first and leaves none pending.
   */
  lemma IndentOnce(p: IndState, c: Call)
    requires !c.Newline?
    ensures var q := Step(p, c).0;
      !q.needind && p.out + Pending(p) <= q.out
  {
  }

  /**
   * With no indentation pending, what a call writes does not depend on the
   * level or the indent unit.
   */
  lemma NoPendingIndent(p: IndState, c: Call, level: int, unit: string)
    requires !p.needind && !c.Newline?
    ensures Step(p.(indlvl := level, indent := unit), c).0.out == Step(p, c).0.out
  {
  }

  /** After a successful call a separator is pending exactly when the call was an `Atom` or an `End`. */
  lemma SepPendingAfter(p: IndState, c: Call)
    requires Step(p, c).1.None?
    ensures Step(p, c).0.needsep <==> c.Atom? || c.End?
  {
  }

  /** `Atom` writes the pending separator, then the atom. */
  lemma AtomSep(q: IndState, atom: string, meta: bool, quote: int)
    requires !q.needind
    ensures var t := AtomText(atom, meta, quote);
      AtomStep(q, atom, meta, quote).0.out == q.out + Sep(q) + t &&
      AtomStep(q.(needsep := false), atom, meta, quote).0.out[|q.out|..] == t
  {
    var t := AtomText(atom, meta, quote);
    assert Pending(q) == "" && Pending(q.(needsep := false)) == "";
    assert (q.out + "" + t)[|q.out|..] == t;
  }

  /** `Begin` writes the pending separator, then the meta prefix and the bracket. */
  lemma BeginSep(q: IndState, bracket: char, meta: bool)
    requires !q.needind
    ensures var t := (if meta then MetaStr else "") + (if Sp.IsOpen(LowByte(bracket)) then [CharOf(LowByte(bracket))] else "");
      BeginStep(q, bracket, meta).0.out == q.out + Sep(q) + t &&
      BeginStep(q.(needsep := false), bracket, meta).0.out[|q.out|..] == t
  {
    var t := (if meta then MetaStr else "") + (if Sp.IsOpen(LowByte(bracket)) then [CharOf(LowByte(bracket))] else "");
    assert Pending(q) == "" && Pending(q.(needsep := false)) == "";
    assert BeginStep(q.(needsep := false), bracket, meta).0.out == q.out + t;
    assert (q.out + t)[|q.out|..] == t;
  }

  /** `Atom` and `Begin` write the pending separator, and otherwise what they write without one. */
  lemma SepWritten(q: IndState, c: Call)
    requires !q.needind && (c.Atom? || c.Begin?)
    ensures Step(q, c).0.out == q.out + Sep(q) + Step(q.(needsep := false), c).0.out[|q.out|..]
  {
    match c
    case Atom(a, m, qm) => AtomSep(q, a, m, qm);
    case Begin(b, m) => BeginSep(q, b, m);
  }

  /**
   * A separator goes between two atoms, and between an `End` and a following
   * `Atom` or `Begin`, and nowhere else: not after `Begin`, and never before
   * `End` (which writes its closer right after the indentation).
   */
  lemma Separators(p: IndState, c1: Call, c2: Call)
    requires Step(p, c1).1.None? && (c2.Atom? || c2.Begin?)
    ensures var q := Step(p, c1).0;
      !q.needind ==>
        Step(q, c2).0.out ==
          q.out + (if c1.Atom? || c1.End? then " " else "") + Step(q.(needsep := false), c2).0.out[|q.out|..]
  {
    var q := Step(p, c1).0;
    SepPendingAfter(p, c1);
    if !q.needind {
      SepWritten(q, c2);
    }
  }

  /** `End` never writes a separator: after the indentation comes the closer. */
  lemma EndWritesCloser(p: IndState)
    requires |p.nest| > 0
    ensures EndStep(p).0.out == p.out + Pending(p) + [p.nest[|p.nest| - 1]]
  {
  }

  /**
   * A `Newline(count, d)` followed by an atom: `count` line breaks, the
   * indentation of the new level, then the atom with no separator.
   */
  lemma NewlineThenAtom(p: IndState, count: int, d: int, atom: string, meta: bool, quote: int)
    ensures var q := NewlineStep(p, count, d).0;
      AtomStep(q, atom, meta, quote).0.out ==
        p.out + Repeat("\n", count) + Repeat(p.indent, p.indlvl + d) + AtomText(atom, meta, quote)
  {
  }

  /** Running a list of calls, errors ignored. */
  function Run(p: IndState, calls: seq<Call>): IndState
    decreases calls
  {
    if calls == [] then p else Run(Step(p, calls[0]).0, calls[1..])
  }

  /** A run keeps the state valid and the indent unit, and only appends to the output. */
  lemma {:induction false} RunInvariant(p: IndState, calls: seq<Call>)
    requires Valid(p)
    ensures Valid(Run(p, calls)) && p.out <= Run(p, calls).out && Run(p, calls).indent == p.indent
    decreases calls
  {
    if calls != [] {
      StepInvariant(p, calls[0]);
      RunInvariant(Step(p, calls[0]).0, calls[1..]);
    }
  }

  // The steps of the write_test.go example, one lemma each.

  lemma ExampleOpenStep()
    ensures Step(IndState("  ", [], 0, false, false, ""), ItemCall(B('('))) ==
      (IndState("  ", [')'], 0, false, false, "("), None)
  {
    var r := BeginStep(IndState("  ", [], 0, false, false, ""), '(', false);
    assert r.0.nest == [')'] && r.0.out == "(";
  }

  lemma ExampleFooStep()
    ensures Step(IndState("  ", [')'], 0, false, false, "("), ItemCall(Str("foo"))) ==
      (IndState("  ", [')'], 0, false, true, "(foo"), None)
  {
    WordText("foo", false);
    var r := AtomStep(IndState("  ", [')'], 0, false, false, "("), "foo", false, Qcond);
    assert r.0.out == "(foo";
  }

  lemma ExampleBreakStep()
    ensures Step(IndState("  ", [')'], 0, false, true, "(foo"), ItemCall(Nl(1, 1))) ==
      (IndState("  ", [')'], 1, true, false, "(foo\n"), None)
  {
    assert Repeat("\n", 1) == "\n";
    var r := NewlineStep(IndState("  ", [')'], 0, false, true, "(foo"), 1, 1);
    assert r.0.out == "(foo\n";
  }

  lemma ExampleMetaOpenStep()
    ensures Step(IndState("  ", [')'], 1, true, false, "(foo\n"), ItemCall(Bm('{'))) ==
      (IndState("  ", [')', '}'], 1, false, false, "(foo\n  \\{"), None)
  {
    assert Repeat("  ", 1) == "  ";
    var r := BeginStep(IndState("  ", [')'], 1, true, false, "(foo\n"), '{', true);
    assert r.0.nest == [')', '}'] && r.0.out == "(foo\n  \\{";
  }

  lemma ExampleBarStep()
    ensures Step(IndState("  ", [')', '}'], 1, false, false, "(foo\n  \\{"), ItemCall(Str("bar"))) ==
      (IndState("  ", [')', '}'], 1, false, true, "(foo\n  \\{bar"), None)
  {
    WordText("bar", false);
    var r := AtomStep(IndState("  ", [')', '}'], 1, false, false, "(foo\n  \\{"), "bar", false, Qcond);
    assert r.0.out == "(foo\n  \\{bar";
  }

  lemma ExampleNumberStep()
    ensures Step(IndState("  ", [')', '}'], 1, false, true, "(foo\n  \\{bar"), ItemCall(Scalar("4711"))) ==
      (IndState("  ", [')', '}'], 1, false, true, "(foo\n  \\{bar 4711"), None)
  {
    var r := AtomStep(IndState("  ", [')', '}'], 1, false, true, "(foo\n  \\{bar"), "4711", false, QSUPPRESS);
    assert r.0.out == "(foo\n  \\{bar 4711";
  }

  lemma ExampleCloseStep()
    ensures Step(IndState("  ", [')', '}'], 1, false, true, "(foo\n  \\{bar 4711"), ItemCall(EndItem)) ==
      (IndState("  ", [')'], 1, false, true, "(foo\n  \\{bar 4711}"), None)
  {
    var r := EndStep(IndState("  ", [')', '}'], 1, false, true, "(foo\n  \\{bar 4711"));
    assert r.0.nest == [')'] && r.0.out == "(foo\n  \\{bar 4711}";
  }

  lemma ExampleUnbreakStep()
    ensures Step(IndState("  ", [')'], 1, false, true, "(foo\n  \\{bar 4711}"), ItemCall(Nl(1, -1))) ==
      (IndState("  ", [')'], 0, true, false, "(foo\n  \\{bar 4711}\n"), None)
  {
    assert Repeat("\n", 1) == "\n";
    var r := NewlineStep(IndState("  ", [')'], 1, false, true, "(foo\n  \\{bar 4711}"), 1, -1);
    assert r.0.out == "(foo\n  \\{bar 4711}\n";
  }

  lemma ExampleCloseLastStep()
    ensures Step(IndState("  ", [')'], 0, true, false, "(foo\n  \\{bar 4711}\n"), ItemCall(EndItem)) ==
      (IndState("  ", [], 0, false, true, "(foo\n  \\{bar 4711}\n)"), None)
  {
    assert Repeat("  ", 0) == "";
    var r := EndStep(IndState("  ", [')'], 0, true, false, "(foo\n  \\{bar 4711}\n"));
    assert r.0.nest == [] && r.0.out == "(foo\n  \\{bar 4711}\n)";
  }

  /** The items of the write_test.go example. */
  const ExampleItems: seq<Item> := [B('('), Str("foo"), Nl(1, 1), Bm('{'), Str("bar"), Scalar("4711"), EndItem, Nl(1, -1), EndItem]

  /** The example from its fourth item on. */
  lemma ExamplePrintTail()
    ensures Print(Step, IndState("  ", [')', '}'], 1, false, false, "(foo\n  \\{"), ExampleItems[4..]) == (IndState("  ", [], 0, false, true, "(foo\n  \\{bar 4711}\n)"), 5, None)
  {
    assert ExampleItems[9..] == [];
    ExampleBarStep();
    ExampleNumberStep();
    ExampleCloseStep();
    ExampleUnbreakStep();
    ExampleCloseLastStep();
    assert Print(Step, IndState("  ", [')'], 0, true, false, "(foo\n  \\{bar 4711}\n"), ExampleItems[8..]) == (IndState("  ", [], 0, false, true, "(foo\n  \\{bar 4711}\n)"), 1, None) by {
      assert ExampleItems[8..][0] == ExampleItems[8];
      assert ExampleItems[8..][1..] == ExampleItems[9..];
    }
    assert Print(Step, IndState("  ", [')'], 1, false, true, "(foo\n  \\{bar 4711}"), ExampleItems[7..]) == (IndState("  ", [], 0, false, true, "(foo\n  \\{bar 4711}\n)"), 2, None) by {
      assert ExampleItems[7..][0] == ExampleItems[7];
      assert ExampleItems[7..][1..] == ExampleItems[8..];
    }
    assert Print(Step, IndState("  ", [')', '}'], 1, false, true, "(foo\n  \\{bar 4711"), ExampleItems[6..]) == (IndState("  ", [], 0, false, true, "(foo\n  \\{bar 4711}\n)"), 3, None) by {
      assert ExampleItems[6..][0] == ExampleItems[6];
      assert ExampleItems[6..][1..] == ExampleItems[7..];
    }
    assert Print(Step, IndState("  ", [')', '}'], 1, false, true, "(foo\n  \\{bar"), ExampleItems[5..]) == (IndState("  ", [], 0, false, true, "(foo\n  \\{bar 4711}\n)"), 4, None) by {
      assert ExampleItems[5..][0] == ExampleItems[5];
      assert ExampleItems[5..][1..] == ExampleItems[6..];
    }
    assert Print(Step, IndState("  ", [')', '}'], 1, false, false, "(foo\n  \\{"), ExampleItems[4..]) == (IndState("  ", [], 0, false, true, "(foo\n  \\{bar 4711}\n)"), 5, None) by {
      assert ExampleItems[4..][0] == ExampleItems[4];
      assert ExampleItems[4..][1..] == ExampleItems[5..];
    }
  }

  /** write_test.go: `Print` of the example items on an `Indenting` printer with a two-space unit. */
  lemma ExamplePrint()
    ensures Print(Step, Fresh("  "), ExampleItems) == (IndState("  ", [], 0, false, true, "(foo\n  \\{bar 4711}\n)"), 9, None)
    ensures Print(Step, Fresh("  "), ExampleItems).0.out == "(foo\n  \\{bar 4711}\n)"
  {
    ExamplePrintTail();
    ExampleMetaOpenStep();
    ExampleOpenStep();
    ExampleFooStep();
    ExampleBreakStep();
    assert Print(Step, IndState("  ", [')'], 1, true, false, "(foo\n"), ExampleItems[3..]) == (IndState("  ", [], 0, false, true, "(foo\n  \\{bar 4711}\n)"), 6, None) by {
      assert ExampleItems[3..][0] == ExampleItems[3];
      assert ExampleItems[3..][1..] == ExampleItems[4..];
    }
    assert Print(Step, IndState("  ", [')'], 0, false, true, "(foo"), ExampleItems[2..]) == (IndState("  ", [], 0, false, true, "(foo\n  \\{bar 4711}\n)"), 7, None) by {
      assert ExampleItems[2..][0] == ExampleItems[2];
      assert ExampleItems[2..][1..] == ExampleItems[3..];
    }
    assert Print(Step, IndState("  ", [')'], 0, false, false, "("), ExampleItems[1..]) == (IndState("  ", [], 0, false, true, "(foo\n  \\{bar 4711}\n)"), 8, None) by {
      assert ExampleItems[1..][0] == ExampleItems[1];
      assert ExampleItems[1..][1..] == ExampleItems[2..];
    }
    assert Print(Step, IndState("  ", [], 0, false, false, ""), ExampleItems[0..]) == (IndState("  ", [], 0, false, true, "(foo\n  \\{bar 4711}\n)"), 9, None) by {
      assert ExampleItems[0..][0] == ExampleItems[0];
      assert ExampleItems[0..][1..] == ExampleItems[1..];
    }
    assert ExampleItems[0..] == ExampleItems;
  }

  /** `IndentingPrinter`: the output is the field `out` (the writer never fails). */
  class IndentingPrinter {
    var indent: string
    var nest: seq<char>
    var indlvl: int
    var needind: bool
    var needsep: bool
    var out: string

    function State(): IndState
      reads this
    {
      IndState(indent, nest, indlvl, needind, needsep, out)
    }

    /** `Indenting(wr, indent)`. */
    constructor (indent: string)
      ensures State() == Fresh(indent)
    {
      this.indent := indent;
      nest := [];
      indlvl := 0;
      needind := false;
      needsep := false;
      out := [];
    }

    /** `doIndent`: the counting loop writing `indlvl` units. */
    method DoIndent()
      modifies this
      ensures State() == DoIndentStep(old(State()))
    {
      if needind {
        var i := 0;
        while i < indlvl
          invariant 0 <= i && (if indlvl > 0 then i <= indlvl else i == 0)
          invariant out == old(out) + Repeat(indent, i)
          invariant State().(out := old(out)) == old(State())
          decreases indlvl - i
        {
          out := out + indent;
          i := i + 1;
          assert Repeat(indent, i) == Repeat(indent, i - 1) + indent;
        }
        assert Repeat(indent, i) == Repeat(indent, indlvl);
        needind := false;
      } else {
        assert out + "" == out;
      }
    }

    method Begin(bracket: char, meta: bool) returns (err: Option<PrintError>)
      modifies this
      ensures (State(), err) == BeginStep(old(State()), bracket, meta)
    {
      DoIndent();
      ghost var sep := Sep(old(State()));
      if needsep {
        out := out + " ";
        needsep := false;
      } else {
        assert out + "" == out;
      }
      assert out == DoIndentStep(old(State())).out + sep;
      if meta {
        out := out + MetaStr;
      } else {
        assert out + "" == out;
      }
      var low := LowByte(bracket);
      if low == LPAREN || low == LSQUARE || low == LCURLY {
        out := out + [CharOf(low)];
        nest := nest + [ClosingRune(bracket)];
      } else {
        return Some(IllegalBracket(bracket));
      }
      return None;
    }

    method End() returns (err: Option<PrintError>)
      modifies this
      ensures (State(), err) == EndStep(old(State()))
    {
      DoIndent();
      if |nest| == 0 {
        return Some(EmptyNest);
      }
      var b := nest[|nest| - 1];
      nest := nest[..|nest| - 1];
      out := out + [b];
      needsep := true;
      return None;
    }

    method Atom(atom: string, meta: bool, quote: int) returns (err: Option<PrintError>)
      modifies this
      ensures (State(), err) == AtomStep(old(State()), atom, meta, quote)
    {
      DoIndent();
      if needsep {
        out := out + " ";
      } else {
        assert out + "" == out;
        needsep := true;
      }
      out := out + AtomText(atom, meta, quote);
      return None;
    }

    /** `Newline`: the counting loop writing `count` line breaks, then the level and the flags. */
    method Newline(count: int, indent: int) returns (err: Option<PrintError>)
      modifies this
      ensures (State(), err) == NewlineStep(old(State()), count, indent)
    {
      var k := count;
      assert old(out) + Repeat("\n", 0) == old(out);
      while k > 0
        invariant (count > 0 ==> 0 <= k <= count) && (count <= 0 ==> k == count)
        invariant out == old(out) + Repeat("\n", count - k)
        invariant State().(out := old(out)) == old(State())
      {
        out := out + "\n";
        k := k - 1;
        assert Repeat("\n", count - k) == Repeat("\n", count - k - 1) + "\n";
      }
      indlvl := indlvl + indent;
      needind := true;
      needsep := false;
      return None;
    }
  }
}
