// The pretty printer (ppretty.go): one item per line, each line indented
// by the nesting depth; a stack of the closers still owed and a level that
// moves with it.
module Pretty {
  import opened Common
  import opened Write
  import opened Printer

  /** The state of a `PrettyPrinter`: the indent unit, the level, the closers owed, the output. */
  datatype PrettyState = PrettyState(istr: string, ilvl: int, ends: seq<char>, out: string)

  /** `Pretty(wr, indent)`: level 0, nothing owed, nothing written. */
  function Fresh(indent: string): PrettyState
  {
    PrettyState(indent, 0, [], [])
  }

  /** The line `indent` starts: `ilvl` units (none when the level is not positive). */
  function Margin(p: PrettyState): string
  {
    Repeat(p.istr, p.ilvl)
  }

  /**
   * `Begin`: a line with the margin, the meta prefix and the bracket; then
   * one level deeper, owing `closingRune` of the bracket. The bracket is not
   * checked: anything else is written and owes `NoRune`.
   */
  function BeginStep(p: PrettyState, bracket: char, meta: bool): (r: (PrettyState, Option<PrintError>))
  {
    (PrettyState(p.istr, p.ilvl + 1, p.ends + [ClosingRune(bracket)],
                 p.out + Margin(p) + (if meta then MetaStr else "") + [bracket] + "\n"), None)
  }

  /**
   * `End`: with nothing owed, the error "nothing to end" and no change;
   * otherwise one level up and a line with the margin and the closer.
   */
  function EndStep(p: PrettyState): (r: (PrettyState, Option<PrintError>))
  {
    if |p.ends| == 0 then (p, Some(NothingToEnd))
    else
      var q := p.(ilvl := p.ilvl - 1, ends := p.ends[..|p.ends| - 1]);
      (q.(out := p.out + Margin(q) + [p.ends[|p.ends| - 1]] + "\n"), None)
  }

  /** `Atom`: a line with the margin and the atom as `printAtom` writes it. */
  function AtomStep(p: PrettyState, atom: string, meta: bool, quote: int): (r: (PrettyState, Option<PrintError>))
  {
    (p.(out := p.out + Margin(p) + AtomText(atom, meta, quote) + "\n"), None)
  }

  /** One printer call; `Newline` does nothing. */
  function Step(p: PrettyState, c: Call): (PrettyState, Option<PrintError>)
  {
    match c
    case Begin(b, m) => BeginStep(p, b, m)
    case End => EndStep(p)
    case Atom(a, m, q) => AtomStep(p, a, m, q)
    case Newline(_, _) => (p, None)
  }

  /** The level is the number of closers owed. */
  predicate Valid(p: PrettyState)
  {
    p.ilvl == |p.ends|
  }

  /** A fresh printer is valid. */
  lemma FreshValid(indent: string)
    ensures Valid(Fresh(indent)) && Fresh(indent).out == []
  {
  }

  /**
   * Every call keeps the level equal to the number of closers owed, keeps
   * the indent unit and only appends to the output; the depth grows on
   * `Begin`, shrinks on a successful `End`, and `End` fails exactly when
   * nothing is owed, changing nothing.
   */
  lemma StepInvariant(p: PrettyState, c: Call)
    requires Valid(p)
    ensures var (q, err) := Step(p, c);
      Valid(q) && p.out <= q.out && q.istr == p.istr &&
      |q.ends| == |p.ends| + (if c.Begin? then 1 else 0) - (if err.None? && c.End? then 1 else 0) &&
      (err.Some? <==> c.End? && |p.ends| == 0) &&
      (err.Some? ==> q == p && err == Some(NothingToEnd))
  {
  }

  /** What a call writes after the margin: the bracket, the closer owed last, or the atom. */
  function LineText(p: PrettyState, c: Call): string
    requires !c.Newline?
  {
    match c
    case Begin(b, m) => (if m then MetaStr else "") + [b]
    case End => if |p.ends| == 0 then "" else [p.ends[|p.ends| - 1]]
    case Atom(a, m, qm) => AtomText(a, m, qm)
  }

  /**
   * Every call writes whole lines: `Begin` and `Atom` at the current level,
   * `End` at the level it returns to.
   */
  lemma OneLine(p: PrettyState, c: Call)
    requires Valid(p) && !c.Newline?
    ensures var (q, err) := Step(p, c);
      err.None? ==>
        q.out == p.out + Repeat(p.istr, q.ilvl - (if c.Begin? then 1 else 0)) + LineText(p, c) + "\n"
  {
    var (q, err) := Step(p, c);
    match c
    case Begin(b, m) =>
      var text := (if m then MetaStr else "") + [b];
      assert q.out == p.out + Repeat(p.istr, q.ilvl - 1) + text + "\n";
    case End =>
      if err.None? {
        var text := [p.ends[|p.ends| - 1]];
        assert q.out == p.out + Repeat(p.istr, q.ilvl) + text + "\n";
      }
    case Atom(a, m, qm) =>
      var text := AtomText(a, m, qm);
      assert q.out == p.out + Repeat(p.istr, q.ilvl) + text + "\n";
  }

  /**
   * A `Begin` and the `End` that follows it write their lines at the same
   * margin, the second holding the closer the first owes, and leave the
   * level and the stack as they were.
   */
  lemma BeginThenEnd(p: PrettyState, bracket: char, meta: bool)
    requires Valid(p)
    ensures var q := EndStep(BeginStep(p, bracket, meta).0);
      q.1.None? &&
      q.0 == p.(out := p.out + Margin(p) + (if meta then MetaStr else "") + [bracket] + "\n" +
                       Margin(p) + [ClosingRune(bracket)] + "\n")
  {
    var b := BeginStep(p, bracket, meta).0;
    assert b.ends[..|b.ends| - 1] == p.ends;
    assert b.ends[|b.ends| - 1] == ClosingRune(bracket);
  }

  /** `Begin` checks nothing: `a` is written as it is and owes `NoRune`. */
  lemma BeginUnchecked(p: PrettyState)
    ensures BeginStep(p, 'a', false).0.ends == p.ends + [NoRune]
    ensures BeginStep(p, 'a', false).0.out == p.out + Margin(p) + "a\n"
  {
    assert ClosingRune('a') == NoRune;
  }

  /** `PrettyPrinter`: the output is the field `out` (the writer never fails). */
  class PrettyPrinter {
    var ilvl: int
    var istr: string
    var ends: seq<char>
    var out: string

    function State(): PrettyState
      reads this
    {
      PrettyState(istr, ilvl, ends, out)
    }

    /** `Pretty(wr, indent)`. */
    constructor (indent: string)
      ensures State() == Fresh(indent)
    {
      ilvl := 0;
      istr := indent;
      ends := [];
      out := [];
    }

    /** `indent`: the counting loop from `ilvl` down to 1, one unit each. */
    method Indent()
      modifies this
      ensures State() == old(State()).(out := old(out) + Margin(old(State())))
    {
      var i := ilvl;
      while i > 0
        invariant if ilvl > 0 then 0 <= i <= ilvl else i == ilvl
        invariant out == old(out) + Repeat(istr, ilvl - i)
        invariant State().(out := old(out)) == old(State())
      {
        out := out + istr;
        i := i - 1;
        assert Repeat(istr, ilvl - i) == Repeat(istr, ilvl - i - 1) + istr;
      }
      assert ilvl - i == (if ilvl > 0 then ilvl else 0);
      assert Repeat(istr, ilvl - i) == Repeat(istr, ilvl);
    }

    method Begin(bracket: char, meta: bool) returns (err: Option<PrintError>)
      modifies this
      ensures (State(), err) == BeginStep(old(State()), bracket, meta)
    {
      Indent();
      if meta {
        out := out + MetaStr;
      } else {
        assert out + "" == out;
      }
      out := out + [bracket] + "\n";
      ilvl := ilvl + 1;
      ends := ends + [ClosingRune(bracket)];
      return None;
    }

    method End() returns (err: Option<PrintError>)
      modifies this
      ensures (State(), err) == EndStep(old(State()))
    {
      if |ends| == 0 {
        return Some(NothingToEnd);
      }
      var end := ends[|ends| - 1];
      ends := ends[..|ends| - 1];
      ilvl := ilvl - 1;
      Indent();
      out := out + [end] + "\n";
      return None;
    }

    method Atom(atom: string, meta: bool, quote: int) returns (err: Option<PrintError>)
      modifies this
      ensures (State(), err) == AtomStep(old(State()), atom, meta, quote)
    {
      Indent();
      out := out + AtomText(atom, meta, quote);
      out := out + "\n";
      return None;
    }

    method Newline(count: int, indent: int) returns (err: Option<PrintError>)
      ensures err.None?
    {
      return None;
    }
  }

  // The steps of the ppretty_test.go example, one lemma each.

  lemma ExampleOpenStep()
    ensures BeginStep(PrettyState("  ", 0, [], ""), '(', false) ==
      (PrettyState("  ", 1, [')'], "(\n"), None)
  {
    assert Repeat("  ", 0) == "";
    assert BeginStep(PrettyState("  ", 0, [], ""), '(', false).0.ends == [')'];
    var r := BeginStep(PrettyState("  ", 0, [], ""), '(', false);
    assert r.0.out == "(\n";
  }

  lemma ExampleFooStep()
    ensures AtomStep(PrettyState("  ", 1, [')'], "(\n"), "foo", false, Qcond) ==
      (PrettyState("  ", 1, [')'], "(\n  foo\n"), None)
  {
    assert AtomText("foo", false, Qcond) == "foo" by { WordText("foo", false); }
    assert Repeat("  ", 1) == "  ";
    var r := AtomStep(PrettyState("  ", 1, [')'], "(\n"), "foo", false, Qcond);
    assert r.0.out == "(\n  foo\n";
  }

  lemma ExampleMetaOpenStep()
    ensures BeginStep(PrettyState("  ", 1, [')'], "(\n  foo\n"), '{', true) ==
      (PrettyState("  ", 2, [')', '}'], "(\n  foo\n  \\{\n"), None)
  {
    assert Repeat("  ", 1) == "  ";
    assert BeginStep(PrettyState("  ", 1, [')'], "(\n  foo\n"), '{', true).0.ends == [')', '}'];
    var r := BeginStep(PrettyState("  ", 1, [')'], "(\n  foo\n"), '{', true);
    assert r.0.out == "(\n  foo\n  \\{\n";
  }

  lemma ExampleBarStep()
    ensures AtomStep(PrettyState("  ", 2, [')', '}'], "(\n  foo\n  \\{\n"), "bar", false, Qforce) ==
      (PrettyState("  ", 2, [')', '}'], "(\n  foo\n  \\{\n    \"bar\"\n"), None)
  {
    assert AtomText("bar", false, Qforce) == "\"bar\"" by { WordText("bar", false); }
    assert Repeat("  ", 2) == "    ";
    var r := AtomStep(PrettyState("  ", 2, [')', '}'], "(\n  foo\n  \\{\n"), "bar", false, Qforce);
    assert r.0.out == "(\n  foo\n  \\{\n    \"bar\"\n";
  }

  lemma ExampleDotsStep()
    ensures AtomStep(PrettyState("  ", 2, [')', '}'], "(\n  foo\n  \\{\n    \"bar\"\n"), "...", false, Qcond) ==
      (PrettyState("  ", 2, [')', '}'], "(\n  foo\n  \\{\n    \"bar\"\n    ...\n"), None)
  {
    assert AtomText("...", false, Qcond) == "..." by { NeedQuoteIff("..."); }
    assert Repeat("  ", 2) == "    ";
    var r := AtomStep(PrettyState("  ", 2, [')', '}'], "(\n  foo\n  \\{\n    \"bar\"\n"), "...", false, Qcond);
    assert r.0.out == "(\n  foo\n  \\{\n    \"bar\"\n    ...\n";
  }

  lemma ExampleBazStep()
    ensures AtomStep(PrettyState("  ", 2, [')', '}'], "(\n  foo\n  \\{\n    \"bar\"\n    ...\n"), "baz", true, Qcond) ==
      (PrettyState("  ", 2, [')', '}'], "(\n  foo\n  \\{\n    \"bar\"\n    ...\n    \\baz\n"), None)
  {
    assert AtomText("baz", true, Qcond) == "\\baz" by { WordText("baz", true); }
    assert Repeat("  ", 2) == "    ";
    var r := AtomStep(PrettyState("  ", 2, [')', '}'], "(\n  foo\n  \\{\n    \"bar\"\n    ...\n"), "baz", true, Qcond);
    assert r.0.out == "(\n  foo\n  \\{\n    \"bar\"\n    ...\n    \\baz\n";
  }

  lemma ExampleCloseStep()
    ensures EndStep(PrettyState("  ", 2, [')', '}'], "(\n  foo\n  \\{\n    \"bar\"\n    ...\n    \\baz\n")) ==
      (PrettyState("  ", 1, [')'], "(\n  foo\n  \\{\n    \"bar\"\n    ...\n    \\baz\n  }\n"), None)
  {
    assert Repeat("  ", 1) == "  ";
    assert EndStep(PrettyState("  ", 2, [')', '}'], "(\n  foo\n  \\{\n    \"bar\"\n    ...\n    \\baz\n")).0.ends == [')'];
    var r := EndStep(PrettyState("  ", 2, [')', '}'], "(\n  foo\n  \\{\n    \"bar\"\n    ...\n    \\baz\n"));
    assert r.0.out == "(\n  foo\n  \\{\n    \"bar\"\n    ...\n    \\baz\n  }\n";
  }

  lemma ExampleQuuxStep()
    ensures AtomStep(PrettyState("  ", 1, [')'], "(\n  foo\n  \\{\n    \"bar\"\n    ...\n    \\baz\n  }\n"), "quux", true, Qforce) ==
      (PrettyState("  ", 1, [')'], "(\n  foo\n  \\{\n    \"bar\"\n    ...\n    \\baz\n  }\n  \\\"quux\"\n"), None)
  {
    var p := PrettyState("  ", 1, [')'], "(\n  foo\n  \\{\n    \"bar\"\n    ...\n    \\baz\n  }\n");
    QuuxText();
    AtomStepText(p, "quux", true, Qforce, "\\\"quux\"");
    assert Repeat("  ", 1) == "  ";
    assert p.out + "  " + "\\\"quux\"" + "\n" == "(\n  foo\n  \\{\n    \"bar\"\n    ...\n    \\baz\n  }\n  \\\"quux\"\n";
  }

  lemma AtomStepText(p: PrettyState, atom: string, meta: bool, quote: int, text: string)
    requires AtomText(atom, meta, quote) == text
    ensures AtomStep(p, atom, meta, quote) == (p.(out := p.out + Margin(p) + text + "\n"), None)
  {
  }

  lemma QuuxText()
    ensures AtomText("quux", true, Qforce) == "\\\"quux\""
  {
    WordText("quux", true);
  }

  lemma ExampleCloseLastStep()
    ensures EndStep(PrettyState("  ", 1, [')'], "(\n  foo\n  \\{\n    \"bar\"\n    ...\n    \\baz\n  }\n  \\\"quux\"\n")) ==
      (PrettyState("  ", 0, [], "(\n  foo\n  \\{\n    \"bar\"\n    ...\n    \\baz\n  }\n  \\\"quux\"\n)\n"), None)
  {
    assert Repeat("  ", 0) == "";
    var r := EndStep(PrettyState("  ", 1, [')'], "(\n  foo\n  \\{\n    \"bar\"\n    ...\n    \\baz\n  }\n  \\\"quux\"\n"));
    assert r.0.out == "(\n  foo\n  \\{\n    \"bar\"\n    ...\n    \\baz\n  }\n  \\\"quux\"\n)\n";
  }

  /** ppretty_test.go: the example call sequence and the lines it prints. */
  method ExamplePretty() returns (out: string)
    ensures out == "(\n  foo\n  \\{\n    \"bar\"\n    ...\n    \\baz\n  }\n  \\\"quux\"\n)\n"
  {
    ExampleOpenStep();
    ExampleFooStep();
    ExampleMetaOpenStep();
    ExampleBarStep();
    ExampleDotsStep();
    ExampleBazStep();
    ExampleCloseStep();
    ExampleQuuxStep();
    ExampleCloseLastStep();
    var p := new PrettyPrinter("  ");
    var e := p.Begin('(', false);
    e := p.Atom("foo", false, Qcond);
    e := p.Begin('{', true);
    e := p.Atom("bar", false, Qforce);
    e := p.Atom("...", false, Qcond);
    e := p.Atom("baz", true, Qcond);
    e := p.End();
    e := p.Atom("quux", true, Qforce);
    e := p.End();
    out := p.out;
  }

}
