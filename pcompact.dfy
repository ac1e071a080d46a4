// The compact printer (pcompact.go): everything on one line, a space only
// between two atoms, and a stack of the closing brackets still owed.
module Compact {
  import opened Common
  import opened Write
  import opened Printer

  /** The state of a `CompactPrinter`: the closers owed, whether an atom was the last thing written, the output. */
  datatype CompactState = CompactState(nest: seq<char>, sep: bool, out: string)

  const Start: CompactState := CompactState([], false, [])

  /** The brackets `Begin` accepts. */
  predicate IsOpener(c: char)
  {
    c == '(' || c == '[' || c == '{'
  }

  /**
   * `Begin`: clear `sep`, write the meta prefix, then the bracket, pushing
   * its closer; anything but `(`, `[`, `{` is refused after the prefix was
   * written.
   */
  function BeginStep(p: CompactState, bracket: char, meta: bool): (r: (CompactState, Option<PrintError>))
    ensures !r.0.sep && (r.1.None? <==> IsOpener(bracket))
    ensures r.1.None? ==> r.0.nest == p.nest + [ClosingRune(bracket)]
    ensures r.1.Some? ==> r.0.nest == p.nest && r.1 == Some(IllegalBracket(bracket))
    ensures r.0.out == p.out + (if meta then MetaStr else "") + (if r.1.None? then [bracket] else "")
  {
    var out1 := p.out + (if meta then MetaStr else "");
    if IsOpener(bracket) then (CompactState(p.nest + [ClosingRune(bracket)], false, out1 + [bracket]), None)
    else (CompactState(p.nest, false, out1), Some(IllegalBracket(bracket)))
  }

  /** `End`: clear `sep`; refuse on an empty stack, else pop the closer and write it. */
  function EndStep(p: CompactState): (r: (CompactState, Option<PrintError>))
    ensures !r.0.sep && (r.1.None? <==> |p.nest| > 0)
    ensures r.1.None? ==> p.nest == r.0.nest + [p.nest[|p.nest| - 1]] && r.0.out == p.out + [p.nest[|p.nest| - 1]]
    ensures r.1.Some? ==> r.0 == p.(sep := false) && r.1 == Some(NothingToEnd)
  {
    if |p.nest| == 0 then (p.(sep := false), Some(NothingToEnd))
    else
      var b := p.nest[|p.nest| - 1];
      (CompactState(p.nest[..|p.nest| - 1], false, p.out + [b]), None)
  }

  /** `Atom`: a space if the last thing written was an atom, then `printAtom`. */
  function AtomStep(p: CompactState, atom: string, meta: bool, quote: int): (r: (CompactState, Option<PrintError>))
    ensures r.1.None? && r.0.sep && r.0.nest == p.nest
    ensures r.0.out == p.out + (if p.sep then " " else "") + AtomText(atom, meta, quote)
  {
    (CompactState(p.nest, true, p.out + (if p.sep then " " else "") + AtomText(atom, meta, quote)), None)
  }

  /** One printer call (`Newline` does nothing). */
  function Step(p: CompactState, c: Call): (CompactState, Option<PrintError>)
  {
    match c
    case Begin(b, m) => BeginStep(p, b, m)
    case End => EndStep(p)
    case Atom(a, m, q) => AtomStep(p, a, m, q)
    case Newline(_, _) => (p, None)
  }

  /** The stack holds closing brackets only. */
  predicate Valid(p: CompactState)
  {
    forall i :: 0 <= i < |p.nest| ==> IsCloser(p.nest[i])
  }

  /**
   * Every call keeps the stack made of closers, only appends to the output,
   * and changes the depth by one exactly on a successful `Begin` or `End`;
   * `sep` is set by an atom, cleared by `Begin` and `End`, and kept by
   * `Newline`.
   */
  lemma StepInvariant(p: CompactState, c: Call)
    requires Valid(p)
    ensures var (q, err) := Step(p, c);
      Valid(q) && p.out <= q.out &&
      |q.nest| == |p.nest| + (if err.None? && c.Begin? then 1 else 0) - (if err.None? && c.End? then 1 else 0) &&
      q.sep == (c.Atom? || (c.Newline? && p.sep))
  {
    var (q, err) := Step(p, c);
    match c
    case Begin(b, m) =>
      assert IsOpener(b) ==> IsCloser(ClosingRune(b));
      assert forall i :: 0 <= i < |p.nest| ==> q.nest[i] == p.nest[i];
    case End =>
      assert forall i :: 0 <= i < |q.nest| ==> q.nest[i] == p.nest[i];
    case Atom(_, _, _) =>
    case Newline(_, _) =>
  }

  /** Running a list of calls, errors ignored. */
  function Run(p: CompactState, calls: seq<Call>): CompactState
    decreases calls
  {
    if calls == [] then p else Run(Step(p, calls[0]).0, calls[1..])
  }

  /** A run keeps the state valid and only appends to the output. */
  lemma {:induction false} RunInvariant(p: CompactState, calls: seq<Call>)
    requires Valid(p)
    ensures Valid(Run(p, calls)) && p.out <= Run(p, calls).out
    decreases calls
  {
    if calls != [] {
      StepInvariant(p, calls[0]);
      RunInvariant(Step(p, calls[0]).0, calls[1..]);
    }
  }

  /** `CompactPrinter`: the output is the field `out` (the writer never fails). */
  class CompactPrinter {
    var nest: seq<char>
    var sep: bool
    var out: string

    function State(): CompactState
      reads this
    {
      CompactState(nest, sep, out)
    }

    /** `Compact`: an empty stack and nothing written. */
    constructor ()
      ensures State() == Start
    {
      nest := [];
      sep := false;
      out := [];
    }

    method Begin(bracket: char, meta: bool) returns (err: Option<PrintError>)
      modifies this
      ensures (State(), err) == BeginStep(old(State()), bracket, meta)
    {
      sep := false;
      assert out + "" == out;
      if meta {
        out := out + MetaStr;
      }
      if bracket == '(' {
        out := out + "(";
        nest := nest + [')'];
      } else if bracket == '[' {
        out := out + "[";
        nest := nest + [']'];
      } else if bracket == '{' {
        out := out + "{";
        nest := nest + ['}'];
      } else {
        return Some(IllegalBracket(bracket));
      }
      assert ClosingRune(bracket) == nest[|nest| - 1];
      return None;
    }

    method End() returns (err: Option<PrintError>)
      modifies this
      ensures (State(), err) == EndStep(old(State()))
    {
      sep := false;
      if |nest| == 0 {
        return Some(NothingToEnd);
      }
      var b := nest[|nest| - 1];
      nest := nest[..|nest| - 1];
      out := out + [b];
      return None;
    }

    method Atom(atom: string, meta: bool, quote: int) returns (err: Option<PrintError>)
      modifies this
      ensures (State(), err) == AtomStep(old(State()), atom, meta, quote)
    {
      if sep {
        out := out + " ";
      } else {
        assert out + "" == out;
      }
      sep := true;
      out := out + AtomText(atom, meta, quote);
      return None;
    }

    method Newline(count: int, indent: int) returns (err: Option<PrintError>)
      ensures err.None?
    {
      return None;
    }
  }

  /** The bracket steps of the pcompact_test.go example. */
  lemma ExampleBracketSteps()
    ensures BeginStep(Start, '(', false) == (CompactState([')'], false, "("), None)
    ensures BeginStep(CompactState([')'], true, "(foo"), '{', true) == (CompactState([')', '}'], false, "(foo\\{"), None)
    ensures EndStep(CompactState([')', '}'], true, "(foo\\{\"bar\" \\baz"))
      == (CompactState([')'], false, "(foo\\{\"bar\" \\baz}"), None)
    ensures EndStep(CompactState([')'], true, "(foo\\{\"bar\" \\baz}\\\"quux\""))
      == (CompactState([], false, "(foo\\{\"bar\" \\baz}\\\"quux\")"), None)
  {
    var b1 := BeginStep(Start, '(', false);
    assert b1.0.nest == [')'] && b1.0.out == "(";
    var b2 := BeginStep(CompactState([')'], true, "(foo"), '{', true);
    assert b2.0.nest == [')', '}'] && b2.0.out == "(foo\\{";
    var e1 := EndStep(CompactState([')', '}'], true, "(foo\\{\"bar\" \\baz"));
    assert e1.0.nest == [')'] && e1.0.out == "(foo\\{\"bar\" \\baz}";
    var e2 := EndStep(CompactState([')'], true, "(foo\\{\"bar\" \\baz}\\\"quux\""));
    assert e2.0.nest == [] && e2.0.out == "(foo\\{\"bar\" \\baz}\\\"quux\")";
  }

  // The atom steps of the pcompact_test.go example, one lemma each.

  lemma ExampleFooStep()
    ensures AtomStep(CompactState([')'], false, "("), "foo", false, Qcond) == (CompactState([')'], true, "(foo"), None)
  {
    WordText("foo", false);
    var r := AtomStep(CompactState([')'], false, "("), "foo", false, Qcond);
    assert r.0.out == CompactState([')'], true, "(foo").out;
  }

  lemma ExampleBarStep()
    ensures AtomStep(CompactState([')', '}'], false, "(foo\\{"), "bar", false, Qforce) == (CompactState([')', '}'], true, "(foo\\{\"bar\""), None)
  {
    WordText("bar", false);
    var r := AtomStep(CompactState([')', '}'], false, "(foo\\{"), "bar", false, Qforce);
    assert r.0.out == CompactState([')', '}'], true, "(foo\\{\"bar\"").out;
  }

  lemma ExampleBazStep()
    ensures AtomStep(CompactState([')', '}'], true, "(foo\\{\"bar\""), "baz", true, Qcond) == (CompactState([')', '}'], true, "(foo\\{\"bar\" \\baz"), None)
  {
    WordText("baz", true);
    var r := AtomStep(CompactState([')', '}'], true, "(foo\\{\"bar\""), "baz", true, Qcond);
    assert r.0.out == CompactState([')', '}'], true, "(foo\\{\"bar\" \\baz").out;
  }

  lemma ExampleQuuxStep()
    ensures AtomStep(CompactState([')'], false, "(foo\\{\"bar\" \\baz}"), "quux", true, Qforce) == (CompactState([')'], true, "(foo\\{\"bar\" \\baz}\\\"quux\""), None)
  {
    var p := CompactState([')'], false, "(foo\\{\"bar\" \\baz}");
    assert AtomText("quux", true, Qforce) == "\\\"quux\"" by { WordText("quux", true); }
    assert p.out + "" + "\\\"quux\"" == "(foo\\{\"bar\" \\baz}\\\"quux\"";
  }

  /** pcompact_test.go: the example call sequence and the line it prints. */
  method ExampleCompact() returns (out: string)
    ensures out == "(foo\\{\"bar\" \\baz}\\\"quux\")"
  {
    ExampleBracketSteps();
    ExampleFooStep();
    ExampleBarStep();
    ExampleBazStep();
    ExampleQuuxStep();
    var p := new CompactPrinter();
    var e := p.Begin('(', false);
    e := p.Atom("foo", false, Qcond);
    e := p.Begin('{', true);
    e := p.Atom("bar", false, Qforce);
    e := p.Atom("baz", true, Qcond);
    e := p.End();
    e := p.Atom("quux", true, Qforce);
    e := p.End();
    out := p.out;
  }
}
