// `Print` of the general model (gem/print.go): an expression tree handed
// to a printer as an ordered list of calls.  An atom is one `Atom` call, a
// sequence one `Begin`, the calls of its elements and one `End`; the errors
// of all calls but a top-level atom's are dropped.
module GemPrint {
  import opened Common
  import opened Gem
  import opened Printer
  import W = Write
  import C = Compact

  /** The bracket `Print` opens a sequence with: the one of its brace, `(` for `Undef`. */
  function OpenerOf(base: Bits): (c: char)
    ensures c == '(' || c == '[' || c == '{'
    ensures ValidBrace(BraceOf(base)) ==> Opening(BraceOf(base)) == Some(c)
    ensures BraceOf(base) == Undef ==> c == '('
  {
    var b := BraceOf(base);
    if b == Paren then '(' else if b == Square then '[' else if b == Curly then '{' else '('
  }

  /** The `Atom` call for an atom: its meta flag, and `Qforce` exactly when it is quoted, else `Qcond`. */
  function AtomCall(base: Bits, s: string): (c: Call)
    ensures c.Atom? && c.text == s && c.meta == Meta(base)
    ensures c.quote == Qforce || c.quote == Qcond
    ensures c.quote == Qforce <==> Quoted(base)
  {
    var m := Meta(base);
    var q := Quoted(base);
    Call.Atom(s, m, if q then Qforce else Qcond)
  }

  /** The calls `Print` makes for `e`, in order. */
  function Calls(e: Expr): seq<Call>
    decreases e
  {
    match e
    case Atom(b, s) => [AtomCall(b, s)]
    case Sequence(b, elems) => [Begin(OpenerOf(b), Meta(b))] + ElemsCalls(elems) + [End]
  }

  /** The calls for the elements of a sequence, one after the other. */
  function ElemsCalls(elems: seq<Expr>): seq<Call>
    decreases elems
  {
    if elems == [] then [] else Calls(elems[0]) + ElemsCalls(elems[1..])
  }

  // ---------------------------------------------------------------------
  // `Print` on any printer, and the calls it makes.

  /**
   * `Print` on a printer whose calls are `step`: the recursion of
   * print.go, errors of `Begin`, `End` and nested calls dropped.
   */
  function PrintExpr<S>(step: (S, Call) -> (S, Option<PrintError>), p: S, e: Expr): (r: (S, Option<PrintError>))
    ensures r.1.Some? ==> e.Atom?
    decreases e
  {
    match e
    case Atom(b, s) => step(p, AtomCall(b, s))
    case Sequence(b, elems) =>
      var p1 := step(p, Begin(OpenerOf(b), Meta(b))).0;
      var p2 := PrintElems(step, p1, elems);
      (step(p2, End).0, None)
  }

  /** The loop over the elements. */
  function PrintElems<S>(step: (S, Call) -> (S, Option<PrintError>), p: S, elems: seq<Expr>): S
    decreases elems
  {
    if elems == [] then p else PrintElems(step, PrintExpr(step, p, elems[0]).0, elems[1..])
  }

  /** Making the calls in order, whatever they return. */
  function RunAll<S>(step: (S, Call) -> (S, Option<PrintError>), p: S, calls: seq<Call>): S
    decreases |calls|
  {
    if calls == [] then p else RunAll(step, step(p, calls[0]).0, calls[1..])
  }

  lemma {:induction false} RunAllConcat<S>(step: (S, Call) -> (S, Option<PrintError>), p: S, a: seq<Call>, b: seq<Call>)
    ensures RunAll(step, p, a + b) == RunAll(step, RunAll(step, p, a), b)
    decreases |a|
  {
    if a == [] {
      assert a + b == b;
    } else {
      assert (a + b)[0] == a[0];
      assert (a + b)[1..] == a[1..] + b;
      RunAllConcat(step, step(p, a[0]).0, a[1..], b);
    }
  }

  /**
   * The printer `Print` leaves behind is the one the calls of `Calls`
   * leave behind, made in order; an error comes only from a top-level atom,
   * and is the error of its one call.
   */
  lemma {:induction false} PrintMakesCalls<S>(step: (S, Call) -> (S, Option<PrintError>), p: S, e: Expr)
    ensures PrintExpr(step, p, e).0 == RunAll(step, p, Calls(e))
    ensures PrintExpr(step, p, e).1.Some? ==> Calls(e) == [AtomCall(e.base, e.str)] && step(p, Calls(e)[0]).1 == PrintExpr(step, p, e).1
    decreases e, 1
  {
    match e
    case Atom(b, s) =>
      assert Calls(e)[1..] == [];
    case Sequence(b, elems) =>
      var open := Begin(OpenerOf(b), Meta(b));
      var p1 := step(p, open).0;
      PrintElemsMakesCalls(step, p1, elems);
      RunAllConcat(step, p, [open] + ElemsCalls(elems), [End]);
      RunAllConcat(step, p, [open], ElemsCalls(elems));
      assert RunAll(step, p, [open]) == p1 by {
        assert [open][1..] == [];
      }
      var p2 := PrintElems(step, p1, elems);
      assert RunAll(step, p2, [End]) == step(p2, End).0 by {
        assert [End][1..] == [];
      }
  }

  lemma {:induction false} PrintElemsMakesCalls<S>(step: (S, Call) -> (S, Option<PrintError>), p: S, elems: seq<Expr>)
    ensures PrintElems(step, p, elems) == RunAll(step, p, ElemsCalls(elems))
    decreases elems, 0
  {
    if elems != [] {
      PrintMakesCalls(step, p, elems[0]);
      PrintElemsMakesCalls(step, PrintExpr(step, p, elems[0]).0, elems[1..]);
      RunAllConcat(step, p, Calls(elems[0]), ElemsCalls(elems[1..]));
    }
  }

  // ---------------------------------------------------------------------
  // The calls are balanced.

  /** The `Begin` calls minus the `End` calls. */
  function Depth(calls: seq<Call>): int
    decreases |calls|
  {
    if calls == [] then 0
    else (if calls[0].Begin? then 1 else if calls[0].End? then -1 else 0) + Depth(calls[1..])
  }

  lemma {:induction false} DepthConcat(a: seq<Call>, b: seq<Call>)
    ensures Depth(a + b) == Depth(a) + Depth(b)
    decreases |a|
  {
    if a == [] {
      assert a + b == b;
    } else {
      assert (a + b)[0] == a[0];
      assert (a + b)[1..] == a[1..] + b;
      DepthConcat(a[1..], b);
    }
  }

  /** As many `End`s as `Begin`s, and no prefix with more `End`s than `Begin`s. */
  predicate Balanced(calls: seq<Call>)
  {
    Depth(calls) == 0 && forall k :: 0 <= k <= |calls| ==> Depth(calls[..k]) >= 0
  }

  /** Two balanced lists make a balanced list. */
  lemma BalancedConcat(a: seq<Call>, b: seq<Call>)
    requires Balanced(a) && Balanced(b)
    ensures Balanced(a + b)
  {
    DepthConcat(a, b);
    forall k | 0 <= k <= |a + b|
      ensures Depth((a + b)[..k]) >= 0
    {
      if k <= |a| {
        assert (a + b)[..k] == a[..k];
      } else {
        assert (a + b)[..k] == a + b[..k - |a|];
        DepthConcat(a, b[..k - |a|]);
      }
    }
  }

  /** A balanced list between a `Begin` and an `End` is balanced. */
  lemma BalancedWrap(c: Call, a: seq<Call>)
    requires c.Begin? && Balanced(a)
    ensures Balanced([c] + a + [End])
  {
    var w := [c] + a + [End];
    DepthConcat([c], a);
    DepthConcat([c] + a, [End]);
    assert Depth([c]) == 1 by { assert [c][1..] == []; }
    assert Depth([End]) == -1 by { assert [End][1..] == []; }
    forall k | 0 <= k <= |w|
      ensures Depth(w[..k]) >= 0
    {
      if k == 0 {
      } else if k <= |a| + 1 {
        assert w[..k] == [c] + a[..k - 1];
        DepthConcat([c], a[..k - 1]);
      } else {
        assert w[..k] == w;
      }
    }
  }

  /** Every `Print` makes balanced calls: one `End` per `Begin`, never an `End` first. */
  lemma {:induction false} CallsBalanced(e: Expr)
    ensures Balanced(Calls(e))
    decreases e, 1
  {
    match e
    case Atom(b, s) =>
      var a := Calls(e);
      assert Depth(a) == 0 by { assert a[1..] == []; }
      forall k | 0 <= k <= |a|
        ensures Depth(a[..k]) >= 0
      {
        if k == 1 {
          assert a[..k] == a;
        }
      }
    case Sequence(b, elems) =>
      ElemsBalanced(elems);
      BalancedWrap(Begin(OpenerOf(b), Meta(b)), ElemsCalls(elems));
  }

  lemma {:induction false} ElemsBalanced(elems: seq<Expr>)
    ensures Balanced(ElemsCalls(elems))
    decreases elems, 0
  {
    if elems != [] {
      CallsBalanced(elems[0]);
      ElemsBalanced(elems[1..]);
      BalancedConcat(Calls(elems[0]), ElemsCalls(elems[1..]));
    }
  }

  // ---------------------------------------------------------------------
  // On the compact printer.

  /** The closing bracket written for a sequence: the partner of its opener. */
  function CloserOf(base: Bits): (c: char)
    ensures c == ')' || c == ']' || c == '}'
    ensures FromRune(c) == FromRune(OpenerOf(base))
  {
    var o := OpenerOf(base);
    if o == '(' then ')' else if o == '[' then ']' else '}'
  }

  /** It is the bracket `closingRune` gives for the opener, which the compact printer pushes. */
  lemma CloserIsClosingRune(base: Bits)
    ensures CloserOf(base) == ClosingRune(OpenerOf(base))
  {
    ClosingRuneTruncates();
  }

  /**
   * What the compact printer writes for `e`, `sep` telling whether an atom
   * came just before: a space only between two atoms, a sequence as its
   * meta prefix, its bracket, its elements and the closing bracket.
   */
  function CompactText(e: Expr, sep: bool): string
    decreases e
  {
    match e
    case Atom(b, s) =>
      var c := AtomCall(b, s);
      (if sep then " " else "") + AtomText(s, c.meta, c.quote)
    case Sequence(b, elems) =>
      (if Meta(b) then MetaStr else "") + [OpenerOf(b)] + ElemsText(elems, false) + [CloserOf(b)]
  }

  /** The elements one after the other. */
  function ElemsText(elems: seq<Expr>, sep: bool): string
    decreases elems
  {
    if elems == [] then "" else CompactText(elems[0], sep) + ElemsText(elems[1..], elems[0].Atom?)
  }

  /** Whether every call succeeds, made in order from `p`. */
  predicate AllSucceed<S>(step: (S, Call) -> (S, Option<PrintError>), p: S, calls: seq<Call>)
    decreases |calls|
  {
    calls == [] || (step(p, calls[0]).1.None? && AllSucceed(step, step(p, calls[0]).0, calls[1..]))
  }

  lemma {:induction false} AllSucceedConcat<S>(step: (S, Call) -> (S, Option<PrintError>), p: S, a: seq<Call>, b: seq<Call>)
    requires AllSucceed(step, p, a) && AllSucceed(step, RunAll(step, p, a), b)
    ensures AllSucceed(step, p, a + b)
    decreases |a|
  {
    if a == [] {
      assert a + b == b;
    } else {
      assert (a + b)[0] == a[0];
      assert (a + b)[1..] == a[1..] + b;
      AllSucceedConcat(step, step(p, a[0]).0, a[1..], b);
    }
  }

  /**
   * On the compact printer every call `Print` makes succeeds; the stack of
   * closers is as before, the output grows by `CompactText`, and an atom
   * was the last thing written exactly when `e` is an atom.
   */
  lemma {:induction false} CompactPrint(p: C.CompactState, e: Expr)
    ensures var (q, err) := PrintExpr(C.Step, p, e);
      err.None? && AllSucceed(C.Step, p, Calls(e)) &&
      q.nest == p.nest && q.out == p.out + CompactText(e, p.sep) && q.sep == e.Atom?
    decreases e, 1
  {
    match e
    case Atom(b, s) =>
      CompactAtom(p, b, s);
    case Sequence(b, elems) =>
      var p1 := C.Step(p, Begin(OpenerOf(b), Meta(b))).0;
      CompactElems(p1, elems);
      CompactSequence(p, b, elems);
  }

  lemma Assoc(a: string, b: string, c: string)
    ensures a + (b + c) == a + b + c
  {
  }

  lemma CompactAtom(p: C.CompactState, b: Bits, s: string)
    ensures var e := Expr.Atom(b, s);
      var (q, err) := PrintExpr(C.Step, p, e);
      err.None? && AllSucceed(C.Step, p, Calls(e)) &&
      q.nest == p.nest && q.out == p.out + CompactText(e, p.sep) && q.sep
  {
    var c := AtomCall(b, s);
    var x: string := if p.sep then " " else "";
    var y := AtomText(s, c.meta, c.quote);
    assert C.Step(p, c) == (C.CompactState(p.nest, true, p.out + x + y), None);
    Assoc(p.out, x, y);
    assert CompactText(Expr.Atom(b, s), p.sep) == x + y;
    assert Calls(Expr.Atom(b, s)) == [c];
    assert [c][1..] == [];
  }

  /** A sequence, given what its elements do: `Begin` pushes the closer, the elements keep it, `End` pops it. */
  lemma CompactSequence(p: C.CompactState, b: Bits, elems: seq<Expr>)
    requires var p1 := C.Step(p, Begin(OpenerOf(b), Meta(b))).0;
      var p2 := PrintElems(C.Step, p1, elems);
      AllSucceed(C.Step, p1, ElemsCalls(elems)) && p2.nest == p1.nest && p2.out == p1.out + ElemsText(elems, p1.sep)
    ensures var e := Sequence(b, elems);
      var (q, err) := PrintExpr(C.Step, p, e);
      err.None? && AllSucceed(C.Step, p, Calls(e)) &&
      q.nest == p.nest && q.out == p.out + CompactText(e, p.sep) && !q.sep
  {
    var m := Meta(b);
    var o := OpenerOf(b);
    var k := CloserOf(b);
    CloserIsClosingRune(b);
    var pre: string := if m then MetaStr else "";
    var open := Begin(o, m);
    var p1 := C.Step(p, open).0;
    assert C.Step(p, open) == (C.CompactState(p.nest + [k], false, p.out + pre + [o]), None);
    var inner := ElemsCalls(elems);
    var t := ElemsText(elems, false);
    var p2 := PrintElems(C.Step, p1, elems);
    assert p2.nest[..|p2.nest| - 1] == p.nest;
    var q := C.Step(p2, End).0;
    assert C.Step(p2, End) == (C.CompactState(p.nest, false, p2.out + [k]), None);
    assert q.out == p.out + CompactText(Sequence(b, elems), p.sep) by {
      assert CompactText(Sequence(b, elems), p.sep) == pre + [o] + t + [k];
      Assoc(p.out, pre + [o] + t, [k]);
      Assoc(p.out, pre + [o], t);
      Assoc(p.out, pre, [o]);
    }
    PrintElemsMakesCalls(C.Step, p1, elems);
    assert AllSucceed(C.Step, p, [open]) && RunAll(C.Step, p, [open]) == p1 by {
      assert [open][1..] == [];
    }
    assert AllSucceed(C.Step, p2, [End]) by {
      assert [End][1..] == [];
    }
    AllSucceedConcat(C.Step, p, [open], inner);
    RunAllConcat(C.Step, p, [open], inner);
    AllSucceedConcat(C.Step, p, [open] + inner, [End]);
  }

  lemma {:induction false} CompactElems(p: C.CompactState, elems: seq<Expr>)
    ensures var q := PrintElems(C.Step, p, elems);
      AllSucceed(C.Step, p, ElemsCalls(elems)) &&
      q.nest == p.nest && q.out == p.out + ElemsText(elems, p.sep) && q.sep == (if elems == [] then p.sep else elems[|elems| - 1].Atom?)
    decreases elems, 0
  {
    if elems != [] {
      CompactPrint(p, elems[0]);
      var p1 := PrintExpr(C.Step, p, elems[0]).0;
      CompactElems(p1, elems[1..]);
      Assoc(p.out, CompactText(elems[0], p.sep), ElemsText(elems[1..], elems[0].Atom?));
      PrintMakesCalls(C.Step, p, elems[0]);
      AllSucceedConcat(C.Step, p, Calls(elems[0]), ElemsCalls(elems[1..]));
      assert elems[1..] != [] ==> elems[1..][|elems[1..]| - 1] == elems[|elems| - 1];
    }
  }

  // ---------------------------------------------------------------------
  // The print_test.go examples on a fresh compact printer.

  /** On a fresh compact printer the output is `CompactText` alone. */
  lemma FreshCompact(e: Expr)
    ensures PrintExpr(C.Step, C.Start, e).0.out == CompactText(e, false)
  {
    CompactPrint(C.Start, e);
    assert C.Start.out + CompactText(e, false) == CompactText(e, false);
  }

  lemma EmptyLeft(x: string, s: string)
    ensures x + ("" + s) == x + s
  {
  }

  lemma QuoteWrap(x: string, s: string)
    ensures x + ("" + "\"" + s + "\"") == x + "\"" + s + "\""
  {
  }

  /** A word atom with no flags. */
  lemma PlainWordText(s: string, sep: bool)
    requires IsWord(s)
    ensures CompactText(Expr.Atom(Zero, s), sep) == (if sep then " " else "") + s
  {
    var x: string := if sep then " " else "";
    assert CompactText(Expr.Atom(Zero, s), sep) == x + AtomText(s, false, Qcond);
    WordText(s, false);
    EmptyLeft(x, s);
  }

  /** A quoted word atom. */
  lemma QuotedWordText(s: string, sep: bool)
    requires IsWord(s)
    ensures CompactText(Expr.Atom(WithQuoted(Zero, true), s), sep) == (if sep then " " else "") + "\"" + s + "\""
  {
    var x: string := if sep then " " else "";
    assert CompactText(Expr.Atom(WithQuoted(Zero, true), s), sep) == x + AtomText(s, false, Qforce);
    WordText(s, false);
    QuoteWrap(x, s);
  }

  /** `Atom{Str: "foo"}` prints as `foo`. */
  lemma ExampleAtom()
    ensures PrintExpr(C.Step, C.Start, Expr.Atom(Zero, "foo")).0.out == "foo"
  {
    FreshCompact(Expr.Atom(Zero, "foo"));
    PlainWordText("foo", false);
  }

  /** `foo bar` holds a space, so `Qcond` quotes it; it has nothing to escape. */
  lemma FooBarText()
    ensures AtomText("foo bar", false, Qcond) == "\"foo bar\""
  {
    W.NeedQuoteIff("foo bar");
    assert W.QuoteTrigger("foo bar"[3]);
    W.EscapeNothing("foo bar");
    EmptyLeft("", W.Quoted("foo bar"));
  }

  /** `Atom{Str: "foo bar"}` prints between quotes. */
  lemma ExampleQuotedAtom()
    ensures PrintExpr(C.Step, C.Start, Expr.Atom(Zero, "foo bar")).0.out == "\"foo bar\""
  {
    FreshCompact(Expr.Atom(Zero, "foo bar"));
    assert CompactText(Expr.Atom(Zero, "foo bar"), false) == "" + AtomText("foo bar", false, Qcond);
    FooBarText();
    EmptyLeft("", "\"foo bar\"");
  }

  /** A sequence's text from its brackets. */
  lemma SequenceText(b: Bits, elems: seq<Expr>, sep: bool, o: char, k: char)
    requires OpenerOf(b) == o && CloserOf(b) == k
    ensures CompactText(Sequence(b, elems), sep) == (if Meta(b) then MetaStr else "") + [o] + ElemsText(elems, false) + [k]
  {
  }

  /** The `Square` brace gives square brackets. */
  lemma SquareBrackets()
    ensures OpenerOf(WithBrace(Zero, Square)) == '[' && CloserOf(WithBrace(Zero, Square)) == ']'
    ensures !Meta(WithBrace(Zero, Square))
  {
    BraceReadsBack(Zero, Square);
    assert OpenerOf(WithBrace(Zero, Square)) == '[';
  }

  /** A meta word with no brace set gives parentheses. */
  lemma MetaParens()
    ensures OpenerOf(WithMeta(Zero, true)) == '(' && CloserOf(WithMeta(Zero, true)) == ')'
    ensures Meta(WithMeta(Zero, true))
  {
    assert BraceOf(WithMeta(Zero, true)) == Undef;
    assert OpenerOf(WithMeta(Zero, true)) == '(';
  }

  /** An empty sequence with the `Square` brace prints as `[]`. */
  lemma ExampleEmptySequence()
    ensures PrintExpr(C.Step, C.Start, Sequence(WithBrace(Zero, Square), [])).0.out == "[]"
  {
    var e := Sequence(WithBrace(Zero, Square), []);
    FreshCompact(e);
    SquareBrackets();
    SequenceText(WithBrace(Zero, Square), [], false, '[', ']');
  }

  /** A meta sequence with no brace set, holding one word: no space before it, whatever came before. */
  lemma MetaWordText(w: string, sep: bool)
    requires IsWord(w)
    ensures CompactText(Sequence(WithMeta(Zero, true), [Expr.Atom(Zero, w)]), sep) == "\\(" + w + ")"
  {
    var x := Expr.Atom(Zero, w);
    PlainWordText(w, false);
    ElemsTextCons(x, [], false);
    assert [x] + [] == [x];
    MetaParens();
    SequenceText(WithMeta(Zero, true), [x], sep, '(', ')');
    Bracketed(w);
  }

  lemma Bracketed(w: string)
    ensures MetaStr + ['('] + ("" + w + "") + [')'] == "\\(" + w + ")"
  {
  }

  /** The text of elements, the first one split off. */
  lemma ElemsTextCons(x: Expr, rest: seq<Expr>, sep: bool)
    ensures ElemsText([x] + rest, sep) == CompactText(x, sep) + ElemsText(rest, x.Atom?)
  {
    assert ([x] + rest)[1..] == rest;
  }

  /** The text of three elements: each after the separator its predecessor calls for. */
  lemma ElemsTextThree(x: Expr, y: Expr, z: Expr)
    ensures ElemsText([x, y, z], false) == CompactText(x, false) + CompactText(y, x.Atom?) + CompactText(z, y.Atom?)
  {
    var t3 := CompactText(z, y.Atom?);
    ElemsTextCons(z, [], y.Atom?);
    assert ElemsText([z], y.Atom?) == t3 + "";
    ElemsTextCons(y, [z], x.Atom?);
    assert [y] + [z] == [y, z];
    ElemsTextCons(x, [y, z], false);
    assert [x] + [y, z] == [x, y, z];
    Assoc(CompactText(x, false), CompactText(y, x.Atom?), t3);
  }

  /** The elements of `WordsSequence`. */
  function WordsElems(a: string, b: string, c: string): seq<Expr>
  {
    [Expr.Atom(WithQuoted(Zero, true), a), Sequence(WithMeta(Zero, true), [Expr.Atom(Zero, b)]), Expr.Atom(Zero, c)]
  }

  /**
   * A `Square` sequence of a quoted atom `a`, a meta sequence with no
   * brace set holding `b`, and an atom `c`.
   */
  function WordsSequence(a: string, b: string, c: string): Expr
  {
    Sequence(WithBrace(Zero, Square), WordsElems(a, b, c))
  }

  /** Its elements: no space anywhere, as no two atoms meet. */
  lemma WordsElemsText(a: string, b: string, c: string)
    requires IsWord(a) && IsWord(b) && IsWord(c)
    ensures ElemsText(WordsElems(a, b, c), false) == "\"" + a + "\"" + "\\(" + b + ")" + c
  {
    var x := Expr.Atom(WithQuoted(Zero, true), a);
    var y := Sequence(WithMeta(Zero, true), [Expr.Atom(Zero, b)]);
    var z := Expr.Atom(Zero, c);
    ElemsTextThree(x, y, z);
    QuotedWordText(a, false);
    MetaWordText(b, true);
    PlainWordText(c, false);
    JoinThree(a, b, c);
  }

  lemma JoinThree(a: string, b: string, c: string)
    ensures ("" + "\"" + a + "\"") + ("\\(" + b + ")") + ("" + c) == "\"" + a + "\"" + "\\(" + b + ")" + c
  {
  }

  /** Its text: `["a"\(b)c]`. */
  lemma WordsText(a: string, b: string, c: string)
    requires IsWord(a) && IsWord(b) && IsWord(c)
    ensures CompactText(WordsSequence(a, b, c), false) == "[\"" + a + "\"" + "\\(" + b + ")" + c + "]"
  {
    SquareBrackets();
    SequenceText(WithBrace(Zero, Square), WordsElems(a, b, c), false, '[', ']');
    WordsElemsText(a, b, c);
    InSquare(a, b, c);
  }

  /** The compact printer writes that text: `["foo"\(bar)baz]` for the words `foo`, `bar` and `baz`. */
  lemma WordsPrint(a: string, b: string, c: string)
    requires IsWord(a) && IsWord(b) && IsWord(c)
    ensures PrintExpr(C.Step, C.Start, WordsSequence(a, b, c)).0.out == "[\"" + a + "\"" + "\\(" + b + ")" + c + "]"
  {
    FreshCompact(WordsSequence(a, b, c));
    WordsText(a, b, c);
  }

  lemma InSquare(a: string, b: string, c: string)
    ensures "" + ['['] + ("\"" + a + "\"" + "\\(" + b + ")" + c) + [']'] == "[\"" + a + "\"" + "\\(" + b + ")" + c + "]"
  {
  }
}
