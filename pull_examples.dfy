// Concrete runs of the pull parser: the bracket, `foo()`, `(foo)` and
// `WasAny` examples of pull_test.go, and the input `(\a )`, where the `End`
// token inherits the meta flag of the atom that used the same queue slot
// before it.
module PullExamples {
  import opened Common
  import opened ScanSpec
  import opened ScanProps
  import opened Pull

  const Nest1: seq<Nesting> := [Nesting(false, RPAREN)]

  // ---------------------------------------------------------------------
  // The scanner, one byte at a time.

  lemma ScanOpen(s: State, b: byte)
    requires s.core == Core(false, [], None, Plain) && IsOpen(b)
    ensures Scan(s, [b]) ==
      Outcome(State(s.pos + 1, Core(false, [Nesting(false, Closing(b))], None, Plain)), [Begin(false, b)], None)
  {
    LoopAtToken(s.core, [b], 0);
    StepAtOpen(s.core, [b], 0);
  }

  lemma ScanBackslash()
    ensures Scan(State(1, Core(false, Nest1, None, Plain)), [BACKSLASH]) ==
      Outcome(State(2, Core(true, Nest1, None, Plain)), [], None)
  {
    var c := Core(false, Nest1, None, Plain);
    LoopAtToken(c, [BACKSLASH], 0);
    StepAtMeta(c, [BACKSLASH], 0);
  }

  lemma ScanLetter()
    ensures Scan(State(2, Core(true, Nest1, None, Plain)), [97]) ==
      Outcome(State(3, Core(true, Nest1, Some([97]), Plain)), [], None)
  {
    var c := Core(true, Nest1, None, Plain);
    DelimiterBytes(97);
    assert SkipU([97]) == -1;
    LoopAtToken(c, [97], 0);
    assert Step(c, [97], 0) == StepBare(c, [97], 0);
  }

  lemma ScanSpaceAfterAtom()
    ensures Scan(State(3, Core(true, Nest1, Some([97]), Plain)), [SPACE]) ==
      Outcome(State(4, Core(false, Nest1, None, Plain)), [Atom(true, [97], false)], None)
  {
    var c := Core(true, Nest1, Some([97]), Plain);
    DelimiterBytes(SPACE);
    assert SkipU([SPACE]) == 0;
    var c1 := c.(meta := false, head := None);
    assert [SPACE][..0] == [];
    assert SkipSpace([SPACE]) == 1;
    assert Loop(c1, [SPACE], 0) == Res(c1, [], 1, None);
    assert [97] + [SPACE][..0] == [97];
    assert Then([Atom(true, [97], false)], c1, [SPACE], 0) == Res(c1, [Atom(true, [97], false)], 1, None);
    assert Resume(c, [SPACE]) == Res(c1, [Atom(true, [97], false)], 1, None);
  }

  lemma ScanClose(s: State, b: byte)
    requires s.core == Core(false, [Nesting(false, Closing(b))], None, Plain) && IsOpen(b)
    ensures Scan(s, [Closing(b)]) ==
      Outcome(State(s.pos + 1, Core(false, [], None, Plain)), [End(false, Closing(b))], None)
  {
    LoopAtToken(s.core, [Closing(b)], 0);
    StepAtClose(s.core, [Closing(b)], 0);
  }

  /** A letter with no meta flag and no atom pending: `StepBare` starts an atom. */
  lemma ScanFirstLetter(s: State, b: byte)
    requires !s.core.meta && s.core.head == None && s.core.mode == Plain && 97 <= b as int <= 122
    ensures Scan(s, [b]) == Outcome(State(s.pos + 1, s.core.(head := Some([b]))), [], None)
  {
    DelimiterBytes(b);
    assert DelimFrom([b], 1) == -1;
    LoopAtToken(s.core, [b], 0);
    assert Step(s.core, [b], 0) == StepBare(s.core, [b], 0);
    assert [b][0..] == [b];
  }

  /** A letter after a pending bare atom `h`: `Resume` finds no delimiter and the atom grows. */
  lemma ScanNextLetter(s: State, h: seq<byte>, b: byte)
    requires s.core.head == Some(h) && s.core.mode == Plain && 97 <= b as int <= 122
    ensures Scan(s, [b]) == Outcome(State(s.pos + 1, s.core.(head := Some(h + [b]))), [], None)
  {
    DelimiterBytes(b);
    assert DelimFrom([b], 1) == -1;
  }

  /** `(` right after a bare atom `w`: the atom, then the `Begin`. */
  lemma ScanOpenAfterAtom(s: State, w: seq<byte>)
    requires s.core == Core(false, [], Some(w), Plain)
    ensures Scan(s, [LPAREN]) ==
      Outcome(State(s.pos + 1, Core(false, Nest1, None, Plain)), [Atom(false, w, false), Begin(false, LPAREN)], None)
  {
    var c1 := Core(false, [], None, Plain);
    DelimiterBytes(LPAREN);
    assert SkipU([LPAREN]) == 0;
    assert w + [LPAREN][..0] == w;
    LoopAtToken(c1, [LPAREN], 0);
    StepAtOpen(c1, [LPAREN], 0);
    assert Then([Atom(false, w, false)], c1, [LPAREN], 0) == Prepend([Atom(false, w, false)], Loop(c1, [LPAREN], 0));
  }

  /** `)` right after a bare atom `w` inside `(`: the atom, then the `End`. */
  lemma ScanCloseAfterAtom(s: State, w: seq<byte>)
    requires s.core == Core(false, Nest1, Some(w), Plain)
    ensures Scan(s, [RPAREN]) ==
      Outcome(State(s.pos + 1, Core(false, [], None, Plain)), [Atom(false, w, false), End(false, RPAREN)], None)
  {
    var c1 := Core(false, Nest1, None, Plain);
    DelimiterBytes(RPAREN);
    assert SkipU([RPAREN]) == 0;
    assert w + [RPAREN][..0] == w;
    LoopAtToken(c1, [RPAREN], 0);
    StepAtClose(c1, [RPAREN], 0);
    assert Then([Atom(false, w, false)], c1, [RPAREN], 0) == Prepend([Atom(false, w, false)], Loop(c1, [RPAREN], 0));
  }

  // ---------------------------------------------------------------------
  // The pull parser around those steps.

  /** Feeding one letter of a bare atom with nothing queued: no token, and `Fill` goes on from `q`, the atom grown. */
  lemma FillLetter(p: PullState, h: seq<byte>, q: PullState)
    requires |p.toks| == 2 && p.tokWr == 0 && p.tokRd == 0 && p.input != [] && 97 <= p.input[0] as int <= 122
    requires !p.scn.core.meta && p.scn.core.mode == Plain && p.scn.core.head == (if h == [] then None else Some(h))
    requires q == p.(input := p.input[1..], scn := State(p.scn.pos + 1, p.scn.core.(head := Some(h + [p.input[0]]))))
    ensures Fill(p) == Fill(q)
  {
    if h == [] {
      ScanFirstLetter(p.scn, p.input[0]);
      assert h + [p.input[0]] == [p.input[0]];
    } else {
      ScanNextLetter(p.scn, h, p.input[0]);
    }
    assert !HasEnd([]);
    assert Feed(p) == (q, None);
  }

  const Foo: seq<byte> := [102, 111, 111]

  /** Feeding `foo` with nothing queued and nothing pending: `Fill` goes on from `q`, `foo` pending before `rest`. */
  lemma FillFoo(p: PullState, rest: seq<byte>, q: PullState)
    requires |p.toks| == 2 && p.tokWr == 0 && p.tokRd == 0 && p.input == Foo + rest
    requires !p.scn.core.meta && p.scn.core.mode == Plain && p.scn.core.head == None
    requires q == p.(input := rest, scn := State(p.scn.pos + 3, p.scn.core.(head := Some(Foo))))
    ensures Fill(p) == Fill(q)
  {
    var c := p.scn.core;
    var p1 := p.(input := [111, 111] + rest, scn := State(p.scn.pos + 1, c.(head := Some([102]))));
    var p2 := p.(input := [111] + rest, scn := State(p.scn.pos + 2, c.(head := Some([102, 111]))));
    assert p.input[0] == 102 && p.input[1..] == p1.input;
    assert [] + [p.input[0]] == [102];
    FillLetter(p, [], p1);
    assert p1.input[0] == 111 && p1.input[1..] == p2.input;
    assert [102] + [111] == [102, 111];
    FillLetter(p1, [102], p2);
    assert p2.input[0] == 111 && p2.input[1..] == rest;
    assert [102, 111] + [111] == Foo;
    FillLetter(p2, [102, 111], q);
  }

  /** With nothing queued, no input left and the scanner complete, `Next` is `TokEOI` without error. */
  lemma EndOfInput(p: PullState)
    requires Valid(p) && p.tokRd == p.tokWr && p.input == [] && p.scn.core == Core(false, [], None, Plain)
    ensures var (q, t, err) := AfterNext(p);
      t == TokEOI && err.None? && Valid(q) && LastToken(q) == TokEOI
  {
    var p0 := p.(tokWr := 0, tokRd := 0);
    assert Finish(p.scn) == Outcome(p.scn, [], None);
    assert DeliverAll(p0, []) == Some(p0);
  }

  /** The parser after the first `Next` on an input starting with the opener `b`. */
  function Opened(b: byte, rest: seq<byte>): PullState
  {
    PullState(rest, State(1, Core(false, [Nesting(false, Closing(b))], None, Plain)),
              [TokInfo(TokBegin, false, CharOf(b)), EmptySlot], 1, 1, [], false)
  }

  /** Feeding an opener to a fresh parser: its `Begin` in slot 0. */
  lemma FeedOpener(b: byte, rest: seq<byte>)
    requires IsOpen(b)
    ensures Feed(Start([b] + rest)) == (Opened(b, rest).(tokRd := 0), None)
  {
    var p := Start([b] + rest);
    ScanOpen(p.scn, b);
    var o := Scan(p.scn, [b]);
    assert !HasEnd(o.events);
    assert ([b] + rest)[1..] == rest;
    var p1 := p.(input := rest, scn := o.state);
    var q := Opened(b, rest).(tokRd := 0);
    assert o.state == q.scn && o.events == [Begin(false, b)];
    assert p1.toks[0 := TokInfo(TokBegin, false, CharOf(b))] == q.toks;
    assert Deliver(p1, o.events[0]) == Some(q);
    assert DeliverAll(p1, o.events) == DeliverAll(q, []);
  }

  /** The first `Next` on an input starting with an opener: its `Begin`, and nothing else read. */
  lemma FirstBegin(b: byte, rest: seq<byte>)
    requires IsOpen(b)
    ensures AfterNext(Start([b] + rest)) == (Opened(b, rest), TokBegin, None)
  {
    FeedOpener(b, rest);
    assert Fill(Start([b] + rest)) == Fill(Opened(b, rest).(tokRd := 0));
  }

  // ---------------------------------------------------------------------
  // Brackets alone and in pairs (pull_test.go:42-66).

  /** `testOBrackets`: an opener alone is a non-meta `Begin` with that bracket. */
  lemma OpenBracket(b: byte)
    requires IsOpen(b)
    ensures var (q, t, err) := AfterNext(Start([b]));
      t == TokBegin && err.None? && Valid(q) && LastToken(q) == TokBegin && LastBrace(q) == CharOf(b) && !WasMeta(q)
  {
    FirstBegin(b, []);
    assert [b] + [] == [b];
  }

  /** The closer right after its opener: the `End` in slot 0; the depth is 0 again, so the scanner is reset. */
  lemma CloseAfterOpen(b: byte)
    requires IsOpen(b)
    ensures AfterNext(Opened(b, [Closing(b)])) ==
      (PullState([], State(1, Core(false, [], None, Plain)), [TokInfo(TokEnd, false, CharOf(Closing(b))), EmptySlot], 1, 1, [], false),
       TokEnd, None)
  {
    var p := Opened(b, [Closing(b)]).(tokWr := 0, tokRd := 0);
    ScanClose(p.scn, b);
    var o := Scan(p.scn, [Closing(b)]);
    assert HasEnd(o.events) by { assert o.events[0].End?; }
    assert ScannerAfter(p.scn, o) == State(1, Core(false, [], None, Plain));
    var p1 := p.(input := [], scn := State(1, Core(false, [], None, Plain)));
    var q := PullState([], p1.scn, [TokInfo(TokEnd, false, CharOf(Closing(b))), EmptySlot], 1, 0, [], false);
    assert p1.toks[0 := TokInfo(TokEnd, false, CharOf(Closing(b)))] == q.toks;
    assert Deliver(p1, o.events[0]) == Some(q);
    assert DeliverAll(p1, o.events) == DeliverAll(q, []);
    assert Fill(p) == Fill(q);
  }

  /** `testOCBrackets`: an opener and its closer are a non-meta `Begin` and an `End`, each with its bracket. */
  lemma BracketPair(b: byte)
    requires IsOpen(b)
    ensures var (p1, t1, e1) := AfterNext(Start([b, Closing(b)]));
      t1 == TokBegin && e1.None? && Valid(p1) && LastBrace(p1) == CharOf(b) && !WasMeta(p1) &&
      var (p2, t2, e2) := AfterNext(p1);
      t2 == TokEnd && e2.None? && Valid(p2) && LastBrace(p2) == CharOf(Closing(b)) && !WasMeta(p2)
  {
    FirstBegin(b, [Closing(b)]);
    assert [b] + [Closing(b)] == [b, Closing(b)];
    CloseAfterOpen(b);
  }

  // ---------------------------------------------------------------------
  // `foo()`: an atom ended by a `Begin` (pull_test.go:68-75).

  const FooCall: seq<byte> := [102, 111, 111, LPAREN, RPAREN]

  /** After `foo(`: the atom and the `Begin` queued, the atom handed out. */
  const FooQueued: PullState :=
    PullState([RPAREN], State(4, Core(false, Nest1, None, Plain)),
              [TokInfo(TokAtom, false, 0 as char), TokInfo(TokBegin, false, '(')], 2, 1, Foo, false)

  /** After `foo()`: the `End` in slot 0, the scanner reset. */
  const FooCallEnd: PullState :=
    PullState([], State(1, Core(false, [], None, Plain)),
              [TokInfo(TokEnd, false, ')'), TokInfo(TokBegin, false, '(')], 1, 1, Foo, false)

  /** Before `(` of `foo(` followed by `rest`: the atom `foo` pending, nothing queued. */
  function FooPending(rest: seq<byte>): PullState
  {
    PullState([LPAREN] + rest, State(3, Core(false, [], Some(Foo), Plain)), [EmptySlot, EmptySlot], 0, 0, [], false)
  }

  /** After `foo(` followed by `rest`: the atom and the `Begin` queued, the atom handed out. */
  function FooQueuedOn(rest: seq<byte>): PullState
  {
    PullState(rest, State(4, Core(false, Nest1, None, Plain)),
              [TokInfo(TokAtom, false, 0 as char), TokInfo(TokBegin, false, '(')], 2, 1, Foo, false)
  }

  /** Feeding `(` after `foo`: the atom in slot 0, the `Begin` in slot 1. */
  lemma FeedFooOpen(rest: seq<byte>)
    ensures Feed(FooPending(rest)) == (FooQueuedOn(rest).(tokRd := 0), None)
  {
    var p := FooPending(rest);
    ScanOpenAfterAtom(p.scn, Foo);
    var o := Scan(p.scn, [LPAREN]);
    assert !HasEnd(o.events);
    assert p.input[1..] == rest;
    var p1 := p.(input := rest, scn := o.state);
    var q1 := p1.(toks := [TokInfo(TokAtom, false, 0 as char), EmptySlot], tokWr := 1, atom := Foo);
    assert p1.toks[0 := EmptySlot.(tok := TokAtom, meta := false)] == q1.toks;
    assert Deliver(p1, o.events[0]) == Some(q1);
    assert CharOf(LPAREN) == '(';
    var q2 := FooQueuedOn(rest).(tokRd := 0);
    assert q1.toks[1 := TokInfo(TokBegin, false, '(')] == q2.toks;
    assert Deliver(q1, o.events[1]) == Some(q2);
    assert o.events[1..] == [o.events[1]];
    assert DeliverAll(q1, o.events[1..]) == DeliverAll(q2, []);
  }

  /** Filling from a fresh parser on `foo(` followed by `rest`: the letters only make `foo` pending, then `(` queues the atom and the `Begin`. */
  lemma FillFooOpen(rest: seq<byte>)
    ensures Fill(Start(Foo + ([LPAREN] + rest))) == (FooQueuedOn(rest), TokAtom, None)
  {
    var p := Start(Foo + ([LPAREN] + rest));
    FillFoo(p, [LPAREN] + rest, FooPending(rest));
    FeedFooOpen(rest);
    assert Fill(FooPending(rest)) == Fill(FooQueuedOn(rest).(tokRd := 0));
  }

  /** The first `Next` on `foo()`: the atom. */
  lemma FooCallFirst()
    ensures AfterNext(Start(FooCall)) == (FooQueued, TokAtom, None)
  {
    FillFooOpen([RPAREN]);
    assert Foo + ([LPAREN] + [RPAREN]) == FooCall;
    assert FooQueuedOn([RPAREN]) == FooQueued;
  }

  /** The third `Next` on `foo()`: `)` closes the only nesting, its `End` goes to slot 0. */
  lemma FooCallThird()
    ensures AfterNext(FooQueued.(tokRd := 2)) == (FooCallEnd, TokEnd, None)
  {
    var p := FooQueued.(tokWr := 0, tokRd := 0);
    ScanClose(p.scn, LPAREN);
    var o := Scan(p.scn, [RPAREN]);
    assert HasEnd(o.events) by { assert o.events[0].End?; }
    assert ScannerAfter(p.scn, o) == State(1, Core(false, [], None, Plain));
    var p1 := p.(input := [], scn := State(1, Core(false, [], None, Plain)));
    assert CharOf(RPAREN) == ')';
    assert p1.toks[0 := TokInfo(TokEnd, false, ')')] == FooCallEnd.toks;
    assert Deliver(p1, o.events[0]) == Some(FooCallEnd.(tokRd := 0));
    assert DeliverAll(p1, o.events) == DeliverAll(FooCallEnd.(tokRd := 0), []);
    assert Fill(p) == Fill(FooCallEnd.(tokRd := 0));
  }

  /** The last `Next` on `foo()`: the end of input. */
  lemma FooCallLast()
    ensures AfterNext(FooCallEnd).1 == TokEOI && AfterNext(FooCallEnd).2.None?
  {
    EndOfInput(FooCallEnd);
  }

  /** `foo()` pulls the non-meta, unquoted atom `foo`, then `(`, then `)`, then the end of input. */
  lemma AtomBeforeBegin()
    ensures AfterNext(Start(FooCall)) == (FooQueued, TokAtom, None)
    ensures Valid(FooQueued) && Chars(FooQueued.atom) == "foo" && !WasMeta(FooQueued) && !FooQueued.wasQuot
    ensures AfterNext(FooQueued) == (FooQueued.(tokRd := 2), TokBegin, None)
    ensures LastBrace(FooQueued.(tokRd := 2)) == '(' && !WasMeta(FooQueued.(tokRd := 2))
    ensures AfterNext(FooQueued.(tokRd := 2)) == (FooCallEnd, TokEnd, None) && Valid(FooCallEnd) && LastBrace(FooCallEnd) == ')'
    ensures AfterNext(FooCallEnd).1 == TokEOI && AfterNext(FooCallEnd).2.None?
  {
    FooCallFirst();
    FooCallThird();
    FooCallLast();
    assert Chars(Foo) == "foo";
  }

  // ---------------------------------------------------------------------
  // `(foo)`: an atom ended by an `End` (pull_test.go:77-84).

  const ParenFoo: seq<byte> := [LPAREN, 102, 111, 111, RPAREN]

  /** After `(foo)`: the atom and the `End` queued, the atom handed out; the scanner reset. */
  const ParenFooQueued: PullState :=
    PullState([], State(1, Core(false, [], None, Plain)),
              [TokInfo(TokAtom, false, '('), TokInfo(TokEnd, false, ')')], 2, 1, Foo, false)

  /** Before `)` of `(foo)`: the atom `foo` pending inside `(`, nothing queued. */
  const ParenFooPending: PullState :=
    PullState([RPAREN], State(4, Core(false, Nest1, Some(Foo), Plain)),
              [TokInfo(TokBegin, false, '('), EmptySlot], 0, 0, [], false)

  /** Feeding `)` after `(foo`: the atom in slot 0, the `End` in slot 1; the scanner is reset. */
  lemma FeedParenFooClose()
    ensures Feed(ParenFooPending) == (ParenFooQueued.(tokRd := 0), None)
  {
    var p := ParenFooPending;
    ScanCloseAfterAtom(p.scn, Foo);
    var o := Scan(p.scn, [RPAREN]);
    assert HasEnd(o.events) by { assert o.events[1].End?; }
    assert ScannerAfter(p.scn, o) == State(1, Core(false, [], None, Plain));
    var p1 := p.(input := [], scn := State(1, Core(false, [], None, Plain)));
    assert CharOf(RPAREN) == ')';
    var q1 := p1.(toks := [TokInfo(TokAtom, false, '('), EmptySlot], tokWr := 1, atom := Foo);
    assert p1.toks[0 := p1.toks[0].(tok := TokAtom, meta := false)] == q1.toks;
    assert Deliver(p1, o.events[0]) == Some(q1);
    assert q1.toks[1 := EmptySlot.(tok := TokEnd, bracket := ')')] == ParenFooQueued.toks;
    assert Deliver(q1, o.events[1]) == Some(ParenFooQueued.(tokRd := 0));
    assert o.events[1..] == [o.events[1]];
    assert DeliverAll(q1, o.events[1..]) == DeliverAll(ParenFooQueued.(tokRd := 0), []);
  }

  /** Filling inside `(`: the letters only make `foo` pending, then `)` queues the atom and the `End`. */
  lemma FillParenFoo(p: PullState)
    requires p == Opened(LPAREN, ParenFoo[1..]).(tokWr := 0, tokRd := 0)
    ensures Fill(p) == (ParenFooQueued, TokAtom, None)
  {
    assert p.input == Foo + [RPAREN] && p.scn == State(1, Core(false, Nest1, None, Plain));
    assert CharOf(LPAREN) == '(';
    FillFoo(p, [RPAREN], ParenFooPending);
    var q := ParenFooPending;
    FeedParenFooClose();
    assert Fill(q) == Fill(ParenFooQueued.(tokRd := 0));
  }

  /** The second `Next` on `(foo)`: the atom, queued together with the `End`. */
  lemma ParenFooSecond()
    ensures AfterNext(Opened(LPAREN, ParenFoo[1..])) == (ParenFooQueued, TokAtom, None)
  {
    FillParenFoo(Opened(LPAREN, ParenFoo[1..]).(tokWr := 0, tokRd := 0));
  }

  /** `(foo)` pulls `(`, then the non-meta, unquoted atom `foo`, then `)`, then the end of input. */
  lemma AtomBeforeEnd()
    ensures AfterNext(Start(ParenFoo)) == (Opened(LPAREN, ParenFoo[1..]), TokBegin, None)
    ensures Valid(Opened(LPAREN, ParenFoo[1..])) && LastBrace(Opened(LPAREN, ParenFoo[1..])) == '('
    ensures !WasMeta(Opened(LPAREN, ParenFoo[1..]))
    ensures AfterNext(Opened(LPAREN, ParenFoo[1..])) == (ParenFooQueued, TokAtom, None)
    ensures Valid(ParenFooQueued) && Chars(ParenFooQueued.atom) == "foo" && !WasMeta(ParenFooQueued) && !ParenFooQueued.wasQuot
    ensures AfterNext(ParenFooQueued) == (ParenFooQueued.(tokRd := 2), TokEnd, None)
    ensures LastBrace(ParenFooQueued.(tokRd := 2)) == ')'
    ensures AfterNext(ParenFooQueued.(tokRd := 2)).1 == TokEOI && AfterNext(ParenFooQueued.(tokRd := 2)).2.None?
  {
    FirstBegin(LPAREN, ParenFoo[1..]);
    assert [LPAREN] + ParenFoo[1..] == ParenFoo;
    ParenFooSecond();
    EndOfInput(ParenFooQueued.(tokRd := 2));
    assert Chars(Foo) == "foo";
  }

  // ---------------------------------------------------------------------
  // `{}`: the first token is a `Begin` (pull_test.go:113-122).

  /** After the first `Next` on `{}`, `WasAny(TokBegin|TokEnd)` is `TokBegin` and `WasAny(TokAtom)` is no token. */
  lemma WasAnyExample()
    ensures var (q, t, err) := AfterNext(Start([LCURLY, RCURLY]));
      t == TokBegin && err.None? && Valid(q) &&
      WasAny(q, TokBegin | TokEnd) == TokBegin && WasAny(q, TokAtom) == NoToken
  {
    var p := Start([LCURLY, RCURLY]);
    ScanOpen(p.scn, LCURLY);
    var (q1, e1) := Feed(p);
    assert e1.None? && q1.tokWr == 1 && q1.toks[0].tok == TokBegin;
    assert Fill(p) == Fill(q1);
  }

  // ---------------------------------------------------------------------
  // `(\a )`: a stale meta flag on the closing bracket.

  const Input: seq<byte> := [LPAREN, BACKSLASH, 97, SPACE, RPAREN]

  const AfterOpen: PullState :=
    PullState(Input[1..], State(1, Core(false, Nest1, None, Plain)),
              [TokInfo(TokBegin, false, '('), EmptySlot], 1, 1, [], false)

  /** The first `Next`: `(`. */
  lemma FirstNext()
    ensures AfterNext(Start(Input)) == (AfterOpen, TokBegin, None)
  {
    FirstBegin(LPAREN, Input[1..]);
    assert [LPAREN] + Input[1..] == Input;
    assert Opened(LPAREN, Input[1..]) == AfterOpen;
  }

  const AfterBackslash: PullState :=
    PullState(Input[2..], State(2, Core(true, Nest1, None, Plain)),
              [TokInfo(TokBegin, false, '('), EmptySlot], 0, 0, [], false)

  const AfterLetter: PullState :=
    PullState(Input[3..], State(3, Core(true, Nest1, Some([97]), Plain)),
              [TokInfo(TokBegin, false, '('), EmptySlot], 0, 0, [], false)

  const AfterAtom: PullState :=
    PullState([RPAREN], State(4, Core(false, Nest1, None, Plain)),
              [TokInfo(TokAtom, true, '('), EmptySlot], 1, 1, [97], false)

  /** Feeding `\`: the meta flag is pending, nothing is queued. */
  lemma FeedBackslash()
    ensures Feed(AfterOpen.(tokWr := 0, tokRd := 0)) == (AfterBackslash, None)
  {
    ScanBackslash();
    assert Input[1..][1..] == Input[2..];
  }

  /** Feeding `a`: a partial atom, nothing is queued. */
  lemma FeedLetter()
    ensures Feed(AfterBackslash) == (AfterLetter, None)
  {
    ScanLetter();
    assert Input[2..][1..] == Input[3..];
  }

  /** Feeding the space: the meta atom `a` in slot 0. */
  lemma FeedSpace()
    ensures Feed(AfterLetter) == (AfterAtom.(tokRd := 0), None)
  {
    ScanSpaceAfterAtom();
    var o := Scan(AfterLetter.scn, [SPACE]);
    assert !HasEnd(o.events);
    assert Input[3..][1..] == [RPAREN];
    var p1 := AfterLetter.(input := [RPAREN], scn := o.state);
    assert p1.toks[0 := TokInfo(TokAtom, true, '(')] == [TokInfo(TokAtom, true, '('), EmptySlot];
    assert Deliver(p1, o.events[0]) == Some(AfterAtom.(tokRd := 0));
    assert DeliverAll(p1, o.events) == DeliverAll(AfterAtom.(tokRd := 0), []);
  }

  /** The second `Next`: the meta atom `a`, completed by the space. */
  lemma SecondNext()
    ensures AfterNext(AfterOpen) == (AfterAtom, TokAtom, None)
  {
    FeedBackslash();
    FeedLetter();
    FeedSpace();
    assert Fill(AfterOpen.(tokWr := 0, tokRd := 0)) == Fill(AfterBackslash);
    assert Fill(AfterBackslash) == Fill(AfterLetter);
    assert Fill(AfterLetter) == Fill(AfterAtom.(tokRd := 0));
  }

  const AfterClose: PullState :=
    PullState([], State(1, Core(false, [], None, Plain)),
              [TokInfo(TokEnd, true, ')'), EmptySlot], 1, 1, [97], false)

  /** Feeding `)`: the `End` overwrites slot 0 but for its meta flag; the depth is 0, so the scanner is reset. */
  lemma FeedClose()
    ensures Feed(AfterAtom.(tokWr := 0, tokRd := 0)) == (AfterClose.(tokRd := 0), None)
  {
    var p := AfterAtom.(tokWr := 0, tokRd := 0);
    ScanClose(p.scn, LPAREN);
    var o := Scan(p.scn, [RPAREN]);
    assert HasEnd(o.events) by { assert o.events[0].End?; }
    assert ScannerAfter(p.scn, o) == State(1, Core(false, [], None, Plain));
    var p1 := p.(input := [], scn := State(1, Core(false, [], None, Plain)));
    assert CharOf(RPAREN) == ')';
    assert p1.toks[0 := TokInfo(TokEnd, true, ')')] == [TokInfo(TokEnd, true, ')'), EmptySlot];
    assert Deliver(p1, o.events[0]) == Some(AfterClose.(tokRd := 0));
    assert DeliverAll(p1, o.events) == DeliverAll(AfterClose.(tokRd := 0), []);
  }

  /** The third `Next`: `)` in the slot the atom used, whose meta flag stays set. */
  lemma ThirdNext()
    ensures AfterNext(AfterAtom) == (AfterClose, TokEnd, None)
  {
    FeedClose();
    assert Fill(AfterAtom.(tokWr := 0, tokRd := 0)) == Fill(AfterClose.(tokRd := 0));
  }

  /**
   * On `(\a )` the third token is the `End` of `)`, yet `WasMeta` holds, so
   * `ExpectEnd(")")` fails with `PullMeta` and `SkipMeta` reaches the
   * "unreachable code" case.
   */
  lemma StaleMetaOnEnd()
    ensures Valid(AfterClose) && LastToken(AfterClose) == TokEnd && WasMeta(AfterClose)
    ensures AfterNext(AfterNext(AfterNext(Start(Input)).0).0).0 == AfterClose
    ensures ExpectEnd(AfterClose, ")") == Some(Unexp(PullMeta))
    ensures AfterSkipMeta(AfterClose).1 == Some(SkipUnreachable)
  {
    FirstNext();
    SecondNext();
    ThirdNext();
  }
}
