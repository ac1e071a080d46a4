// Properties of the scanner on particular inputs, after scanner_test.go,
// and the inputs on which chunked scanning of a quoted atom differs from
// scanning the whole input.
module ScanProps {
  import opened Common
  import opened ScanSpec
  import opened Unquote
  import opened ScanSplit

  const A: byte := 97   // 'a'
  const B: byte := 98   // 'b'
  const C: byte := 99   // 'c'
  const X: byte := 120  // 'x'

  // ---------------------------------------------------------------------
  // A chunk that starts with a quoted atom.

  /** The chunk is one quoted atom left open: it becomes the pending token. */
  lemma LoopQuotePending(c: Core, t: seq<byte>)
    requires |t| > 0 && t[0] == QUOTE && SkipQ(t[1..]).atom < 0
    ensures var q := SkipQ(t[1..]);
      Loop(c, t, 0) == Res(c.(head := Some(QText(t[1..], q)), mode := q.mode), [], |t|, None)
  {
    assert t[0..] == t;
    assert Loop(c, t, 0) == Step(c, t, 0);
    assert Step(c, t, 0) == StepQuote(c, t, 0);
  }

  /** The chunk is exactly one closed quoted atom. */
  lemma LoopQuoteClosed(c: Core, t: seq<byte>)
    requires |t| >= 2 && t[0] == QUOTE && SkipQ(t[1..]).atom == |t| - 2
    ensures var q := SkipQ(t[1..]);
      Loop(c, t, 0) == Res(c.(meta := false), [Atom(c.meta, QText(t[1..|t| - 1], q), true)], |t|, None)
  {
    assert t[0..] == t;
    var q := SkipQ(t[1..]);
    assert t[1..1 + q.atom] == t[1..|t| - 1];
    assert Loop(c, t, 0) == Step(c, t, 0);
    assert Step(c, t, 0) == StepQuote(c, t, 0);
    var e := Atom(c.meta, QText(t[1..|t| - 1], q), true);
    assert StepQuote(c, t, 0) == Then([e], c.(meta := false), t, |t|);
    assert Loop(c.(meta := false), t, |t|) == Res(c.(meta := false), [], |t|, None);
  }

  /** A pending quoted atom that the chunk does not close. */
  lemma ResumeQuotedPending(c: Core, t: seq<byte>, rp: nat, h1: seq<byte>)
    requires c.head.Some? && c.mode != Plain && |t| > 0
    requires rp == (if c.mode == QuoteEsc then 1 else 0)
    requires h1 == (if c.mode == QuoteEsc then c.head.value + [t[0]] else c.head.value)
    requires SkipQ(t[rp..]).atom < 0
    ensures var q := SkipQ(t[rp..]);
      Resume(c, t) == Res(c.(head := Some(h1 + QText(t, q)), mode := q.mode), [], rp, None)
  {
  }

  /** A pending quoted atom that the chunk closes at its last byte. */
  lemma ResumeQuotedClosedAtEnd(c: Core, t: seq<byte>, rp: nat, h1: seq<byte>)
    requires c.head.Some? && c.mode != Plain && |t| > 0
    requires rp == (if c.mode == QuoteEsc then 1 else 0) && rp < |t|
    requires h1 == (if c.mode == QuoteEsc then c.head.value + [t[0]] else c.head.value)
    requires SkipQ(t[rp..]).atom == |t| - rp - 1
    ensures var q := SkipQ(t[rp..]);
      Resume(c, t) == Res(c.(meta := false, head := None),
                          [Atom(c.meta, h1 + QText(t[rp..|t| - 1], q), true)], |t|, None)
  {
    var c1 := c.(meta := false, head := None);
    var q := SkipQ(t[rp..]);
    assert t[rp..rp + q.atom] == t[rp..|t| - 1];
    assert Loop(c1, t, |t|) == Res(c1, [], |t|, None);
  }

  // ---------------------------------------------------------------------
  // One pass of the loop, in the cases the examples below go through.

  /** No whitespace at `rp`: the pass goes straight to the switch. */
  lemma LoopAtToken(c: Core, t: seq<byte>, rp: nat)
    requires rp < |t| && !IsAny(t[rp], ccSpace)
    ensures Loop(c, t, rp) == Step(c, t, rp)
  {
    assert t[rp..][0] == t[rp];
  }

  lemma LoopAtEnd(c: Core, t: seq<byte>)
    ensures Loop(c, t, |t|) == Res(c, [], |t|, None)
  {
  }

  lemma StepAtOpen(c: Core, t: seq<byte>, rp: nat)
    requires rp < |t| && IsOpen(t[rp])
    ensures Step(c, t, rp) == Prepend([Begin(c.meta, t[rp])],
      Loop(c.(nest := c.nest + [Nesting(c.meta, Closing(t[rp]))], meta := false), t, rp + 1))
  {
    assert Step(c, t, rp) == StepOpen(c, t, rp);
  }

  lemma StepAtClose(c: Core, t: seq<byte>, rp: nat)
    requires rp < |t| && IsClose(t[rp])
    ensures var (c1, evs, err) := CallEnd(c, t[rp]);
      Step(c, t, rp) == if err.Some? then Res(c1, evs, rp, err) else Prepend(evs, Loop(c1, t, rp + 1))
  {
    assert Step(c, t, rp) == StepClose(c, t, rp);
    var (c1, evs, err) := CallEnd(c, t[rp]);
    if err.None? {
      assert Then(evs, c1, t, rp + 1) == Prepend(evs, Loop(c1, t, rp + 1));
    }
  }

  lemma StepAtMeta(c: Core, t: seq<byte>, rp: nat)
    requires rp < |t| && t[rp] == BACKSLASH
    ensures Step(c, t, rp) ==
      if c.meta then Prepend([Atom(true, MetaAtom, false)], Loop(c.(meta := false), t, rp + 1))
      else Prepend([], Loop(c.(meta := true), t, rp + 1))
  {
    assert !IsOpen(t[rp]) && !IsClose(t[rp]);
    assert Step(c, t, rp) == StepMeta(c, t, rp);
    if c.meta {
      assert Then([Atom(true, MetaAtom, false)], c.(meta := false), t, rp + 1)
        == Prepend([Atom(true, MetaAtom, false)], Loop(c.(meta := false), t, rp + 1));
    } else {
      assert Then([], c.(meta := true), t, rp + 1) == Prepend([], Loop(c.(meta := true), t, rp + 1));
    }
  }

  /** A bare atom of `n` bytes that ends inside the chunk. */
  lemma StepAtBare(c: Core, t: seq<byte>, rp: nat, n: nat)
    requires rp < |t| && !IsDelim(t[rp]) && SkipU(t[rp..]) == n
    ensures rp + n <= |t|
    ensures Step(c, t, rp) == Prepend([Atom(c.meta, t[rp..rp + n], false)], Loop(c.(meta := false), t, rp + n))
  {
    DelimiterBytes(t[rp]);
    assert Step(c, t, rp) == StepBare(c, t, rp);
  }

  // ---------------------------------------------------------------------
  // Examples of scanner_test.go.

  /** `(}`: the closer does not match; the error is at 1 and `(` was reported (scanner_test.go:179-197). */
  lemma ExampleUnbalanced()
    ensures ScanString(Initial, [LPAREN, RCURLY]) ==
      Outcome(State(1, Core(false, [], None, Plain)), [Begin(false, LPAREN)], Some(ScanError(1, Unbalanced(RCURLY, RPAREN))))
  {
    var t := [LPAREN, RCURLY];
    var c0 := Initial.core;
    var c1 := c0.(nest := [Nesting(false, RPAREN)]);
    LoopAtToken(c0, t, 0);
    StepAtOpen(c0, t, 0);
    assert c0.nest + [Nesting(false, Closing(t[0]))] == [Nesting(false, RPAREN)];
    assert c0.(nest := c0.nest + [Nesting(c0.meta, Closing(t[0]))], meta := false) == c1;
    LoopAtToken(c1, t, 1);
    StepAtClose(c1, t, 1);
    assert Closing(LPAREN) == RPAREN;
    assert Loop(c1, t, 1) == Res(c0, [], 1, Some(Unbalanced(RCURLY, RPAREN)));
    assert Loop(c0, t, 0) == Res(c0, [Begin(false, LPAREN)], 1, Some(Unbalanced(RCURLY, RPAREN)));
    assert Scan(Initial, t).err.Some?;
  }

  /** `(foo}`: the atom touches the closer; the error is at 4 (scanner_test.go:199-209). */
  lemma ExampleTouchingUnbalanced()
    ensures var o := ScanString(Initial, [LPAREN, 102, 111, 111, RCURLY]);
      o.err == Some(ScanError(4, Unbalanced(RCURLY, RPAREN))) &&
      o.events == [Begin(false, LPAREN), Atom(false, [102, 111, 111], false)]
  {
    var t: seq<byte> := [LPAREN, 102, 111, 111, RCURLY];
    var c0 := Initial.core;
    var c1 := c0.(nest := [Nesting(false, RPAREN)]);
    LoopAtToken(c0, t, 0);
    StepAtOpen(c0, t, 0);
    assert c0.nest + [Nesting(false, Closing(t[0]))] == [Nesting(false, RPAREN)];
    assert c0.(nest := c0.nest + [Nesting(c0.meta, Closing(t[0]))], meta := false) == c1;
    LoopAtToken(c1, t, 1);
    var u := t[1..];
    assert u == [102, 111, 111, RCURLY];
    assert DelimFrom(u, 3) == 3;
    assert DelimFrom(u, 2) == 3;
    assert DelimFrom(u, 1) == 3;
    assert DelimFrom(u, 0) == 3;
    StepAtBare(c1, t, 1, 3);
    assert t[1..4] == [102, 111, 111];
    LoopAtToken(c1, t, 4);
    StepAtClose(c1, t, 4);
    assert Closing(LPAREN) == RPAREN;
    assert Loop(c1, t, 4) == Res(c0, [], 4, Some(Unbalanced(RCURLY, RPAREN)));
    assert Loop(c1, t, 1) == Res(c0, [Atom(false, [102, 111, 111], false)], 4, Some(Unbalanced(RCURLY, RPAREN)));
    assert Loop(c0, t, 0) == Res(c0, [Begin(false, LPAREN), Atom(false, [102, 111, 111], false)], 4, Some(Unbalanced(RCURLY, RPAREN)));
    assert Scan(Initial, t).err.Some?;
  }

  /** `a)`: the atom `a`, then a closer with nothing open fails at 1. */
  lemma ExampleCloserAfterAtom()
    ensures var o := ScanString(Initial, [A, RPAREN]);
      o.events == [Atom(false, [A], false)] && o.err == Some(ScanError(1, Unnested(RPAREN)))
  {
    var t: seq<byte> := [A, RPAREN];
    var c0 := Initial.core;
    LoopAtToken(c0, t, 0);
    assert t[0..] == t;
    assert DelimFrom(t, 1) == 1;
    assert DelimFrom(t, 0) == 1;
    StepAtBare(c0, t, 0, 1);
    assert t[0..1] == [A];
    LoopAtToken(c0, t, 1);
    StepAtClose(c0, t, 1);
    assert Loop(c0, t, 1) == Res(c0, [], 1, Some(Unnested(RPAREN)));
    assert Loop(c0, t, 0) == Res(c0, [Atom(false, [A], false)], 1, Some(Unnested(RPAREN)));
  }

  /** The bytes C3 A0: the bare atom C3, then A0, which the scanner takes for whitespace. */
  lemma ExampleSplitRune()
    ensures ScanString(Initial, [0xC3, NBSP]) == Outcome(State(2, Initial.core), [Atom(false, [0xC3], false)], None)
  {
    var t: seq<byte> := [0xC3, NBSP];
    var c0 := Initial.core;
    DelimiterBytes(0xC3);
    DelimiterBytes(NBSP);
    LoopAtToken(c0, t, 0);
    assert t[0..] == t;
    assert DelimFrom(t, 1) == 1;
    assert DelimFrom(t, 0) == 1;
    StepAtBare(c0, t, 0, 1);
    assert t[0..1] == [0xC3];
    assert t[1..] == [NBSP];
    assert SpaceFrom(t[1..], 1) == 1;
    assert SpaceFrom(t[1..], 0) == 1;
    assert Loop(c0, t, 1) == Res(c0, [], 2, None);
  }

  /** `"foo`: `Finish` refuses the open quoted atom at position 4 (scanner_test.go:211-221). */
  lemma ExamplePrematureEnd()
    ensures ScanString(Initial, [QUOTE, 102, 111, 111]).err == Some(ScanError(4, UnterminatedQuote))
  {
    var u: seq<byte> := [102, 111, 111];
    assert [QUOTE, 102, 111, 111][1..] == u;
    assert SkipQFrom(u, 3) == QScan(-1, InQuote, []);
    assert SkipQFrom(u, 2) == QScan(-1, InQuote, []);
    assert SkipQFrom(u, 1) == QScan(-1, InQuote, []);
    assert SkipQFrom(u, 0) == QScan(-1, InQuote, []);
    LoopQuotePending(Initial.core, [QUOTE, 102, 111, 111]);
  }

  /** `(\)`: a meta prefix before a closer is reported as the plain atom `\` (scanner_test.go:267-274). */
  lemma ExampleMetaBeforeClose()
    ensures ScanString(Initial, [LPAREN, BACKSLASH, RPAREN]) ==
      Outcome(State(3, Core(false, [], None, Plain)),
              [Begin(false, LPAREN), Atom(false, MetaAtom, false), End(false, RPAREN)], None)
  {
    var t := [LPAREN, BACKSLASH, RPAREN];
    var c0 := Initial.core;
    var c1 := c0.(nest := [Nesting(false, RPAREN)]);
    LoopAtToken(c0, t, 0);
    StepAtOpen(c0, t, 0);
    assert c0.nest + [Nesting(false, Closing(t[0]))] == [Nesting(false, RPAREN)];
    assert c0.(nest := c0.nest + [Nesting(c0.meta, Closing(t[0]))], meta := false) == c1;
    LoopAtToken(c1, t, 1);
    StepAtMeta(c1, t, 1);
    LoopAtToken(c1.(meta := true), t, 2);
    StepAtClose(c1.(meta := true), t, 2);
    LoopAtEnd(c0, t);
    assert Closing(LPAREN) == RPAREN;
    assert Loop(c1.(meta := true), t, 2) == Res(c0, [Atom(false, MetaAtom, false), End(false, RPAREN)], 3, None);
    assert Loop(c1, t, 1) == Res(c0, [Atom(false, MetaAtom, false), End(false, RPAREN)], 3, None);
    var evs := [Begin(false, LPAREN), Atom(false, MetaAtom, false), End(false, RPAREN)];
    assert Loop(c0, t, 0) == Res(c0, evs, 3, None);
    assert Scan(Initial, t) == Outcome(State(3, c0), evs, None);
    assert Finish(State(3, c0)) == Outcome(State(3, c0), [], None);
    assert evs + [] == evs;
  }

  /** `\\`: two meta prefixes give one meta atom `\` (scanner.go:416-419). */
  lemma ExampleDoubledBackslash()
    ensures ScanString(Initial, [BACKSLASH, BACKSLASH]).events == [Atom(true, MetaAtom, false)]
  {
    var t := [BACKSLASH, BACKSLASH];
    var c0 := Initial.core;
    LoopAtToken(c0, t, 0);
    StepAtMeta(c0, t, 0);
    LoopAtToken(c0.(meta := true), t, 1);
    StepAtMeta(c0.(meta := true), t, 1);
    LoopAtEnd(c0, t);
  }

  // ---------------------------------------------------------------------
  // A whole input that is exactly one atom.

  lemma {:induction false} DelimFromNone(t: seq<byte>, i: nat)
    requires i <= |t| && forall j :: i <= j < |t| ==> !IsDelim(t[j])
    ensures DelimFrom(t, i) == -1
    decreases |t| - i
  {
    if i < |t| {
      DelimFromNone(t, i + 1);
    }
  }

  /** A chunk without a delimiter is one bare atom, left pending. */
  lemma LoopBareWhole(c: Core, t: seq<byte>)
    requires |t| > 0 && forall j :: 0 <= j < |t| ==> !IsDelim(t[j])
    ensures Loop(c, t, 0) == Res(c.(head := Some(t), mode := Plain), [], |t|, None)
  {
    DelimFromNone(t, 0);
    DelimiterBytes(t[0]);
    assert t[0..] == t;
    LoopAtToken(c, t, 0);
    assert Step(c, t, 0) == StepBare(c, t, 0);
  }

  /** An input without a delimiter reads as one bare atom, which `Finish` reports. */
  lemma ScanBareAtom(t: seq<byte>)
    requires |t| > 0 && forall j :: 0 <= j < |t| ==> !IsDelim(t[j])
    ensures ScanString(Initial, t) == Outcome(State(|t|, Initial.core), [Atom(false, t, false)], None)
  {
    LoopBareWhole(Initial.core, t);
  }

  /** An input that is one closed quoted atom reads as that atom. */
  lemma ScanQuotedAtom(t: seq<byte>)
    requires |t| >= 2 && t[0] == QUOTE && SkipQ(t[1..]).atom == |t| - 2
    ensures ScanString(Initial, t) ==
      Outcome(State(|t|, Initial.core), [Atom(false, QText(t[1..|t| - 1], SkipQ(t[1..])), true)], None)
  {
    LoopQuoteClosed(Initial.core, t);
  }

  /** `\` then a bare atom: the atom is reported with meta set. */
  lemma ScanMetaBareAtom(t: seq<byte>)
    requires |t| > 0 && forall j :: 0 <= j < |t| ==> !IsDelim(t[j])
    ensures ScanString(Initial, [BACKSLASH] + t) == Outcome(State(|t| + 1, Initial.core), [Atom(true, t, false)], None)
  {
    var c0 := Initial.core;
    var cm := c0.(meta := true);
    var u := [BACKSLASH] + t;
    assert u[0] == BACKSLASH && [BACKSLASH] + t == u;
    LoopAtToken(c0, u, 0);
    StepAtMeta(c0, u, 0);
    LoopMoved(cm, Plain, [BACKSLASH], t, 0);
    LoopBareWhole(cm, t);
    assert Loop(c0, u, 0) == Res(cm.(head := Some(t)), [], |t| + 1, None);
  }

  /** `\` then a closed quoted atom: the atom is reported with meta set. */
  lemma ScanMetaQuotedAtom(t: seq<byte>)
    requires |t| >= 2 && t[0] == QUOTE && SkipQ(t[1..]).atom == |t| - 2
    ensures ScanString(Initial, [BACKSLASH] + t) ==
      Outcome(State(|t| + 1, Initial.core), [Atom(true, QText(t[1..|t| - 1], SkipQ(t[1..])), true)], None)
  {
    var c0 := Initial.core;
    var cm := c0.(meta := true);
    var u := [BACKSLASH] + t;
    assert u[0] == BACKSLASH && [BACKSLASH] + t == u;
    LoopAtToken(c0, u, 0);
    StepAtMeta(c0, u, 0);
    LoopMoved(cm, Plain, [BACKSLASH], t, 0);
    LoopQuoteClosed(cm, t);
    var text := QText(t[1..|t| - 1], SkipQ(t[1..]));
    assert Loop(c0, u, 0) == Res(c0, [Atom(true, text, true)], |t| + 1, None);
  }

  // ---------------------------------------------------------------------
  // The chunk boundary inside a quoted atom (scanner.go:337-349, 397-399).

  /**
   * `"\` then `"x"`: the first chunk ends on an escaping backslash right
   * after the opening quote, `qatomBuf` stays empty and `Scan` keeps the raw
   * backslash, so the atom reads `\"x`; the whole input reads `"x`, as does
   * the chunked reference continuation.
   */
  lemma SplitKeepsBackslash()
    ensures var o1 := Scan(Initial, [QUOTE, BACKSLASH]);
      var o2 := Scan(o1.state, [QUOTE, X, QUOTE]);
      o1.events + o2.events == [Atom(false, [BACKSLASH, QUOTE, X], true)]
    ensures Scan(Initial, [QUOTE, BACKSLASH, QUOTE, X, QUOTE]).events == [Atom(false, [QUOTE, X], true)]
    ensures var p := ReadQuoted([], false, [BACKSLASH]);
      !p.closed && ReadQuoted(p.text, p.esc, [QUOTE, X, QUOTE]).text == [QUOTE, X]
  {
    var c0 := Initial.core;
    // first chunk
    var t1 := [QUOTE, BACKSLASH];
    assert t1[1..] == [BACKSLASH];
    LoneBackslash();
    LoopQuotePending(c0, t1);
    var c1 := c0.(head := Some([BACKSLASH]), mode := QuoteEsc);
    // second chunk
    var t2 := [QUOTE, X, QUOTE];
    assert t2[1..] == [X, QUOTE];
    assert SkipQFrom([X, QUOTE], 1) == QScan(1, InQuote, []);
    assert SkipQFrom([X, QUOTE], 0) == QScan(1, InQuote, []);
    assert t2[1..2] == [X];
    assert [BACKSLASH] + [t2[0]] == [BACKSLASH, QUOTE];
    ResumeQuotedClosedAtEnd(c1, t2, 1, [BACKSLASH, QUOTE]);
    assert [BACKSLASH, QUOTE] + [X] == [BACKSLASH, QUOTE, X];
    var o1 := Scan(Initial, t1);
    assert o1 == Outcome(State(2, c1), [], None);
    assert Scan(o1.state, t2).events == [Atom(false, [BACKSLASH, QUOTE, X], true)];
    // the whole input
    var t := [QUOTE, BACKSLASH, QUOTE, X, QUOTE];
    var u := [BACKSLASH, QUOTE, X, QUOTE];
    assert t[1..] == u;
    assert EscLoop(u, 3, false, [QUOTE, X]) == QScan(3, InQuote, [QUOTE, X]);
    assert [QUOTE] + [X] == [QUOTE, X];
    assert EscLoop(u, 2, false, [QUOTE]) == QScan(3, InQuote, [QUOTE, X]);
    assert [] + [QUOTE] == [QUOTE];
    assert EscLoop(u, 1, true, []) == QScan(3, InQuote, [QUOTE, X]);
    assert SkipQFrom(u, 0) == QScan(3, InQuote, [QUOTE, X]);
    LoopQuoteClosed(c0, t);
    // the reference continuation
    assert QuotedRead([BACKSLASH], false) == QRead(-1, [], true);
    assert [QUOTE, X, QUOTE][1..] == [X, QUOTE];
    assert [X, QUOTE][1..] == [QUOTE];
    assert QuotedRead([X, QUOTE], false) == QRead(1, [X], false);
    assert QuotedRead([QUOTE, X, QUOTE], true) == QRead(2, [QUOTE, X], false);
  }

  /**
   * `"ab` then `c"`: the first chunk ends inside a quoted atom with no
   * escape pending and the second chunk closes it, so the two chunks report
   * the single atom `abc`, as the whole input does.
   */
  lemma SplitInQuoteAgrees()
    ensures var o1 := Scan(Initial, [QUOTE, A, B]);
      var o2 := Scan(o1.state, [C, QUOTE]);
      o1.events + o2.events == Scan(Initial, [QUOTE, A, B, C, QUOTE]).events == [Atom(false, [A, B, C], true)]
  {
    var c0 := Initial.core;
    assert [QUOTE, A, B][1..] == [A, B];
    assert SkipQFrom([A, B], 1) == QScan(-1, InQuote, []);
    assert SkipQFrom([A, B], 0) == QScan(-1, InQuote, []);
    LoopQuotePending(c0, [QUOTE, A, B]);
    assert SkipQFrom([C, QUOTE], 1) == QScan(1, InQuote, []);
    assert SkipQFrom([C, QUOTE], 0) == QScan(1, InQuote, []);
    ScanSplit.ScanSplit(Initial, [QUOTE, A, B], [C, QUOTE]);
    var t := [QUOTE, A, B, C, QUOTE];
    assert [QUOTE, A, B] + [C, QUOTE] == t;
    assert t[1..] == [A, B, C, QUOTE] && t[1..|t| - 1] == [A, B, C];
    assert SkipQFrom([A, B, C, QUOTE], 3) == QScan(3, InQuote, []);
    assert SkipQFrom([A, B, C, QUOTE], 2) == QScan(3, InQuote, []);
    assert SkipQFrom([A, B, C, QUOTE], 1) == QScan(3, InQuote, []);
    assert SkipQFrom([A, B, C, QUOTE], 0) == QScan(3, InQuote, []);
    LoopQuoteClosed(c0, t);
  }

  /**
   * `"a\` then `\b"`: the first chunk ends inside a quoted atom with an
   * escape pending and `qatomBuf` holding `a`, and the second chunk closes
   * it, so the two chunks report the single atom `a\b`, as the whole input
   * does.
   */
  lemma SplitEscAgrees()
    ensures var o1 := Scan(Initial, [QUOTE, A, BACKSLASH]);
      var o2 := Scan(o1.state, [BACKSLASH, B, QUOTE]);
      o1.events + o2.events == Scan(Initial, [QUOTE, A, BACKSLASH, BACKSLASH, B, QUOTE]).events ==
      [Atom(false, [A, BACKSLASH, B], true)]
  {
    var c0 := Initial.core;
    var t1 := [QUOTE, A, BACKSLASH];
    var x := [A, BACKSLASH];
    assert t1[1..] == x && x[..1] == [A];
    assert EscLoop(x, 2, true, [A]) == QScan(-1, QuoteEsc, [A]);
    assert SkipQFrom(x, 1) == QScan(-1, QuoteEsc, [A]);
    assert SkipQFrom(x, 0) == QScan(-1, QuoteEsc, [A]);
    LoopQuotePending(c0, t1);
    var t2 := [BACKSLASH, B, QUOTE];
    assert t2[1..] == [B, QUOTE];
    assert SkipQFrom([B, QUOTE], 1) == QScan(1, InQuote, []);
    assert SkipQFrom([B, QUOTE], 0) == QScan(1, InQuote, []);
    ScanSplit.ScanSplit(Initial, t1, t2);
    var t := [QUOTE, A, BACKSLASH, BACKSLASH, B, QUOTE];
    var u := [A, BACKSLASH, BACKSLASH, B, QUOTE];
    assert t1 + t2 == t && t[1..] == u && u[..1] == [A];
    assert EscLoop(u, 4, false, [A, BACKSLASH, B]) == QScan(4, InQuote, [A, BACKSLASH, B]);
    assert [A, BACKSLASH] + [B] == [A, BACKSLASH, B];
    assert EscLoop(u, 3, false, [A, BACKSLASH]) == QScan(4, InQuote, [A, BACKSLASH, B]);
    assert [A] + [BACKSLASH] == [A, BACKSLASH];
    assert EscLoop(u, 2, true, [A]) == QScan(4, InQuote, [A, BACKSLASH, B]);
    assert SkipQFrom(u, 1) == QScan(4, InQuote, [A, BACKSLASH, B]);
    assert SkipQFrom(u, 0) == QScan(4, InQuote, [A, BACKSLASH, B]);
    LoopQuoteClosed(c0, t);
  }

  /** A quoted atom cut after its first byte: the position stops counting the second chunk (scanner.go:348-349). */
  lemma SplitLosesPosition()
    ensures var o1 := Scan(Initial, [QUOTE, A]);
      var o2 := Scan(o1.state, [B]);
      o2.state.pos == 2 && Finish(o2.state).err == Some(ScanError(2, UnterminatedQuote))
    ensures Finish(Scan(Initial, [QUOTE, A, B]).state).err == Some(ScanError(3, UnterminatedQuote))
    ensures var p := ReadQuoted([], false, [A]); p.used + ReadQuoted(p.text, p.esc, [B]).used == 2
  {
    var c0 := Initial.core;
    assert [QUOTE, A][1..] == [A];
    assert SkipQFrom([A], 0) == QScan(-1, InQuote, []);
    LoopQuotePending(c0, [QUOTE, A]);
    var c1 := c0.(head := Some([A]), mode := InQuote);
    assert [B][0..] == [B];
    assert SkipQFrom([B], 0) == QScan(-1, InQuote, []);
    ResumeQuotedPending(c1, [B], 0, [A]);
    assert [A] + [B] == [A, B];
    assert [QUOTE, A, B][1..] == [A, B];
    assert SkipQFrom([A, B], 1) == QScan(-1, InQuote, []);
    assert SkipQFrom([A, B], 0) == QScan(-1, InQuote, []);
    LoopQuotePending(c0, [QUOTE, A, B]);
  }

  /**
   * `"a\`, `bc`, `"`: the second chunk continues an escape and has no
   * closing quote; `qatomBuf` stays empty and `Scan` appends the whole chunk
   * after the byte it already took, so the atom reads `abbc`; the whole input
   * reads `abc`.
   */
  lemma SplitRepeatsByte()
    ensures var o1 := Scan(Initial, [QUOTE, A, BACKSLASH]);
      var o2 := Scan(o1.state, [B, C]);
      var o3 := Scan(o2.state, [QUOTE]);
      o1.events + o2.events + o3.events == [Atom(false, [A, B, B, C], true)]
    ensures Scan(Initial, [QUOTE, A, BACKSLASH, B, C, QUOTE]).events == [Atom(false, [A, B, C], true)]
  {
    var c0 := Initial.core;
    var u1 := [A, BACKSLASH];
    assert [QUOTE, A, BACKSLASH][1..] == u1;
    assert u1[..1] == [A];
    assert EscLoop(u1, 2, true, [A]) == QScan(-1, QuoteEsc, [A]);
    assert SkipQFrom(u1, 1) == QScan(-1, QuoteEsc, [A]);
    assert SkipQFrom(u1, 0) == QScan(-1, QuoteEsc, [A]);
    LoopQuotePending(c0, [QUOTE, A, BACKSLASH]);
    var c1 := c0.(head := Some([A]), mode := QuoteEsc);
    assert [B, C][1..] == [C];
    assert SkipQFrom([C], 0) == QScan(-1, InQuote, []);
    ResumeQuotedPending(c1, [B, C], 1, [A, B]);
    assert [A, B] + [B, C] == [A, B, B, C];
    var c2 := c1.(head := Some([A, B, B, C]), mode := InQuote);
    assert [QUOTE][0..] == [QUOTE];
    assert SkipQFrom([QUOTE], 0) == QScan(0, InQuote, []);
    assert [QUOTE][0..0] == [];
    ResumeQuotedClosedAtEnd(c2, [QUOTE], 0, [A, B, B, C]);
    assert [A, B, B, C] + [] == [A, B, B, C];
    var u := [A, BACKSLASH, B, C, QUOTE];
    assert [QUOTE, A, BACKSLASH, B, C, QUOTE][1..] == u;
    assert u[..1] == [A];
    assert EscLoop(u, 4, false, [A, B, C]) == QScan(4, InQuote, [A, B, C]);
    assert [A, B] + [C] == [A, B, C];
    assert EscLoop(u, 3, false, [A, B]) == QScan(4, InQuote, [A, B, C]);
    assert [A] + [B] == [A, B];
    assert EscLoop(u, 2, true, [A]) == QScan(4, InQuote, [A, B, C]);
    assert SkipQFrom(u, 1) == QScan(4, InQuote, [A, B, C]);
    assert SkipQFrom(u, 0) == QScan(4, InQuote, [A, B, C]);
    LoopQuoteClosed(c0, [QUOTE, A, BACKSLASH, B, C, QUOTE]);
  }
}
