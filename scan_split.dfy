// Split invariance of the scanner: scanning `a` and then `b` gives the
// same events, errors and observable state as scanning `a + b`, provided
// the boundary does not fall inside a quoted atom, or falls inside one
// with no escape pending and `b` closes it.  In the other in-quote cases
// the code of scanner.go:337-349 and 397-399 loses that property; the
// counterexamples are in `ScanProps`.
module ScanSplit {
  import opened Common
  import opened ScanSpec

  // ---------------------------------------------------------------------
  // The skippers on a concatenation.

  lemma {:induction false} SpaceFromShift(x: seq<byte>, y: seq<byte>, i: nat)
    requires i <= |y|
    ensures SpaceFrom(x + y, |x| + i) == |x| + SpaceFrom(y, i)
    decreases |y| - i
  {
    if i < |y| {
      assert (x + y)[|x| + i] == y[i];
      SpaceFromShift(x, y, i + 1);
    }
  }

  lemma {:induction false} SpaceFromConcat(x: seq<byte>, y: seq<byte>, i: nat)
    requires i <= |x|
    ensures SpaceFrom(x + y, i) == if SpaceFrom(x, i) < |x| then SpaceFrom(x, i) else SpaceFrom(x + y, |x|)
    decreases |x| - i
  {
    if i < |x| {
      assert (x + y)[i] == x[i];
      SpaceFromConcat(x, y, i + 1);
    }
  }

  /** Whitespace at the front of `x + y`: that of `x`, continued into `y` when `x` is all whitespace. */
  lemma SkipSpaceConcat(x: seq<byte>, y: seq<byte>)
    ensures SkipSpace(x + y) == if SkipSpace(x) < |x| then SkipSpace(x) else |x| + SkipSpace(y)
  {
    SpaceFromConcat(x, y, 0);
    SpaceFromShift(x, y, 0);
  }

  lemma {:induction false} DelimFromShift(x: seq<byte>, y: seq<byte>, i: nat)
    requires i <= |y|
    ensures DelimFrom(x + y, |x| + i) == if DelimFrom(y, i) >= 0 then |x| + DelimFrom(y, i) else -1
    decreases |y| - i
  {
    if i < |y| {
      assert (x + y)[|x| + i] == y[i];
      DelimFromShift(x, y, i + 1);
    }
  }

  lemma {:induction false} DelimFromConcat(x: seq<byte>, y: seq<byte>, i: nat)
    requires i <= |x|
    ensures DelimFrom(x + y, i) == if DelimFrom(x, i) >= 0 then DelimFrom(x, i) else DelimFrom(x + y, |x|)
    decreases |x| - i
  {
    if i < |x| {
      assert (x + y)[i] == x[i];
      DelimFromConcat(x, y, i + 1);
    }
  }

  /** The end of a bare atom at the front of `x + y`: in `x`, else in `y`, else none. */
  lemma SkipUConcat(x: seq<byte>, y: seq<byte>)
    ensures SkipU(x + y) == if SkipU(x) >= 0 then SkipU(x)
                            else if SkipU(y) >= 0 then |x| + SkipU(y) else -1
  {
    DelimFromConcat(x, y, 0);
    DelimFromShift(x, y, 0);
  }

  lemma {:induction false} EscLoopConcat(x: seq<byte>, y: seq<byte>, j: nat, esc: bool, sb: seq<byte>)
    requires j <= |x| && EscLoop(x, j, esc, sb).atom >= 0
    ensures EscLoop(x + y, j, esc, sb) == EscLoop(x, j, esc, sb)
    decreases |x| - j
  {
    assert (x + y)[j] == x[j];
    if esc {
      EscLoopConcat(x, y, j + 1, false, sb + [x[j]]);
    } else if x[j] == QUOTE {
    } else if x[j] == BACKSLASH {
      EscLoopConcat(x, y, j + 1, true, sb);
    } else {
      EscLoopConcat(x, y, j + 1, false, sb + [x[j]]);
    }
  }

  lemma {:induction false} SkipQFromConcat(x: seq<byte>, y: seq<byte>, i: nat)
    requires i <= |x| && SkipQFrom(x, i).atom >= 0
    ensures SkipQFrom(x + y, i) == SkipQFrom(x, i)
    decreases |x| - i
  {
    assert (x + y)[i] == x[i];
    if x[i] == QUOTE {
    } else if x[i] == BACKSLASH {
      assert (x + y)[..i] == x[..i];
      EscLoopConcat(x, y, i + 1, true, x[..i]);
    } else {
      SkipQFromConcat(x, y, i + 1);
    }
  }

  /** A closed quoted atom is read the same whatever follows it. */
  lemma SkipQConcat(x: seq<byte>, y: seq<byte>)
    requires SkipQ(x).atom >= 0
    ensures SkipQ(x + y) == SkipQ(x)
  {
    SkipQFromConcat(x, y, 0);
  }

  /** Once a backslash has been taken, a scan that ends in the quote or closes it has added at least one byte to `qatomBuf`. */
  lemma {:induction false} EscGrows(t: seq<byte>, j: nat, esc: bool, sb: seq<byte>)
    requires j <= |t|
    ensures var q := EscLoop(t, j, esc, sb);
      |q.buf| >= |sb| && (esc && (q.atom >= 0 || q.mode == InQuote) ==> |q.buf| > |sb|)
    decreases |t| - j
  {
    if j < |t| {
      if esc || (t[j] != QUOTE && t[j] != BACKSLASH) {
        EscGrows(t, j + 1, false, sb + [t[j]]);
      } else if t[j] == BACKSLASH {
        EscGrows(t, j + 1, true, sb);
      }
    }
  }

  /** The unescaping loop read at offset `|p|`, with `s` already in the buffer. */
  lemma {:induction false} EscShift(p: seq<byte>, b: seq<byte>, j: nat, esc: bool, s: seq<byte>, sb: seq<byte>)
    requires j <= |b|
    ensures var q := EscLoop(b, j, esc, sb);
      EscLoop(p + b, |p| + j, esc, s + sb) == QScan(if q.atom >= 0 then |p| + q.atom else -1, q.mode, s + q.buf)
    decreases |b| - j
  {
    if j < |b| {
      assert (p + b)[|p| + j] == b[j];
      assert (s + sb) + [b[j]] == s + (sb + [b[j]]);
      if esc || (b[j] != QUOTE && b[j] != BACKSLASH) {
        EscShift(p, b, j + 1, false, s, sb + [b[j]]);
      } else if b[j] == BACKSLASH {
        EscShift(p, b, j + 1, true, s, sb);
      }
    }
  }

  /** An unescaping loop that ends in the quote of `x` goes on into `y` from the end of `x`, with the escape it ended with. */
  lemma {:induction false} EscJoin(x: seq<byte>, y: seq<byte>, j: nat, esc: bool, sb: seq<byte>)
    requires j <= |x| && EscLoop(x, j, esc, sb).atom < 0
    ensures var q := EscLoop(x, j, esc, sb);
      EscLoop(x + y, j, esc, sb) == EscLoop(x + y, |x|, q.mode == QuoteEsc, q.buf)
    decreases |x| - j
  {
    if j < |x| {
      assert (x + y)[j] == x[j];
      if esc || (x[j] != QUOTE && x[j] != BACKSLASH) {
        EscJoin(x, y, j + 1, false, sb + [x[j]]);
      } else if x[j] == BACKSLASH {
        EscJoin(x, y, j + 1, true, sb);
      }
    }
  }

  /** Scanning a quoted atom that closes, while every byte so far is being copied to `qatomBuf`, copies its text. */
  lemma {:induction false} SkipAsEsc(b: seq<byte>, i: nat, s: seq<byte>)
    requires i <= |b| && SkipQFrom(b, i).atom >= 0
    ensures var q := SkipQFrom(b, i);
      EscLoop(b, i, false, s + b[..i]) == QScan(q.atom, InQuote, s + QText(b[..q.atom], q))
    decreases |b| - i
  {
    var q := SkipQFrom(b, i);
    if b[i] == QUOTE {
    } else if b[i] == BACKSLASH {
      EscGrows(b, i + 1, true, b[..i]);
      EscShift([], b, i + 1, true, s, b[..i]);
      assert [] + b == b;
    } else {
      assert (s + b[..i]) + [b[i]] == s + b[..i + 1];
      SkipAsEsc(b, i + 1, s);
    }
  }

  /** A quoted atom that closes in `b`, read at offset `|x|` of `x + b`. */
  lemma {:induction false} SkipShift(x: seq<byte>, b: seq<byte>, j: nat)
    requires j <= |b| && SkipQFrom(b, j).atom >= 0
    ensures var q := SkipQFrom(b, j);
      SkipQFrom(x + b, |x| + j) == QScan(|x| + q.atom, InQuote, if q.buf == [] then [] else x + q.buf)
    decreases |b| - j
  {
    assert (x + b)[|x| + j] == b[j];
    if b[j] == QUOTE {
    } else if b[j] == BACKSLASH {
      EscGrows(b, j + 1, true, b[..j]);
      assert (x + b)[..|x| + j] == x + b[..j];
      EscShift(x, b, j + 1, true, x, b[..j]);
    } else {
      SkipShift(x, b, j + 1);
    }
  }

  /**
   * A quoted atom still open at the end of `x` (no escape pending) that
   * closes in `b`: in `x + b` it closes at the same place, and its text is
   * the part held after `x` followed by the part read from `b`.
   */
  lemma {:induction false} QuoteJoin(x: seq<byte>, b: seq<byte>, i: nat)
    requires i <= |x| && SkipQFrom(x, i).atom < 0 && SkipQFrom(x, i).mode == InQuote && SkipQ(b).atom >= 0
    ensures var qb := SkipQ(b); var w := SkipQFrom(x + b, i);
      w.atom == |x| + qb.atom &&
      QText((x + b)[..w.atom], w) == QText(x, SkipQFrom(x, i)) + QText(b[..qb.atom], qb)
    decreases |x| - i
  {
    var qb := SkipQ(b);
    if i == |x| {
      SkipShift(x, b, 0);
      assert (x + b)[..|x| + qb.atom] == x + b[..qb.atom];
    } else if x[i] == BACKSLASH {
      assert (x + b)[i] == x[i] && (x + b)[..i] == x[..i];
      EscGrows(x, i + 1, true, x[..i]);
      QuoteJoinEsc(x, b, i);
    } else if x[i] != QUOTE {
      assert (x + b)[i] == x[i];
      QuoteJoin(x, b, i + 1);
    }
  }

  /** `QuoteJoin` where `x` has a backslash at `i`: both scans go on in the unescaping loop. */
  lemma QuoteJoinEsc(x: seq<byte>, b: seq<byte>, i: nat)
    requires i < |x| && x[i] == BACKSLASH && SkipQ(b).atom >= 0
    requires EscLoop(x, i + 1, true, x[..i]).atom < 0 && EscLoop(x, i + 1, true, x[..i]).mode == InQuote
    ensures var qb := SkipQ(b); var qx := EscLoop(x, i + 1, true, x[..i]);
      var w := EscLoop(x + b, i + 1, true, x[..i]);
      w.atom == |x| + qb.atom && QText((x + b)[..w.atom], w) == qx.buf + QText(b[..qb.atom], qb)
  {
    var qx := EscLoop(x, i + 1, true, x[..i]);
    EscGrows(x, i + 1, true, x[..i]);
    EscJoin(x, b, i + 1, true, x[..i]);
    EscShift(x, b, 0, false, qx.buf, []);
    SkipAsEsc(b, 0, []);
    assert qx.buf + [] == qx.buf && [] + b[..0] == [];
  }

  /** From offset `i` on, a scan left with an escape pending holds at least `i` bytes in `qatomBuf`. */
  lemma {:induction false} SkipQFromBuf(x: seq<byte>, i: nat)
    requires i <= |x| && SkipQFrom(x, i).mode == QuoteEsc
    ensures |SkipQFrom(x, i).buf| >= i
    decreases |x| - i
  {
    if x[i] == BACKSLASH {
      EscGrows(x, i + 1, true, x[..i]);
    } else if x[i] != QUOTE {
      SkipQFromBuf(x, i + 1);
    }
  }

  /**
   * A quoted atom left with an escape pending and an empty `qatomBuf`: the
   * quote held only the backslash, and `StepQuote` holds that raw byte.
   */
  lemma EscPendingBuf(x: seq<byte>)
    requires SkipQ(x).atom < 0 && SkipQ(x).mode == QuoteEsc && SkipQ(x).buf == []
    ensures x == [BACKSLASH]
  {
    assert |x| > 0;
    if x[0] == BACKSLASH {
      if |x| > 1 {
        assert x[..0] + [x[1]] == [x[1]];
        EscGrows(x, 2, false, [x[1]]);
      }
    } else if x[0] != QUOTE {
      SkipQFromBuf(x, 1);
    }
  }

  /**
   * A quoted atom of `x` left with an escape pending, closed in `b` after
   * the escaped byte `b[0]`: in `x + b` it closes at the same place, and
   * its unescaped text is the buffer held after `x`, then `b[0]`, then the
   * text read from the rest of `b`.
   */
  lemma {:induction false} QuoteJoinPending(x: seq<byte>, b: seq<byte>, i: nat)
    requires i <= |x| && SkipQFrom(x, i).atom < 0 && SkipQFrom(x, i).mode == QuoteEsc
    requires |b| > 0 && SkipQ(b[1..]).atom >= 0
    ensures var qx := SkipQFrom(x, i); var qb := SkipQ(b[1..]); var w := SkipQFrom(x + b, i);
      w.atom == |x| + 1 + qb.atom && w.buf == qx.buf + [b[0]] + QText(b[1..][..qb.atom], qb)
    decreases |x| - i
  {
    if i < |x| && x[i] == BACKSLASH {
      assert (x + b)[i] == x[i] && (x + b)[..i] == x[..i];
      EscPendingJoin(x, b, i);
    } else if i < |x| && x[i] != QUOTE {
      assert (x + b)[i] == x[i];
      QuoteJoinPending(x, b, i + 1);
    }
  }

  /** `QuoteJoinPending` where `x` has its first backslash at `i`: the unescaping loop runs to the end of `x`, then goes on into `b`. */
  lemma {:induction false} EscPendingJoin(x: seq<byte>, b: seq<byte>, i: nat)
    requires i < |x| && x[i] == BACKSLASH && |b| > 0 && SkipQ(b[1..]).atom >= 0
    requires EscLoop(x, i + 1, true, x[..i]).atom < 0 && EscLoop(x, i + 1, true, x[..i]).mode == QuoteEsc
    ensures var qx := EscLoop(x, i + 1, true, x[..i]); var qb := SkipQ(b[1..]);
      var w := EscLoop(x + b, i + 1, true, x[..i]);
      w.atom == |x| + 1 + qb.atom && w.buf == qx.buf + [b[0]] + QText(b[1..][..qb.atom], qb)
  {
    EscJoin(x, b, i + 1, true, x[..i]);
    EscPendingTail(x, b, EscLoop(x, i + 1, true, x[..i]).buf);
  }

  /** An unescaping loop with an escape pending at the end of `x` takes `b[0]`, then reads the rest of `b` up to its quote. */
  lemma {:induction false} EscPendingTail(x: seq<byte>, b: seq<byte>, s: seq<byte>)
    requires |b| > 0 && SkipQ(b[1..]).atom >= 0
    ensures var qb := SkipQ(b[1..]); var w := EscLoop(x + b, |x|, true, s);
      w.atom == |x| + 1 + qb.atom && w.buf == s + [b[0]] + QText(b[1..][..qb.atom], qb)
  {
    var rest := b[1..];
    var qb := SkipQ(rest);
    var p := x + [b[0]];
    var s1 := s + [b[0]];
    var text := QText(rest[..qb.atom], qb);
    SplitFirst(x, b);
    assert EscLoop(x + b, |x|, true, s) == EscLoop(x + b, |x| + 1, false, s1);
    EscFromStart(rest);
    EscShiftStart(p, rest, s1);
    assert EscLoop(p + rest, |x| + 1, false, s1) == QScan(|p| + qb.atom, InQuote, s1 + text);
  }

  /** `EscShift` from the start of `b` with nothing held there. */
  lemma {:induction false} EscShiftStart(p: seq<byte>, b: seq<byte>, s: seq<byte>)
    ensures var q := EscLoop(b, 0, false, []);
      EscLoop(p + b, |p|, false, s) == QScan(if q.atom >= 0 then |p| + q.atom else -1, q.mode, s + q.buf)
  {
    var e: seq<byte> := [];
    EscShift(p, b, 0, false, s, e);
    assert s + e == s;
  }

  /** Sequence facts for `EscPendingTail`: `x + b` is `x` and `b[0]`, then the rest of `b`. */
  lemma SplitFirst(x: seq<byte>, b: seq<byte>)
    requires |b| > 0
    ensures (x + b)[|x|] == b[0] && x + b == (x + [b[0]]) + b[1..] && |x + [b[0]]| == |x| + 1
  {
  }

  /** A quoted atom that closes, read by the unescaping loop from its start with nothing held. */
  lemma {:induction false} EscFromStart(b: seq<byte>)
    requires SkipQ(b).atom >= 0
    ensures var q := SkipQ(b); EscLoop(b, 0, false, []) == QScan(q.atom, InQuote, QText(b[..q.atom], q))
  {
    var q := SkipQ(b);
    var e: seq<byte> := [];
    SkipAsEsc(b, 0, e);
    assert e + b[..0] == e && e + QText(b[..q.atom], q) == QText(b[..q.atom], q);
  }

  // ---------------------------------------------------------------------
  // Moving a scan to a later offset of a longer input.

  /** A result read at offset `k`. */
  function Shift(r: Res, k: int): Res
  {
    r.(rp := r.rp + k)
  }

  /** A result whose (unobservable) head mode is `m` when no token is pending. */
  function Remode(r: Res, m: HeadMode): Res
  {
    if r.core.head.None? then r.(core := r.core.(mode := m)) else r
  }

  function Moved(r: Res, k: int, m: HeadMode): Res
  {
    Remode(Shift(r, k), m)
  }

  lemma MovedPrepend(evs: seq<Event>, r: Res, k: int, m: HeadMode)
    ensures Moved(Prepend(evs, r), k, m) == Prepend(evs, Moved(r, k, m))
  {
  }

  /** An atom followed by the rest of the loop, read at offset `|p|`. */
  lemma AtomThenMoved(c: Core, m: HeadMode, p: seq<byte>, b: seq<byte>, k: nat, e: Event)
    requires c.head == None && k <= |b|
    ensures Prepend([e], Loop(c.(mode := m), p + b, |p| + k)) == Moved(Prepend([e], Loop(c, b, k)), |p|, m)
  {
    LoopMoved(c, m, p, b, k);
    MovedPrepend([e], Loop(c, b, k), |p|, m);
  }

  /**
   * The scan loop looks only at the bytes from `rp` on, and the head mode
   * it starts with only survives in its result while no token is pending.
   */
  lemma {:induction false} LoopMoved(c: Core, m: HeadMode, p: seq<byte>, b: seq<byte>, i: nat)
    requires c.head == None && i <= |b|
    ensures Loop(c.(mode := m), p + b, |p| + i) == Moved(Loop(c, b, i), |p|, m)
    decreases |b| - i, 4
  {
    var t := p + b;
    assert t[|p| + i..] == b[i..];
    if i < |b| {
      if SkipSpace(b[i..]) > 0 {
        LoopSpaceMoved(c, m, p, b, i);
      } else {
        StepMoved(c, m, p, b, i);
      }
    }
  }

  /** `LoopMoved` at a whitespace run. */
  lemma {:induction false} LoopSpaceMoved(c: Core, m: HeadMode, p: seq<byte>, b: seq<byte>, i: nat)
    requires c.head == None && i < |b| && SkipSpace(b[i..]) > 0 && (p + b)[|p| + i..] == b[i..]
    ensures Loop(c.(mode := m), p + b, |p| + i) == Moved(Loop(c, b, i), |p|, m)
    decreases |b| - i, 3
  {
    var wse := SkipSpace(b[i..]);
    var evs := if c.meta then [Atom(false, MetaAtom, false)] else [];
    var c1 := c.(meta := false);
    LoopSpaceRun(c, b, i);
    LoopSpaceRun(c.(mode := m), p + b, |p| + i);
    assert c.(mode := m).(meta := false) == c1.(mode := m);
    if i + wse < |b| {
      StepMoved(c1, m, p, b, i + wse);
      MovedPrepend(evs, Step(c1, b, i + wse), |p|, m);
    }
  }

  lemma {:induction false} StepMoved(c: Core, m: HeadMode, p: seq<byte>, b: seq<byte>, i: nat)
    requires c.head == None && i < |b| && !IsAny(b[i], ccSpace)
    ensures (p + b)[|p| + i] == b[i]
    ensures Step(c.(mode := m), p + b, |p| + i) == Moved(Step(c, b, i), |p|, m)
    decreases |b| - i, 2
  {
    var x := b[i];
    assert (p + b)[|p| + i] == x;
    if IsOpen(x) {
      StepOpenMoved(c, m, p, b, i);
    } else if IsClose(x) {
      StepCloseMoved(c, m, p, b, i);
    } else if x == QUOTE {
      StepQuoteMoved(c, m, p, b, i);
    } else if x == BACKSLASH {
      StepMetaMoved(c, m, p, b, i);
    } else {
      StepBareMoved(c, m, p, b, i);
    }
  }

  lemma {:induction false} StepOpenMoved(c: Core, m: HeadMode, p: seq<byte>, b: seq<byte>, i: nat)
    requires c.head == None && i < |b| && IsOpen(b[i]) && (p + b)[|p| + i] == b[i]
    ensures StepOpen(c.(mode := m), p + b, |p| + i) == Moved(StepOpen(c, b, i), |p|, m)
    decreases |b| - i, 1
  {
    var c1 := c.(nest := c.nest + [Nesting(c.meta, Closing(b[i]))], meta := false);
    LoopMoved(c1, m, p, b, i + 1);
  }

  lemma {:induction false} StepCloseMoved(c: Core, m: HeadMode, p: seq<byte>, b: seq<byte>, i: nat)
    requires c.head == None && i < |b| && IsClose(b[i]) && (p + b)[|p| + i] == b[i]
    ensures StepClose(c.(mode := m), p + b, |p| + i) == Moved(StepClose(c, b, i), |p|, m)
    decreases |b| - i, 1
  {
    var (c1, evs, err) := CallEnd(c, b[i]);
    assert CallEnd(c.(mode := m), b[i]) == (c1.(mode := m), evs, err);
    if err.None? {
      LoopMoved(c1, m, p, b, i + 1);
    }
  }

  /** `StepQuote` on a quoted atom that closes within the chunk, with its parts named. */
  lemma StepQuoteClosed(c: Core, t: seq<byte>, rp: nat, q: QScan, text: seq<byte>, c1: Core, k: nat)
    requires rp < |t| && t[rp] == QUOTE && q == SkipQ(t[rp + 1..]) && q.atom >= 0
    requires text == QText(t[rp + 1..rp + 1 + q.atom], q) && c1 == c.(meta := false) && k == rp + 1 + q.atom + 1
    ensures k <= |t|
    ensures StepQuote(c, t, rp) == Prepend([Atom(c.meta, text, true)], Loop(c1, t, k))
  {
  }

  lemma {:induction false} StepQuoteMoved(c: Core, m: HeadMode, p: seq<byte>, b: seq<byte>, i: nat)
    requires c.head == None && i < |b| && b[i] == QUOTE && (p + b)[|p| + i] == b[i]
    ensures StepQuote(c.(mode := m), p + b, |p| + i) == Moved(StepQuote(c, b, i), |p|, m)
    decreases |b| - i, 1
  {
    assert (p + b)[|p| + i + 1..] == b[i + 1..];
    if SkipQ(b[i + 1..]).atom < 0 {
      StepQuotePending(c, m, p, b, i);
    } else {
      StepQuoteEnded(c, m, p, b, i);
    }
  }

  lemma StepQuotePending(c: Core, m: HeadMode, p: seq<byte>, b: seq<byte>, i: nat)
    requires c.head == None && i < |b| && b[i] == QUOTE && (p + b)[|p| + i] == b[i]
    requires (p + b)[|p| + i + 1..] == b[i + 1..] && SkipQ(b[i + 1..]).atom < 0
    ensures StepQuote(c.(mode := m), p + b, |p| + i) == Moved(StepQuote(c, b, i), |p|, m)
  {
  }

  lemma {:induction false} StepQuoteEnded(c: Core, m: HeadMode, p: seq<byte>, b: seq<byte>, i: nat)
    requires c.head == None && i < |b| && b[i] == QUOTE && (p + b)[|p| + i] == b[i]
    requires (p + b)[|p| + i + 1..] == b[i + 1..] && SkipQ(b[i + 1..]).atom >= 0
    ensures StepQuote(c.(mode := m), p + b, |p| + i) == Moved(StepQuote(c, b, i), |p|, m)
    decreases |b| - i, 0
  {
    var q := SkipQ(b[i + 1..]);
    var k := i + 1 + q.atom + 1;
    var text := QText(b[i + 1..i + 1 + q.atom], q);
    QuoteEndedBoth(c, m, p, b, i);
    LoopMoved(c.(meta := false), m, p, b, k);
    MovedPrepend([Atom(c.meta, text, true)], Loop(c.(meta := false), b, k), |p|, m);
  }

  /** The quoted atom of `StepQuoteEnded`, read in `b` and at offset `|p|` of `p + b`. */
  lemma QuoteEndedBoth(c: Core, m: HeadMode, p: seq<byte>, b: seq<byte>, i: nat)
    requires i < |b| && b[i] == QUOTE && (p + b)[|p| + i] == b[i]
    requires (p + b)[|p| + i + 1..] == b[i + 1..] && SkipQ(b[i + 1..]).atom >= 0
    ensures var q := SkipQ(b[i + 1..]); var k := i + 1 + q.atom + 1;
      var e := Atom(c.meta, QText(b[i + 1..i + 1 + q.atom], q), true);
      k <= |b| &&
      StepQuote(c, b, i) == Prepend([e], Loop(c.(meta := false), b, k)) &&
      StepQuote(c.(mode := m), p + b, |p| + i) == Prepend([e], Loop(c.(meta := false).(mode := m), p + b, |p| + k))
  {
    var t := p + b;
    var q := SkipQ(b[i + 1..]);
    var k := i + 1 + q.atom + 1;
    var text := QText(b[i + 1..i + 1 + q.atom], q);
    assert t[|p| + i + 1..|p| + i + 1 + q.atom] == b[i + 1..i + 1 + q.atom];
    StepQuoteClosed(c, b, i, q, text, c.(meta := false), k);
    StepQuoteClosed(c.(mode := m), t, |p| + i, q, text, c.(meta := false).(mode := m), |p| + k);
  }

  lemma {:induction false} StepMetaMoved(c: Core, m: HeadMode, p: seq<byte>, b: seq<byte>, i: nat)
    requires c.head == None && i < |b| && b[i] == BACKSLASH && (p + b)[|p| + i] == b[i]
    ensures StepMeta(c.(mode := m), p + b, |p| + i) == Moved(StepMeta(c, b, i), |p|, m)
    decreases |b| - i, 1
  {
    LoopMoved(c.(meta := !c.meta), m, p, b, i + 1);
  }

  /** `StepBare` on a bare atom that ends within the chunk, with its parts named. */
  lemma StepBareClosed(c: Core, t: seq<byte>, rp: nat, a: int, text: seq<byte>, c1: Core, k: nat)
    requires rp < |t| && !IsDelim(t[rp]) && a == SkipU(t[rp..]) && a >= 0
    requires text == t[rp..rp + a] && c1 == c.(meta := false) && k == rp + a
    ensures k <= |t|
    ensures StepBare(c, t, rp) == Prepend([Atom(c.meta, text, false)], Loop(c1, t, k))
  {
  }

  lemma {:induction false} StepBareMoved(c: Core, m: HeadMode, p: seq<byte>, b: seq<byte>, i: nat)
    requires c.head == None && i < |b| && !IsDelim(b[i]) && (p + b)[|p| + i] == b[i]
    ensures StepBare(c.(mode := m), p + b, |p| + i) == Moved(StepBare(c, b, i), |p|, m)
    decreases |b| - i, 1
  {
    assert (p + b)[|p| + i..] == b[i..];
    if SkipU(b[i..]) < 0 {
      StepBarePending(c, m, p, b, i);
    } else {
      StepBareEnded(c, m, p, b, i);
    }
  }

  lemma StepBarePending(c: Core, m: HeadMode, p: seq<byte>, b: seq<byte>, i: nat)
    requires c.head == None && i < |b| && !IsDelim(b[i]) && (p + b)[|p| + i] == b[i]
    requires (p + b)[|p| + i..] == b[i..] && SkipU(b[i..]) < 0
    ensures StepBare(c.(mode := m), p + b, |p| + i) == Moved(StepBare(c, b, i), |p|, m)
  {
    assert c.(mode := m).(head := Some(b[i..]), mode := Plain) == c.(head := Some(b[i..]), mode := Plain);
  }

  lemma {:induction false} StepBareEnded(c: Core, m: HeadMode, p: seq<byte>, b: seq<byte>, i: nat)
    requires c.head == None && i < |b| && !IsDelim(b[i]) && (p + b)[|p| + i] == b[i]
    requires (p + b)[|p| + i..] == b[i..] && SkipU(b[i..]) >= 0
    ensures StepBare(c.(mode := m), p + b, |p| + i) == Moved(StepBare(c, b, i), |p|, m)
    decreases |b| - i, 0
  {
    var t := p + b;
    var a := SkipU(b[i..]);
    assert t[|p| + i..|p| + i + a] == b[i..i + a];
    StepBareClosed(c, b, i, a, b[i..i + a], c.(meta := false), i + a);
    StepBareClosed(c.(mode := m), t, |p| + i, a, b[i..i + a], c.(meta := false).(mode := m), |p| + i + a);
    LoopMoved(c.(meta := false), m, p, b, i + a);
    MovedPrepend([Atom(c.meta, b[i..i + a], false)], Loop(c.(meta := false), b, i + a), |p|, m);
  }

  // ---------------------------------------------------------------------
  // Scanning a longer input: up to the end of `a`, the loop over `a + b`
  // does what the loop over `a` does.

  /**
   * A result after which scanning can go on with the chunk `b` the same way
   * it goes on in a longer input: an error, nothing pending, a pending bare
   * token, a quoted atom with no escape pending that `b` closes, or one
   * with an escape pending that `b` closes (`EscClosedBy`).
   */
  predicate Splittable(r: Res, b: seq<byte>)
  {
    r.err.Some? || r.core.head.None? || r.core.mode == Plain || (r.core.mode == InQuote && SkipQ(b).atom >= 0) ||
    EscClosedBy(r.core, b)
  }

  /**
   * A quoted atom held with an escape pending that `b` closes after the
   * escaped byte `b[0]`, the held text being other than a lone backslash
   * (which `StepQuote` holds raw when `qatomBuf` is still empty).
   */
  predicate EscClosedBy(c: Core, b: seq<byte>)
  {
    c.mode == QuoteEsc && c.head.Some? && c.head.value != [BACKSLASH] && |b| > 0 && SkipQ(b[1..]).atom >= 0
  }

  /**
   * What the loop over `a + b` gives, from the point where the loop over
   * `a` gave `r`: the same error; or the rest of the loop from offset `|a|`;
   * or, with a token pending, the continuation `Resume` over `b` read at
   * offset `|a|`.  `m` is the head mode the loop started with.
   */
  function Glue(m: HeadMode, r: Res, a: seq<byte>, b: seq<byte>): Res
  {
    if r.err.Some? || (r.core.head.Some? && (!Splittable(r, b) || |b| == 0)) then r
    else if r.core.head.None? then Prepend(r.events, Loop(r.core, a + b, |a|))
    else Prepend(r.events, Moved(Resume(r.core, b), |a|, m))
  }

  lemma GluePrepend(m: HeadMode, evs: seq<Event>, r: Res, a: seq<byte>, b: seq<byte>)
    ensures Splittable(Prepend(evs, r), b) == Splittable(r, b)
    ensures Glue(m, Prepend(evs, r), a, b) == Prepend(evs, Glue(m, r, a, b))
  {
    if r.err.None? && r.core.head.None? {
      PrependTwice(evs, r.events, Loop(r.core, a + b, |a|));
    } else if r.err.None? && Splittable(r, b) && |b| > 0 {
      PrependTwice(evs, r.events, Moved(Resume(r.core, b), |a|, m));
    }
  }

  lemma {:induction false} LoopPrefix(c: Core, a: seq<byte>, b: seq<byte>, rp: nat)
    requires c.head == None && rp <= |a| && |b| > 0 && Splittable(Loop(c, a, rp), b)
    ensures Loop(c, a + b, rp) == Glue(c.mode, Loop(c, a, rp), a, b)
    decreases |a| - rp, 3
  {
    if rp == |a| {
      assert [] + Loop(c, a + b, |a|).events == Loop(c, a + b, |a|).events;
    } else {
      var t := a + b;
      assert t[rp..] == a[rp..] + b;
      SkipSpaceConcat(a[rp..], b);
      var wse := SkipSpace(a[rp..]);
      if wse > 0 {
        if rp + wse == |a| {
          LoopPrefixSpaceEnd(c, a, b, rp);
        } else {
          var evs := if c.meta then [Atom(false, MetaAtom, false)] else [];
          StepPrefix(c.(meta := false), a, b, rp + wse);
          GluePrepend(c.mode, evs, Step(c.(meta := false), a, rp + wse), a, b);
        }
      } else {
        StepPrefix(c, a, b, rp);
      }
    }
  }

  /** The loop over `a` ends in whitespace: the whitespace run goes on into `b`. */
  lemma LoopPrefixSpaceEnd(c: Core, a: seq<byte>, b: seq<byte>, rp: nat)
    requires c.head == None && rp < |a| && |b| > 0
    requires SkipSpace(a[rp..]) > 0 && rp + SkipSpace(a[rp..]) == |a|
    requires SkipSpace((a + b)[rp..]) == |a| - rp + SkipSpace(b)
    ensures Loop(c, a + b, rp) == Glue(c.mode, Loop(c, a, rp), a, b)
  {
    LoopSpaceRun(c, a, rp);
    LoopSpaceThrough(c, a, b, rp);
  }

  /** A whitespace run reaching past the end of `a`: flush the meta, then the loop from `|a|` on. */
  lemma LoopSpaceThrough(c: Core, a: seq<byte>, b: seq<byte>, rp: nat)
    requires rp < |a| && |b| > 0
    requires SkipSpace((a + b)[rp..]) == |a| - rp + SkipSpace(b)
    ensures var evs := if c.meta then [Atom(false, MetaAtom, false)] else [];
      Loop(c, a + b, rp) == Prepend(evs, Loop(c.(meta := false), a + b, |a|))
  {
    var t := a + b;
    assert t[|a|..] == b;
    var evs := if c.meta then [Atom(false, MetaAtom, false)] else [];
    var c1 := c.(meta := false);
    var w := SkipSpace(b);
    assert SkipSpace(t[|a|..]) == w;
    LoopSpaceRun(c, t, rp);
    LoopAfterSpace(c1, t, |a|);
    if w == |b| {
      assert evs + [] == evs;
    }
  }

  /** The loop at a whitespace run: the pending meta is flushed, then the loop goes on after the run. */
  lemma LoopSpaceRun(c: Core, t: seq<byte>, rp: nat)
    requires rp < |t| && SkipSpace(t[rp..]) > 0
    ensures var w := SkipSpace(t[rp..]);
      var evs := if c.meta then [Atom(false, MetaAtom, false)] else [];
      Loop(c, t, rp) ==
        if rp + w == |t| then Res(c.(meta := false), evs, |t|, None)
        else Prepend(evs, Step(c.(meta := false), t, rp + w))
  {
  }

  /** The loop where the whitespace run of `t` from `rp` stopped, with no meta pending. */
  lemma LoopAfterSpace(c: Core, t: seq<byte>, rp: nat)
    requires !c.meta && rp < |t|
    ensures var w := SkipSpace(t[rp..]);
      Loop(c, t, rp) ==
        if w == 0 then Step(c, t, rp)
        else if rp + w == |t| then Res(c, [], |t|, None)
        else Step(c, t, rp + w)
  {
    var w := SkipSpace(t[rp..]);
    if w > 0 && rp + w < |t| {
      assert [] + Step(c, t, rp + w).events == Step(c, t, rp + w).events;
    }
  }

  lemma {:induction false} StepPrefix(c: Core, a: seq<byte>, b: seq<byte>, rp: nat)
    requires c.head == None && rp < |a| && !IsAny(a[rp], ccSpace) && |b| > 0
    requires Splittable(Step(c, a, rp), b)
    ensures (a + b)[rp] == a[rp]
    ensures Step(c, a + b, rp) == Glue(c.mode, Step(c, a, rp), a, b)
    decreases |a| - rp, 2
  {
    var x := a[rp];
    assert (a + b)[rp] == x;
    if IsOpen(x) {
      StepOpenPrefix(c, a, b, rp);
    } else if IsClose(x) {
      StepClosePrefix(c, a, b, rp);
    } else if x == QUOTE {
      StepQuotePrefix(c, a, b, rp);
    } else if x == BACKSLASH {
      StepMetaPrefix(c, a, b, rp);
    } else {
      StepBarePrefix(c, a, b, rp);
    }
  }

  lemma {:induction false} StepOpenPrefix(c: Core, a: seq<byte>, b: seq<byte>, rp: nat)
    requires c.head == None && rp < |a| && IsOpen(a[rp]) && (a + b)[rp] == a[rp] && |b| > 0
    requires Splittable(StepOpen(c, a, rp), b)
    ensures StepOpen(c, a + b, rp) == Glue(c.mode, StepOpen(c, a, rp), a, b)
    decreases |a| - rp, 1
  {
    var c1 := c.(nest := c.nest + [Nesting(c.meta, Closing(a[rp]))], meta := false);
    assert StepOpen(c, a, rp) == Prepend([Begin(c.meta, a[rp])], Loop(c1, a, rp + 1));
    LoopPrefix(c1, a, b, rp + 1);
    GluePrepend(c.mode, [Begin(c.meta, a[rp])], Loop(c1, a, rp + 1), a, b);
  }

  lemma {:induction false} StepClosePrefix(c: Core, a: seq<byte>, b: seq<byte>, rp: nat)
    requires c.head == None && rp < |a| && IsClose(a[rp]) && (a + b)[rp] == a[rp] && |b| > 0
    requires Splittable(StepClose(c, a, rp), b)
    ensures StepClose(c, a + b, rp) == Glue(c.mode, StepClose(c, a, rp), a, b)
    decreases |a| - rp, 1
  {
    var (c1, evs, err) := CallEnd(c, a[rp]);
    if err.None? {
      assert StepClose(c, a, rp) == Prepend(evs, Loop(c1, a, rp + 1));
      LoopPrefix(c1, a, b, rp + 1);
      GluePrepend(c.mode, evs, Loop(c1, a, rp + 1), a, b);
    }
  }

  lemma {:induction false} StepMetaPrefix(c: Core, a: seq<byte>, b: seq<byte>, rp: nat)
    requires c.head == None && rp < |a| && a[rp] == BACKSLASH && (a + b)[rp] == a[rp] && |b| > 0
    requires Splittable(StepMeta(c, a, rp), b)
    ensures StepMeta(c, a + b, rp) == Glue(c.mode, StepMeta(c, a, rp), a, b)
    decreases |a| - rp, 1
  {
    var evs := if c.meta then [Atom(true, MetaAtom, false)] else [];
    assert StepMeta(c, a, rp) == Prepend(evs, Loop(c.(meta := !c.meta), a, rp + 1));
    LoopPrefix(c.(meta := !c.meta), a, b, rp + 1);
    GluePrepend(c.mode, evs, Loop(c.(meta := !c.meta), a, rp + 1), a, b);
  }

  lemma {:induction false} StepQuotePrefix(c: Core, a: seq<byte>, b: seq<byte>, rp: nat)
    requires c.head == None && rp < |a| && a[rp] == QUOTE && (a + b)[rp] == a[rp] && |b| > 0
    requires Splittable(StepQuote(c, a, rp), b)
    ensures StepQuote(c, a + b, rp) == Glue(c.mode, StepQuote(c, a, rp), a, b)
    decreases |a| - rp, 1
  {
    var q := SkipQ(a[rp + 1..]);
    if q.atom >= 0 {
      var t := a + b;
      assert t[rp + 1..] == a[rp + 1..] + b;
      SkipQConcat(a[rp + 1..], b);
      assert t[rp + 1..rp + 1 + q.atom] == a[rp + 1..rp + 1 + q.atom];
      var k := rp + 1 + q.atom + 1;
      var text := QText(a[rp + 1..rp + 1 + q.atom], q);
      StepQuoteClosed(c, a, rp, q, text, c.(meta := false), k);
      StepQuoteClosed(c, t, rp, q, text, c.(meta := false), k);
      LoopPrefix(c.(meta := false), a, b, k);
      GluePrepend(c.mode, [Atom(c.meta, text, true)], Loop(c.(meta := false), a, k), a, b);
    } else if q.mode == InQuote {
      StepQuotePendingPrefix(c, a, b, rp);
    } else {
      var x := a[rp + 1..];
      if q.buf == [] {
        EscPendingBuf(x);
      }
      StepQuoteEscPrefix(c, a, b, rp);
    }
  }

  /** A quoted atom runs to the end of `a` and `b` closes it: in `a + b` it goes on as `Resume` does over `b`. */
  lemma StepQuotePendingPrefix(c: Core, a: seq<byte>, b: seq<byte>, rp: nat)
    requires c.head == None && rp < |a| && a[rp] == QUOTE && (a + b)[rp] == a[rp] && |b| > 0
    requires SkipQ(a[rp + 1..]).atom < 0 && SkipQ(a[rp + 1..]).mode == InQuote && SkipQ(b).atom >= 0
    ensures StepQuote(c, a + b, rp) == Glue(c.mode, StepQuote(c, a, rp), a, b)
  {
    var x := a[rp + 1..];
    var ch := c.(head := Some(QText(x, SkipQ(x))), mode := InQuote);
    var moved := Moved(Resume(ch, b), |a|, c.mode);
    QuoteJoined(c, a, b, rp);
    QuoteResumedMoved(c, QText(x, SkipQ(x)), a, b, SkipQ(b).atom + 1);
    assert StepQuote(c, a + b, rp) == moved;
    assert [] + moved.events == moved.events;
    QuotePendingGlue(c, a, b, rp);
  }

  /** A quoted atom runs to the end of `a` with an escape pending, and `b` closes it: in `a + b` it goes on as `Resume` does over `b`. */
  lemma StepQuoteEscPrefix(c: Core, a: seq<byte>, b: seq<byte>, rp: nat)
    requires c.head == None && rp < |a| && a[rp] == QUOTE && (a + b)[rp] == a[rp] && |b| > 0
    requires SkipQ(a[rp + 1..]).atom < 0 && SkipQ(a[rp + 1..]).mode == QuoteEsc
    requires SkipQ(a[rp + 1..]).buf != [] && SkipQ(a[rp + 1..]).buf != [BACKSLASH] && SkipQ(b[1..]).atom >= 0
    ensures StepQuote(c, a + b, rp) == Glue(c.mode, StepQuote(c, a, rp), a, b)
  {
    var x := a[rp + 1..];
    var h := SkipQ(x).buf;
    var ch := c.(head := Some(h), mode := QuoteEsc);
    assert StepQuote(c, a, rp) == Res(ch, [], |a|, None);
    var moved := Moved(Resume(ch, b), |a|, c.mode);
    assert Glue(c.mode, Res(ch, [], |a|, None), a, b) == Prepend([], moved);
    QuoteEscJoined(c, a, b, rp);
    QuoteEscResumedMoved(c, h, a, b, SkipQ(b[1..]).atom + 2);
    assert [] + moved.events == moved.events;
  }

  /** In `a + b`, the quoted atom of `StepQuoteEscPrefix` closes in `b` with the joined text. */
  lemma QuoteEscJoined(c: Core, a: seq<byte>, b: seq<byte>, rp: nat)
    requires rp < |a| && a[rp] == QUOTE && (a + b)[rp] == a[rp] && |b| > 0
    requires SkipQ(a[rp + 1..]).atom < 0 && SkipQ(a[rp + 1..]).mode == QuoteEsc && SkipQ(b[1..]).atom >= 0
    ensures var x := a[rp + 1..]; var qb := SkipQ(b[1..]);
      |a| + (qb.atom + 2) <= |a + b| &&
      StepQuote(c, a + b, rp) == Prepend([Atom(c.meta, SkipQ(x).buf + [b[0]] + QText(b[1..][..qb.atom], qb), true)],
                                         Loop(c.(meta := false), a + b, |a| + (qb.atom + 2)))
  {
    var t := a + b;
    var x := a[rp + 1..];
    var qb := SkipQ(b[1..]);
    var text := SkipQ(x).buf + [b[0]] + QText(b[1..][..qb.atom], qb);
    assert t[rp + 1..] == x + b;
    var w := SkipQ(x + b);
    QuoteJoinPending(x, b, 0);
    assert |x| == |a| - rp - 1;
    assert w.buf == text && |text| > 0;
    StepQuoteClosed(c, t, rp, w, text, c.(meta := false), |a| + (qb.atom + 2));
  }

  /** `Resume` of a held quoted text `h` with an escape pending, which `b` closes, read at offset `|a|`. */
  lemma QuoteEscResumedMoved(c: Core, h: seq<byte>, a: seq<byte>, b: seq<byte>, k: nat)
    requires c.head == None && |b| > 0 && SkipQ(b[1..]).atom >= 0 && k == SkipQ(b[1..]).atom + 2
    ensures var qb := SkipQ(b[1..]);
      Moved(Resume(c.(head := Some(h), mode := QuoteEsc), b), |a|, c.mode) ==
      Prepend([Atom(c.meta, h + [b[0]] + QText(b[1..][..qb.atom], qb), true)], Loop(c.(meta := false), a + b, |a| + k))
  {
    var qb := SkipQ(b[1..]);
    var ch := c.(head := Some(h), mode := QuoteEsc);
    var c1 := c.(meta := false, mode := QuoteEsc);
    var e := Atom(c.meta, h + [b[0]] + QText(b[1..][..qb.atom], qb), true);
    ResumeEscClosed(ch, b, h + [b[0]] + QText(b[1..][..qb.atom], qb), c1);
    assert c1.(mode := c.mode) == c.(meta := false);
    LoopMoved(c1, c.mode, a, b, k);
    MovedPrepend([e], Loop(c1, b, k), |a|, c.mode);
  }

  /** `Resume` of a quoted atom with an escape pending that closes in the chunk after the escaped byte, with its parts named. */
  lemma ResumeEscClosed(c: Core, t: seq<byte>, text: seq<byte>, c1: Core)
    requires c.head.Some? && c.mode == QuoteEsc && |t| > 0 && SkipQ(t[1..]).atom >= 0
    requires text == c.head.value + [t[0]] + QText(t[1..][..SkipQ(t[1..]).atom], SkipQ(t[1..])) && c1 == c.(meta := false, head := None)
    ensures Resume(c, t) == Prepend([Atom(c.meta, text, true)], Loop(c1, t, SkipQ(t[1..]).atom + 2))
  {
    assert t[1..1 + SkipQ(t[1..]).atom] == t[1..][..SkipQ(t[1..]).atom];
  }

  /** `Resume` of a held quoted text `h` that `b` closes, read at offset `|a|`. */
  lemma QuoteResumedMoved(c: Core, h: seq<byte>, a: seq<byte>, b: seq<byte>, k: nat)
    requires c.head == None && |b| > 0 && SkipQ(b).atom >= 0 && k == SkipQ(b).atom + 1
    ensures Moved(Resume(c.(head := Some(h), mode := InQuote), b), |a|, c.mode) ==
      Prepend([Atom(c.meta, h + QText(b[..k - 1], SkipQ(b)), true)], Loop(c.(meta := false), a + b, |a| + k))
  {
    var ch := c.(head := Some(h), mode := InQuote);
    var c1 := c.(meta := false, mode := InQuote);
    var e := Atom(c.meta, h + QText(b[..k - 1], SkipQ(b)), true);
    ResumeQuoteClosed(ch, b, h + QText(b[..k - 1], SkipQ(b)), c1);
    assert c1.(mode := c.mode) == c.(meta := false);
    LoopMoved(c1, c.mode, a, b, k);
    MovedPrepend([e], Loop(c1, b, k), |a|, c.mode);
  }

  /** The quoted atom of `StepQuotePendingPrefix` as the loop over `a` leaves it, and `Glue` on it. */
  lemma QuotePendingGlue(c: Core, a: seq<byte>, b: seq<byte>, rp: nat)
    requires c.head == None && rp < |a| && a[rp] == QUOTE && |b| > 0
    requires SkipQ(a[rp + 1..]).atom < 0 && SkipQ(a[rp + 1..]).mode == InQuote && SkipQ(b).atom >= 0
    ensures var x := a[rp + 1..]; var ch := c.(head := Some(QText(x, SkipQ(x))), mode := InQuote);
      Glue(c.mode, StepQuote(c, a, rp), a, b) == Prepend([], Moved(Resume(ch, b), |a|, c.mode))
  {
    var x := a[rp + 1..];
    var ch := c.(head := Some(QText(x, SkipQ(x))), mode := InQuote);
    assert StepQuote(c, a, rp) == Res(ch, [], |a|, None);
  }

  /** In `a + b`, the quoted atom of `StepQuotePendingPrefix` closes in `b` with the joined text. */
  lemma QuoteJoined(c: Core, a: seq<byte>, b: seq<byte>, rp: nat)
    requires rp < |a| && a[rp] == QUOTE && (a + b)[rp] == a[rp]
    requires SkipQ(a[rp + 1..]).atom < 0 && SkipQ(a[rp + 1..]).mode == InQuote && SkipQ(b).atom >= 0
    ensures var x := a[rp + 1..]; var qb := SkipQ(b);
      |a| + (qb.atom + 1) <= |a + b| &&
      StepQuote(c, a + b, rp) == Prepend([Atom(c.meta, QText(x, SkipQ(x)) + QText(b[..qb.atom], qb), true)],
                                         Loop(c.(meta := false), a + b, |a| + (qb.atom + 1)))
  {
    var t := a + b;
    var x := a[rp + 1..];
    var qb := SkipQ(b);
    var text := QText(x, SkipQ(x)) + QText(b[..qb.atom], qb);
    assert t[rp + 1..] == x + b;
    var w := SkipQ(x + b);
    QuoteJoin(x, b, 0);
    assert |x| == |a| - rp - 1;
    assert t[rp + 1..rp + 1 + w.atom] == (x + b)[..w.atom];
    StepQuoteClosed(c, t, rp, w, text, c.(meta := false), |a| + (qb.atom + 1));
  }

  /** `Resume` of a quoted atom, no escape pending, that closes in the chunk, with its parts named. */
  lemma ResumeQuoteClosed(c: Core, t: seq<byte>, text: seq<byte>, c1: Core)
    requires c.head.Some? && c.mode == InQuote && |t| > 0 && SkipQ(t).atom >= 0
    requires text == c.head.value + QText(t[..SkipQ(t).atom], SkipQ(t)) && c1 == c.(meta := false, head := None)
    ensures Resume(c, t) == Prepend([Atom(c.meta, text, true)], Loop(c1, t, SkipQ(t).atom + 1))
  {
    assert t[0..] == t;
  }

  lemma {:induction false} StepBarePrefix(c: Core, a: seq<byte>, b: seq<byte>, rp: nat)
    requires c.head == None && rp < |a| && !IsDelim(a[rp]) && (a + b)[rp] == a[rp] && |b| > 0
    requires Splittable(StepBare(c, a, rp), b)
    ensures StepBare(c, a + b, rp) == Glue(c.mode, StepBare(c, a, rp), a, b)
    decreases |a| - rp, 1
  {
    var t := a + b;
    assert t[rp..] == a[rp..] + b;
    SkipUConcat(a[rp..], b);
    if SkipU(a[rp..]) < 0 {
      StepBarePendingPrefix(c, a, b, rp);
    } else {
      StepBareEndedPrefix(c, a, b, rp);
    }
  }

  lemma {:induction false} StepBareEndedPrefix(c: Core, a: seq<byte>, b: seq<byte>, rp: nat)
    requires c.head == None && rp < |a| && !IsDelim(a[rp]) && (a + b)[rp] == a[rp] && |b| > 0
    requires Splittable(StepBare(c, a, rp), b)
    requires (a + b)[rp..] == a[rp..] + b && SkipU(a[rp..]) >= 0 && SkipU((a + b)[rp..]) == SkipU(a[rp..])
    ensures StepBare(c, a + b, rp) == Glue(c.mode, StepBare(c, a, rp), a, b)
    decreases |a| - rp, 0
  {
    var t := a + b;
    var u := SkipU(a[rp..]);
    assert t[rp..rp + u] == a[rp..rp + u];
    StepBareClosed(c, a, rp, u, a[rp..rp + u], c.(meta := false), rp + u);
    StepBareClosed(c, t, rp, u, a[rp..rp + u], c.(meta := false), rp + u);
    GluePrepend(c.mode, [Atom(c.meta, a[rp..rp + u], false)], Loop(c.(meta := false), a, rp + u), a, b);
    LoopPrefix(c.(meta := false), a, b, rp + u);
  }

  /** A bare token runs to the end of `a`: in `a + b` it goes on as `Resume` does over `b`. */
  lemma StepBarePendingPrefix(c: Core, a: seq<byte>, b: seq<byte>, rp: nat)
    requires c.head == None && rp < |a| && !IsDelim(a[rp]) && (a + b)[rp] == a[rp] && |b| > 0
    requires SkipU(a[rp..]) < 0 && (a + b)[rp..] == a[rp..] + b
    requires SkipU((a + b)[rp..]) == if SkipU(b) >= 0 then |a| - rp + SkipU(b) else -1
    ensures StepBare(c, a + b, rp) == Glue(c.mode, StepBare(c, a, rp), a, b)
  {
    var ch := c.(head := Some(a[rp..]), mode := Plain);
    assert StepBare(c, a, rp) == Res(ch, [], |a|, None);
    assert Glue(c.mode, Res(ch, [], |a|, None), a, b) == Prepend([], Moved(Resume(ch, b), |a|, c.mode));
    if SkipU(b) >= 0 {
      BareResumedInside(c, a, b, rp);
    } else {
      assert Resume(ch, b) == Res(ch.(head := Some(a[rp..] + b)), [], |b|, None);
    }
  }

  lemma BareResumedInside(c: Core, a: seq<byte>, b: seq<byte>, rp: nat)
    requires c.head == None && rp < |a| && !IsDelim(a[rp]) && (a + b)[rp] == a[rp] && |b| > 0
    requires (a + b)[rp..] == a[rp..] + b && SkipU(b) >= 0
    requires SkipU((a + b)[rp..]) == |a| - rp + SkipU(b)
    ensures StepBare(c, a + b, rp) == Prepend([], Moved(Resume(c.(head := Some(a[rp..]), mode := Plain), b), |a|, c.mode))
  {
    var t := a + b;
    var h := a[rp..];
    var u := SkipU(b);
    var ch := c.(head := Some(h), mode := Plain);
    var c1 := c.(meta := false);
    var atom := Atom(c.meta, h + b[..u], false);
    assert t[rp..rp + (|a| - rp + u)] == h + b[..u];
    StepBareClosed(c, t, rp, |a| - rp + u, h + b[..u], c1, |a| + u);
    ResumeBareClosed(ch, b, u, h + b[..u], c1.(mode := Plain));
    assert c1.(mode := Plain).(mode := c.mode) == c1;
    AtomThenMoved(c1.(mode := Plain), c.mode, a, b, u, atom);
    assert [] + StepBare(c, t, rp).events == StepBare(c, t, rp).events;
  }

  /** `Resume` of a bare token that ends in the chunk, with its parts named. */
  lemma ResumeBareClosed(c: Core, t: seq<byte>, u: int, text: seq<byte>, c1: Core)
    requires c.head.Some? && c.mode == Plain && |t| > 0 && u == SkipU(t) && u >= 0
    requires text == c.head.value + t[..u] && c1 == c.(meta := false, head := None)
    ensures Resume(c, t) == Prepend([Atom(c.meta, text, false)], Loop(c1, t, u))
  {
  }

  // ---------------------------------------------------------------------
  // Split invariance of `Scan`.

  /**
   * The observable part of a state: the head mode means nothing while no
   * token is pending (scanner.go reads `aheadMode` only when `atomHead` is set).
   */
  function View(s: State): State
  {
    if s.core.head.None? then s.(core := s.core.(mode := Plain)) else s
  }

  /**
   * A first chunk that fails, or does not end inside a quoted atom, or ends
   * inside one that the second chunk `b` closes: with no escape pending, or
   * with one pending and a held text other than a lone backslash.
   */
  predicate SplitsCleanly(o: Outcome, b: seq<byte>)
  {
    o.err.Some? || o.state.core.head.None? || o.state.core.mode == Plain ||
    (o.state.core.mode == InQuote && SkipQ(b).atom >= 0) || EscClosedBy(o.state.core, b)
  }

  /**
   * Scanning `a` and then `b` from a state with no pending token gives the
   * events, error and (observable) state that scanning `a + b` gives; when
   * scanning `a` fails, scanning `a + b` fails the same way.
   */
  lemma ScanSplit(s: State, a: seq<byte>, b: seq<byte>)
    requires s.core.head == None && SplitsCleanly(Scan(s, a), b)
    ensures var o1 := Scan(s, a); var w := Scan(s, a + b);
      if o1.err.Some? then w == o1
      else
        var o2 := Scan(o1.state, b);
        w.events == o1.events + o2.events && w.err == o2.err && View(w.state) == View(o2.state)
  {
    var c := s.core;
    var r := Loop(c, a, 0);
    if |b| == 0 {
      assert a + b == a;
      assert r.events + [] == r.events;
    } else if r.err.None? && r.core.head.None? {
      LoopSplitIdle(c, a, b);
    } else {
      LoopPrefix(c, a, b, 0);
    }
  }

  /** The loop over `a + b`, when the loop over `a` ends with nothing pending, goes on over `b` from there. */
  lemma LoopSplitIdle(c: Core, a: seq<byte>, b: seq<byte>)
    requires c.head == None && |b| > 0
    requires Loop(c, a, 0).err.None? && Loop(c, a, 0).core.head.None?
    ensures var r := Loop(c, a, 0);
      Loop(c, a + b, 0) == Prepend(r.events, Moved(Loop(r.core, b, 0), |a|, r.core.mode))
  {
    var r := Loop(c, a, 0);
    LoopPrefix(c, a, b, 0);
    assert r.core.(mode := r.core.mode) == r.core;
    LoopMoved(r.core, r.core.mode, a, b, 0);
  }

  /** `Finish` sees only the observable part of the state. */
  lemma FinishView(s1: State, s2: State)
    requires View(s1) == View(s2)
    ensures Finish(s1).events == Finish(s2).events && Finish(s1).err == Finish(s2).err
    ensures View(Finish(s1).state) == View(Finish(s2).state)
  {
  }

  /**
   * The comparison of scanner_test.go: `Scan(a); Scan(b); Finish` reports
   * the same callbacks and the same result as `Scan(a + b); Finish`.
   */
  lemma SplitThenFinish(s: State, a: seq<byte>, b: seq<byte>)
    requires s.core.head == None && SplitsCleanly(Scan(s, a), b) && Scan(s, a).err == None
    ensures var o1 := Scan(s, a); var o2 := Scan(o1.state, b); var w := Scan(s, a + b);
      w.err == o2.err &&
      w.events + Finish(w.state).events == o1.events + o2.events + Finish(o2.state).events &&
      Finish(w.state).err == Finish(o2.state).err
  {
    var o1 := Scan(s, a);
    var o2 := Scan(o1.state, b);
    var w := Scan(s, a + b);
    ScanSplit(s, a, b);
    FinishView(w.state, o2.state);
    assert w.events + Finish(w.state).events == (o1.events + o2.events) + Finish(o2.state).events;
  }
}
