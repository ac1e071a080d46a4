// The reading of a quoted atom's body that the XSX syntax defines: a
// backslash makes the next byte literal and the first unescaped `"` closes
// the atom.  `QuotedRead` states it directly, one byte at a time; it is the
// reference against which `skipQAtom` (ScanSpec.SkipQ), the chunked
// continuation of `Scan` and `QuoteTo` (module Write) are checked.
module Unquote {
  import opened Common
  import opened ScanSpec

  /**
   * The reading of a quoted body: the index of the closing quote (-1 if
   * there is none yet), the unescaped text before it, and whether the input
   * ended right after a backslash.
   */
  datatype QRead = QRead(close: int, text: seq<byte>, esc: bool)

  /** One more byte in front of a reading: the closing index moves by one. */
  function Behind(r: QRead, lit: seq<byte>): QRead
  {
    QRead(if r.close >= 0 then r.close + 1 else -1, lit + r.text, r.esc)
  }

  /** Read `t`; `esc` says the byte before `t` was an escaping backslash. */
  function QuotedRead(t: seq<byte>, esc: bool): (r: QRead)
    ensures -1 <= r.close < |t|
    ensures r.close >= 0 ==> t[r.close] == QUOTE && !r.esc
    ensures |r.text| <= |t|
  {
    if t == [] then QRead(-1, [], esc)
    else if esc then Behind(QuotedRead(t[1..], false), [t[0]])
    else if t[0] == QUOTE then QRead(0, [], false)
    else if t[0] == BACKSLASH then Behind(QuotedRead(t[1..], true), [])
    else Behind(QuotedRead(t[1..], false), [t[0]])
  }

  /** Reading `y` after a reading `rx` of the `n` bytes before it. */
  function Continue(rx: QRead, ry: QRead, n: nat): QRead
  {
    if rx.close >= 0 then rx
    else QRead(if ry.close >= 0 then n + ry.close else -1, rx.text + ry.text, ry.esc)
  }

  lemma BehindContinue(rx: QRead, ry: QRead, n: nat, lit: seq<byte>)
    ensures Behind(Continue(rx, ry, n), lit) == Continue(Behind(rx, lit), ry, n + 1)
  {
    assert lit + (rx.text + ry.text) == (lit + rx.text) + ry.text;
  }

  /** Reading `x + y` is reading `x`, then, if `x` did not close the atom, reading `y` on from there. */
  lemma {:induction false} QuotedReadConcat(x: seq<byte>, y: seq<byte>, esc: bool)
    ensures QuotedRead(x + y, esc) == Continue(QuotedRead(x, esc), QuotedRead(y, QuotedRead(x, esc).esc), |x|)
    decreases |x|
  {
    if x == [] {
      assert x + y == y;
    } else {
      assert (x + y)[0] == x[0];
      assert (x + y)[1..] == x[1..] + y;
      if esc || x[0] != QUOTE {
        var e1 := !esc && x[0] == BACKSLASH;
        var lit := if e1 then [] else [x[0]];
        var rx1 := QuotedRead(x[1..], e1);
        assert QuotedRead(x, esc) == Behind(rx1, lit);
        assert QuotedRead(x + y, esc) == Behind(QuotedRead(x[1..] + y, e1), lit);
        QuotedReadConcat(x[1..], y, e1);
        BehindContinue(rx1, QuotedRead(y, rx1.esc), |x| - 1, lit);
      }
    }
  }

  // ---------------------------------------------------------------------
  // `skipQAtom` against the reference.

  lemma {:induction false} EscLoopAgrees(t: seq<byte>, j: nat, esc: bool, sb: seq<byte>)
    requires j <= |t|
    ensures var q := EscLoop(t, j, esc, sb); var r := QuotedRead(t[j..], esc);
      q.atom == (if r.close >= 0 then j + r.close else -1) && q.buf == sb + r.text &&
      (q.atom < 0 ==> (q.mode == QuoteEsc) == r.esc)
    decreases |t| - j
  {
    if j < |t| {
      assert t[j..][1..] == t[j + 1..];
      if esc || (t[j] != QUOTE && t[j] != BACKSLASH) {
        EscLoopAgrees(t, j + 1, false, sb + [t[j]]);
        assert sb + [t[j]] + QuotedRead(t[j + 1..], false).text == sb + ([t[j]] + QuotedRead(t[j + 1..], false).text);
      } else if t[j] == BACKSLASH {
        EscLoopAgrees(t, j + 1, true, sb);
      }
    } else {
      assert sb + [] == sb;
    }
  }

  /**
   * `SkipQFrom(t, i)` agrees with the reference reading of `t[i..]`: the
   * same closing quote and escape state; `qatomBuf`, once written, holds
   * `t[..i]` and the unescaped text; while empty, the raw bytes are the
   * unescaped text, but for a lone backslash.
   */
  predicate FromAgrees(t: seq<byte>, i: nat)
    requires i <= |t|
  {
    var q := SkipQFrom(t, i);
    var r := QuotedRead(t[i..], false);
    var end := if q.atom >= 0 then q.atom else |t|;
    q.atom == (if r.close >= 0 then i + r.close else -1) &&
    (q.atom < 0 ==> (q.mode == QuoteEsc) == r.esc) &&
    i <= end &&
    (q.buf != [] ==> q.buf == t[..i] + r.text) &&
    (q.buf == [] ==> r.text == t[i..end] || t == [BACKSLASH])
  }

  lemma {:induction false} SkipQFromAgrees(t: seq<byte>, i: nat)
    requires i <= |t|
    ensures FromAgrees(t, i)
    decreases |t| - i
  {
    if i < |t| {
      assert t[i..][1..] == t[i + 1..];
      if t[i] == BACKSLASH {
        FromAgreesAtBackslash(t, i);
      } else if t[i] != QUOTE {
        SkipQFromAgrees(t, i + 1);
        FromAgreesAtPlain(t, i);
      }
    }
  }

  lemma FromAgreesAtBackslash(t: seq<byte>, i: nat)
    requires i < |t| && t[i] == BACKSLASH && t[i..][1..] == t[i + 1..]
    ensures FromAgrees(t, i)
  {
    EscLoopAgrees(t, i + 1, true, t[..i]);
    var r1 := QuotedRead(t[i + 1..], true);
    assert QuotedRead(t[i..], false) == Behind(r1, []);
    if i + 1 < |t| {
      assert t[i + 1..][1..] == t[i + 2..];
      assert r1.text == [t[i + 1]] + QuotedRead(t[i + 2..], false).text;
    }
  }

  lemma FromAgreesAtPlain(t: seq<byte>, i: nat)
    requires i < |t| && t[i] != BACKSLASH && t[i] != QUOTE && t[i..][1..] == t[i + 1..]
    requires FromAgrees(t, i + 1)
    ensures FromAgrees(t, i)
  {
    var q := SkipQFrom(t, i + 1);
    var r1 := QuotedRead(t[i + 1..], false);
    assert SkipQFrom(t, i) == q;
    assert QuotedRead(t[i..], false) == Behind(r1, [t[i]]);
    assert t[..i + 1] + r1.text == t[..i] + ([t[i]] + r1.text);
    var end := if q.atom >= 0 then q.atom else |t|;
    if q.buf == [] && r1.text == t[i + 1..end] {
      assert [t[i]] + t[i + 1..end] == t[i..end];
    }
  }

  /**
   * `skipQAtom` finds the closing quote and the escape state the reference
   * finds, and the text `Scan` takes from it (the raw bytes while
   * `qatomBuf` is empty, else `qatomBuf`) is the unescaped text, except for
   * the one chunk that is a lone backslash.
   */
  lemma SkipQAgrees(t: seq<byte>)
    ensures var q := SkipQ(t); var r := QuotedRead(t, false);
      q.atom == r.close && (q.atom < 0 ==> (q.mode == QuoteEsc) == r.esc) &&
      (q.atom >= 0 ==> QText(t[..q.atom], q) == r.text) &&
      (q.atom < 0 && t != [BACKSLASH] ==> QText(t, q) == r.text)
  {
    SkipQFromAgrees(t, 0);
    assert t[0..] == t;
    assert t[..0] == [];
    var q := SkipQ(t);
    if q.atom >= 0 {
      assert t[0..q.atom] == t[..q.atom];
    } else {
      assert t[0..|t|] == t;
    }
  }

  /** The lone backslash: `skipQAtom` leaves `qatomBuf` empty, so `Scan` keeps the backslash. */
  lemma LoneBackslash()
    ensures SkipQ([BACKSLASH]) == QScan(-1, QuoteEsc, [])
    ensures QText([BACKSLASH], SkipQ([BACKSLASH])) == [BACKSLASH]
    ensures QuotedRead([BACKSLASH], false) == QRead(-1, [], true)
  {
    assert [BACKSLASH][1..] == [];
  }

  // ---------------------------------------------------------------------
  // The continuation of a quoted atom across chunks.

  /** How far a quoted atom got in one chunk: closed or still pending, its text, the escape state, the bytes used. */
  datatype QStep = QStep(closed: bool, text: seq<byte>, esc: bool, used: nat)

  /**
   * The continuation `Scan` is meant to perform on a pending quoted atom
   * with text `h` so far: read the chunk with the reference rule, append the
   * unescaped text, and count every byte it used (through the closing quote
   * if there is one, else the whole chunk).
   */
  function ReadQuoted(h: seq<byte>, esc: bool, t: seq<byte>): (r: QStep)
    ensures r.used <= |t| && (r.closed ==> 0 < r.used && t[r.used - 1] == QUOTE && !r.esc)
    ensures !r.closed ==> r.used == |t|
  {
    var q := QuotedRead(t, esc);
    if q.close < 0 then QStep(false, h + q.text, q.esc, |t|)
    else QStep(true, h + q.text, false, q.close + 1)
  }

  /**
   * Chunk boundaries do not matter to the continuation: reading `x` and
   * then `y` gives the text, escape state and byte count of reading `x + y`.
   */
  lemma ReadQuotedSplit(h: seq<byte>, esc: bool, x: seq<byte>, y: seq<byte>)
    ensures var p := ReadQuoted(h, esc, x);
      ReadQuoted(h, esc, x + y) ==
        if p.closed then p
        else var s := ReadQuoted(p.text, p.esc, y); s.(used := |x| + s.used)
  {
    QuotedReadConcat(x, y, esc);
    var rx := QuotedRead(x, esc);
    var ry := QuotedRead(y, rx.esc);
    assert h + (rx.text + ry.text) == (h + rx.text) + ry.text;
  }
}
