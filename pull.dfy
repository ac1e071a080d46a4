// The pull parser (pull.go): a two-slot token queue that the scanner's
// callbacks fill while `Next` feeds the scanner one input byte at a time,
// the queries about the token last returned, `SkipMeta`, and the `Expect*`
// validators.
//
// The parser's state is the datatype `PullState`; the functions below are
// its specification and the class `PullParser` runs the same steps in place,
// with the queue in an array of two slots.
module Pull {
  import opened Common
  import Sp = ScanSpec
  import Sc = Scanning

  /** `Token`: single bits, so that a set of tokens is their bitwise or. */
  type Token = bv64

  const NoToken: Token := 0
  const TokBegin: Token := 2
  const TokEnd: Token := 4
  const TokAtom: Token := 8
  const TokEOI: Token := 16

  /** One queue slot (`tokInfo`): the token, its meta flag and its bracket. */
  datatype TokInfo = TokInfo(tok: Token, meta: bool, bracket: char)

  /** The zero value of a slot. */
  const EmptySlot: TokInfo := TokInfo(NoToken, false, 0 as char)

  /** `Unexpected`: the errors `Pulled` recognises. */
  datatype Unexpected = PullEOI | PullMeta | PullNoMeta

  /** `ExpectMeta`; any other value makes `checkMeta` panic. */
  const AllowMeta: int := 0
  const RequireMeta: int := 1
  const NoMeta: int := 2

  /**
   * What the pull parser reports: an `Unexpected`, a scanner error, a token
   * of the wrong kind or with a bracket not allowed, and the panics of the
   * Go code (a third token in the two-slot queue, an unknown `ExpectMeta`,
   * and `SkipMeta` reaching its "unreachable" case).
   */
  datatype PullError =
    | Unexp(u: Unexpected)
    | ScanErr(e: Sp.ScanError)
    | WrongToken(expected: Token, got: Token)
    | WrongBracket(allowed: string, bracket: char)
    | QueueOverflow
    | IllegalExpectMeta(meta: int)
    | SkipUnreachable

  /**
   * The parser: the input not read yet, the scanner, the two queue slots,
   * the write and read indices, and the text and quote flag of the last atom.
   */
  datatype PullState = PullState(input: seq<byte>, scn: Sp.State, toks: seq<TokInfo>,
                                 tokWr: int, tokRd: int, atom: seq<byte>, wasQuot: bool)

  /** `NewPullParser`: a fresh scanner, empty slots, nothing queued. */
  function Start(input: seq<byte>): (p: PullState)
    ensures Valid(p)
  {
    PullState(input, Sp.Initial, [EmptySlot, EmptySlot], 0, 0, [], false)
  }

  /** Two slots, and the read index never passes the write index. */
  predicate Valid(p: PullState)
  {
    |p.toks| == 2 && 0 <= p.tokRd <= p.tokWr <= 2 &&
    forall i :: p.tokRd <= i < p.tokWr ==> IsToken(p.toks[i].tok)
  }

  /** The four tokens `Next` can return. */
  predicate IsToken(t: Token)
  {
    t == TokBegin || t == TokEnd || t == TokAtom || t == TokEOI
  }

  /** The token a scanner event is queued as. */
  function Kind(e: Sp.Event): (t: Token)
    ensures IsToken(t) && t != TokEOI
  {
    match e
    case Begin(_, _) => TokBegin
    case End(_, _) => TokEnd
    case Atom(_, _, _) => TokAtom
  }

  // ---------------------------------------------------------------------
  // The callbacks and feeding the scanner.

  /**
   * The callback for one scanner event: fill the slot at `tokWr` and advance.
   * `Begin` sets token, bracket and meta; `End` sets token and bracket and
   * leaves the slot's meta as it was; `Atom` sets token and meta and records
   * the text and the quote flag. A full queue is Go's index panic (`None`).
   */
  function Deliver(p: PullState, e: Sp.Event): (r: Option<PullState>)
    ensures r.None? <==> !(0 <= p.tokWr < |p.toks|)
    ensures r.Some? ==> r.value.tokWr == p.tokWr + 1 && r.value.tokRd == p.tokRd && r.value.input == p.input &&
                        r.value.scn == p.scn && |r.value.toks| == |p.toks|
    ensures r.Some? ==> r.value.toks[p.tokWr].tok == Kind(e) &&
                        forall i :: 0 <= i < |p.toks| && i != p.tokWr ==> r.value.toks[i] == p.toks[i]
  {
    if !(0 <= p.tokWr < |p.toks|) then None
    else
      var w := p.tokWr;
      var slot := p.toks[w];
      match e
      case Begin(m, b) => Some(p.(toks := p.toks[w := TokInfo(TokBegin, m, CharOf(b))], tokWr := w + 1))
      case End(_, b) => Some(p.(toks := p.toks[w := slot.(tok := TokEnd, bracket := CharOf(b))], tokWr := w + 1))
      case Atom(m, text, quoted) =>
        Some(p.(toks := p.toks[w := slot.(tok := TokAtom, meta := m)], tokWr := w + 1, atom := text, wasQuot := quoted))
  }

  /** The callbacks for a list of events, in order. */
  function DeliverAll(p: PullState, evs: seq<Sp.Event>): (r: Option<PullState>)
    ensures r.None? <==> !(0 <= p.tokWr && p.tokWr + |evs| <= |p.toks|)
    ensures r.Some? ==> r.value.tokWr == p.tokWr + |evs| && r.value.tokRd == p.tokRd && r.value.input == p.input &&
                        r.value.scn == p.scn && |r.value.toks| == |p.toks|
    ensures r.Some? ==> (forall k :: 0 <= k < |evs| ==> r.value.toks[p.tokWr + k].tok == Kind(evs[k])) &&
                        forall i :: 0 <= i < p.tokWr ==> r.value.toks[i] == p.toks[i]
    decreases |evs|
  {
    if evs == [] then (if 0 <= p.tokWr <= |p.toks| then Some(p) else None)
    else
      match Deliver(p, evs[0])
      case None => None
      case Some(q) =>
        var r := DeliverAll(q, evs[1..]);
        assert r.Some? ==> forall k :: 1 <= k < |evs| ==> evs[k] == evs[1..][k - 1];
        r
  }

  /** Whether the events hold an `End` (after which the end callback may reset the scanner). */
  predicate HasEnd(evs: seq<Sp.Event>)
  {
    exists i :: 0 <= i < |evs| && evs[i].End?
  }

  /**
   * The scanner after `Scan([b])`. The end callback resets the scanner once
   * the depth is back to 0; the deferred `pos += rp` then counts only this
   * chunk's bytes.
   */
  function ScannerAfter(s: Sp.State, o: Sp.Outcome): Sp.State
  {
    if HasEnd(o.events) && |o.state.core.nest| == 0 then Sp.Reset(o.state).(pos := o.state.pos - s.pos)
    else o.state
  }

  /**
   * `scn.Push(r)`: one input byte through the scanner, its events into the
   * queue. A scanner error is reported after the events before it were queued.
   */
  function Feed(p: PullState): (r: (PullState, Option<PullError>))
    requires p.input != []
    ensures r.0.input == p.input[1..] && r.0.tokRd == p.tokRd
  {
    var o := Sp.Scan(p.scn, [p.input[0]]);
    var p1 := p.(input := p.input[1..], scn := ScannerAfter(p.scn, o));
    match DeliverAll(p1, o.events)
    case None => (p1, Some(QueueOverflow))
    case Some(q) => if o.err.Some? then (q, Some(ScanErr(o.err.value))) else (q, None)
  }

  /** Hand out the slot at `tokRd`. */
  function Take(p: PullState): (r: (PullState, Token, Option<PullError>))
    requires 0 <= p.tokRd < |p.toks|
  {
    (p.(tokRd := p.tokRd + 1), p.toks[p.tokRd].tok, None)
  }

  /**
   * End of input inside `Next`: `Finish` the scanner (its events are queued),
   * then queue `TokEOI` (only the token of the slot is written) and hand out
   * the first queued token with `Finish`'s error.
   */
  function AtEnd(p: PullState): (r: (PullState, Token, Option<PullError>))
  {
    var f := Sp.Finish(p.scn);
    match DeliverAll(p.(scn := f.state), f.events)
    case None => (p.(scn := f.state), TokEOI, Some(QueueOverflow))
    case Some(q) =>
      if q.tokWr >= |q.toks| then (q, TokEOI, Some(QueueOverflow))
      else
        var q2 := q.(toks := q.toks[q.tokWr := q.toks[q.tokWr].(tok := TokEOI)], tokWr := q.tokWr + 1);
        if !(0 <= q2.tokRd < q2.tokWr) then (q2, TokEOI, Some(QueueOverflow))
        else
          var (q3, t, _) := Take(q2);
          (q3, t, if f.err.Some? then Some(ScanErr(f.err.value)) else None)
  }

  /** The loop of `Next`: feed bytes until a token is queued, then hand it out. */
  function Fill(p: PullState): (r: (PullState, Token, Option<PullError>))
    decreases |p.input|
  {
    if p.tokRd < p.tokWr then
      if 0 <= p.tokRd < |p.toks| then Take(p) else (p, TokEOI, Some(QueueOverflow))
    else if p.input == [] then AtEnd(p)
    else
      var (q, err) := Feed(p);
      if err.Some? then (q, TokEOI, err) else Fill(q)
  }

  /** `Next`: a queued token if there is one, else empty the queue and fill it. */
  function AfterNext(p: PullState): (r: (PullState, Token, Option<PullError>))
  {
    if p.tokRd < p.tokWr && 0 <= p.tokRd < |p.toks| then Take(p)
    else Fill(p.(tokWr := 0, tokRd := 0))
  }

  // ---------------------------------------------------------------------
  // The queries about the last token.

  /** `LastToken`: no token before the first, else the slot last handed out. */
  function LastToken(p: PullState): (t: Token)
    requires Valid(p)
    ensures p.tokRd <= 0 ==> t == NoToken
  {
    if p.tokRd <= 0 then NoToken else p.toks[p.tokRd - 1].tok
  }

  /** `LastBrace`: rune 0 before the first token, else the bracket of that slot, whatever its token. */
  function LastBrace(p: PullState): (c: char)
    requires Valid(p)
    ensures p.tokRd <= 0 ==> c == 0 as char
  {
    if p.tokRd <= 0 then 0 as char else p.toks[p.tokRd - 1].bracket
  }

  /** `WasMeta`: false before the first token, else the meta flag of that slot. */
  function WasMeta(p: PullState): (m: bool)
    requires Valid(p)
    ensures p.tokRd <= 0 ==> !m
  {
    p.tokRd > 0 && p.toks[p.tokRd - 1].meta
  }

  /** `WasAny`: the tokens of `join` that the last token is. */
  function WasAny(p: PullState, join: Token): (t: Token)
    requires Valid(p)
  {
    join & LastToken(p)
  }

  // ---------------------------------------------------------------------
  // The queue never overflows: one byte makes at most two events.

  /** The rest of the scan loop after the last byte has no events. */
  lemma LoopDone(c: Sp.Core, t: seq<byte>)
    ensures Sp.Loop(c, t, |t|).events == []
  {
  }

  /** One byte through the scan loop: at most one event, two when a meta is pending. */
  lemma LoopOneByte(c: Sp.Core, b: byte)
    ensures |Sp.Loop(c, [b], 0).events| <= (if c.meta then 2 else 1)
  {
    var t := [b];
    var wse := Sp.SkipSpace(t);
    if wse == 0 {
      assert !Sp.IsAny(b, Sp.ccSpace);
      if Sp.IsOpen(b) {
        assert Sp.Loop(c, t, 0) == Sp.StepOpen(c, t, 0);
        LoopDone(c.(nest := c.nest + [Sp.Nesting(c.meta, Sp.Closing(b))], meta := false), t);
      } else if Sp.IsClose(b) {
        assert Sp.Loop(c, t, 0) == Sp.StepClose(c, t, 0);
        var (c1, evs, err) := Sp.CallEnd(c, b);
        LoopDone(c1, t);
      } else if b == QUOTE {
        assert Sp.Loop(c, t, 0) == Sp.StepQuote(c, t, 0);
        assert t[1..] == [];
      } else if b == BACKSLASH {
        assert Sp.Loop(c, t, 0) == Sp.StepMeta(c, t, 0);
        LoopDone(c.(meta := false), t);
        LoopDone(c.(meta := true), t);
      } else {
        Sp.DelimiterBytes(b);
        assert !Sp.IsDelim(b);
        assert Sp.SkipU(t) < 0;
        assert Sp.Loop(c, t, 0) == Sp.StepBare(c, t, 0);
      }
    }
  }

  /** One byte through `Scan`: at most two events, whatever the scanner's state. */
  lemma ScanOneByte(s: Sp.State, b: byte)
    ensures |Sp.Scan(s, [b]).events| <= 2
  {
    var c := s.core;
    var t := [b];
    if c.head.None? {
      LoopOneByte(c, b);
    } else if c.mode == Sp.Plain {
      var a := Sp.SkipU(t);
      if a >= 0 {
        LoopOneByte(c.(meta := false, head := None), b);
      }
    } else if c.mode == Sp.QuoteEsc {
      assert t[1..] == [];
    } else {
      var q := Sp.SkipQ(t);
      if q.atom >= 0 {
        LoopDone(c.(meta := false, head := None), t);
      }
    }
  }

  /**
   * `Fill` from an empty queue keeps the queue valid, never indexes a third
   * slot, returns one of the four tokens, and on success that token is what
   * `LastToken` reports afterwards.
   */
  lemma {:induction false} FillSafe(p: PullState)
    requires Valid(p) && p.tokRd == 0
    ensures var (q, t, err) := Fill(p);
      Valid(q) && (err.Some? ==> err.value.ScanErr?) && IsToken(t) &&
      (err.None? ==> q.tokRd > 0 && LastToken(q) == t)
    decreases |p.input|
  {
    if p.tokRd < p.tokWr {
    } else if p.input == [] {
      var f := Sp.Finish(p.scn);
      assert |f.events| <= 1;
    } else {
      ScanOneByte(p.scn, p.input[0]);
      var o := Sp.Scan(p.scn, [p.input[0]]);
      var p1 := p.(input := p.input[1..], scn := ScannerAfter(p.scn, o));
      var d := DeliverAll(p1, o.events);
      assert d.Some?;
      forall i | 0 <= i < d.value.tokWr
        ensures IsToken(d.value.toks[i].tok)
      {
        assert d.value.toks[p1.tokWr + i].tok == Kind(o.events[i]);
      }
      var (q, err) := Feed(p);
      if err.None? {
        assert q == d.value;
        FillSafe(q);
      }
    }
  }

  /** One byte fed to an empty queue leaves it valid, and `Fill` goes on from there. */
  lemma FeedStep(p: PullState)
    requires Valid(p) && p.tokRd == 0 && p.tokWr == 0 && p.input != []
    ensures var (q, err) := Feed(p);
      Valid(q) && q.tokRd == 0 && |q.input| < |p.input| &&
      Fill(p) == (if err.Some? then (q, TokEOI, err) else Fill(q))
  {
    ScanOneByte(p.scn, p.input[0]);
    var o := Sp.Scan(p.scn, [p.input[0]]);
    var p1 := p.(input := p.input[1..], scn := ScannerAfter(p.scn, o));
    var d := DeliverAll(p1, o.events);
    assert d.Some?;
    forall i | 0 <= i < d.value.tokWr
      ensures IsToken(d.value.toks[i].tok)
    {
      assert d.value.toks[p1.tokWr + i].tok == Kind(o.events[i]);
    }
  }

  /** `Next` keeps the queue valid and never overflows it; a token returned without error is `LastToken`. */
  lemma NextSafe(p: PullState)
    requires Valid(p)
    ensures var (q, t, err) := AfterNext(p);
      Valid(q) && (err.Some? ==> err.value.ScanErr?) && IsToken(t) &&
      (err.None? ==> q.tokRd > 0 && LastToken(q) == t)
  {
    if !(p.tokRd < p.tokWr && 0 <= p.tokRd < |p.toks|) {
      FillSafe(p.(tokWr := 0, tokRd := 0));
    }
  }

  /** At the end of input a pending bare atom is returned first, and `TokEOI` after it. */
  lemma TrailingAtomBeforeEOI(p: PullState)
    requires Valid(p) && p.tokRd == p.tokWr && p.input == []
    requires |p.scn.core.nest| == 0 && p.scn.core.head.Some? && p.scn.core.mode == Sp.Plain
    ensures var (q, t, err) := AfterNext(p);
      t == TokAtom && err.None? && q.atom == p.scn.core.head.value && !q.wasQuot &&
      Valid(q) && WasMeta(q) == p.scn.core.meta &&
      AfterNext(q).1 == TokEOI && AfterNext(q).2.None?
  {
    var p0 := p.(tokWr := 0, tokRd := 0);
    var f := Sp.Finish(p0.scn);
    var e := Sp.Atom(p.scn.core.meta, p.scn.core.head.value, false);
    assert f.events == [e];
    var d := Deliver(p0.(scn := f.state), e);
    assert d.Some? && d.value.atom == p.scn.core.head.value && !d.value.wasQuot;
    assert DeliverAll(p0.(scn := f.state), f.events) == DeliverAll(d.value, []);
  }

  /** At the end of input inside an open bracket, `Next` returns `TokEOI` with the scanner's error. */
  lemma EOIInsideBracket(p: PullState)
    requires Valid(p) && p.tokRd == p.tokWr && p.input == [] && |p.scn.core.nest| > 0
    ensures var (q, t, err) := AfterNext(p);
      t == TokEOI && err == Some(ScanErr(Sp.ScanError(p.scn.pos, Sp.NestedFinish)))
  {
  }

  // ---------------------------------------------------------------------
  // Progress: every token `Next` returns short of `TokEOI` lowers a rank.

  /** Whether `TokEOI` waits in the queue. */
  predicate EOIQueued(p: PullState)
    requires Valid(p)
  {
    exists i :: p.tokRd <= i < p.tokWr && p.toks[i].tok == TokEOI
  }

  /** Four per unread byte, two while no `TokEOI` is queued, one per queued token. */
  function Rank(p: PullState): nat
    requires Valid(p)
  {
    4 * |p.input| + (if EOIQueued(p) then 0 else 2) + (p.tokWr - p.tokRd)
  }

  lemma {:induction false} FillRank(p: PullState)
    requires Valid(p) && p.tokRd == 0 && !EOIQueued(p)
    ensures var (q, t, err) := Fill(p);
      Valid(q) && (err.None? && t != TokEOI ==> Rank(q) < 4 * |p.input| + 2 + (if p.tokRd < p.tokWr then 4 else 0))
    decreases |p.input|
  {
    FillSafe(p);
    if p.tokRd < p.tokWr {
      var q := Fill(p).0;
      assert q.toks == p.toks && q.input == p.input && q.tokWr == p.tokWr;
      assert !EOIQueued(q);
    } else if p.input == [] {
      var f := Sp.Finish(p.scn);
      assert |f.events| <= 1;
      var (q, t, err) := Fill(p);
      if err.None? && t != TokEOI {
        assert |f.events| == 1 && q.tokRd == 1 && q.tokWr == 2 && q.toks[1].tok == TokEOI;
        assert EOIQueued(q);
      }
    } else {
      ScanOneByte(p.scn, p.input[0]);
      var o := Sp.Scan(p.scn, [p.input[0]]);
      var p1 := p.(input := p.input[1..], scn := ScannerAfter(p.scn, o));
      var d := DeliverAll(p1, o.events);
      assert d.Some?;
      forall i | 0 <= i < d.value.tokWr
        ensures IsToken(d.value.toks[i].tok) && d.value.toks[i].tok != TokEOI
      {
        assert d.value.toks[p1.tokWr + i].tok == Kind(o.events[i]);
      }
      var (q, err) := Feed(p);
      if err.None? {
        assert q == d.value;
        assert !EOIQueued(q);
        FillRank(q);
      }
    }
  }

  /** A token other than `TokEOI`, returned without error, lowers the rank. */
  lemma NextRank(p: PullState)
    requires Valid(p)
    ensures var (q, t, err) := AfterNext(p); Valid(q) && (err.None? && t != TokEOI ==> Rank(q) < Rank(p))
  {
    NextSafe(p);
    if p.tokRd < p.tokWr {
      var (q, t, err) := AfterNext(p);
      if t != TokEOI {
        assert EOIQueued(q) ==> EOIQueued(p);
        assert EOIQueued(p) ==> EOIQueued(q) by {
          if EOIQueued(p) {
            var i :| p.tokRd <= i < p.tokWr && p.toks[i].tok == TokEOI;
            assert i != p.tokRd;
          }
        }
      }
    } else {
      FillRank(p.(tokWr := 0, tokRd := 0));
    }
  }

  lemma {:induction false} FillErrorIsEOI(p: PullState)
    requires Valid(p) && p.tokRd == 0
    ensures Fill(p).2.Some? ==> Fill(p).1 == TokEOI
    decreases |p.input|
  {
    if p.tokRd < p.tokWr {
    } else if p.input == [] {
      var f := Sp.Finish(p.scn);
      if f.err.Some? {
        assert f.events == [];
        assert DeliverAll(p.(scn := f.state), f.events) == Some(p.(scn := f.state));
      }
    } else {
      FeedStep(p);
      var (q, err) := Feed(p);
      if err.None? {
        FillErrorIsEOI(q);
      }
    }
  }

  /** `Next` reports an error only together with `TokEOI`: a scanner error ends the token stream. */
  lemma NextErrorIsEOI(p: PullState)
    requires Valid(p)
    ensures AfterNext(p).2.Some? ==> AfterNext(p).1 == TokEOI
  {
    if !(p.tokRd < p.tokWr && 0 <= p.tokRd < |p.toks|) {
      FillErrorIsEOI(p.(tokWr := 0, tokRd := 0));
    }
  }

  // ---------------------------------------------------------------------
  // `SkipMeta`.

  /** How a pulled token moves the bracket depth. */
  function Delta(t: Token): int
  {
    if t == TokBegin then 1 else if t == TokEnd then -1 else 0
  }

  /** The tokens the depth loop pulls, in order, the one it stops at last. */
  datatype Pulls = Stop(t: Token) | More(t: Token, rest: Pulls)

  /**
   * Pulled from depth `depth`, every token but the last is not `TokEOI` and
   * leaves the depth above 0, and the last is an `End` that brings it to 0.
   */
  predicate Closes(ts: Pulls, depth: int)
  {
    match ts
    case Stop(t) => t == TokEnd && depth + Delta(t) == 0
    case More(t, rest) => t != TokEOI && depth + Delta(t) > 0 && Closes(rest, depth + Delta(t))
  }

  /** As `Closes`, but the last token is the first `TokEOI`. */
  predicate RunsOut(ts: Pulls, depth: int)
  {
    match ts
    case Stop(t) => t == TokEOI
    case More(t, rest) => t != TokEOI && depth + Delta(t) > 0 && RunsOut(rest, depth + Delta(t))
  }

  /**
   * The loop of `SkipMeta` after a meta `Begin`: pull tokens, counting
   * brackets, until the depth is back to 0. `TokEOI` first is `PullEOI`.
   * The third component is the tokens pulled.
   */
  function SkipDepth(p: PullState, depth: nat): (r: (PullState, Option<PullError>, Pulls))
    requires Valid(p) && depth > 0
    ensures Valid(r.0) && (r.1.Some? ==> r.1.value.ScanErr? || r.1 == Some(Unexp(PullEOI)))
    ensures r.1.None? ==> LastToken(r.0) == TokEnd && Rank(r.0) < Rank(p)
    decreases Rank(p)
  {
    NextRank(p);
    NextSafe(p);
    var (q, t, err) := AfterNext(p);
    if err.Some? then (q, err, Stop(t))
    else if t == TokBegin then AfterPull(t, SkipDepth(q, depth + 1))
    else if t == TokEnd then (if depth == 1 then (q, None, Stop(t)) else AfterPull(t, SkipDepth(q, depth - 1)))
    else if t == TokEOI then (q, Some(Unexp(PullEOI)), Stop(t))
    else AfterPull(t, SkipDepth(q, depth))
  }

  /** The rest of the depth loop, with the token `t` pulled before it. */
  function AfterPull(t: Token, r: (PullState, Option<PullError>, Pulls)): (PullState, Option<PullError>, Pulls)
  {
    (r.0, r.1, More(t, r.2))
  }

  /**
   * The loop stops exactly where the depth first comes back to 0, on an
   * `End`, or at the first `TokEOI`, which is the failing case (a scanner
   * error comes with `TokEOI` too).
   */
  lemma {:induction false} SkipDepthStops(p: PullState, depth: nat)
    requires Valid(p) && depth > 0
    ensures SkipDepth(p, depth).1.None? ==> Closes(SkipDepth(p, depth).2, depth)
    ensures SkipDepth(p, depth).1.Some? ==> RunsOut(SkipDepth(p, depth).2, depth)
    decreases Rank(p)
  {
    NextRank(p);
    NextSafe(p);
    NextErrorIsEOI(p);
    var (q, t, err) := AfterNext(p);
    if err.None? && t != TokEOI && !(t == TokEnd && depth == 1) {
      SkipDepthStops(q, depth + Delta(t));
    }
  }

  /** The two ways to stop exclude each other. */
  lemma {:induction false} ClosesNotRunsOut(ts: Pulls, depth: int)
    requires Closes(ts, depth)
    ensures !RunsOut(ts, depth)
  {
    if ts.More? {
      ClosesNotRunsOut(ts.rest, depth + Delta(ts.t));
    }
  }

  /**
   * `SkipMeta`: nothing for a token that is not meta or a meta atom; after a
   * meta `Begin`, skip to its matching `End`; any other meta token is the
   * Go code's "unreachable code" panic.
   */
  function AfterSkipMeta(p: PullState): (r: (PullState, Option<PullError>))
    requires Valid(p)
    ensures Valid(r.0) && r.1 != Some(QueueOverflow)
    ensures !WasMeta(p) || LastToken(p) == TokAtom ==> r == (p, None)
    ensures r.1 == Some(SkipUnreachable) <==> WasMeta(p) && LastToken(p) != TokAtom && LastToken(p) != TokBegin
    ensures WasMeta(p) && LastToken(p) == TokBegin ==>
      (r.1.None? ==> Closes(SkipDepth(p, 1).2, 1)) && (r.1.Some? ==> RunsOut(SkipDepth(p, 1).2, 1))
    ensures r.1.None? ==> Rank(r.0) <= Rank(p)
  {
    if !WasMeta(p) then (p, None)
    else if LastToken(p) == TokAtom then (p, None)
    else if LastToken(p) == TokBegin then
      SkipDepthStops(p, 1);
      (SkipDepth(p, 1).0, SkipDepth(p, 1).1)
    else (p, Some(SkipUnreachable))
  }

  // ---------------------------------------------------------------------
  // `Unexpected`, `Pulled`, `checkMeta` and the validators.

  /** `Unexpected.Error`: no message for `PullNoMeta` (the Go code panics). */
  function Message(u: Unexpected): (m: Option<string>)
    ensures m.None? <==> u == PullNoMeta
  {
    match u
    case PullEOI => Some("pulled end of input")
    case PullMeta => Some("pulled meta token")
    case PullNoMeta => None
  }

  /** `Pulled`: whether the error is exactly the `Unexpected` `what`. */
  function Pulled(what: Unexpected, err: Option<PullError>): (b: bool)
    ensures b <==> err == Some(Unexp(what))
  {
    err.Some? && err.value.Unexp? && err.value.u == what
  }

  /** Whether the meta flag of the last token satisfies the policy `meta`. */
  predicate MetaPolicyHolds(p: PullState, meta: int)
    requires Valid(p)
  {
    (meta == AllowMeta) || (meta == RequireMeta && WasMeta(p)) || (meta == NoMeta && !WasMeta(p))
  }

  /** `checkMeta`. */
  function CheckMeta(p: PullState, meta: int): (r: Option<PullError>)
    requires Valid(p)
    ensures r.None? <==> MetaPolicyHolds(p, meta)
    ensures r.Some? ==> r == Some(if meta == RequireMeta then Unexp(PullNoMeta)
                                  else if meta == NoMeta then Unexp(PullMeta)
                                  else IllegalExpectMeta(meta))
  {
    if meta == AllowMeta then None
    else if meta == RequireMeta then (if !WasMeta(p) then Some(Unexp(PullNoMeta)) else None)
    else if meta == NoMeta then (if WasMeta(p) then Some(Unexp(PullMeta)) else None)
    else Some(IllegalExpectMeta(meta))
  }

  /** A bracket passes an allow-string when the string is empty or holds it. */
  predicate BracketAllowed(which: string, c: char)
  {
    |which| == 0 || c in which
  }

  /** `ExpectBegin`: EOI, then the token kind, then the bracket, then the meta policy. */
  function ExpectBegin(p: PullState, which: string, meta: int): (r: Option<PullError>)
    requires Valid(p)
    ensures LastToken(p) == TokEOI ==> r == Some(Unexp(PullEOI))
    ensures r.None? <==> LastToken(p) == TokBegin && BracketAllowed(which, LastBrace(p)) && MetaPolicyHolds(p, meta)
  {
    var tok := LastToken(p);
    if tok == TokEOI then Some(Unexp(PullEOI))
    else if tok != TokBegin then Some(WrongToken(TokBegin, tok))
    else if |which| > 0 && LastBrace(p) !in which then Some(WrongBracket(which, LastBrace(p)))
    else CheckMeta(p, meta)
  }

  /** `ExpectEnd`: EOI, then any meta flag (stale or not), then the token kind, then the bracket. */
  function ExpectEnd(p: PullState, which: string): (r: Option<PullError>)
    requires Valid(p)
    ensures LastToken(p) == TokEOI ==> r == Some(Unexp(PullEOI))
    ensures LastToken(p) != TokEOI && WasMeta(p) ==> r == Some(Unexp(PullMeta))
    ensures r.None? <==> LastToken(p) == TokEnd && !WasMeta(p) && BracketAllowed(which, LastBrace(p))
  {
    var tok := LastToken(p);
    if tok == TokEOI then Some(Unexp(PullEOI))
    else if WasMeta(p) then Some(Unexp(PullMeta))
    else if tok != TokEnd then Some(WrongToken(TokEnd, tok))
    else if |which| > 0 && LastBrace(p) !in which then Some(WrongBracket(which, LastBrace(p)))
    else None
  }

  /** `ExpectAtom`: EOI, then the token kind; an atom's text comes back even when the meta policy fails. */
  function ExpectAtom(p: PullState, meta: int): (r: (seq<byte>, Option<PullError>))
    requires Valid(p)
    ensures LastToken(p) == TokEOI ==> r == ([], Some(Unexp(PullEOI)))
    ensures LastToken(p) != TokAtom ==> r.0 == [] && r.1.Some?
    ensures LastToken(p) == TokAtom ==> r == (p.atom, CheckMeta(p, meta))
  {
    var tok := LastToken(p);
    if tok == TokEOI then ([], Some(Unexp(PullEOI)))
    else if tok != TokAtom then ([], Some(WrongToken(TokAtom, tok)))
    else (p.atom, CheckMeta(p, meta))
  }

  /** `NextBegin`: `Next`, whose error wins, then `ExpectBegin`. */
  function AfterNextBegin(p: PullState, which: string, meta: int): (r: (PullState, Option<PullError>))
    requires Valid(p)
    ensures Valid(r.0) && r.0 == AfterNext(p).0
    ensures AfterNext(p).2.Some? ==> r.1 == AfterNext(p).2
    ensures r.1.None? <==> AfterNext(p).2.None? && LastToken(r.0) == TokBegin &&
                           BracketAllowed(which, LastBrace(r.0)) && MetaPolicyHolds(r.0, meta)
  {
    NextSafe(p);
    var (q, _, err) := AfterNext(p);
    if err.Some? then (q, err) else (q, ExpectBegin(q, which, meta))
  }

  /** `NextEnd`: `Next`, whose error wins, then `ExpectEnd`. */
  function AfterNextEnd(p: PullState, which: string): (r: (PullState, Option<PullError>))
    requires Valid(p)
    ensures Valid(r.0) && r.0 == AfterNext(p).0
    ensures AfterNext(p).2.Some? ==> r.1 == AfterNext(p).2
    ensures r.1.None? <==> AfterNext(p).2.None? && LastToken(r.0) == TokEnd && !WasMeta(r.0) &&
                           BracketAllowed(which, LastBrace(r.0))
  {
    NextSafe(p);
    var (q, _, err) := AfterNext(p);
    if err.Some? then (q, err) else (q, ExpectEnd(q, which))
  }

  /** `NextAtom`: `Next`, whose error wins with an empty text, then `ExpectAtom`. */
  function AfterNextAtom(p: PullState, meta: int): (r: (PullState, seq<byte>, Option<PullError>))
    requires Valid(p)
    ensures Valid(r.0) && r.0 == AfterNext(p).0
    ensures AfterNext(p).2.Some? ==> r.1 == [] && r.2 == AfterNext(p).2
    ensures r.2.None? <==> AfterNext(p).2.None? && LastToken(r.0) == TokAtom && MetaPolicyHolds(r.0, meta)
    ensures AfterNext(p).2.None? && LastToken(r.0) == TokAtom ==> r.1 == r.0.atom
  {
    NextSafe(p);
    var (q, _, err) := AfterNext(p);
    if err.Some? then (q, [], err) else var (a, e) := ExpectAtom(q, meta); (q, a, e)
  }

  // ---------------------------------------------------------------------
  // The parser object.

  /** `LastToken` is a single bit, so `WasAny` is that token when the mask holds it and no token otherwise. */
  lemma WasAnyIsMember(p: PullState, mask: Token)
    requires Valid(p) && IsToken(LastToken(p))
    ensures WasAny(p, mask) == (if mask & LastToken(p) == NoToken then NoToken else LastToken(p))
  {
  }

  /**
   * `PullParser`: the reader is the byte sequence `input`, the scanner is a
   * `Scanner` object, the queue an array of two slots.
   */
  class PullParser {
    var input: seq<byte>
    const scn: Sc.Scanner
    const toks: array<TokInfo>
    var tokWr: int
    var tokRd: int
    var atom: seq<byte>
    var wasQuot: bool

    /** The parser as a value. */
    function State(): PullState
      reads this, scn, toks
    {
      PullState(input, scn.Model(), toks[..], tokWr, tokRd, atom, wasQuot)
    }

    /** `NewPullParser`. */
    constructor (input: seq<byte>)
      ensures State() == Start(input) && fresh(scn) && fresh(toks)
    {
      this.input := input;
      scn := new Sc.Scanner();
      toks := new TokInfo[2](_ => EmptySlot);
      tokWr, tokRd := 0, 0;
      atom, wasQuot := [], false;
      new;
      assert toks[..] == [EmptySlot, EmptySlot];
    }

    /** One of the three callbacks, for the event `e`. */
    method Callback(e: Sp.Event)
      requires toks.Length == 2 && 0 <= tokWr < 2
      modifies this, toks
      ensures Some(State()) == Deliver(old(State()), e)
      ensures input == old(input)
    {
      var w := tokWr;
      match e {
        case Begin(m, b) =>
          toks[w] := TokInfo(TokBegin, m, CharOf(b));
        case End(_, b) =>
          toks[w] := toks[w].(tok := TokEnd, bracket := CharOf(b));
        case Atom(m, text, quoted) =>
          toks[w] := toks[w].(tok := TokAtom, meta := m);
          atom, wasQuot := text, quoted;
      }
      tokWr := w + 1;
    }

    /** The callbacks for the events of one scanner call, in order. */
    method Callbacks(evs: seq<Sp.Event>)
      requires toks.Length == 2 && 0 <= tokWr && tokWr + |evs| <= 2
      modifies this, toks
      ensures Some(State()) == DeliverAll(old(State()), evs)
      ensures input == old(input)
    {
      var i := 0;
      while i < |evs|
        invariant 0 <= i <= |evs| && tokWr == old(tokWr) + i && input == old(input)
        invariant DeliverAll(State(), evs[i..]) == DeliverAll(old(State()), evs)
      {
        assert evs[i..][1..] == evs[i + 1..];
        Callback(evs[i]);
        i := i + 1;
      }
    }

    /** `scn.Push(r)` for the next input byte, with the end callback's reset at depth 0. */
    method FeedByte() returns (err: Option<PullError>)
      requires Valid(State()) && tokWr == 0 && input != []
      modifies this, scn, toks
      ensures (State(), err) == Feed(old(State()))
    {
      ghost var p := State();
      var b := input[0];
      input := input[1..];
      var before := scn.pos;
      var n := |scn.events|;
      var e := scn.Scan([b]);
      var evs := scn.events[n..];
      ghost var o := Sp.Scan(p.scn, [b]);
      assert evs == o.events && e == o.err;
      ScanOneByte(p.scn, b);
      if HasEnd(evs) && scn.Depth() == 0 {
        var after := scn.pos;
        scn.Reset();
        scn.pos := after - before;
      }
      assert scn.Model() == ScannerAfter(p.scn, o);
      ghost var p1 := State();
      assert p1 == p.(input := p.input[1..], scn := ScannerAfter(p.scn, o));
      Callbacks(evs);
      err := if e.Some? then Some(ScanErr(e.value)) else None;
    }

    /** End of input: `Finish`, its events, then `TokEOI`; hand out the first queued token. */
    method EndOfInput() returns (t: Token, err: Option<PullError>)
      requires Valid(State()) && tokWr == 0 && tokRd == 0
      modifies this, scn, toks
      ensures (State(), t, err) == AtEnd(old(State()))
    {
      ghost var p := State();
      var n := |scn.events|;
      var ferr := scn.Finish();
      var evs := scn.events[n..];
      ghost var f := Sp.Finish(p.scn);
      assert evs == f.events && ferr == f.err && |evs| <= 1;
      assert State() == p.(scn := f.state);
      Callbacks(evs);
      ghost var q := State();
      assert DeliverAll(p.(scn := f.state), f.events) == Some(q);
      toks[tokWr] := toks[tokWr].(tok := TokEOI);
      tokWr := tokWr + 1;
      ghost var q2 := State();
      assert q2 == q.(toks := q.toks[q.tokWr := q.toks[q.tokWr].(tok := TokEOI)], tokWr := q.tokWr + 1);
      t := toks[tokRd].tok;
      tokRd := tokRd + 1;
      err := if ferr.Some? then Some(ScanErr(ferr.value)) else None;
    }

    /** `Next`: a queued token first; otherwise empty the queue and fill it. */
    method Next() returns (t: Token, err: Option<PullError>)
      requires Valid(State())
      modifies this, scn, toks
      ensures (State(), t, err) == AfterNext(old(State()))
    {
      if tokRd < tokWr {
        t := toks[tokRd].tok;
        tokRd := tokRd + 1;
        return t, None;
      }
      tokWr, tokRd := 0, 0;
      t, err := FillQueue();
    }

    /** The read loop of `Next`: feed bytes until the callbacks queue a token, then hand it out. */
    method FillQueue() returns (t: Token, err: Option<PullError>)
      requires Valid(State()) && tokWr == 0 && tokRd == 0
      modifies this, scn, toks
      ensures (State(), t, err) == Fill(old(State()))
    {
      ghost var target := Fill(State());
      while tokRd >= tokWr
        invariant Valid(State()) && tokRd == 0
        invariant Fill(State()) == target
        decreases |input|
      {
        if input == [] {
          t, err := EndOfInput();
          return;
        }
        err := FeedOnce();
        if err.Some? {
          return TokEOI, err;
        }
      }
      t := toks[tokRd].tok;
      tokRd := tokRd + 1;
      err := None;
    }

    /** One pass of the read loop on an empty queue: feed the next byte. */
    method FeedOnce() returns (err: Option<PullError>)
      requires Valid(State()) && tokWr == 0 && tokRd == 0 && input != []
      modifies this, scn, toks
      ensures Valid(State()) && tokRd == 0 && |input| < |old(input)|
      ensures Fill(old(State())) == if err.Some? then (State(), TokEOI, err) else Fill(State())
    {
      FeedStep(State());
      err := FeedByte();
    }

    /** `SkipMeta`: after a meta `Begin`, pull tokens with a depth counter until its `End`. */
    method SkipMeta() returns (err: Option<PullError>)
      requires Valid(State())
      modifies this, scn, toks
      ensures (State(), err) == AfterSkipMeta(old(State()))
    {
      if !WasMeta(State()) {
        return None;
      }
      var last := LastToken(State());
      if last == TokAtom {
        return None;
      } else if last != TokBegin {
        return Some(SkipUnreachable);
      }
      var depth := 1;
      ghost var target := SkipDepth(State(), 1);
      while depth > 0
        invariant Valid(State())
        invariant depth > 0 ==> SkipDepth(State(), depth).0 == target.0 && SkipDepth(State(), depth).1 == target.1
        invariant depth == 0 ==> target.0 == State() && target.1 == None
        decreases Rank(State())
      {
        NextRank(State());
        var tok;
        tok, err := Next();
        if err.Some? {
          return;
        }
        if tok == TokBegin {
          depth := depth + 1;
        } else if tok == TokEnd {
          depth := depth - 1;
        } else if tok == TokEOI {
          return Some(Unexp(PullEOI));
        }
      }
      return None;
    }

    /** `NextBegin`. */
    method NextBegin(which: string, meta: int) returns (err: Option<PullError>)
      requires Valid(State())
      modifies this, scn, toks
      ensures (State(), err) == AfterNextBegin(old(State()), which, meta)
    {
      NextSafe(State());
      var _, e := Next();
      if e.Some? {
        return e;
      }
      return ExpectBegin(State(), which, meta);
    }

    /** `NextEnd`. */
    method NextEnd(which: string) returns (err: Option<PullError>)
      requires Valid(State())
      modifies this, scn, toks
      ensures (State(), err) == AfterNextEnd(old(State()), which)
    {
      NextSafe(State());
      var _, e := Next();
      if e.Some? {
        return e;
      }
      return ExpectEnd(State(), which);
    }

    /** `NextAtom`. */
    method NextAtom(meta: int) returns (text: seq<byte>, err: Option<PullError>)
      requires Valid(State())
      modifies this, scn, toks
      ensures (State(), text, err) == AfterNextAtom(old(State()), meta)
    {
      NextSafe(State());
      var _, e := Next();
      if e.Some? {
        return [], e;
      }
      var r := ExpectAtom(State(), meta);
      text, err := r.0, r.1;
    }
  }
}
