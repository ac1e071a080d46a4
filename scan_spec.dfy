// The XSX byte scanner (scanner.go) as pure functions: character classes,
// the two atom skippers, one pass of the scan loop, a whole `Scan` call and
// `Finish`.  The class in scanner.dfy runs the same algorithm imperatively
// and is proved to agree with these functions; the lemmas in
// scan_split.dfy and scan_props.dfy are stated about them.
module ScanSpec {
  import opened Common

  /** The partial-token mode (`atomHeadMode`). */
  datatype HeadMode = Plain | InQuote | QuoteEsc

  /** One entry of the nesting stack: the meta flag of the `Begin` and the expected closer. */
  datatype Nesting = Nesting(meta: bool, cbrace: byte)

  /** A callback invocation of the scanner, in the order it happens. */
  datatype Event =
    | Begin(meta: bool, brace: byte)
    | End(meta: bool, brace: byte)
    | Atom(meta: bool, text: seq<byte>, quoted: bool)

  /** What went wrong; `ScanError.pos` carries the position. */
  datatype ErrKind =
    | Unbalanced(found: byte, expected: byte)  // "unbalanced bracing: '<found>', expected '<expected>'"
    | Unnested(found: byte)                    // a closer at depth 0
    | NestedFinish                             // "cannot finish scanning in nested expression"
    | UnterminatedQuote                        // "unterminated quoted atom"

  datatype ScanError = ScanError(pos: int, kind: ErrKind)

  /** The scanner's fields other than the position: pending meta, nesting stack, partial token. */
  datatype Core = Core(meta: bool, nest: seq<Nesting>, head: Option<seq<byte>>, mode: HeadMode)

  /** The whole resumable state of a scanner. */
  datatype State = State(pos: int, core: Core)

  /** The state after `NewScanner` or `Reset`. */
  const Initial: State := State(0, Core(false, [], None, Plain))

  // ---------------------------------------------------------------------
  // Character classes (`cclasses`, `isAny`): a bit set per byte.

  type CClass = bv8

  const ccSpace: CClass := 1
  const ccBegin: CClass := 2
  const ccEnd: CClass := 4
  const ccTok: CClass := 8

  function CClasses(c: byte): CClass
  {
    (if c in {TAB, LF, VT, FF, CR, SPACE, NEL, NBSP} then ccSpace else 0)
    | (if c in {LPAREN, LSQUARE, LCURLY} then ccBegin else 0)
    | (if c in {RPAREN, RSQUARE, RCURLY} then ccEnd else 0)
    | (if c in {QUOTE, BACKSLASH} then ccTok else 0)
  }

  predicate IsAny(c: byte, cls: CClass)
  {
    CClasses(c) & cls != 0
  }

  /** A byte that ends a bare atom. */
  predicate IsDelim(c: byte)
  {
    IsAny(c, ccSpace | ccBegin | ccEnd | ccTok)
  }

  /** The bytes that end a bare atom, listed. */
  lemma DelimiterBytes(c: byte)
    ensures IsDelim(c) <==> c in {TAB, LF, VT, FF, CR, SPACE, NEL, NBSP,
                                 LPAREN, LSQUARE, LCURLY, RPAREN, RSQUARE, RCURLY, QUOTE, BACKSLASH}
    ensures IsAny(c, ccSpace) <==> c in {TAB, LF, VT, FF, CR, SPACE, NEL, NBSP}
  {
  }

  /** The closing bracket of an opening one, 0 for anything else (`closing`). */
  function Closing(open: byte): (c: byte)
    ensures c != 0 <==> open in {LPAREN, LSQUARE, LCURLY}
    ensures c != 0 ==> IsAny(c, ccEnd) && IsAny(open, ccBegin)
  {
    if open == LPAREN then RPAREN
    else if open == LSQUARE then RSQUARE
    else if open == LCURLY then RCURLY
    else 0
  }

  // ---------------------------------------------------------------------
  // Skipping.

  /** Number of leading whitespace bytes (`skipspace`). */
  function SkipSpace(t: seq<byte>): (n: nat)
    ensures n <= |t|
    ensures n < |t| ==> !IsAny(t[n], ccSpace)
  {
    SpaceFrom(t, 0)
  }

  /** The loop of `skipspace`, from index `i` on. */
  function SpaceFrom(t: seq<byte>, i: nat): (n: nat)
    requires i <= |t|
    ensures i <= n <= |t|
    ensures n < |t| ==> !IsAny(t[n], ccSpace)
    decreases |t| - i
  {
    if i == |t| || !IsAny(t[i], ccSpace) then i else SpaceFrom(t, i + 1)
  }

  /** Index of the first byte that ends a bare atom, or -1 if there is none (`skipUAtom`). */
  function SkipU(t: seq<byte>): (r: int)
    ensures -1 <= r < |t|
    ensures r >= 0 ==> IsDelim(t[r])
  {
    DelimFrom(t, 0)
  }

  /** The loop of `skipUAtom`, from index `i` on. */
  function DelimFrom(t: seq<byte>, i: nat): (r: int)
    requires i <= |t|
    ensures r == -1 || i <= r < |t|
    ensures r >= 0 ==> IsDelim(t[r])
    decreases |t| - i
  {
    if i == |t| then -1 else if IsDelim(t[i]) then i else DelimFrom(t, i + 1)
  }

  /** The result of `skipQAtom`: the index of the closing quote (or -1), the mode, and `qatomBuf`. */
  datatype QScan = QScan(atom: int, mode: HeadMode, buf: seq<byte>)

  /** `skipQAtom`, first loop: no backslash seen so far; `qatomBuf` stays empty. */
  function SkipQ(t: seq<byte>): QScan
  {
    SkipQFrom(t, 0)
  }

  function SkipQFrom(t: seq<byte>, i: nat): (q: QScan)
    requires i <= |t|
    ensures -1 <= q.atom < |t| && q.mode != Plain
    ensures q.atom >= 0 ==> t[q.atom] == QUOTE && q.mode == InQuote
    decreases |t| - i
  {
    if i == |t| then QScan(-1, InQuote, [])
    else if t[i] == QUOTE then QScan(i, InQuote, [])
    else if t[i] == BACKSLASH then EscLoop(t, i + 1, true, t[..i])
    else SkipQFrom(t, i + 1)
  }

  /** `skipQAtom`, inner loop after the first backslash: `qatomBuf` holds the unescaped text so far. */
  function EscLoop(t: seq<byte>, j: nat, esc: bool, sb: seq<byte>): (q: QScan)
    requires j <= |t|
    ensures -1 <= q.atom < |t| && q.mode != Plain
    ensures q.atom >= 0 ==> t[q.atom] == QUOTE && q.mode == InQuote
    decreases |t| - j
  {
    if j == |t| then QScan(-1, if esc then QuoteEsc else InQuote, sb)
    else if esc then EscLoop(t, j + 1, false, sb + [t[j]])
    else if t[j] == QUOTE then QScan(j, InQuote, sb)
    else if t[j] == BACKSLASH then EscLoop(t, j + 1, true, sb)
    else EscLoop(t, j + 1, false, sb + [t[j]])
  }

  // ---------------------------------------------------------------------
  // One scan pass.

  /** Outcome of scanning from some point: new core, events emitted, bytes consumed (`rp`), error. */
  datatype Res = Res(core: Core, events: seq<Event>, rp: int, err: Option<ErrKind>)

  function Prepend(evs: seq<Event>, r: Res): Res
  {
    r.(events := evs + r.events)
  }

  /** Events prepended in two steps are the concatenation prepended once. */
  lemma PrependTwice(a: seq<Event>, b: seq<Event>, r: Res)
    ensures Prepend(a, Prepend(b, r)) == Prepend(a + b, r)
  {
    assert a + (b + r.events) == (a + b) + r.events;
  }

  /** `callEnd`: flush a pending meta as `\`, then pop and check the closer. */
  function CallEnd(c: Core, closer: byte): (r: (Core, seq<Event>, Option<ErrKind>))
  {
    var evs := if c.meta then [Atom(false, MetaAtom, false)] else [];
    var c1 := c.(meta := false);
    if |c1.nest| == 0 then (c1, evs, Some(Unnested(closer)))
    else
      var top := c1.nest[|c1.nest| - 1];
      var c2 := c1.(nest := c1.nest[..|c1.nest| - 1]);
      if top.cbrace != closer then (c2, evs, Some(Unbalanced(closer, top.cbrace)))
      else (c2, evs + [End(top.meta, closer)], None)
  }

  /** The text of a quoted atom as `Scan` takes it: the raw bytes while `qatomBuf` is empty, else the buffer. */
  function QText(raw: seq<byte>, q: QScan): seq<byte>
  {
    if q.buf == [] then raw else q.buf
  }

  predicate IsOpen(b: byte) { b == LPAREN || b == LSQUARE || b == LCURLY }
  predicate IsClose(b: byte) { b == RPAREN || b == RSQUARE || b == RCURLY }

  /** The body of `for rp < end`: skip whitespace (flushing a lone meta), then dispatch. */
  function Loop(c: Core, t: seq<byte>, rp: nat): (r: Res)
    requires rp <= |t|
    ensures rp <= r.rp <= |t|
    ensures r.err.None? ==> r.rp == |t|
    decreases |t| - rp, 2
  {
    if rp == |t| then Res(c, [], rp, None)
    else
      var wse := SkipSpace(t[rp..]);
      if wse > 0 then
        var evs := if c.meta then [Atom(false, MetaAtom, false)] else [];
        var c1 := c.(meta := false);
        if rp + wse == |t| then Res(c1, evs, |t|, None)
        else Prepend(evs, Step(c1, t, rp + wse))
      else Step(c, t, rp)
  }

  /** The `switch txt[rp]` of the scan loop, then the rest of the loop. */
  function Step(c: Core, t: seq<byte>, rp: nat): (r: Res)
    requires rp < |t| && !IsAny(t[rp], ccSpace)
    ensures rp <= r.rp <= |t|
    ensures r.err.None? ==> r.rp == |t|
    decreases |t| - rp, 1
  {
    var b := t[rp];
    if IsOpen(b) then StepOpen(c, t, rp)
    else if IsClose(b) then StepClose(c, t, rp)
    else if b == QUOTE then StepQuote(c, t, rp)
    else if b == BACKSLASH then StepMeta(c, t, rp)
    else StepBare(c, t, rp)
  }

  /** The events of a switch case, then the rest of the loop from `rp`. */
  function Then(evs: seq<Event>, c: Core, t: seq<byte>, rp: nat): (r: Res)
    requires rp <= |t|
    ensures rp <= r.rp <= |t|
    ensures r.err.None? ==> r.rp == |t|
    decreases |t| - rp, 3
  {
    Prepend(evs, Loop(c, t, rp))
  }

  /** An opening bracket: `callBegin`. */
  function StepOpen(c: Core, t: seq<byte>, rp: nat): (r: Res)
    requires rp < |t| && IsOpen(t[rp])
    ensures rp <= r.rp <= |t|
    ensures r.err.None? ==> r.rp == |t|
    decreases |t| - rp, 0
  {
    var b := t[rp];
    var c1 := c.(nest := c.nest + [Nesting(c.meta, Closing(b))], meta := false);
    Then([Begin(c.meta, b)], c1, t, rp + 1)
  }

  /** A closing bracket: `callEnd`, which may fail. */
  function StepClose(c: Core, t: seq<byte>, rp: nat): (r: Res)
    requires rp < |t| && IsClose(t[rp])
    ensures rp <= r.rp <= |t|
    ensures r.err.None? ==> r.rp == |t|
    decreases |t| - rp, 0
  {
    var (c1, evs, err) := CallEnd(c, t[rp]);
    if err.Some? then Res(c1, evs, rp, err)
    else Then(evs, c1, t, rp + 1)
  }

  /** An opening quote: a quoted atom, complete or left pending. */
  function StepQuote(c: Core, t: seq<byte>, rp: nat): (r: Res)
    requires rp < |t| && t[rp] == QUOTE
    ensures rp <= r.rp <= |t|
    ensures r.err.None? ==> r.rp == |t|
    decreases |t| - rp, 0
  {
    var q := SkipQ(t[rp + 1..]);
    if q.atom < 0 then
      Res(c.(head := Some(QText(t[rp + 1..], q)), mode := q.mode), [], |t|, None)
    else
      var text := QText(t[rp + 1..rp + 1 + q.atom], q);
      Then([Atom(c.meta, text, true)], c.(meta := false), t, rp + 1 + q.atom + 1)
  }

  /** A backslash outside a quoted atom: set meta, or report `\` as the meta atom `\`. */
  function StepMeta(c: Core, t: seq<byte>, rp: nat): (r: Res)
    requires rp < |t| && t[rp] == BACKSLASH
    ensures rp <= r.rp <= |t|
    ensures r.err.None? ==> r.rp == |t|
    decreases |t| - rp, 0
  {
    if c.meta then Then([Atom(true, MetaAtom, false)], c.(meta := false), t, rp + 1)
    else Then([], c.(meta := true), t, rp + 1)
  }

  /** Any other byte: a bare atom, complete or left pending. */
  function StepBare(c: Core, t: seq<byte>, rp: nat): (r: Res)
    requires rp < |t| && !IsDelim(t[rp])
    ensures rp <= r.rp <= |t|
    ensures r.err.None? ==> r.rp == |t|
    decreases |t| - rp, 0
  {
    var a := SkipU(t[rp..]);
    if a < 0 then Res(c.(head := Some(t[rp..]), mode := Plain), [], |t|, None)
    else Then([Atom(c.meta, t[rp..rp + a], false)], c.(meta := false), t, rp + a)
  }

  /** The part of `Scan` that continues a partial token left by the previous chunk. */
  function Resume(c: Core, t: seq<byte>): (r: Res)
    requires c.head.Some? && |t| > 0
    ensures 0 <= r.rp <= |t|
  {
    var h := c.head.value;
    if c.mode == Plain then
      var a := SkipU(t);
      if a < 0 then Res(c.(head := Some(h + t)), [], |t|, None)
      else
        var c1 := c.(meta := false, head := None);
        Then([Atom(c.meta, h + t[..a], false)], c1, t, a)
    else
      var rp := if c.mode == QuoteEsc then 1 else 0;
      var h1 := if c.mode == QuoteEsc then h + [t[0]] else h;
      var q := SkipQ(t[rp..]);
      if q.atom < 0 then
        Res(c.(head := Some(h1 + QText(t, q)), mode := q.mode), [], rp, None)
      else
        var text := h1 + QText(t[rp..rp + q.atom], q);
        var c1 := c.(meta := false, head := None);
        Then([Atom(c.meta, text, true)], c1, t, rp + q.atom + 1)
  }

  /** One `Scan(txt)` call: the new state, the events, and the error if any. */
  datatype Outcome = Outcome(state: State, events: seq<Event>, err: Option<ScanError>)

  function Scan(s: State, t: seq<byte>): Outcome
  {
    if s.core.head.Some? && |t| == 0 then Outcome(s, [], None)
    else
      var r := if s.core.head.Some? then Resume(s.core, t) else Loop(s.core, t, 0);
      var pos := s.pos + r.rp;
      Outcome(State(pos, r.core), r.events,
              if r.err.Some? then Some(ScanError(pos, r.err.value)) else None)
  }

  /** `Finish`: refuse inside a nesting or a quoted atom, else flush the pending token. */
  function Finish(s: State): Outcome
  {
    var c := s.core;
    if |c.nest| > 0 then Outcome(s, [], Some(ScanError(s.pos, NestedFinish)))
    else if c.head.Some? then
      if c.mode != Plain then Outcome(s, [], Some(ScanError(s.pos, UnterminatedQuote)))
      else
        Outcome(s.(core := c.(meta := false, head := None)),
                [Atom(c.meta, c.head.value, c.mode == InQuote)], None)
    else if c.meta then Outcome(s, [Atom(false, MetaAtom, false)], None)
    else Outcome(s, [], None)
  }

  /** `Complete`: nothing pending and nothing open. */
  predicate Complete(s: State)
  {
    s.core.head == None && !s.core.meta && |s.core.nest| == 0
  }

  /** `Reset`: position, meta, nesting and partial token are cleared; the head mode is kept. */
  function Reset(s: State): State
  {
    State(0, Core(false, [], None, s.core.mode))
  }

  /** `ScanString`: one chunk, then `Finish` if the chunk was accepted. */
  function ScanString(s: State, t: seq<byte>): Outcome
  {
    var o := Scan(s, t);
    if o.err.Some? then o
    else var f := Finish(o.state); Outcome(f.state, o.events + f.events, f.err)
  }
}
