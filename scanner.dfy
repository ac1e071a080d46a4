// The resumable XSX byte scanner of scanner.go as a class.  The three
// callbacks (`Begin`, `End`, `Atom`) are modelled by appending the
// corresponding `Event` to the field `events`; a panic inside `Scan` is
// returned as a `ScanError`.  Every method is proved to agree with the pure
// functions of module ScanSpec.
module Scanning {
  import opened Common
  import opened ScanSpec

  /** `skipspace` (without the optional whitespace capture buffer). */
  method SkipSpaceBytes(txt: seq<byte>) returns (res: nat)
    ensures res == SkipSpace(txt)
  {
    res := 0;
    while res < |txt|
      invariant res <= |txt|
      invariant SkipSpace(txt) == SpaceFrom(txt, res)
    {
      if IsAny(txt[res], ccSpace) {
        res := res + 1;
      } else {
        return;
      }
    }
  }

  /** `skipUAtom`: index of the first byte that ends a bare atom, -1 if the chunk has none. */
  method SkipUAtom(txt: seq<byte>) returns (atom: int)
    ensures atom == SkipU(txt)
  {
    atom := 0;
    while atom < |txt|
      invariant 0 <= atom <= |txt|
      invariant SkipU(txt) == DelimFrom(txt, atom)
    {
      if IsDelim(txt[atom]) {
        return;
      }
      atom := atom + 1;
    }
    atom := -1;
  }

  /** `skipQAtom`: the closing quote's index (or -1), the head mode and the `qatomBuf` contents. */
  method SkipQAtom(txt: seq<byte>) returns (atom: int, ahead: HeadMode, buf: seq<byte>)
    ensures QScan(atom, ahead, buf) == SkipQ(txt)
  {
    buf := [];
    atom := 0;
    while atom < |txt|
      invariant 0 <= atom <= |txt|
      invariant SkipQ(txt) == SkipQFrom(txt, atom)
    {
      var c := txt[atom];
      if c == QUOTE {
        return atom, InQuote, [];
      } else if c == BACKSLASH {
        buf := txt[..atom];
        var esc := true;
        atom := atom + 1;
        while atom < |txt|
          invariant 0 <= atom <= |txt|
          invariant SkipQ(txt) == EscLoop(txt, atom, esc, buf)
        {
          if esc {
            buf := buf + [txt[atom]];
            esc := false;
          } else {
            var c := txt[atom];
            if c == QUOTE {
              return atom, InQuote, buf;
            } else if c == BACKSLASH {
              esc := true;
            } else {
              buf := buf + [c];
            }
          }
          atom := atom + 1;
        }
        if esc {
          return -1, QuoteEsc, buf;
        } else {
          return -1, InQuote, buf;
        }
      }
      atom := atom + 1;
    }
    return -1, InQuote, [];
  }

  class Scanner {
    var pos: int
    var meta: bool
    var nest: seq<Nesting>
    var atomHead: Option<seq<byte>>
    var aheadMode: HeadMode
    /** The callbacks invoked so far, oldest first. */
    var events: seq<Event>

    /** The scanner's resumable state as a value. */
    function Model(): State
      reads this
    {
      State(pos, Cur())
    }

    function Cur(): Core
      reads this
    {
      Core(meta, nest, atomHead, aheadMode)
    }

    /** `NewScanner`. */
    constructor ()
      ensures Model() == Initial && events == []
    {
      pos, meta, nest, atomHead, aheadMode := 0, false, [], None, Plain;
      events := [];
    }

    /** `Complete`: no partial token, no pending meta, no open bracket. */
    method Complete() returns (b: bool)
      ensures b <==> atomHead == None && !meta && |nest| == 0
    {
      b := atomHead == None && !meta && |nest| == 0;
    }

    /** `Depth`: the number of open brackets. */
    function Depth(): (d: nat)
      reads this
      ensures d == |Model().core.nest|
    {
      |nest|
    }

    /** `Reset`: back to the initial state, keeping the event log. */
    method Reset()
      modifies this
      ensures Model() == ScanSpec.Reset(old(Model())) && events == old(events)
    {
      pos := 0;
      meta := false;
      nest := [];
      atomHead := None;
    }

    /** `push`. */
    method Push(m: bool, closing: byte)
      modifies this
      ensures nest == old(nest) + [Nesting(m, closing)]
      ensures pos == old(pos) && meta == old(meta) && atomHead == old(atomHead)
      ensures aheadMode == old(aheadMode) && events == old(events)
    {
      nest := nest + [Nesting(m, closing)];
    }

    /** `pop`: the top entry is removed even when it does not match `found`. */
    method Pop(found: byte) returns (m: bool, err: Option<ErrKind>)
      modifies this
      ensures old(nest) == [] ==> nest == [] && err == Some(Unnested(found))
      ensures old(nest) != [] ==>
        nest == old(nest)[..|old(nest)| - 1] &&
        var top := old(nest)[|old(nest)| - 1];
        m == top.meta &&
        err == (if top.cbrace != found then Some(Unbalanced(found, top.cbrace)) else None)
      ensures pos == old(pos) && meta == old(meta) && atomHead == old(atomHead)
      ensures aheadMode == old(aheadMode) && events == old(events)
    {
      if |nest| > 0 {
        var n := nest[|nest| - 1];
        nest := nest[..|nest| - 1];
        if n.cbrace != found {
          return n.meta, Some(Unbalanced(found, n.cbrace));
        }
        return n.meta, None;
      } else {
        return false, Some(Unnested(found));
      }
    }

    /** `callBegin`: report the opening bracket with the pending meta, push, clear meta. */
    method CallBegin(o: byte, c: byte)
      modifies this
      ensures events == old(events) + [Begin(old(meta), o)]
      ensures nest == old(nest) + [Nesting(old(meta), c)] && !meta
      ensures pos == old(pos) && atomHead == old(atomHead) && aheadMode == old(aheadMode)
    {
      events := events + [Begin(meta, o)];
      Push(meta, c);
      meta := false;
    }

    /** `callEnd`: flush a pending meta as the atom `\`, then pop and report the end. */
    method CallEnd(c: byte) returns (err: Option<ErrKind>, ghost emitted: seq<Event>)
      modifies this
      ensures events == old(events) + emitted
      ensures ScanSpec.CallEnd(old(Cur()), c) == (Cur(), emitted, err)
      ensures pos == old(pos)
    {
      emitted := [];
      if meta {
        events := events + [Atom(false, MetaAtom, false)];
        emitted := [Atom(false, MetaAtom, false)];
        meta := false;
      }
      var m;
      m, err := Pop(c);
      if err == None {
        events := events + [End(m, c)];
        emitted := emitted + [End(m, c)];
      }
    }

    /** `Finish`: end of input. */
    method Finish() returns (err: Option<ScanError>)
      modifies this
      ensures var o := ScanSpec.Finish(old(Model()));
        Model() == o.state && events == old(events) + o.events && err == o.err
    {
      if |nest| > 0 {
        return Some(ScanError(pos, NestedFinish));
      }
      if atomHead.Some? {
        if aheadMode != Plain {
          return Some(ScanError(pos, UnterminatedQuote));
        }
        events := events + [Atom(meta, atomHead.value, aheadMode == InQuote)];
        meta := false;
        atomHead := None;
      } else if meta {
        events := events + [Atom(false, MetaAtom, false)];
      }
      return None;
    }

    /** `Scan`: consume one chunk, resuming a partial token left by the previous one. */
    method Scan(txt: seq<byte>) returns (err: Option<ScanError>)
      modifies this
      ensures var o := ScanSpec.Scan(old(Model()), txt);
        Model() == o.state && events == old(events) + o.events && err == o.err
    {
      ghost var s0 := Model();
      var rp: nat := 0;
      ghost var lead: seq<Event> := [];
      if atomHead.Some? {
        if |txt| == 0 {
          return None;
        }
        var done;
        rp, done, lead := ResumeHead(txt);
        if done {
          pos := pos + rp;
          return None;
        }
      }
      ghost var c1 := Cur();
      assert ScanSpec.Scan(s0, txt).events == lead + Loop(c1, txt, rp).events;
      var e;
      ghost var rest;
      rp, e, rest := ScanLoop(txt, rp);
      pos := pos + rp;
      if e.Some? {
        return Some(ScanError(pos, e.value));
      }
      return None;
    }

    /** The first part of `Scan`: continue the partial token left by the previous chunk.
        `done` is set when the chunk ends inside that token again. */
    method ResumeHead(txt: seq<byte>) returns (rp: nat, done: bool, ghost emitted: seq<Event>)
      requires atomHead.Some? && |txt| > 0
      modifies this
      ensures pos == old(pos) && events == old(events) + emitted && rp <= |txt|
      ensures done ==> Resume(old(Cur()), txt) == Res(Cur(), emitted, rp, None)
      ensures !done ==> (atomHead == None &&
        Resume(old(Cur()), txt) == Prepend(emitted, Loop(Cur(), txt, rp)))
    {
      ghost var c0 := Cur();
      rp := 0;
      if aheadMode == Plain {
        var aLen := SkipUAtom(txt);
        if aLen < 0 {
          atomHead := Some(atomHead.value + txt);
          return |txt|, true, [];
        }
        var text := atomHead.value + txt[..aLen];
        events := events + [Atom(meta, text, false)];
        meta := false;
        atomHead := None;
        return aLen, false, [Atom(c0.meta, text, false)];
      }
      var h := atomHead.value;
      if aheadMode == QuoteEsc {
        h := h + [txt[rp]];
        rp := rp + 1;
      }
      var aLen, aEsc, buf := SkipQAtom(txt[rp..]);
      if aLen < 0 {
        if |buf| == 0 {
          atomHead := Some(h + txt);
        } else {
          atomHead := Some(h + buf);
        }
        aheadMode := aEsc;
        return rp, true, [];
      }
      if |buf| == 0 {
        h := h + txt[rp..rp + aLen];
      } else {
        h := h + buf;
      }
      events := events + [Atom(meta, h, true)];
      meta := false;
      atomHead := None;
      rp := rp + aLen + 1;
      done := false;
      emitted := [Atom(c0.meta, h, true)];
    }

    /** The `for rp < end` loop of `Scan`. */
    method ScanLoop(txt: seq<byte>, rp0: nat) returns (rp: nat, err: Option<ErrKind>, ghost emitted: seq<Event>)
      requires rp0 <= |txt|
      modifies this
      ensures pos == old(pos) && events == old(events) + emitted
      ensures Loop(old(Cur()), txt, rp0) == Res(Cur(), emitted, rp, err)
    {
      ghost var c0 := Cur();
      rp := rp0;
      var stop := false;
      err := None;
      emitted := [];
      while !stop && rp < |txt|
        invariant rp0 <= rp <= |txt| && events == old(events) + emitted
        invariant pos == old(pos)
        invariant !stop ==> err == None && Loop(c0, txt, rp0) == Prepend(emitted, Loop(Cur(), txt, rp))
        invariant stop ==> Loop(c0, txt, rp0) == Res(Cur(), emitted, rp, err)
        decreases |txt| - rp, !stop
      {
        ghost var more;
        ghost var before := emitted;
        rp, stop, err, more := LoopBody(txt, rp);
        emitted := emitted + more;
        if !stop {
          PrependTwice(before, more, Loop(Cur(), txt, rp));
        } else {
          PrependTwice(before, more, Res(Cur(), [], rp, err));
        }
      }
    }

    /** One pass of the scan loop: whitespace (flushing a lone meta), then the switch. */
    method LoopBody(txt: seq<byte>, rp0: nat) returns (rp: nat, stop: bool, err: Option<ErrKind>, ghost emitted: seq<Event>)
      requires rp0 < |txt|
      modifies this
      ensures pos == old(pos) && events == old(events) + emitted
      ensures rp0 < rp <= |txt| || (stop && rp == rp0)
      ensures stop ==> Loop(old(Cur()), txt, rp0) == Res(Cur(), emitted, rp, err)
      ensures !stop ==> (err == None &&
        Loop(old(Cur()), txt, rp0) == Prepend(emitted, Loop(Cur(), txt, rp)))
    {
      ghost var before;
      rp, stop, before := Whitespace(txt, rp0);
      if stop {
        return rp, stop, None, before;
      }
      ghost var more;
      rp, stop, err, more := Dispatch(txt, rp);
      emitted := before + more;
      if !stop {
        PrependTwice(before, more, Loop(Cur(), txt, rp));
      } else {
        PrependTwice(before, more, Res(Cur(), [], rp, err));
      }
    }

    /** The whitespace part of one pass: `stop` when the chunk ends in whitespace. */
    method Whitespace(txt: seq<byte>, rp0: nat) returns (rp: nat, stop: bool, ghost emitted: seq<Event>)
      requires rp0 < |txt|
      modifies this
      ensures pos == old(pos) && events == old(events) + emitted
      ensures rp0 <= rp <= |txt|
      ensures stop ==> rp0 < rp && Loop(old(Cur()), txt, rp0) == Res(Cur(), emitted, rp, None)
      ensures !stop ==> (rp < |txt| && !IsAny(txt[rp], ccSpace) &&
        Loop(old(Cur()), txt, rp0) == Prepend(emitted, Step(Cur(), txt, rp)))
    {
      emitted := [];
      var wse := SkipSpaceBytes(txt[rp0..]);
      if wse == 0 {
        return rp0, false, [];
      }
      if meta {
        events := events + [Atom(false, MetaAtom, false)];
        meta := false;
        emitted := [Atom(false, MetaAtom, false)];
      }
      rp := rp0 + wse;
      stop := rp >= |txt|;
    }

    /** The `switch txt[rp]` of the scan loop.  `stop` is set when the switch ended the loop
        with an error or with a partial token. */
    method Dispatch(txt: seq<byte>, rp0: nat) returns (rp: nat, stop: bool, err: Option<ErrKind>, ghost emitted: seq<Event>)
      requires rp0 < |txt| && !IsAny(txt[rp0], ccSpace)
      modifies this
      ensures pos == old(pos) && events == old(events) + emitted
      ensures rp0 < rp <= |txt| || (stop && rp == rp0)
      ensures stop ==> Step(old(Cur()), txt, rp0) == Res(Cur(), emitted, rp, err)
      ensures !stop ==> (err == None &&
        Step(old(Cur()), txt, rp0) == Prepend(emitted, Loop(Cur(), txt, rp)))
    {
      var b := txt[rp0];
      if b == LPAREN || b == LSQUARE || b == LCURLY {
        CallBegin(b, Closing(b));
        rp, stop, err, emitted := rp0 + 1, false, None, [Begin(old(meta), b)];
      } else if b == RPAREN || b == RSQUARE || b == RCURLY {
        err, emitted := CallEnd(b);
        stop := err.Some?;
        rp := if stop then rp0 else rp0 + 1;
      } else if b == QUOTE {
        rp, stop, emitted := QuotedAtom(txt, rp0);
        err := None;
      } else if b == BACKSLASH {
        emitted := [];
        if meta {
          events := events + [Atom(true, MetaAtom, false)];
          emitted := [Atom(true, MetaAtom, false)];
          meta := false;
        } else {
          meta := true;
        }
        rp, stop, err := rp0 + 1, false, None;
      } else {
        DelimiterBytes(b);
        rp, stop, emitted := BareAtom(txt, rp0);
        err := None;
      }
      assert Then(emitted, Cur(), txt, rp) == Prepend(emitted, Loop(Cur(), txt, rp));
    }

    /** `case '"'` of the scan loop. */
    method QuotedAtom(txt: seq<byte>, rp0: nat) returns (rp: nat, stop: bool, ghost emitted: seq<Event>)
      requires rp0 < |txt| && txt[rp0] == QUOTE
      modifies this
      ensures pos == old(pos) && events == old(events) + emitted
      ensures rp0 < rp <= |txt|
      ensures stop ==> StepQuote(old(Cur()), txt, rp0) == Res(Cur(), emitted, rp, None)
      ensures !stop ==> StepQuote(old(Cur()), txt, rp0) == Prepend(emitted, Loop(Cur(), txt, rp))
    {
      rp := rp0 + 1;
      var aLen, aEsc, buf := SkipQAtom(txt[rp..]);
      if aLen < 0 {
        atomHead := Some(if |buf| == 0 then txt[rp..] else buf);
        aheadMode := aEsc;
        return |txt|, true, [];
      }
      var text := if |buf| == 0 then txt[rp..rp + aLen] else buf;
      events := events + [Atom(meta, text, true)];
      emitted := [Atom(meta, text, true)];
      meta := false;
      rp := rp + aLen + 1;
      stop := false;
    }

    /** `default:` of the scan loop. */
    method BareAtom(txt: seq<byte>, rp0: nat) returns (rp: nat, stop: bool, ghost emitted: seq<Event>)
      requires rp0 < |txt| && !IsDelim(txt[rp0])
      modifies this
      ensures pos == old(pos) && events == old(events) + emitted
      ensures rp0 < rp <= |txt|
      ensures stop ==> StepBare(old(Cur()), txt, rp0) == Res(Cur(), emitted, rp, None)
      ensures !stop ==> StepBare(old(Cur()), txt, rp0) == Prepend(emitted, Loop(Cur(), txt, rp))
    {
      var aLen := SkipUAtom(txt[rp0..]);
      if aLen < 0 {
        atomHead := Some(txt[rp0..]);
        aheadMode := Plain;
        return |txt|, true, [];
      }
      events := events + [Atom(meta, txt[rp0..rp0 + aLen], false)];
      emitted := [Atom(meta, txt[rp0..rp0 + aLen], false)];
      meta := false;
      rp := rp0 + aLen;
      stop := false;
    }
  }
}