// `TestReadDef_empty` (table/xsxtable_test.go): `ReadDef` on `[]` gives a
// definition without columns and no error.
module TableExamples {
  import opened Common
  import opened ScanSpec
  import opened ScanProps
  import opened Pull
  import opened Table
  import PE = PullExamples

  const Empty: seq<byte> := [LSQUARE, RSQUARE]

  const SquareNest: seq<Nesting> := [Nesting(false, RSQUARE)]

  /** After `[`: a non-meta `Begin` of `[` handed out from slot 0. */
  const AfterOpen: PullState :=
    PullState([RSQUARE], State(1, Core(false, SquareNest, None, Plain)),
              [TokInfo(TokBegin, false, '['), EmptySlot], 1, 1, [], false)

  /** After `]`: the `End` of `]` in slot 0, with the scanner reset at depth 0. */
  const AfterClose: PullState :=
    PullState([], State(1, Core(false, [], None, Plain)),
              [TokInfo(TokEnd, false, ']'), EmptySlot], 1, 1, [], false)

  lemma FeedOpen()
    ensures Feed(Start(Empty)) == (AfterOpen.(tokRd := 0), None)
  {
    var p := Start(Empty);
    PE.ScanOpen(p.scn, LSQUARE);
    var o := Scan(p.scn, [LSQUARE]);
    assert !HasEnd(o.events);
    var p1 := p.(input := [RSQUARE], scn := o.state);
    assert CharOf(LSQUARE) == '[';
    assert p1.toks[0 := TokInfo(TokBegin, false, '[')] == [TokInfo(TokBegin, false, '['), EmptySlot];
    assert Deliver(p1, o.events[0]) == Some(AfterOpen.(tokRd := 0));
    assert DeliverAll(p1, o.events) == DeliverAll(AfterOpen.(tokRd := 0), []);
  }

  lemma ScanCloseSquare()
    ensures Scan(State(1, Core(false, SquareNest, None, Plain)), [RSQUARE]) ==
      Outcome(State(2, Core(false, [], None, Plain)), [End(false, RSQUARE)], None)
  {
    var c := Core(false, SquareNest, None, Plain);
    LoopAtToken(c, [RSQUARE], 0);
    StepAtClose(c, [RSQUARE], 0);
  }

  lemma FeedClose()
    ensures Feed(AfterOpen.(tokWr := 0, tokRd := 0)) == (AfterClose.(tokRd := 0), None)
  {
    var p := AfterOpen.(tokWr := 0, tokRd := 0);
    ScanCloseSquare();
    var o := Scan(p.scn, [RSQUARE]);
    assert HasEnd(o.events) by { assert o.events[0].End?; }
    assert ScannerAfter(p.scn, o) == State(1, Core(false, [], None, Plain));
    var p1 := p.(input := [], scn := State(1, Core(false, [], None, Plain)));
    assert CharOf(RSQUARE) == ']';
    assert p1.toks[0 := TokInfo(TokEnd, false, ']')] == [TokInfo(TokEnd, false, ']'), EmptySlot];
    assert Deliver(p1, o.events[0]) == Some(AfterClose.(tokRd := 0));
    assert DeliverAll(p1, o.events) == DeliverAll(AfterClose.(tokRd := 0), []);
  }

  /** `NextBegin("[", NoMeta)` on `[]` accepts the `[`. */
  lemma OpenAccepted()
    ensures AfterNextBegin(Start(Empty), "[", NoMeta) == (AfterOpen, None)
  {
    FeedOpen();
    assert Fill(Start(Empty)) == Fill(AfterOpen.(tokRd := 0));
    assert AfterNext(Start(Empty)) == (AfterOpen, TokBegin, None);
  }

  /** The next token is the `End` of `]`. */
  lemma CloseNext()
    ensures AfterNext(AfterOpen) == (AfterClose, TokEnd, None)
  {
    FeedClose();
    assert Fill(AfterOpen.(tokWr := 0, tokRd := 0)) == Fill(AfterClose.(tokRd := 0));
  }

  /** `TestReadDef_empty`: `[]` is a definition with no columns. */
  lemma ExampleEmptyDefinition()
    ensures ReadDefOf(Start(Empty)) == (AfterClose, [], None)
  {
    OpenAccepted();
    CloseNext();
    assert ReadDefOf(Start(Empty)) == ReadCols(AfterOpen, []);
    assert LastToken(AfterClose) == TokEnd && LastBrace(AfterClose) == ']';
    assert ColsAfter(AfterClose, TokEnd, None, []) == (AfterClose, [], None);
    assert ReadCols(AfterOpen, []) == ColsAfter(AfterClose, TokEnd, None, []);
  }

  /** At the end of input a complete scanner queues only `TokEOI`. */
  lemma EndOfInput()
    ensures AfterNext(AfterClose).1 == TokEOI && AfterNext(AfterClose).2.None?
  {
    var p := AfterClose.(tokWr := 0, tokRd := 0);
    var f := Finish(p.scn);
    assert f.events == [] && f.err.None?;
    assert DeliverAll(p.(scn := f.state), f.events) == Some(p.(scn := f.state));
  }

  /** The last `NextRow` of `TestNextRow`: past the last row there is no row, and the error is `PullEOI`. */
  lemma ExampleNoMoreRows(n: nat)
    ensures NextRowOf(AfterClose, n).1.None? && NextRowOf(AfterClose, n).2 == Some(PullFailed(Unexp(PullEOI)))
  {
    EndOfInput();
  }
}
