// Reading general expressions from the pull parser (gem/pull.go): an atom
// from the token just pulled, a sequence by pulling its elements until its
// `End`.  The functions below are the specification; the methods run the
// same recursion on a `PullParser` object, with the element loop of
// `readSeq`.
module GemPull {
  import opened Common
  import opened Gem
  import opened Pull
  import GP = GemParse

  /**
   * What reading reports: an error of the pull parser, a token that cannot
   * start an expression (the `fmt.Errorf` of `ReadCurrent`), and the panic
   * of `readSeq` on an opening bracket it does not know.
   */
  datatype GemError =
    | Pulled(e: PullError)
    | UnexpectedToken(tok: Token)
    | IllegalOpening(brace: char)

  /** `xsx.PullEOI` as a reading error. */
  const EOI: GemError := Pulled(Unexp(PullEOI))

  /** The errors reading can end with: a scanner error, the end of input, a token that starts nothing, or an unknown bracket. */
  predicate ReadError(e: GemError)
  {
    match e
    case Pulled(pe) => pe.ScanErr? || pe == Unexp(PullEOI)
    case UnexpectedToken(t) => t != TokEOI && t != TokAtom && t != TokBegin
    case IllegalOpening(_) => true
  }

  /** The atom `ReadCurrent` builds: the parser's text, `WasMeta` and `WasQuot`. */
  function AtomRead(p: PullState): (e: Expr)
    requires Valid(p)
    ensures e.Atom? && GP.Normal(e)
    ensures Meta(e.base) == WasMeta(p) && Quoted(e.base) == p.wasQuot && e.str == Chars(p.atom)
  {
    QuotedKeepsMeta(WithMeta(Zero, WasMeta(p)), p.wasQuot);
    Expr.Atom(WithQuoted(WithMeta(Zero, WasMeta(p)), p.wasQuot), Chars(p.atom))
  }

  /** The brace `readSeq` sets for an opening bracket, `None` for the panic. */
  function BraceOfOpening(c: char): (b: Option<int>)
    ensures b.Some? <==> c in "([{"
    ensures b.Some? ==> ValidBrace(b.value) && Opening(b.value) == Some(c)
  {
    if c == '(' then Some(Paren)
    else if c == '[' then Some(Square)
    else if c == '{' then Some(Curly)
    else None
  }

  /**
   * `ReadCurrent`: the expression that starts with the token last pulled.
   * An error may come with the part of a sequence read before it.
   */
  function ReadCurrentOf(p: PullState): (r: (PullState, Option<Expr>, Option<GemError>))
    requires Valid(p)
    ensures Valid(r.0)
    ensures r.2.None? ==> r.1.Some? && Rank(r.0) <= Rank(p)
    ensures r.2.Some? ==> ReadError(r.2.value)
    ensures r.1.Some? ==> GP.Normal(r.1.value)
    ensures LastToken(p) == TokEOI ==> r == (p, None, Some(EOI))
    ensures LastToken(p) == TokAtom ==> r == (p, Some(AtomRead(p)), None)
    ensures LastToken(p) == TokBegin && r.2.None? ==> r.1.value.Sequence? && LastToken(r.0) == TokEnd
    ensures LastToken(p) !in {TokEOI, TokAtom, TokBegin} ==> r == (p, None, Some(UnexpectedToken(LastToken(p))))
    decreases Rank(p), 3
  {
    var t := LastToken(p);
    if t == TokEOI then (p, None, Some(EOI))
    else if t == TokAtom then (p, Some(AtomRead(p)), None)
    else if t == TokBegin then ReadSeqOf(p)
    else (p, None, Some(UnexpectedToken(t)))
  }

  /** `readSeq`: the meta flag and brace of the `Begin`, then the elements up to the matching `End`. */
  function ReadSeqOf(p: PullState): (r: (PullState, Option<Expr>, Option<GemError>))
    requires Valid(p)
    ensures Valid(r.0)
    ensures r.2.None? ==> r.1.Some? && Rank(r.0) < Rank(p) && LastToken(r.0) == TokEnd
    ensures r.2.Some? ==> ReadError(r.2.value)
    ensures r.1.Some? ==>
      (GP.Normal(r.1.value) && r.1.value.Sequence? &&
       Meta(r.1.value.base) == WasMeta(p) && Opening(BraceOf(r.1.value.base)) == Some(LastBrace(p)))
    ensures r.1.None? <==> LastBrace(p) !in "([{"
    decreases Rank(p), 2
  {
    var c := LastBrace(p);
    match BraceOfOpening(c)
    case None => (p, None, Some(IllegalOpening(c)))
    case Some(b) =>
      var m := WithMeta(Zero, WasMeta(p));
      BraceKeepsMeta(m, b);
      BraceReadsBack(m, b);
      ReadElems(p, WithBrace(m, b), [])
  }

  /** One pass of the loop of `readSeq`: pull a token, then stop or read one more element. */
  function ReadElems(p: PullState, base: Bits, elems: seq<Expr>): (r: (PullState, Option<Expr>, Option<GemError>))
    requires Valid(p)
    ensures Valid(r.0)
    ensures r.1.Some? && r.1.value.Sequence? && r.1.value.base == base && elems <= r.1.value.elems
    ensures r.2.None? ==> Rank(r.0) < Rank(p) && LastToken(r.0) == TokEnd
    ensures r.2.Some? ==> ReadError(r.2.value)
    ensures base.high == 0 && ValidBrace(BraceOf(base)) && (forall x <- elems :: GP.Normal(x)) ==> GP.Normal(r.1.value)
    decreases Rank(p), 1
  {
    NextRank(p);
    NextSafe(p);
    NextErrorIsEOI(p);
    var (q, t, err) := AfterNext(p);
    ElemsAfter(q, t, err, base, elems)
  }

  /**
   * The rest of the pass, after `Next` gave `t` and `err`: `TokEnd` ends the
   * sequence (before `err` is looked at), an error ends it with the error,
   * and `TokEOI` is what `ReadCurrent` turns into `PullEOI`.
   */
  function ElemsAfter(q: PullState, t: Token, err: Option<PullError>, base: Bits, elems: seq<Expr>):
    (r: (PullState, Option<Expr>, Option<GemError>))
    requires Valid(q) && IsToken(t) && (err.Some? ==> err.value.ScanErr? && t == TokEOI)
    requires err.None? ==> LastToken(q) == t
    ensures Valid(r.0)
    ensures r.1.Some? && r.1.value.Sequence? && r.1.value.base == base && elems <= r.1.value.elems
    ensures r.2.None? ==> Rank(r.0) <= Rank(q) && LastToken(r.0) == TokEnd
    ensures r.2.Some? ==> ReadError(r.2.value)
    ensures base.high == 0 && ValidBrace(BraceOf(base)) && (forall x <- elems :: GP.Normal(x)) ==> GP.Normal(r.1.value)
    decreases if t != TokEnd && t != TokEOI then Rank(q) + 1 else 0, 0
  {
    if t == TokEnd then (q, Some(Sequence(base, elems)), None)
    else if err.Some? then (q, Some(Sequence(base, elems)), Some(Pulled(err.value)))
    else if t == TokEOI then (q, Some(Sequence(base, elems)), Some(EOI))
    else
      var (q2, elm, err2) := ReadCurrentOf(q);
      if err2.Some? then (q2, Some(Sequence(base, elems)), err2)
      else ReadElems(q2, base, elems + [elm.value])
  }

  /** `ReadNext`: pull a token and read from it; `Next`'s error is dropped, `TokEOI` is `PullEOI`. */
  function ReadNextOf(p: PullState): (r: (PullState, Option<Expr>, Option<GemError>))
    requires Valid(p)
    ensures Valid(r.0)
    ensures var (q, t, _) := AfterNext(p);
      Valid(q) && (t == TokEOI ==> r == (q, None, Some(EOI))) && (t != TokEOI ==> r == ReadCurrentOf(q))
  {
    NextSafe(p);
    var (q, t, _) := AfterNext(p);
    if t != TokEOI then ReadCurrentOf(q) else (q, None, Some(EOI))
  }

  /** A scanner error from `Next` never reaches the caller of `ReadNext`: it reads as `PullEOI`. */
  lemma ReadNextDropsScanError(p: PullState)
    requires Valid(p)
    ensures AfterNext(p).2.Some? ==> ReadNextOf(p).2 == Some(EOI)
  {
    NextErrorIsEOI(p);
  }

  /** So input that ends inside a bracket reads as a plain end of input, not as `NestedFinish`. */
  lemma UnclosedReadsAsEOI(p: PullState)
    requires Valid(p) && p.tokRd == p.tokWr && p.input == [] && |p.scn.core.nest| > 0
    ensures AfterNext(p).2.Some? && AfterNext(p).2.value.e.kind == Sp.NestedFinish
    ensures ReadNextOf(p) == (AfterNext(p).0, None, Some(EOI))
  {
    EOIInsideBracket(p);
  }

  // ---------------------------------------------------------------------
  // What a read consumes: the tokens pulled, as pieces of an expression.

  /** A token seen as a piece of an expression: a bracket with its meta flag, an `End`, an atom. */
  datatype Piece =
    | PBegin(meta: bool, bracket: Option<char>)
    | PEnd
    | PAtom(meta: bool, quoted: bool, text: string)

  /** The pieces of an expression written out, brackets around the elements. */
  function Flat(e: Expr): seq<Piece>
  {
    match e
    case Atom(b, s) => [PAtom(Meta(b), Quoted(b), s)]
    case Sequence(b, elems) => [PBegin(Meta(b), Opening(BraceOf(b)))] + FlatElems(elems) + [PEnd]
  }

  function FlatElems(elems: seq<Expr>): seq<Piece>
  {
    if elems == [] then [] else Flat(elems[0]) + FlatElems(elems[1..])
  }

  /** How a piece moves the bracket depth. */
  function PieceDelta(x: Piece): int
  {
    if x.PBegin? then 1 else if x.PEnd? then -1 else 0
  }

  /** The bracket depth a run of pieces adds up to. */
  function Depth(xs: seq<Piece>): int
  {
    if xs == [] then 0 else PieceDelta(xs[0]) + Depth(xs[1..])
  }

  lemma {:induction false} DepthConcat(a: seq<Piece>, b: seq<Piece>)
    ensures Depth(a + b) == Depth(a) + Depth(b)
    decreases |a|
  {
    if a == [] {
      assert a + b == b;
    } else {
      assert (a + b)[1..] == a[1..] + b;
      DepthConcat(a[1..], b);
    }
  }

  /**
   * The pieces of an expression are balanced: they add up to depth 0, no
   * prefix goes below 0, and inside a sequence every prefix but the whole
   * stays above 0, so its last `PEnd` is the one that closes its `PBegin`.
   */
  lemma {:induction false} FlatBalanced(e: Expr)
    ensures Depth(Flat(e)) == 0
    ensures forall k :: 0 <= k <= |Flat(e)| ==> Depth(Flat(e)[..k]) >= 0
    ensures e.Sequence? ==> forall k :: 0 < k < |Flat(e)| ==> Depth(Flat(e)[..k]) > 0
    decreases e, 1
  {
    match e
    case Atom(b, s) =>
      assert Flat(e)[..0] == [];
      assert Flat(e)[..1] == Flat(e);
    case Sequence(b, elems) =>
      var open := [PBegin(Meta(b), Opening(BraceOf(b)))];
      var inner := FlatElems(elems);
      FlatElemsBalanced(elems);
      DepthConcat(open, inner);
      DepthConcat(open + inner, [PEnd]);
      forall k | 0 < k < |Flat(e)|
        ensures Depth(Flat(e)[..k]) > 0
      {
        assert Flat(e)[..k] == open + inner[..k - 1];
        DepthConcat(open, inner[..k - 1]);
      }
      assert Flat(e)[..0] == [];
      assert Flat(e)[..|Flat(e)|] == Flat(e);
  }

  lemma {:induction false} FlatElemsBalanced(elems: seq<Expr>)
    ensures Depth(FlatElems(elems)) == 0
    ensures forall k :: 0 <= k <= |FlatElems(elems)| ==> Depth(FlatElems(elems)[..k]) >= 0
    decreases elems, 0
  {
    if elems != [] {
      var a := Flat(elems[0]);
      var b := FlatElems(elems[1..]);
      FlatBalanced(elems[0]);
      FlatElemsBalanced(elems[1..]);
      DepthConcat(a, b);
      forall k | 0 <= k <= |a + b|
        ensures Depth((a + b)[..k]) >= 0
      {
        if k <= |a| {
          assert (a + b)[..k] == a[..k];
        } else {
          assert (a + b)[..k] == a + b[..k - |a|];
          DepthConcat(a, b[..k - |a|]);
        }
      }
    } else {
      assert FlatElems(elems)[..0] == [];
    }
  }

  /** The token last pulled, as a piece. */
  function PieceOf(p: PullState): Piece
    requires Valid(p)
  {
    var t := LastToken(p);
    if t == TokBegin then PBegin(WasMeta(p), Some(LastBrace(p)))
    else if t == TokEnd then PEnd
    else PAtom(WasMeta(p), p.wasQuot, Chars(p.atom))
  }

  /** The tokens `ReadCurrent` pulls, as pieces, in the recursion of `ReadCurrentOf`. */
  function CurrentPieces(p: PullState): seq<Piece>
    requires Valid(p)
    decreases Rank(p), 3
  {
    if LastToken(p) == TokBegin then SeqPieces(p) else []
  }

  function SeqPieces(p: PullState): seq<Piece>
    requires Valid(p)
    decreases Rank(p), 2
  {
    if BraceOfOpening(LastBrace(p)).None? then [] else ElemsPieces(p)
  }

  function ElemsPieces(p: PullState): seq<Piece>
    requires Valid(p)
    decreases Rank(p), 1
  {
    NextRank(p);
    NextSafe(p);
    NextErrorIsEOI(p);
    var (q, t, err) := AfterNext(p);
    AfterPieces(q, t, err)
  }

  function AfterPieces(q: PullState, t: Token, err: Option<PullError>): seq<Piece>
    requires Valid(q) && IsToken(t) && (err.Some? ==> err.value.ScanErr? && t == TokEOI)
    requires err.None? ==> LastToken(q) == t
    decreases if t != TokEnd && t != TokEOI then Rank(q) + 1 else 0, 0
  {
    if t == TokEnd then [PEnd]
    else if err.Some? || t == TokEOI then []
    else
      var (q2, _, err2) := ReadCurrentOf(q);
      [PieceOf(q)] + CurrentPieces(q) + (if err2.Some? then [] else ElemsPieces(q2))
  }

  /**
   * A successful `ReadCurrent` returns exactly the expression whose pieces
   * are the token it starts from and the tokens it pulls, in order.
   */
  lemma {:induction false} ReadCurrentFlat(p: PullState)
    requires Valid(p) && ReadCurrentOf(p).2.None?
    ensures Flat(ReadCurrentOf(p).1.value) == [PieceOf(p)] + CurrentPieces(p)
    decreases Rank(p), 3
  {
    if LastToken(p) == TokBegin {
      ReadSeqFlat(p);
    } else {
      assert [PieceOf(p)] + [] == [PieceOf(p)];
    }
  }

  /** `readSeq` returns the sequence that the `Begin` and the tokens it pulls spell out, up to its `End`. */
  lemma {:induction false} ReadSeqFlat(p: PullState)
    requires Valid(p) && LastToken(p) == TokBegin && ReadSeqOf(p).2.None?
    ensures Flat(ReadSeqOf(p).1.value) == [PieceOf(p)] + SeqPieces(p)
    decreases Rank(p), 2
  {
    var base := WithBrace(WithMeta(Zero, WasMeta(p)), BraceOfOpening(LastBrace(p)).value);
    assert ReadSeqOf(p) == ReadElems(p, base, []);
    ReadElemsFlat(p, base, []);
    assert FlatElems([]) + ElemsPieces(p) == SeqPieces(p);
    FlatSequence(ReadSeqOf(p).1.value);
  }

  lemma FlatSequence(e: Expr)
    requires e.Sequence?
    ensures Flat(e) == [PBegin(Meta(e.base), Opening(BraceOf(e.base)))] + (FlatElems(e.elems) + [PEnd])
  {
  }

  /**
   * So the `End` at which a successful `readSeq` stops is the one that
   * matches its `Begin`: the pieces read stay above depth 0 until it.
   */
  lemma ReadSeqMatches(p: PullState)
    requires Valid(p) && LastToken(p) == TokBegin && ReadSeqOf(p).2.None?
    ensures var xs := [PieceOf(p)] + SeqPieces(p);
      Depth(xs) == 0 && xs[|xs| - 1] == PEnd && forall k :: 0 < k < |xs| ==> Depth(xs[..k]) > 0
  {
    ReadSeqFlat(p);
    FlatBalanced(ReadSeqOf(p).1.value);
  }

  /** Each pass of the loop adds the elements the pulled tokens spell out, and the `End` closes it. */
  lemma {:induction false} ReadElemsFlat(p: PullState, base: Bits, elems: seq<Expr>)
    requires Valid(p) && ReadElems(p, base, elems).2.None?
    ensures FlatElems(ReadElems(p, base, elems).1.value.elems) + [PEnd] == FlatElems(elems) + ElemsPieces(p)
    decreases Rank(p), 1
  {
    NextRank(p);
    NextSafe(p);
    NextErrorIsEOI(p);
    var (q, t, err) := AfterNext(p);
    ElemsAfterFlat(q, t, err, base, elems);
  }

  lemma {:induction false} ElemsAfterFlat(q: PullState, t: Token, err: Option<PullError>, base: Bits, elems: seq<Expr>)
    requires Valid(q) && IsToken(t) && (err.Some? ==> err.value.ScanErr? && t == TokEOI)
    requires err.None? ==> LastToken(q) == t
    requires ElemsAfter(q, t, err, base, elems).2.None?
    ensures FlatElems(ElemsAfter(q, t, err, base, elems).1.value.elems) + [PEnd] ==
            FlatElems(elems) + AfterPieces(q, t, err)
    decreases if t != TokEnd && t != TokEOI then Rank(q) + 1 else 0, 0
  {
    if t != TokEnd {
      var (q2, elm, err2) := ReadCurrentOf(q);
      ReadCurrentFlat(q);
      ReadElemsFlat(q2, base, elems + [elm.value]);
      FlatElemsSnoc(elems, elm.value);
      PiecesAssoc(FlatElems(elems), Flat(elm.value), [PieceOf(q)] + CurrentPieces(q), ElemsPieces(q2));
    }
  }

  lemma {:induction false} FlatElemsSnoc(elems: seq<Expr>, x: Expr)
    ensures FlatElems(elems + [x]) == FlatElems(elems) + Flat(x)
    decreases |elems|
  {
    if elems == [] {
      assert [x][1..] == [];
      assert FlatElems([x]) == Flat(x) + [];
    } else {
      assert (elems + [x])[1..] == elems[1..] + [x];
      FlatElemsSnoc(elems[1..], x);
    }
  }

  lemma PiecesAssoc(a: seq<Piece>, b: seq<Piece>, b2: seq<Piece>, c: seq<Piece>)
    requires b == b2
    ensures (a + b) + c == a + (b2 + c)
  {
  }

  // ---------------------------------------------------------------------
  // The same reads on a parser object.

  /** `ReadCurrent`. */
  method ReadCurrent(p: PullParser) returns (e: Option<Expr>, err: Option<GemError>)
    requires Valid(p.State())
    modifies p, p.scn, p.toks
    ensures (p.State(), e, err) == ReadCurrentOf(old(p.State()))
    decreases if LastToken(p.State()) == TokEOI then 0 else Rank(p.State()) + 1, 3
  {
    var t := LastToken(p.State());
    if t == TokEOI {
      return None, Some(EOI);
    } else if t == TokAtom {
      var a := new ExpBase(Zero);
      a.SetMeta(WasMeta(p.State()));
      a.SetQuoted(p.wasQuot);
      QuotedKeepsMeta(WithMeta(Zero, WasMeta(p.State())), p.wasQuot);
      return Some(Expr.Atom(a.bits, Chars(p.atom))), None;
    } else if t == TokBegin {
      e, err := ReadSeq(p);
    } else {
      return None, Some(UnexpectedToken(t));
    }
  }

  /** `ReadNext`. */
  method ReadNext(p: PullParser) returns (e: Option<Expr>, err: Option<GemError>)
    requires Valid(p.State())
    modifies p, p.scn, p.toks
    ensures (p.State(), e, err) == ReadNextOf(old(p.State()))
  {
    NextSafe(p.State());
    var tok, _ := p.Next();
    if tok != TokEOI {
      e, err := ReadCurrent(p);
    } else {
      e, err := None, Some(EOI);
    }
  }

  /** `readSeq`: the meta flag and brace of the `Begin`, then its loop. */
  method ReadSeq(p: PullParser) returns (e: Option<Expr>, err: Option<GemError>)
    requires Valid(p.State())
    modifies p, p.scn, p.toks
    ensures (p.State(), e, err) == ReadSeqOf(old(p.State()))
    decreases Rank(p.State()) + 1, 2
  {
    var res := new ExpBase(Zero);
    res.SetMeta(WasMeta(p.State()));
    var c := LastBrace(p.State());
    var brace := BraceOfOpening(c);
    if brace.None? {
      return None, Some(IllegalOpening(c));
    }
    res.SetBrace(brace.value);
    e, err := ReadElemsLoop(p, res.bits);
  }

  /** The loop of `readSeq`: pull tokens, reading an element from each, until `TokEnd`. */
  method ReadElemsLoop(p: PullParser, base: Bits) returns (e: Option<Expr>, err: Option<GemError>)
    requires Valid(p.State())
    modifies p, p.scn, p.toks
    ensures (p.State(), e, err) == ReadElems(old(p.State()), base, [])
    decreases Rank(p.State()) + 1, 1
  {
    ghost var rank0 := Rank(p.State());
    ghost var target := ReadElems(p.State(), base, []);
    var elems: seq<Expr> := [];
    NextRank(p.State());
    NextSafe(p.State());
    NextErrorIsEOI(p.State());
    var tok, nerr := p.Next();
    while tok != TokEnd
      invariant Valid(p.State()) && IsToken(tok) && (nerr.Some? ==> nerr.value.ScanErr? && tok == TokEOI)
      invariant nerr.None? ==> LastToken(p.State()) == tok
      invariant nerr.None? && tok != TokEOI ==> Rank(p.State()) < rank0
      invariant ElemsAfter(p.State(), tok, nerr, base, elems) == target
      decreases if tok != TokEnd && tok != TokEOI then Rank(p.State()) + 1 else 0
    {
      if nerr.Some? {
        return Some(Sequence(base, elems)), Some(Pulled(nerr.value));
      }
      var elm, rerr := ReadCurrent(p);
      if rerr.Some? {
        return Some(Sequence(base, elems)), rerr;
      }
      elems := elems + [elm.value];
      NextRank(p.State());
      NextSafe(p.State());
      NextErrorIsEOI(p.State());
      tok, nerr := p.Next();
    }
    return Some(Sequence(base, elems)), None;
  }
}
