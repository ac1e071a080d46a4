// The table adapter of table/xsxtable.go: a table definition is read from a
// `[...]` group of columns, and each row from a `(...)` group whose elements
// are read with the general model.
module Table {
  import opened Common
  import opened Gem
  import opened Pull
  import GP = GemParse
  import GR = GemPull

  /** A column: its name, whether it was written meta, and its tag expressions. */
  datatype Column = Column(name: string, meta: bool, tags: seq<Expr>)

  /** The zero `Column{}` that `readCol` returns with an error. */
  const NoColumn := Column("", false, [])

  type Definition = seq<Column>

  /**
   * What the table readers report: an error of the pull parser, an error of
   * the general model's reader, the end of input inside a column group, and
   * a column group that does not end with a non-meta `)` (with the column's
   * name and the bracket found).
   */
  datatype TableError =
    | PullFailed(e: PullError)
    | ReadFailed(g: GR.GemError)
    | PrematureEnd
    | ColumnNotClosed(name: string, brace: char)

  // ---------------------------------------------------------------------
  // `ColIndex`.

  /** `ColIndex`: the index of the first column named `colName`, or -1 when there is none. */
  method ColIndex(tdef: Definition, colName: string) returns (i: int)
    ensures -1 <= i < |tdef|
    ensures i == -1 <==> forall k :: 0 <= k < |tdef| ==> tdef[k].name != colName
    ensures i >= 0 ==> tdef[i].name == colName && forall k :: 0 <= k < i ==> tdef[k].name != colName
  {
    for j := 0 to |tdef|
      invariant forall k :: 0 <= k < j ==> tdef[k].name != colName
    {
      if tdef[j].name == colName {
        return j;
      }
    }
    return -1;
  }

  // ---------------------------------------------------------------------
  // `readCol`.

  /**
   * `readCol` on the token last pulled: an atom is a column of that name
   * and meta flag without tags; otherwise a `(` (meta allowed, and the
   * column's meta) followed by a non-meta name atom, then tags up to `)`.
   */
  function ReadColOf(p: PullState): (r: (PullState, Column, Option<TableError>))
    requires Valid(p)
    ensures Valid(r.0)
    ensures r.2.None? ==> Rank(r.0) <= Rank(p)
    ensures r.2.Some? ==> r.1 == NoColumn
    ensures LastToken(p) == TokAtom ==> r == (p, Column(Chars(p.atom), WasMeta(p), []), None)
    ensures LastToken(p) != TokAtom && LastToken(p) != TokBegin ==> r.2.Some? && r.0 == p
    ensures LastToken(p) == TokBegin && LastBrace(p) != '(' ==> r == (p, NoColumn, Some(PullFailed(WrongBracket("(", LastBrace(p)))))
    ensures LastToken(p) == TokBegin && r.2.None? ==>
      LastBrace(p) == '(' && r.1.meta == WasMeta(p) && (forall x <- r.1.tags :: GP.Normal(x)) &&
      LastToken(r.0) == TokEnd && LastBrace(r.0) == ')' && !WasMeta(r.0)
    ensures LastToken(p) == TokBegin && r.2.None? ==>
      AfterNextAtom(p, NoMeta).2.None? && r.1.name == Chars(AfterNextAtom(p, NoMeta).1)
  {
    if LastToken(p) == TokAtom then (p, Column(Chars(p.atom), WasMeta(p), []), None)
    else
      var e := ExpectBegin(p, "(", AllowMeta);
      if e.Some? then (p, NoColumn, Some(PullFailed(e.value)))
      else
        NextRank(p);
        NextSafe(p);
        var (q, name, e2) := AfterNextAtom(p, NoMeta);
        if e2.Some? then (q, NoColumn, Some(PullFailed(e2.value)))
        else
          var (q2, tags, e3) := ReadTags(q, []);
          if e3.Some? then (q2, NoColumn, e3)
          else if ExpectEnd(q2, ")").Some? then (q2, NoColumn, Some(ColumnNotClosed(Chars(name), LastBrace(q2))))
          else (q2, Column(Chars(name), WasMeta(p), tags), None)
  }

  /** The tag loop of `readCol`: pull a token, then go on as `TagsAfter` says. */
  function ReadTags(p: PullState, tags: seq<Expr>): (r: (PullState, seq<Expr>, Option<TableError>))
    requires Valid(p)
    ensures Valid(r.0) && tags <= r.1
    ensures r.2.None? ==> Rank(r.0) < Rank(p) && LastToken(r.0) == TokEnd
    ensures (forall x <- tags :: GP.Normal(x)) ==> forall x <- r.1 :: GP.Normal(x)
    decreases Rank(p), 1
  {
    NextRank(p);
    NextSafe(p);
    NextErrorIsEOI(p);
    var (q, t, err) := AfterNext(p);
    TagsAfter(q, t, err, tags)
  }

  /**
   * After `Next` gave `t` and `err`: `TokEnd` ends the tags before `err` is
   * looked at, then the error, then `TokEOI` (premature end); any other
   * token starts a tag that `ReadCurrent` reads.
   */
  function TagsAfter(q: PullState, t: Token, err: Option<PullError>, tags: seq<Expr>):
    (r: (PullState, seq<Expr>, Option<TableError>))
    requires Valid(q) && IsToken(t) && (err.Some? ==> t == TokEOI)
    requires err.None? ==> LastToken(q) == t
    ensures Valid(r.0) && tags <= r.1
    ensures r.2.None? ==> Rank(r.0) <= Rank(q) && LastToken(r.0) == TokEnd
    ensures (forall x <- tags :: GP.Normal(x)) ==> forall x <- r.1 :: GP.Normal(x)
    decreases if t != TokEnd && t != TokEOI then Rank(q) + 1 else 0, 0
  {
    if t == TokEnd then (q, tags, None)
    else if err.Some? then (q, tags, Some(PullFailed(err.value)))
    else if t == TokEOI then (q, tags, Some(PrematureEnd))
    else
      var (q2, tag, e2) := GR.ReadCurrentOf(q);
      if e2.Some? then (q2, tags, Some(ReadFailed(e2.value)))
      else ReadTags(q2, tags + [tag.value])
  }

  /**
   * The tag loop reads exactly the tags that the pulled tokens spell out, in
   * order, up to the `End` of the column group (the pieces pulled are those
   * of the general reader's element loop, whose recursion it shares).
   */
  lemma {:induction false} ReadTagsFlat(p: PullState, tags: seq<Expr>)
    requires Valid(p) && ReadTags(p, tags).2.None?
    ensures GR.FlatElems(ReadTags(p, tags).1) + [GR.PEnd] == GR.FlatElems(tags) + GR.ElemsPieces(p)
    decreases Rank(p), 1
  {
    NextRank(p);
    NextSafe(p);
    NextErrorIsEOI(p);
    var (q, t, err) := AfterNext(p);
    TagsAfterFlat(q, t, err, tags);
  }

  lemma {:induction false} TagsAfterFlat(q: PullState, t: Token, err: Option<PullError>, tags: seq<Expr>)
    requires Valid(q) && IsToken(t) && (err.Some? ==> err.value.ScanErr? && t == TokEOI)
    requires err.None? ==> LastToken(q) == t
    requires TagsAfter(q, t, err, tags).2.None?
    ensures GR.FlatElems(TagsAfter(q, t, err, tags).1) + [GR.PEnd] == GR.FlatElems(tags) + GR.AfterPieces(q, t, err)
    decreases if t != TokEnd && t != TokEOI then Rank(q) + 1 else 0, 0
  {
    if t != TokEnd {
      var (q2, tag, e2) := GR.ReadCurrentOf(q);
      GR.ReadCurrentFlat(q);
      ReadTagsFlat(q2, tags + [tag.value]);
      GR.FlatElemsSnoc(tags, tag.value);
      GR.PiecesAssoc(GR.FlatElems(tags), GR.Flat(tag.value), [GR.PieceOf(q)] + GR.CurrentPieces(q), GR.ElemsPieces(q2));
    }
  }

  /**
   * A column read from a `(` group: the `(` (its meta flag is the column's),
   * a non-meta atom that is the name, the tokens of the tags, and the `)`.
   */
  lemma ReadColFlat(p: PullState)
    requires Valid(p) && LastToken(p) == TokBegin && ReadColOf(p).2.None?
    ensures var col := ReadColOf(p).1; var q := AfterNextAtom(p, NoMeta).0;
      AfterNextAtom(p, NoMeta).2.None? && GR.PieceOf(q).PAtom? &&
      [GR.PieceOf(p), GR.PieceOf(q)] + GR.ElemsPieces(q) ==
      [GR.PBegin(col.meta, Some('(')), GR.PAtom(false, GR.PieceOf(q).quoted, col.name)] + GR.FlatElems(col.tags) + [GR.PEnd]
  {
    var (q, name, e2) := AfterNextAtom(p, NoMeta);
    var col := ReadColOf(p).1;
    assert col == Column(Chars(name), WasMeta(p), ReadTags(q, []).1);
    ReadTagsFlat(q, []);
    ColumnPieces(GR.PieceOf(p), GR.PieceOf(q), col, GR.ElemsPieces(q));
  }

  lemma ColumnPieces(x: GR.Piece, y: GR.Piece, col: Column, zs: seq<GR.Piece>)
    requires x == GR.PBegin(col.meta, Some('(')) && y.PAtom? && y == GR.PAtom(false, y.quoted, col.name)
    requires GR.FlatElems(col.tags) + [GR.PEnd] == GR.FlatElems([]) + zs
    ensures [x, y] + zs == [GR.PBegin(col.meta, Some('(')), GR.PAtom(false, y.quoted, col.name)] + GR.FlatElems(col.tags) + [GR.PEnd]
  {
    assert GR.FlatElems([]) + zs == zs;
  }

  /** `readCol`. */
  method ReadCol(p: PullParser) returns (col: Column, err: Option<TableError>)
    requires Valid(p.State())
    modifies p, p.scn, p.toks
    ensures (p.State(), col, err) == ReadColOf(old(p.State()))
  {
    if LastToken(p.State()) == TokAtom {
      return Column(Chars(p.atom), WasMeta(p.State()), []), None;
    }
    var e := ExpectBegin(p.State(), "(", AllowMeta);
    if e.Some? {
      return NoColumn, Some(PullFailed(e.value));
    }
    var metaCol := WasMeta(p.State());
    var name, e2 := p.NextAtom(NoMeta);
    if e2.Some? {
      return NoColumn, Some(PullFailed(e2.value));
    }
    ghost var target := ReadTags(p.State(), []);
    var tags: seq<Expr> := [];
    NextSafe(p.State());
    NextErrorIsEOI(p.State());
    var tok, nerr := p.Next();
    while tok != TokEnd
      invariant Valid(p.State()) && IsToken(tok) && (nerr.Some? ==> tok == TokEOI)
      invariant nerr.None? ==> LastToken(p.State()) == tok
      invariant TagsAfter(p.State(), tok, nerr, tags) == target
      decreases if tok != TokEnd && tok != TokEOI then Rank(p.State()) + 1 else 0
    {
      if nerr.Some? {
        return NoColumn, Some(PullFailed(nerr.value));
      } else if tok == TokEOI {
        return NoColumn, Some(PrematureEnd);
      }
      var tag, rerr := GR.ReadCurrent(p);
      if rerr.Some? {
        return NoColumn, Some(ReadFailed(rerr.value));
      }
      tags := tags + [tag.value];
      NextRank(p.State());
      NextSafe(p.State());
      NextErrorIsEOI(p.State());
      tok, nerr := p.Next();
    }
    if ExpectEnd(p.State(), ")").Some? {
      return NoColumn, Some(ColumnNotClosed(Chars(name), LastBrace(p.State())));
    }
    return Column(Chars(name), metaCol, tags), None;
  }

  // ---------------------------------------------------------------------
  // `ReadDef`.

  /**
   * `ReadDef`: a non-meta `[`, then one column per element until an `End`
   * token whose bracket is `]`. An error keeps the columns read before it.
   */
  function ReadDefOf(p: PullState): (r: (PullState, Definition, Option<TableError>))
    requires Valid(p)
    ensures Valid(r.0)
    ensures var (q, e) := AfterNextBegin(p, "[", NoMeta); e.Some? ==> r == (q, [], Some(PullFailed(e.value)))
    ensures r.2.None? ==> AfterNextBegin(p, "[", NoMeta).1.None? && LastToken(r.0) == TokEnd && LastBrace(r.0) == ']'
  {
    var (q, e) := AfterNextBegin(p, "[", NoMeta);
    if e.Some? then (q, [], Some(PullFailed(e.value)))
    else ReadCols(q, [])
  }

  /** The column loop of `ReadDef`: pull a token, then go on as `ColsAfter` says. */
  function ReadCols(p: PullState, res: Definition): (r: (PullState, Definition, Option<TableError>))
    requires Valid(p)
    ensures Valid(r.0) && res <= r.1
    ensures r.2.None? ==> LastToken(r.0) == TokEnd && LastBrace(r.0) == ']'
    decreases Rank(p), 1
  {
    NextRank(p);
    NextSafe(p);
    NextErrorIsEOI(p);
    var (q, t, err) := AfterNext(p);
    ColsAfter(q, t, err, res)
  }

  /**
   * After `Next` gave `t` and `err`: an `End` with `]` ends the definition
   * (before `err` is looked at), then the error; any other token is a column.
   */
  function ColsAfter(q: PullState, t: Token, err: Option<PullError>, res: Definition):
    (r: (PullState, Definition, Option<TableError>))
    requires Valid(q) && IsToken(t) && (err.Some? ==> t == TokEOI)
    requires err.None? ==> LastToken(q) == t
    ensures Valid(r.0) && res <= r.1
    ensures r.2.None? ==> LastToken(r.0) == TokEnd && LastBrace(r.0) == ']'
    decreases if t != TokEOI && err.None? then Rank(q) + 1 else 0, 0
  {
    if t == TokEnd && LastBrace(q) == ']' then (q, res, None)
    else if err.Some? then (q, res, Some(PullFailed(err.value)))
    else
      var (q2, col, e2) := ReadColOf(q);
      if e2.Some? then (q2, res, e2)
      else ReadCols(q2, res + [col])
  }

  /** The tokens `readCol` pulls after the one it starts from, as pieces. */
  function ColPieces(q: PullState): seq<GR.Piece>
    requires Valid(q)
  {
    if LastToken(q) == TokAtom || ExpectBegin(q, "(", AllowMeta).Some? then []
    else
      var (q1, _, e) := AfterNextAtom(q, NoMeta);
      if e.Some? then [] else [GR.PieceOf(q1)] + GR.ElemsPieces(q1)
  }

  /**
   * The pieces `xs` spell the column `col`: a lone atom (its meta flag is
   * the column's), or a `(` with the column's meta flag, a non-meta name
   * atom, the tags and the `)`.
   */
  predicate Spells(col: Column, xs: seq<GR.Piece>)
  {
    (|xs| == 1 && xs[0].PAtom? && xs[0] == GR.PAtom(col.meta, xs[0].quoted, col.name) && col.tags == []) ||
    (|xs| >= 2 && xs[1].PAtom? &&
     xs == [GR.PBegin(col.meta, Some('(')), GR.PAtom(false, xs[1].quoted, col.name)] + GR.FlatElems(col.tags) + [GR.PEnd])
  }

  /** A column read spells out exactly the token it starts from and the tokens it pulls. */
  lemma ReadColSpells(q: PullState)
    requires Valid(q) && ReadColOf(q).2.None?
    ensures Spells(ReadColOf(q).1, [GR.PieceOf(q)] + ColPieces(q))
  {
    if LastToken(q) == TokBegin {
      ReadColFlat(q);
      ColPiecesBegin(q);
      var q1 := AfterNextAtom(q, NoMeta).0;
      SpellsParen(ReadColOf(q).1, GR.PieceOf(q), GR.PieceOf(q1), GR.ElemsPieces(q1));
    } else {
      ColPiecesAtom(q);
    }
  }

  lemma SpellsParen(col: Column, x: GR.Piece, y: GR.Piece, zs: seq<GR.Piece>)
    requires y.PAtom? && [x, y] + zs == [GR.PBegin(col.meta, Some('(')), GR.PAtom(false, y.quoted, col.name)] + GR.FlatElems(col.tags) + [GR.PEnd]
    ensures Spells(col, [x] + ([y] + zs))
  {
    assert [x] + ([y] + zs) == [x, y] + zs;
  }

  lemma ColPiecesAtom(q: PullState)
    requires Valid(q) && LastToken(q) != TokBegin && ReadColOf(q).2.None?
    ensures Spells(ReadColOf(q).1, [GR.PieceOf(q)] + ColPieces(q))
  {
    assert [GR.PieceOf(q)] + [] == [GR.PieceOf(q)];
  }

  lemma ColPiecesBegin(q: PullState)
    requires Valid(q) && LastToken(q) == TokBegin && ReadColOf(q).2.None? && AfterNextAtom(q, NoMeta).2.None?
    ensures ColPieces(q) == [GR.PieceOf(AfterNextAtom(q, NoMeta).0)] + GR.ElemsPieces(AfterNextAtom(q, NoMeta).0)
  {
    assert ExpectBegin(q, "(", AllowMeta).None?;
  }

  /** The tokens the column loop pulls, one run per column read. */
  function ColsRuns(p: PullState): seq<seq<GR.Piece>>
    requires Valid(p)
    decreases Rank(p), 1
  {
    NextRank(p);
    NextSafe(p);
    NextErrorIsEOI(p);
    var (q, t, err) := AfterNext(p);
    ColsAfterRuns(q, t, err)
  }

  function ColsAfterRuns(q: PullState, t: Token, err: Option<PullError>): seq<seq<GR.Piece>>
    requires Valid(q) && IsToken(t) && (err.Some? ==> t == TokEOI)
    requires err.None? ==> LastToken(q) == t
    decreases if t != TokEOI && err.None? then Rank(q) + 1 else 0, 0
  {
    if t == TokEnd && LastBrace(q) == ']' then []
    else if err.Some? then []
    else
      var (q2, _, e2) := ReadColOf(q);
      [[GR.PieceOf(q)] + ColPieces(q)] + (if e2.Some? then [] else ColsRuns(q2))
  }

  /** The column loop reads one column per run of tokens, each spelled by its run. */
  lemma {:induction false} ReadColsSpell(p: PullState, res: Definition)
    requires Valid(p) && ReadCols(p, res).2.None?
    ensures var r := ReadCols(p, res).1;
      |r| == |res| + |ColsRuns(p)| && forall i :: 0 <= i < |ColsRuns(p)| ==> Spells(r[|res| + i], ColsRuns(p)[i])
    decreases Rank(p), 1
  {
    NextRank(p);
    NextSafe(p);
    NextErrorIsEOI(p);
    var (q, t, err) := AfterNext(p);
    ColsAfterSpell(q, t, err, res);
  }

  lemma {:induction false} ColsAfterSpell(q: PullState, t: Token, err: Option<PullError>, res: Definition)
    requires Valid(q) && IsToken(t) && (err.Some? ==> t == TokEOI)
    requires err.None? ==> LastToken(q) == t
    requires ColsAfter(q, t, err, res).2.None?
    ensures var r := ColsAfter(q, t, err, res).1; var runs := ColsAfterRuns(q, t, err);
      |r| == |res| + |runs| && forall i :: 0 <= i < |runs| ==> Spells(r[|res| + i], runs[i])
    decreases if t != TokEOI && err.None? then Rank(q) + 1 else 0, 0
  {
    if !(t == TokEnd && LastBrace(q) == ']') {
      var (q2, col, e2) := ReadColOf(q);
      var run := [GR.PieceOf(q)] + ColPieces(q);
      assert ColsAfterRuns(q, t, err) == [run] + ColsRuns(q2);
      assert ColsAfter(q, t, err, res) == ReadCols(q2, res + [col]);
      ReadColSpells(q);
      ReadColsSpell(q2, res + [col]);
      ShiftSpells(res, col, ReadCols(q2, res + [col]).1, run, ColsRuns(q2));
    }
  }

  lemma ShiftSpells(res: Definition, col: Column, r: Definition, run: seq<GR.Piece>, runs: seq<seq<GR.Piece>>)
    requires res + [col] <= r && Spells(col, run)
    requires |r| == |res| + 1 + |runs| && forall i :: 0 <= i < |runs| ==> Spells(r[|res| + 1 + i], runs[i])
    ensures |r| == |res| + |[run] + runs| && forall i :: 0 <= i < |[run] + runs| ==> Spells(r[|res| + i], ([run] + runs)[i])
  {
    forall i | 0 <= i < |[run] + runs|
      ensures Spells(r[|res| + i], ([run] + runs)[i])
    {
      if i == 0 {
        assert r[|res|] == (res + [col])[|res|];
      } else {
        assert r[|res| + i] == r[|res| + 1 + (i - 1)];
      }
    }
  }

  /**
   * `ReadDef` reads one column per element of the `[` group, in order, each
   * spelled exactly by that element's tokens, and stops at the `]`.
   */
  lemma ReadDefSpells(p: PullState)
    requires Valid(p) && ReadDefOf(p).2.None?
    ensures var q := AfterNextBegin(p, "[", NoMeta).0; var d := ReadDefOf(p).1;
      |d| == |ColsRuns(q)| && forall i :: 0 <= i < |d| ==> Spells(d[i], ColsRuns(q)[i])
  {
    ReadColsSpell(AfterNextBegin(p, "[", NoMeta).0, []);
  }

  /** `ReadDef`. */
  method ReadDef(p: PullParser) returns (res: Definition, err: Option<TableError>)
    requires Valid(p.State())
    modifies p, p.scn, p.toks
    ensures (p.State(), res, err) == ReadDefOf(old(p.State()))
  {
    var e := p.NextBegin("[", NoMeta);
    if e.Some? {
      return [], Some(PullFailed(e.value));
    }
    ghost var target := ReadCols(p.State(), []);
    res := [];
    NextSafe(p.State());
    NextErrorIsEOI(p.State());
    var tok, nerr := p.Next();
    while tok != TokEnd || LastBrace(p.State()) != ']'
      invariant Valid(p.State()) && IsToken(tok) && (nerr.Some? ==> tok == TokEOI)
      invariant nerr.None? ==> LastToken(p.State()) == tok
      invariant ColsAfter(p.State(), tok, nerr, res) == target
      decreases if tok != TokEOI && nerr.None? then Rank(p.State()) + 1 else 0
    {
      if nerr.Some? {
        return res, Some(PullFailed(nerr.value));
      }
      var col, cerr := ReadCol(p);
      if cerr.Some? {
        return res, cerr;
      }
      res := res + [col];
      NextRank(p.State());
      NextSafe(p.State());
      NextErrorIsEOI(p.State());
      tok, nerr := p.Next();
    }
    return res, None;
  }

  // ---------------------------------------------------------------------
  // `NextRow`.

  /**
   * The row loop of `NextRow`: pull a `(` (meta allowed); a meta row is
   * skipped with `SkipMeta` and the loop goes on; the first non-meta `(`
   * starts the row. Any error, `PullEOI` at the end of input included, ends it.
   */
  function SkipRowsOf(p: PullState): (r: (PullState, Option<PullError>))
    requires Valid(p)
    ensures Valid(r.0)
    ensures AfterNextBegin(p, "(", AllowMeta).1.Some? ==> r == AfterNextBegin(p, "(", AllowMeta)
    ensures AfterNext(p).1 == TokEOI && AfterNext(p).2.None? ==> r == (AfterNext(p).0, Some(Unexp(PullEOI)))
    ensures r.1.None? ==> LastToken(r.0) == TokBegin && LastBrace(r.0) == '(' && !WasMeta(r.0)
    decreases Rank(p)
  {
    NextRank(p);
    NextSafe(p);
    var (q, e) := AfterNextBegin(p, "(", AllowMeta);
    if e.Some? then (q, e)
    else if WasMeta(q) then
      var (q2, e2) := AfterSkipMeta(q);
      if e2.Some? then (q2, e2) else SkipRowsOf(q2)
    else (q, None)
  }

  /** The element loop of `NextRow`: `ReadNext` until `n` elements are read or one fails. */
  function FillRowOf(p: PullState, n: nat, elems: seq<Expr>): (r: (PullState, seq<Expr>, Option<TableError>))
    requires Valid(p) && |elems| <= n
    ensures Valid(r.0) && elems <= r.1 && |r.1| <= n
    ensures r.2.None? <==> |r.1| == n
    ensures r.2.Some? ==> r.2.value.ReadFailed?
    decreases n - |elems|
  {
    if |elems| == n then (p, elems, None)
    else
      var (q, e, err) := GR.ReadNextOf(p);
      if err.Some? then (q, elems, Some(ReadFailed(err.value)))
      else FillRowOf(q, n, elems + [e.value])
  }

  /**
   * `NextRow` for a definition of `n` columns: no row (`nil`) when the row
   * loop fails; the elements read when one of them fails; otherwise all `n`
   * elements, and the error of `NextEnd(")")` if there is one.
   */
  function NextRowOf(p: PullState, n: nat): (r: (PullState, Option<seq<Expr>>, Option<TableError>))
    requires Valid(p)
    ensures Valid(r.0)
    ensures r.1.None? <==> SkipRowsOf(p).1.Some?
    ensures r.1.None? ==> r.2 == Some(PullFailed(SkipRowsOf(p).1.value))
    ensures AfterNext(p).1 == TokEOI && AfterNext(p).2.None? ==> r.1.None? && r.2 == Some(PullFailed(Unexp(PullEOI)))
    ensures r.1.Some? ==> |r.1.value| <= n && (|r.1.value| < n ==> r.2.Some?)
    ensures r.2.None? ==> r.1.Some? && |r.1.value| == n && LastToken(r.0) == TokEnd && LastBrace(r.0) == ')' && !WasMeta(r.0)
  {
    var (q, e) := SkipRowsOf(p);
    if e.Some? then (q, None, Some(PullFailed(e.value)))
    else
      var (q2, elems, e2) := FillRowOf(q, n, []);
      if e2.Some? then (q2, Some(elems), e2)
      else
        var (q3, e3) := AfterNextEnd(q2, ")");
        (q3, Some(elems), if e3.Some? then Some(PullFailed(e3.value)) else None)
  }

  /** The row loop of `NextRow` (`for { ... }` with its `break`). */
  method SkipRows(p: PullParser) returns (err: Option<PullError>)
    requires Valid(p.State())
    modifies p, p.scn, p.toks
    ensures (p.State(), err) == SkipRowsOf(old(p.State()))
  {
    ghost var skipped := SkipRowsOf(p.State());
    while true
      invariant Valid(p.State()) && SkipRowsOf(p.State()) == skipped
      decreases Rank(p.State())
    {
      NextRank(p.State());
      NextSafe(p.State());
      var e := p.NextBegin("(", AllowMeta);
      if e == Some(Unexp(PullEOI)) {
        return e;
      } else if e.Some? {
        return e;
      }
      if WasMeta(p.State()) {
        var e2 := p.SkipMeta();
        if e2.Some? {
          return e2;
        }
      } else {
        return None;
      }
    }
  }

  /** The element loop of `NextRow`: `row[i] = elem` for each element read, in place. */
  method FillRow(p: PullParser, data: array<Option<Expr>>, n: nat) returns (k: nat, err: Option<TableError>)
    requires Valid(p.State()) && n <= data.Length
    modifies p, p.scn, p.toks, data
    ensures var (q, elems, e) := FillRowOf(old(p.State()), n, []);
      p.State() == q && err == e && k == |elems| &&
      (forall j :: 0 <= j < k ==> data[j] == Some(elems[j])) &&
      forall j :: k <= j < data.Length ==> data[j] == old(data[j])
  {
    ghost var filled := FillRowOf(p.State(), n, []);
    ghost var elems: seq<Expr> := [];
    ghost var before := data[..];
    for i := 0 to n
      invariant Valid(p.State()) && |elems| == i && FillRowOf(p.State(), n, elems) == filled
      invariant forall j :: 0 <= j < i ==> data[j] == Some(elems[j])
      invariant forall j :: i <= j < data.Length ==> data[j] == before[j]
    {
      var elem, rerr := GR.ReadNext(p);
      if rerr.Some? {
        return i, Some(ReadFailed(rerr.value));
      }
      data[i] := elem;
      elems := elems + [elem.value];
    }
    return n, None;
  }

  /**
   * A Go slice of expressions: `nil`, or the first `len` slots of a backing
   * array whose length is the capacity. A `nil` interface value is `None`.
   */
  datatype Slice = Nil | Slice(data: array<Option<Expr>>, len: nat)

  predicate SliceOk(s: Slice)
  {
    s.Slice? ==> s.len <= s.data.Length
  }

  function Footprint(s: Slice): set<object>
  {
    if s.Slice? then {s.data} else {}
  }

  /** `NextRow` keeps the row passed unless it is `nil`, shorter than the definition, or its capacity is over three times its length. */
  predicate Reusable(row: Slice, n: nat)
  {
    row.Slice? && n <= row.len && row.data.Length <= 3 * row.len
  }

  /** The part of `NextRow` after the row is chosen: skip meta rows, fill `data` in place, then `NextEnd(")")`. */
  method ReadRow(p: PullParser, data: array<Option<Expr>>, n: nat, len: nat) returns (r: Slice, err: Option<TableError>)
    requires Valid(p.State()) && n <= len <= data.Length
    modifies p, p.scn, p.toks, data
    ensures var (q, elems, e) := NextRowOf(old(p.State()), n);
      p.State() == q && err == e && (r.Nil? <==> elems.None?) && (r.Nil? ==> unchanged(data)) &&
      (r.Slice? ==> (r.data == data && r.len == (if |elems.value| < n then |elems.value| else len) &&
        (forall j :: 0 <= j < |elems.value| ==> data[j] == Some(elems.value[j])) &&
        forall j :: |elems.value| <= j < data.Length ==> data[j] == old(data[j])))
  {
    var e := SkipRows(p);
    if e.Some? {
      return Nil, Some(PullFailed(e.value));
    }
    var k, e2 := FillRow(p, data, n);
    if e2.Some? {
      return Slice(data, k), e2;
    }
    var e3 := p.NextEnd(")");
    if e3.Some? {
      return Slice(data, len), Some(PullFailed(e3.value));
    }
    return Slice(data, len), None;
  }

  /**
   * `NextRow`: the row is allocated (`make`, all `nil`) or reused as
   * `Reusable` says; its first slots are overwritten in place with the
   * elements read. The slice returned is `nil`, the prefix read before an
   * element failed, or the whole row, whose length stays that of a reused row.
   */
  method NextRow(p: PullParser, tdef: Definition, row: Slice) returns (r: Slice, err: Option<TableError>)
    requires Valid(p.State()) && SliceOk(row)
    modifies p, p.scn, p.toks, Footprint(row)
    ensures SliceOk(r)
    ensures var (q, elems, e) := NextRowOf(old(p.State()), |tdef|);
      p.State() == q && err == e && (r.Nil? <==> elems.None?) &&
      (r.Slice? ==> (|elems.value| <= r.data.Length &&
        (forall j :: 0 <= j < |elems.value| ==> r.data[j] == Some(elems.value[j])) &&
        r.len == if |elems.value| < |tdef| then |elems.value| else if Reusable(row, |tdef|) then row.len else |tdef|))
    ensures var k := if NextRowOf(old(p.State()), |tdef|).1.Some? then |NextRowOf(old(p.State()), |tdef|).1.value| else 0;
      r.Slice? ==> (k <= r.data.Length &&
        (Reusable(row, |tdef|) ==> r.data == row.data && forall j :: k <= j < r.data.Length ==> r.data[j] == old(row.data[j])) &&
        (!Reusable(row, |tdef|) ==> fresh(r.data) && r.data.Length == |tdef| && forall j :: k <= j < |tdef| ==> r.data[j].None?))
    ensures row.Slice? && (r.Nil? || !Reusable(row, |tdef|)) ==> unchanged(row.data)
  {
    var n := |tdef|;
    if Reusable(row, n) {
      r, err := ReadRow(p, row.data, n, row.len);
    } else {
      var data := new Option<Expr>[n](_ => None);
      r, err := ReadRow(p, data, n, n);
    }
  }
}
