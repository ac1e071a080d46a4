// `TestPullNext_atom` (gem/pull_test.go): `ReadNext` on the input `foo`
// returns the atom `foo` with neither flag set.  The letters only grow the
// scanner's pending atom; the end of input delivers it.
module GemPullExamples {
  import opened Common
  import opened Gem
  import opened Pull
  import opened GemPull
  import SP = ScanProps

  /** The bytes `a` to `z`. */
  predicate IsLetter(b: byte)
  {
    97 <= b as int <= 122
  }

  lemma LetterClass(b: byte)
    requires IsLetter(b)
    ensures !Sp.IsDelim(b) && !Sp.IsAny(b, Sp.ccSpace) && Sp.SkipU([b]) == -1
  {
    Sp.DelimiterBytes(b);
    assert Sp.DelimFrom([b], 1) == -1;
  }

  /** The pending bare atom, empty if there is none. */
  function Pending(h: Option<seq<byte>>): seq<byte>
  {
    if h.Some? then h.value else []
  }

  /** A letter in a plain scanner with nothing open and nothing pending: `StepBare` starts an atom. */
  lemma LoopLetter(c: Sp.Core, b: byte)
    requires c == Sp.Core(false, [], None, Sp.Plain) && IsLetter(b)
    ensures Sp.Loop(c, [b], 0) == Sp.Res(c.(head := Some([b])), [], 1, None)
  {
    LetterClass(b);
    SP.LoopAtToken(c, [b], 0);
    assert Sp.Step(c, [b], 0) == Sp.StepBare(c, [b], 0);
    assert [b][0..] == [b];
  }

  /** A letter in a plain scanner with nothing open: no event, the pending atom grows by it. */
  lemma ScanLetter(s: Sp.State, h: Option<seq<byte>>, b: byte)
    requires s.core == Sp.Core(false, [], h, Sp.Plain) && IsLetter(b)
    ensures Sp.Scan(s, [b]) == Sp.Outcome(Sp.State(s.pos + 1, Sp.Core(false, [], Some(Pending(h) + [b]), Sp.Plain)), [], None)
  {
    LetterClass(b);
    if h.None? {
      LoopLetter(s.core, b);
      assert Pending(h) + [b] == [b];
    }
  }

  /** The state after letters that only grew the pending atom `h`. */
  function Pended(p: PullState, h: Option<seq<byte>>): PullState
  {
    p.(input := [], scn := Sp.State(p.scn.pos + |p.input|,
      Sp.Core(false, [], if p.input == [] then h else Some(Pending(h) + p.input), Sp.Plain)))
  }

  /** Feeding a letter queues nothing. */
  lemma FeedLetter(p: PullState, h: Option<seq<byte>>)
    requires Valid(p) && p.tokRd == 0 && p.tokWr == 0 && p.input != [] && IsLetter(p.input[0])
    requires p.scn.core == Sp.Core(false, [], h, Sp.Plain)
    ensures Feed(p) ==
      (p.(input := p.input[1..], scn := Sp.State(p.scn.pos + 1, Sp.Core(false, [], Some(Pending(h) + [p.input[0]]), Sp.Plain))), None)
  {
    ScanLetter(p.scn, h, p.input[0]);
    assert !HasEnd([]);
  }

  /** Letters up to the end of input: `Fill` goes on as if they were all pending already. */
  lemma {:induction false} FillLetters(p: PullState, h: Option<seq<byte>>)
    requires Valid(p) && p.tokRd == 0 && p.tokWr == 0 && forall i :: 0 <= i < |p.input| ==> IsLetter(p.input[i])
    requires p.scn.core == Sp.Core(false, [], h, Sp.Plain)
    ensures Fill(p) == Fill(Pended(p, h))
    decreases |p.input|
  {
    if p.input != [] {
      var x := p.input[0];
      var h1 := Some(Pending(h) + [x]);
      var q := p.(input := p.input[1..], scn := Sp.State(p.scn.pos + 1, Sp.Core(false, [], h1, Sp.Plain)));
      FeedLetter(p, h);
      FeedStep(p);
      assert Fill(p) == Fill(q);
      FillLetters(q, h1);
      PendedStep(p, h, q, h1);
    }
  }

  lemma PendedStep(p: PullState, h: Option<seq<byte>>, q: PullState, h1: Option<seq<byte>>)
    requires p.input != [] && h1 == Some(Pending(h) + [p.input[0]])
    requires q == p.(input := p.input[1..], scn := Sp.State(p.scn.pos + 1, Sp.Core(false, [], h1, Sp.Plain)))
    ensures Pended(q, h1) == Pended(p, h)
  {
    assert p.input == [p.input[0]] + q.input;
    var head := if q.input == [] then h1 else Some(Pending(h1) + q.input);
    assert head == Some(Pending(h) + p.input) by {
      if q.input == [] {
        assert p.input == [p.input[0]];
        assert h1.value == Pending(h) + p.input;
      } else {
        assert Pending(h1) == Pending(h) + [p.input[0]];
        assert Pending(h) + [p.input[0]] + q.input == Pending(h) + ([p.input[0]] + q.input);
      }
    }
    assert q.scn.pos + |q.input| == p.scn.pos + |p.input|;
  }

  /** The start of the pull: nothing queued, so `Next` goes straight to `Fill`. */
  lemma StartFills(w: seq<byte>)
    ensures AfterNext(Start(w)) == Fill(Start(w))
  {
    assert Start(w).(tokWr := 0, tokRd := 0) == Start(w);
  }

  /** `ReadNext` on a word of letters: the atom of that word, neither meta nor quoted; the next `ReadNext` is the end. */
  lemma ReadWord(w: seq<byte>)
    requires w != [] && forall i :: 0 <= i < |w| ==> IsLetter(w[i])
    ensures var (q, e, err) := ReadNextOf(Start(w));
      e == Some(Expr.Atom(Zero, Chars(w))) && err.None? && ReadNextOf(q).2 == Some(EOI)
  {
    var p := Start(w);
    StartFills(w);
    FillLetters(p, None);
    var p1 := Pended(p, None);
    assert Pending(None) + w == w;
    assert p1.scn.core == Sp.Core(false, [], Some(w), Sp.Plain);
    TrailingAtomBeforeEOI(p1);
    assert AfterNext(p1) == Fill(p1);
    NextSafe(p);
    var q := AfterNext(p).0;
    assert LastToken(q) == TokAtom;
    assert WithQuoted(WithMeta(Zero, false), false) == Zero;
    assert ReadNextOf(p) == (q, Some(Expr.Atom(Zero, Chars(w))), None);
  }

  /** `TestPullNext_atom`: `ReadNext` on `foo`. */
  lemma ExampleReadAtom()
    ensures ReadNextOf(Start([102, 111, 111])).1 == Some(Expr.Atom(Zero, "foo"))
  {
    ReadWord([102, 111, 111]);
    assert Chars([102, 111, 111]) == "foo";
  }
}
