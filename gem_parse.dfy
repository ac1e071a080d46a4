// Building general expressions from the scanner's callbacks (gem/parse.go):
// a stack of the sequences still open and the list of finished top-level
// expressions.  The step functions say what each callback does to that
// state, the class `State` runs them in place, and the lemmas show that the
// events of any well-formed expression build that expression.
module GemParse {
  import opened Common
  import opened Gem
  import Sp = ScanSpec

  /** A sequence whose `End` has not come yet: its flag word and the elements so far. */
  datatype Open = Open(base: Bits, elems: seq<Expr>)

  /** The builder state: `Results` and `ctx`, innermost open sequence last. */
  datatype Builder = Builder(results: seq<Expr>, ctx: seq<Open>)

  const Empty: Builder := Builder([], [])

  /** A finished value goes to the innermost open sequence, or to `Results` at top level. */
  function Add(b: Builder, e: Expr): (r: Builder)
    ensures |r.ctx| == |b.ctx|
    ensures b.ctx == [] ==> r.results == b.results + [e]
    ensures b.ctx != [] ==>
      (r.results == b.results && r.ctx[..|b.ctx| - 1] == b.ctx[..|b.ctx| - 1] &&
       r.ctx[|b.ctx| - 1] == Open(b.ctx[|b.ctx| - 1].base, b.ctx[|b.ctx| - 1].elems + [e]))
  {
    if b.ctx == [] then
      Builder(b.results + [e], [])
    else
      var top := b.ctx[|b.ctx| - 1];
      Builder(b.results, b.ctx[..|b.ctx| - 1] + [Open(top.base, top.elems + [e])])
  }

  /** The word of a new sequence: its meta flag and the kind of `brace`; nothing else set. */
  function SequenceBase(isMeta: bool, brace: byte): (base: Bits)
    ensures Meta(base) == isMeta && BraceOf(base) == FromRune(CharOf(brace))
    ensures base.high == 0
  {
    BraceKeepsMeta(WithMeta(Zero, isMeta), FromRune(CharOf(brace)));
    BraceReadsBack(WithMeta(Zero, isMeta), FromRune(CharOf(brace)));
    WithBrace(WithMeta(Zero, isMeta), FromRune(CharOf(brace)))
  }

  /** The atom built for `Atom(isMeta, atom, quoted)`: the bytes as its text, and its two flags. */
  function AtomOf(isMeta: bool, atom: seq<byte>, quoted: bool): (e: Expr)
    ensures e.Atom? && Meta(e.base) == isMeta && Quoted(e.base) == quoted && e.str == Chars(atom)
    ensures e.base.high == 0 && !e.base.bit2
  {
    QuotedKeepsMeta(WithMeta(Zero, isMeta), quoted);
    Expr.Atom(WithQuoted(WithMeta(Zero, isMeta), quoted), Chars(atom))
  }

  /** `Begin`: a new empty sequence becomes the innermost open one; `Results` is untouched. */
  function BeginStep(b: Builder, isMeta: bool, brace: byte): (r: Builder)
    ensures r.results == b.results && |r.ctx| == |b.ctx| + 1 && r.ctx[..|b.ctx|] == b.ctx
    ensures var s := r.ctx[|b.ctx|];
      s.elems == [] && Meta(s.base) == isMeta && BraceOf(s.base) == FromRune(CharOf(brace))
  {
    Builder(b.results, b.ctx + [Open(SequenceBase(isMeta, brace), [])])
  }

  /**
   * `End`: the innermost open sequence is closed and added to its parent,
   * or to `Results` when it was the outermost.  With nothing open the Go
   * code indexes `ctx[-1]` and panics: `None`.
   */
  function EndStep(b: Builder): (r: Option<Builder>)
    ensures r.None? <==> b.ctx == []
    ensures r.Some? ==> |r.value.ctx| == |b.ctx| - 1
    ensures r.Some? && |b.ctx| == 1 ==>
      r.value.results == b.results + [Sequence(b.ctx[0].base, b.ctx[0].elems)]
  {
    if b.ctx == [] then None
    else
      var s := b.ctx[|b.ctx| - 1];
      Some(Add(Builder(b.results, b.ctx[..|b.ctx| - 1]), Sequence(s.base, s.elems)))
  }

  /** `Atom`: the new atom goes to the innermost open sequence, or to `Results`. */
  function AtomStep(b: Builder, isMeta: bool, atom: seq<byte>, quoted: bool): (r: Builder)
    ensures |r.ctx| == |b.ctx|
    ensures b.ctx == [] ==> r.results == b.results + [AtomOf(isMeta, atom, quoted)]
  {
    Add(b, AtomOf(isMeta, atom, quoted))
  }

  /** One scanner callback. */
  function Apply(b: Builder, ev: Sp.Event): Option<Builder>
  {
    match ev
    case Begin(m, brace) => Some(BeginStep(b, m, brace))
    case End(_, _) => EndStep(b)
    case Atom(m, text, q) => Some(AtomStep(b, m, text, q))
  }

  /** The callbacks in order; `None` once an `End` finds nothing open. */
  function Run(b: Builder, evs: seq<Sp.Event>): Option<Builder>
    decreases |evs|
  {
    if evs == [] then Some(b)
    else
      match Apply(b, evs[0])
      case None => None
      case Some(b1) => Run(b1, evs[1..])
  }

  lemma {:induction false} RunConcat(b: Builder, x: seq<Sp.Event>, y: seq<Sp.Event>)
    ensures Run(b, x + y) == (match Run(b, x) case None => None case Some(b1) => Run(b1, y))
    decreases |x|
  {
    if x == [] {
      assert x + y == y;
    } else {
      assert (x + y)[1..] == x[1..] + y;
      match Apply(b, x[0])
      case None =>
      case Some(b1) => RunConcat(b1, x[1..], y);
    }
  }

  // ---------------------------------------------------------------------
  // When `End` finds nothing open.

  /** The number of sequences open after `evs`, starting from `depth`, or -1 once an `End` comes at depth 0. */
  function DepthAfter(depth: nat, evs: seq<Sp.Event>): (d: int)
    ensures d >= -1
    decreases |evs|
  {
    if evs == [] then depth
    else
      match evs[0]
      case Begin(_, _) => DepthAfter(depth + 1, evs[1..])
      case End(_, _) => if depth == 0 then -1 else DepthAfter(depth - 1, evs[1..])
      case Atom(_, _, _) => DepthAfter(depth, evs[1..])
  }

  /** The builder fails exactly when some `End` comes with nothing open, and otherwise ends at that depth. */
  lemma {:induction false} RunFailsIff(b: Builder, evs: seq<Sp.Event>)
    ensures Run(b, evs).None? <==> DepthAfter(|b.ctx|, evs) == -1
    ensures Run(b, evs).Some? ==> |Run(b, evs).value.ctx| == DepthAfter(|b.ctx|, evs)
    decreases |evs|
  {
    if evs != [] {
      var ev := evs[0];
      ApplyDepth(b, ev);
      if Apply(b, ev).Some? {
        var b1 := Apply(b, ev).value;
        assert Run(b, evs) == Run(b1, evs[1..]);
        assert DepthAfter(|b.ctx|, evs) == DepthAfter(|b1.ctx|, evs[1..]);
        RunFailsIff(b1, evs[1..]);
      } else {
        assert Run(b, evs) == None;
      }
    }
  }

  /** One callback: only an `End` with nothing open fails; otherwise the depth moves as the event says. */
  lemma ApplyDepth(b: Builder, ev: Sp.Event)
    ensures Apply(b, ev).None? <==> ev.End? && b.ctx == []
    ensures Apply(b, ev).Some? ==>
      |Apply(b, ev).value.ctx| == if ev.Begin? then |b.ctx| + 1 else if ev.End? then |b.ctx| - 1 else |b.ctx|
  {
  }

  /** Finished values are never taken back: `Results` only grows. */
  lemma {:induction false} ResultsGrow(b: Builder, evs: seq<Sp.Event>)
    requires Run(b, evs).Some?
    ensures b.results <= Run(b, evs).value.results
    decreases |evs|
  {
    if evs != [] {
      var b1 := Apply(b, evs[0]).value;
      assert b.results <= b1.results;
      ResultsGrow(b1, evs[1..]);
    }
  }

  // ---------------------------------------------------------------------
  // The events of an expression build it back.

  /**
   * The expressions the builder can produce: no bits above the three flag
   * bits, an atom's text of bytes with bit 2 clear, a sequence's brace
   * one of the three pairs.
   */
  predicate Normal(e: Expr)
    decreases e
  {
    match e
    case Atom(b, s) => b.high == 0 && !b.bit2 && IsLatin1(s)
    case Sequence(b, elems) => b.high == 0 && ValidBrace(BraceOf(b)) && forall x <- elems :: Normal(x)
  }

  /** The opening bracket of a normal sequence, as a byte. */
  function OpenByte(b: Bits): (c: byte)
    requires ValidBrace(BraceOf(b))
    ensures FromRune(CharOf(c)) == BraceOf(b)
  {
    var o := Opening(BraceOf(b)).value;
    ByteOf(o)
  }

  /** The closing bracket of a normal sequence, as a byte. */
  function CloseByte(b: Bits): (c: byte)
    requires ValidBrace(BraceOf(b))
    ensures FromRune(CharOf(c)) == BraceOf(b)
  {
    var k := Closing(BraceOf(b)).value;
    ByteOf(k)
  }

  /** The callbacks the scanner makes for `e`'s text. */
  function Events(e: Expr): seq<Sp.Event>
    requires Normal(e)
    decreases e, 1
  {
    match e
    case Atom(b, s) => [Sp.Atom(Meta(b), Bytes(s), Quoted(b))]
    case Sequence(b, elems) =>
      [Sp.Begin(Meta(b), OpenByte(b))] + ElemsEvents(elems) + [Sp.End(Meta(b), CloseByte(b))]
  }

  function ElemsEvents(elems: seq<Expr>): seq<Sp.Event>
    requires forall x <- elems :: Normal(x)
    decreases elems, 0
  {
    if elems == [] then [] else Events(elems[0]) + ElemsEvents(elems[1..])
  }

  lemma CharsOfBytes(s: string)
    requires IsLatin1(s)
    ensures Chars(Bytes(s)) == s
  {
    assert forall i :: 0 <= i < |s| ==> Chars(Bytes(s))[i] == s[i];
  }

  /** A normal atom is the atom built from its own callback. */
  lemma AtomRebuilt(b: Bits, s: string)
    requires Normal(Expr.Atom(b, s))
    ensures AtomOf(Meta(b), Bytes(s), Quoted(b)) == Expr.Atom(b, s)
  {
    CharsOfBytes(s);
  }

  /** A normal sequence's word is the one `Begin` builds from its own bracket. */
  lemma BaseRebuilt(b: Bits)
    requires b.high == 0 && ValidBrace(BraceOf(b))
    ensures SequenceBase(Meta(b), OpenByte(b)) == b
  {
    var r := SequenceBase(Meta(b), OpenByte(b));
    assert BraceOf(r) == BraceOf(b);
    assert r.bit2 == b.bit2 && r.bit1 == b.bit1;
  }

  /** The events of a normal expression add exactly that expression. */
  lemma {:induction false} BuildEvents(b: Builder, e: Expr)
    requires Normal(e)
    ensures Run(b, Events(e)) == Some(Add(b, e))
    decreases e, 1
  {
    match e
    case Atom(base, s) =>
      AtomRebuilt(base, s);
    case Sequence(base, elems) =>
      BuildElems(Builder(b.results, b.ctx + [Open(base, [])]), elems);
      AddAllInner(b, base, [], elems);
      assert [] + elems == elems;
      BuildSequence(b, base, elems);
  }

  /** A normal sequence's `Begin` opens it with no elements. */
  lemma BeginRun(b: Builder, base: Bits)
    requires base.high == 0 && ValidBrace(BraceOf(base))
    ensures Run(b, [Sp.Begin(Meta(base), OpenByte(base))]) == Some(Builder(b.results, b.ctx + [Open(base, [])]))
  {
    BaseRebuilt(base);
    assert [Sp.Begin(Meta(base), OpenByte(base))][1..] == [];
  }

  /** Its `End` adds it, finished, where it belongs. */
  lemma EndRun(b: Builder, base: Bits, elems: seq<Expr>, end: Sp.Event)
    requires end.End?
    ensures Run(Builder(b.results, b.ctx + [Open(base, elems)]), [end]) == Some(Add(b, Sequence(base, elems)))
  {
    assert [end][1..] == [];
    assert (b.ctx + [Open(base, elems)])[..|b.ctx|] == b.ctx;
  }

  /** A sequence's `Begin`, its elements' events and its `End` add the sequence. */
  lemma BuildSequence(b: Builder, base: Bits, elems: seq<Expr>)
    requires Normal(Sequence(base, elems))
    requires Run(Builder(b.results, b.ctx + [Open(base, [])]), ElemsEvents(elems)) ==
      Some(Builder(b.results, b.ctx + [Open(base, elems)]))
    ensures Run(b, Events(Sequence(base, elems))) == Some(Add(b, Sequence(base, elems)))
  {
    var begin := Sp.Begin(Meta(base), OpenByte(base));
    var end := Sp.End(Meta(base), CloseByte(base));
    var inner := ElemsEvents(elems);
    BeginRun(b, base);
    EndRun(b, base, elems, end);
    RunConcat(b, [begin], inner);
    RunConcat(b, [begin] + inner, [end]);
  }

  /** The builder after `Add` of each of `elems` in turn. */
  function AddAll(b: Builder, elems: seq<Expr>): Builder
    decreases |elems|
  {
    if elems == [] then b else AddAll(Add(b, elems[0]), elems[1..])
  }

  /** The events of elements add them, in order. */
  lemma {:induction false} BuildElems(b: Builder, elems: seq<Expr>)
    requires forall x <- elems :: Normal(x)
    ensures Run(b, ElemsEvents(elems)) == Some(AddAll(b, elems))
    decreases elems, 0
  {
    if elems != [] {
      var x := elems[0];
      var rest := ElemsEvents(elems[1..]);
      assert ElemsEvents(elems) == Events(x) + rest;
      BuildEvents(b, x);
      RunChain(b, Add(b, x), Events(x), rest);
      BuildElems(Add(b, x), elems[1..]);
    }
  }

  /** Runs compose: after events that reach `mid`, the rest run from `mid`. */
  lemma RunChain(b: Builder, mid: Builder, x: seq<Sp.Event>, y: seq<Sp.Event>)
    requires Run(b, x) == Some(mid)
    ensures Run(b, x + y) == Run(mid, y)
  {
    RunConcat(b, x, y);
  }

  /** Added inside the innermost open sequence, elements are appended to it. */
  lemma {:induction false} AddAllInner(b: Builder, base: Bits, done: seq<Expr>, elems: seq<Expr>)
    ensures AddAll(Builder(b.results, b.ctx + [Open(base, done)]), elems) ==
      Builder(b.results, b.ctx + [Open(base, done + elems)])
    decreases |elems|
  {
    if elems == [] {
      assert done + elems == done;
    } else {
      AddInner(b, base, done, elems[0]);
      AddAllInner(b, base, done + [elems[0]], elems[1..]);
      assert done + [elems[0]] + elems[1..] == done + elems;
    }
  }

  /** An element finished inside the innermost open sequence is appended to it. */
  lemma AddInner(b: Builder, base: Bits, done: seq<Expr>, x: Expr)
    ensures Add(Builder(b.results, b.ctx + [Open(base, done)]), x) == Builder(b.results, b.ctx + [Open(base, done + [x])])
  {
    assert (b.ctx + [Open(base, done)])[..|b.ctx|] == b.ctx;
  }

  /** From an empty builder, the events of one normal expression leave exactly it in `Results`. */
  lemma ParseRoundTrip(e: Expr)
    requires Normal(e)
    ensures Run(Empty, Events(e)) == Some(Builder([e], []))
  {
    BuildEvents(Empty, e);
    assert Empty.results + [e] == [e];
  }

  // ---------------------------------------------------------------------
  // The builder updated in place.

  /** `State`: the fields the scanner's callbacks update. */
  class State {
    var results: seq<Expr>
    var ctx: seq<Open>

    /** The zero `State`. */
    constructor ()
      ensures results == [] && ctx == []
    {
      results := [];
      ctx := [];
    }

    function Model(): Builder
      reads this
    {
      Builder(results, ctx)
    }

    /** `Begin`. */
    method Begin(isMeta: bool, brace: byte)
      modifies this
      ensures Model() == BeginStep(old(Model()), isMeta, brace)
    {
      var s := Open(SequenceBase(isMeta, brace), []);
      ctx := ctx + [s];
    }

    /** `End`: `ok` is false where the Go code panics, and then nothing changes. */
    method End(isMeta: bool, brace: byte) returns (ok: bool)
      modifies this
      ensures ok == (old(ctx) != [])
      ensures ok ==> Model() == EndStep(old(Model())).value
      ensures !ok ==> Model() == old(Model())
    {
      if ctx == [] {
        return false;
      }
      var lm1 := |ctx| - 1;
      var s := ctx[lm1];
      ctx := ctx[..lm1];
      if |ctx| == 0 {
        results := results + [Sequence(s.base, s.elems)];
      } else {
        var c := ctx[|ctx| - 1];
        ctx := ctx[..|ctx| - 1] + [Open(c.base, c.elems + [Sequence(s.base, s.elems)])];
      }
      ok := true;
    }

    /** `Atom`. */
    method Atom(isMeta: bool, atom: seq<byte>, quoted: bool)
      modifies this
      ensures Model() == AtomStep(old(Model()), isMeta, atom, quoted)
    {
      var a := AtomOf(isMeta, atom, quoted);
      if |ctx| == 0 {
        results := results + [a];
      } else {
        var s := ctx[|ctx| - 1];
        ctx := ctx[..|ctx| - 1] + [Open(s.base, s.elems + [a])];
      }
    }
  }

  /** The atom `foo` as the `Atom` callback builds it: neither meta nor quoted. */
  lemma FooAtom()
    ensures var a := AtomOf(false, [102, 111, 111], false); a.Atom? && !Meta(a.base) && !Quoted(a.base) && a.str == "foo"
  {
    assert Chars([102, 111, 111]) == "foo";
  }

  /** The callbacks for `(bar \[baz])` at the top level add one plain `Paren` sequence of two elements to the results. */
  method ParenGroup(pst: State)
    requires pst.ctx == []
    modifies pst
    ensures pst.ctx == [] && |pst.results| == |old(pst.results)| + 1 && pst.results[..|old(pst.results)|] == old(pst.results)
    ensures var s := pst.results[|old(pst.results)|];
      s.Sequence? && !Meta(s.base) && BraceOf(s.base) == Paren && |s.elems| == 2
  {
    ghost var rs := pst.results;
    pst.Begin(false, 40);
    ghost var outer := pst.ctx[0];
    assert pst.results == rs && pst.ctx == [outer] && !Meta(outer.base) && BraceOf(outer.base) == Paren;
    pst.Atom(false, [98, 97, 114], false);
    pst.Begin(true, 91);
    pst.Atom(false, [98, 97, 122], false);
    var ok := pst.End(true, 93);
    assert pst.results == rs && |pst.ctx| == 1 && pst.ctx[0].base == outer.base && |pst.ctx[0].elems| == 2;
    outer := pst.ctx[0];
    ok := pst.End(false, 41);
    assert pst.ctx == [] && pst.results == rs + [Sequence(outer.base, outer.elems)];
  }

  /**
   * `TestParse_complex`: the callbacks for `foo (bar \[baz]) \4711` leave
   * three results, the first the plain atom `foo`, the second a plain
   * `Paren` sequence of two elements.
   */
  method ExampleParse() returns (count: nat, first: Expr, second: Expr)
    ensures count == 3
    ensures first.Atom? && !Meta(first.base) && !Quoted(first.base) && first.str == "foo"
    ensures second.Sequence? && !Meta(second.base) && BraceOf(second.base) == Paren && |second.elems| == 2
  {
    var pst := new State();
    pst.Atom(false, [102, 111, 111], false);
    FooAtom();
    assert pst.ctx == [] && pst.results == [AtomOf(false, [102, 111, 111], false)];
    ParenGroup(pst);
    pst.Atom(true, [52, 55, 49, 49], false);
    count := |pst.results|;
    first := pst.results[0];
    second := pst.results[1];
  }
}
