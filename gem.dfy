// The general model of XSX data (gem/gem.go): atoms and sequences that
// keep their meta flag, an atom's quote flag and a sequence's bracket kind
// in one word of flag bits, and the bracket kinds with their brackets.
module Gem {
  import opened Common

  /**
   * `expBase`, a Go `int`, as its three flag bits and the bits above them:
   * the word stands for `8 * high + 4 * bit2 + 2 * bit1 + bit0`.  Bit 0 is
   * `maskMeta`, bit 1 `maskAtomQuot`, bits 1 and 2 `braceMask`.
   */
  datatype Bits = Bits(high: int, bit2: bool, bit1: bool, bit0: bool)

  /** A word with no bit set. */
  const Zero: Bits := Bits(0, false, false, false)

  /** `Brace` values. */
  const Undef: int := 0
  const Paren: int := 2
  const Square: int := 4
  const Curly: int := 6

  /** An expression: an atom with its text, or a sequence with its elements. */
  datatype Expr =
    | Atom(base: Bits, str: string)
    | Sequence(base: Bits, elems: seq<Expr>)

  // ---------------------------------------------------------------------
  // The word and the integer it stands for.

  function BitValue(bit: bool, weight: int): int
  {
    if bit then weight else 0
  }

  /** The integer the word stands for. */
  function Value(e: Bits): int
  {
    8 * e.high + BitValue(e.bit2, 4) + BitValue(e.bit1, 2) + BitValue(e.bit0, 1)
  }

  /** The word of an integer: its two's complement bits, read with Euclidean division, which rounds down for negative values too. */
  function FromInt(n: int): (e: Bits)
    ensures Value(e) == n
  {
    var low := n % 8;
    Bits(n / 8, low >= 4, low % 4 >= 2, low % 2 == 1)
  }

  /** Every integer has exactly one word. */
  lemma FromIntValue(e: Bits)
    ensures FromInt(Value(e)) == e
  {
    var low := BitValue(e.bit2, 4) + BitValue(e.bit1, 2) + BitValue(e.bit0, 1);
    assert 0 <= low < 8;
    assert Value(e) / 8 == e.high && Value(e) % 8 == low;
  }

  // ---------------------------------------------------------------------
  // The flag bits.

  /** `Meta`: bit 0. */
  predicate Meta(e: Bits)
  {
    e.bit0
  }

  /** `SetMeta` on the word: `e | maskMeta` or `e &^ maskMeta`; bit 0 then reads `flag`. */
  function WithMeta(e: Bits, flag: bool): (r: Bits)
    ensures Meta(r) == flag
  {
    e.(bit0 := flag)
  }

  /** `Atom.Quoted`: bit 1. */
  predicate Quoted(e: Bits)
  {
    e.bit1
  }

  /** `Atom.SetQuoted` on the word: bit 1 then reads `flag`. */
  function WithQuoted(e: Bits, flag: bool): (r: Bits)
    ensures Quoted(r) == flag
  {
    e.(bit1 := flag)
  }

  /** `Sequence.Brace`: `e & braceMask`, one of the four brace values. */
  function BraceOf(e: Bits): (b: int)
    ensures b == Undef || b == Paren || b == Square || b == Curly
  {
    BitValue(e.bit2, 4) + BitValue(e.bit1, 2)
  }

  /** `Sequence.SetBrace` on the word: bits 1 and 2 take those of the integer `b`. */
  function WithBrace(e: Bits, b: int): (r: Bits)
    ensures BraceOf(r) == BraceOf(FromInt(b))
  {
    var w := FromInt(b);
    e.(bit2 := w.bit2, bit1 := w.bit1)
  }

  /** `SetMeta` and `SetQuoted` change the integer by their own bit's weight and nothing else. */
  lemma FlagSettersValue(e: Bits, flag: bool)
    ensures Value(WithMeta(e, flag)) == Value(e) - BitValue(Meta(e), 1) + BitValue(flag, 1)
    ensures Value(WithQuoted(e, flag)) == Value(e) - BitValue(Quoted(e), 2) + BitValue(flag, 2)
  {
  }

  /** `Brace` is the low three bits of the integer less the meta bit, that is `e & braceMask`. */
  lemma {:induction false} BraceIsMasked(e: Bits)
    ensures BraceOf(e) == Value(e) % 8 - BitValue(Meta(e), 1)
  {
    FromIntValue(e);
  }

  /** `SetBrace` replaces the brace bits of the integer and keeps the others. */
  lemma BraceSetterValue(e: Bits, b: int)
    ensures Value(WithBrace(e, b)) == Value(e) - BraceOf(e) + BraceOf(FromInt(b))
  {
  }

  /** `SetMeta` is idempotent and keeps `Quoted` and `Brace` (gem_test.go). */
  lemma MetaIndependent(e: Bits, flag: bool)
    ensures WithMeta(WithMeta(e, flag), flag) == WithMeta(e, flag)
    ensures Quoted(WithMeta(e, flag)) == Quoted(e) && BraceOf(WithMeta(e, flag)) == BraceOf(e)
  {
  }

  /** `SetQuoted` keeps `Meta`. */
  lemma QuotedKeepsMeta(e: Bits, flag: bool)
    ensures Meta(WithQuoted(e, flag)) == Meta(e)
  {
  }

  /** `SetBrace` keeps `Meta`. */
  lemma BraceKeepsMeta(e: Bits, b: int)
    ensures Meta(WithBrace(e, b)) == Meta(e)
  {
  }

  /** A brace value set with `SetBrace` reads back from `Brace` (gem_test.go). */
  lemma BraceReadsBack(e: Bits, b: int)
    requires b == Undef || b == Paren || b == Square || b == Curly
    ensures BraceOf(WithBrace(e, b)) == b
  {
  }

  /** The quote bit is one of the brace bits: a quoted atom's word reads as `Paren`. */
  lemma QuoteBitIsBraceBit()
    ensures BraceOf(WithQuoted(Zero, true)) == Paren
  {
  }

  // ---------------------------------------------------------------------
  // Bracket kinds.

  /** `FromRune`: either bracket of a pair gives its kind, anything else `Undef`. */
  function FromRune(c: char): (b: int)
    ensures b == Paren <==> c == '(' || c == ')'
    ensures b == Square <==> c == '[' || c == ']'
    ensures b == Curly <==> c == '{' || c == '}'
    ensures b == Undef <==> c !in "()[]{}"
  {
    if c == '(' || c == ')' then Paren
    else if c == '[' || c == ']' then Square
    else if c == '{' || c == '}' then Curly
    else Undef
  }

  /** `barceOpen` and `barceClose`. */
  const BarceOpen: seq<char> := [0 as char, '(', '[', '{']
  const BarceClose: seq<char> := [0 as char, ')', ']', '}']

  /** `Brace.Opening` as written: the guard admits 1 to 3 and the table is indexed by the brace value (`None` is the panic). */
  function OpeningAsWritten(b: int): (r: Option<char>)
    ensures r.Some? <==> 1 <= b <= 3
  {
    if b < 1 || b > 3 then None else Some(BarceOpen[b])
  }

  /** `Brace.Closing` as written. */
  function ClosingAsWritten(b: int): (r: Option<char>)
    ensures r.Some? <==> 1 <= b <= 3
  {
    if b < 1 || b > 3 then None else Some(BarceClose[b])
  }

  /**
   * The brace constants are 2, 4 and 6, so `Paren` gets the square
   * brackets and `Square` and `Curly` panic.
   */
  lemma BraceTableMismatch()
    ensures OpeningAsWritten(Paren) == Some('[') && ClosingAsWritten(Paren) == Some(']')
    ensures OpeningAsWritten(Square) == None && OpeningAsWritten(Curly) == None
    ensures ClosingAsWritten(Square) == None && ClosingAsWritten(Curly) == None
  {
  }

  /** Whether `b` names one of the three bracket pairs. */
  predicate ValidBrace(b: int)
  {
    b == Paren || b == Square || b == Curly
  }

  /** `Brace.Opening` as intended: the table is indexed by the brace value shifted right by one. */
  function Opening(b: int): (r: Option<char>)
    ensures r.Some? <==> ValidBrace(b)
    ensures r.Some? ==> FromRune(r.value) == b && r.value in "([{"
  {
    if ValidBrace(b) then Some(BarceOpen[b / 2]) else None
  }

  /** `Brace.Closing` as intended. */
  function Closing(b: int): (r: Option<char>)
    ensures r.Some? <==> ValidBrace(b)
    ensures r.Some? ==> FromRune(r.value) == b && r.value in ")]}"
  {
    if ValidBrace(b) then Some(BarceClose[b / 2]) else None
  }

  /** The intended tables give the bracket pairs of gem_test.go, and each bracket leads back to its pair. */
  lemma BraceRoundTrip(c: char)
    ensures Opening(Paren) == Some('(') && Opening(Square) == Some('[') && Opening(Curly) == Some('{')
    ensures Closing(Paren) == Some(')') && Closing(Square) == Some(']') && Closing(Curly) == Some('}')
    ensures c in "([{" ==> Opening(FromRune(c)) == Some(c)
    ensures c in ")]}" ==> Closing(FromRune(c)) == Some(c)
  {
  }

  // ---------------------------------------------------------------------
  // The flag word updated in place.

  /** An `expBase` field and its setters. */
  class ExpBase {
    var bits: Bits

    constructor (bits: Bits)
      ensures this.bits == bits
    {
      this.bits := bits;
    }

    /** `SetMeta`. */
    method SetMeta(flag: bool)
      modifies this
      ensures bits == WithMeta(old(bits), flag)
    {
      bits := bits.(bit0 := flag);
    }

    /** `Atom.SetQuoted`. */
    method SetQuoted(flag: bool)
      modifies this
      ensures bits == WithQuoted(old(bits), flag)
    {
      bits := bits.(bit1 := flag);
    }

    /** `Sequence.SetBrace`: the brace bits cleared, then those of `b` set. */
    method SetBrace(b: int)
      modifies this
      ensures bits == WithBrace(old(bits), b)
    {
      var clear := bits.(bit2 := false, bit1 := false);
      var w := FromInt(b);
      bits := clear.(bit2 := w.bit2, bit1 := w.bit1);
    }
  }

  /** `TestAtom_Meta`: setting meta twice on a fresh atom reads meta and keeps its quote flag. */
  method ExampleAtomMeta() returns (meta: bool, quotedKept: bool)
    ensures meta && quotedKept
  {
    var a := new ExpBase(Zero);
    var quoted := Quoted(a.bits);
    a.SetMeta(true);
    a.SetMeta(true);
    MetaIndependent(Zero, true);
    meta := Meta(a.bits);
    quotedKept := Quoted(a.bits) == quoted;
  }
}
