// Shared vocabulary of the XSX model: bytes, optional values and the
// conversions between the byte-oriented scanner and the rune-oriented
// printers.
module Common {

  /** One octet of scanner input (Go's `byte`). */
  newtype byte = b: int | 0 <= b < 256

  datatype Option<T> = None | Some(value: T)

  // The bytes the XSX syntax gives a meaning to.
  const TAB: byte := 9
  const LF: byte := 10
  const VT: byte := 11
  const FF: byte := 12
  const CR: byte := 13
  const SPACE: byte := 32
  const QUOTE: byte := 34
  const LPAREN: byte := 40
  const RPAREN: byte := 41
  const LSQUARE: byte := 91
  const BACKSLASH: byte := 92
  const RSQUARE: byte := 93
  const LCURLY: byte := 123
  const RCURLY: byte := 125
  const NEL: byte := 0x85
  const NBSP: byte := 0xA0

  /** The one-byte atom `\` the scanner reports for a meta prefix with nothing to attach to. */
  const MetaAtom: seq<byte> := [BACKSLASH]

  /** A rune below 256 read as the byte of the same value. */
  function ByteOf(c: char): (b: byte)
    requires c as int < 256
    ensures b as int == c as int
  {
    c as int as byte
  }

  /** A byte read as the rune of the same value. */
  function CharOf(b: byte): (c: char)
    ensures c as int == b as int
  {
    b as int as char
  }

  /** Whether every rune of `s` fits in one byte. */
  predicate IsLatin1(s: string)
  {
    forall i :: 0 <= i < |s| ==> s[i] as int < 256
  }

  /** The bytes of a string whose runes all fit in one byte. */
  function Bytes(s: string): (r: seq<byte>)
    requires IsLatin1(s)
    ensures |r| == |s|
    ensures forall i :: 0 <= i < |s| ==> r[i] as int == s[i] as int
  {
    if s == [] then [] else [ByteOf(s[0])] + Bytes(s[1..])
  }

  /** The string whose runes are the given bytes. */
  function Chars(bs: seq<byte>): (s: string)
    ensures |s| == |bs| && IsLatin1(s)
    ensures forall i :: 0 <= i < |bs| ==> s[i] as int == bs[i] as int
  {
    if bs == [] then [] else [CharOf(bs[0])] + Chars(bs[1..])
  }

  /** `Bytes` distributes over concatenation. */
  lemma BytesConcat(a: string, b: string)
    requires IsLatin1(a) && IsLatin1(b)
    ensures IsLatin1(a + b)
    ensures Bytes(a + b) == Bytes(a) + Bytes(b)
  {
    var ab := a + b;
    assert forall i :: 0 <= i < |ab| ==> ab[i] == (if i < |a| then a[i] else b[i - |a|]);
    assert IsLatin1(ab);
    assert forall i :: 0 <= i < |ab| ==> Bytes(ab)[i] == (Bytes(a) + Bytes(b))[i];
  }

  /**
   * The UTF-8 encoding of one rune (RFC 3629, section 3): what Go's
   * `[]byte(string(c))` gives.  ASCII runes are one byte; every byte of a
   * longer encoding has its high bit set, the first one at least 0xC0 and
   * the others continuation bytes.
   */
  function Utf8Rune(c: char): (r: seq<byte>)
    ensures 1 <= |r| <= 4 && (|r| == 1 <==> c as int < 128)
    ensures |r| == 1 ==> r[0] as int == c as int
    ensures |r| > 1 ==> r[0] >= 0xC0 && forall j :: 1 <= j < |r| ==> 0x80 <= r[j] < 0xC0
  {
    var n := c as int;
    if n < 0x80 then [n as byte]
    else if n < 0x800 then [(0xC0 + n / 64) as byte, (0x80 + n % 64) as byte]
    else if n < 0x10000 then
      [(0xE0 + n / 4096) as byte, (0x80 + n / 64 % 64) as byte, (0x80 + n % 64) as byte]
    else
      [(0xF0 + n / 0x40000) as byte, (0x80 + n / 4096 % 64) as byte,
       (0x80 + n / 64 % 64) as byte, (0x80 + n % 64) as byte]
  }

  /** The code point an encoded rune stands for: six bits per continuation byte after the lead byte's bits. */
  function RuneValue(r: seq<byte>): int
    requires 1 <= |r| <= 4
  {
    if |r| == 1 then r[0] as int
    else if |r| == 2 then (r[0] as int - 0xC0) * 64 + (r[1] as int - 0x80)
    else if |r| == 3 then (r[0] as int - 0xE0) * 4096 + (r[1] as int - 0x80) * 64 + (r[2] as int - 0x80)
    else (r[0] as int - 0xF0) * 0x40000 + (r[1] as int - 0x80) * 4096 + (r[2] as int - 0x80) * 64 + (r[3] as int - 0x80)
  }

  /** Decoding the encoding of a rune gives back the rune. */
  lemma {:induction false} Utf8RuneValue(c: char)
    ensures RuneValue(Utf8Rune(c)) == c as int
  {
    var n := c as int;
    if n >= 0x10000 {
      SixBitDigits(n);
    } else if n >= 0x800 {
      SixBitDigits(n);
    }
  }

  /** A natural number split into its low three groups of six bits and the rest. */
  lemma SixBitDigits(n: nat)
    ensures n == n / 4096 * 4096 + n / 64 % 64 * 64 + n % 64
    ensures n == n / 0x40000 * 0x40000 + n / 4096 % 64 * 4096 + n / 64 % 64 * 64 + n % 64
  {
    var q1 := n / 64;
    var q2 := q1 / 64;
    var q3 := q2 / 64;
    assert n == q1 * 64 + n % 64;
    assert q1 == q2 * 64 + q1 % 64;
    assert q2 == q3 * 64 + q2 % 64;
    DivBy64(n);
    DivBy64By64(n);
  }

  /** Six bits off, then six more: the same as twelve bits off. */
  lemma DivBy64(n: nat)
    ensures n / 64 / 64 == n / 4096
  {
    var q := n / 64 / 64;
    var r := n / 64 % 64;
    assert n == q * 4096 + r * 64 + n % 64;
  }

  /** Twelve bits off, then six more: the same as eighteen bits off. */
  lemma DivBy64By64(n: nat)
    ensures n / 4096 / 64 == n / 0x40000
  {
    var q := n / 4096 / 64;
    var r := n / 4096 % 64;
    assert n == q * 0x40000 + r * 4096 + n % 4096;
  }

  /** The bytes Go writes for a string: the UTF-8 encoding of its runes, one after the other. */
  function Utf8(s: string): (r: seq<byte>)
    ensures |r| >= |s|
  {
    if s == [] then [] else Utf8Rune(s[0]) + Utf8(s[1..])
  }

  /** `Utf8` distributes over concatenation. */
  lemma {:induction false} Utf8Concat(a: string, b: string)
    ensures Utf8(a + b) == Utf8(a) + Utf8(b)
    decreases |a|
  {
    if a == [] {
      assert a + b == b;
    } else {
      assert (a + b)[0] == a[0] && (a + b)[1..] == a[1..] + b;
      Utf8Concat(a[1..], b);
    }
  }

  lemma BytesOfChars(bs: seq<byte>)
    ensures Bytes(Chars(bs)) == bs
  {
    var s := Chars(bs);
    assert forall i :: 0 <= i < |bs| ==> Bytes(s)[i] == bs[i];
  }
}
