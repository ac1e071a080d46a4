// Writing XSX text (write.go): escaping and quoting of atoms and the
// decision whether an atom needs quotes.
//
// Go strings are modelled as `string` (one `char` per rune); the bytes
// that reach the output are their UTF-8 encoding, `Utf8`, and the
// read-back lemmas scan those bytes.  An `io.Writer` is the class
// `Writer`: it appends what it is given to `out` and fails once a budget
// of successful writes is spent, which lets the contracts state what the
// writing functions leave behind when a write fails.
module Write {
  import opened Common
  import opened ScanSpec
  import opened Unquote
  import opened ScanProps

  // ---------------------------------------------------------------------
  // Which atoms need quotes (`NeedQuote`).

  /** `unicode.IsSpace`: the runes with the Unicode White_Space property. */
  predicate IsSpace(c: char)
  {
    var n := c as int;
    (9 <= n <= 13) || n == 32 || n == 0x85 || n == 0xA0 || n == 0x1680 ||
    (0x2000 <= n <= 0x200A) || n == 0x2028 || n == 0x2029 || n == 0x202F ||
    n == 0x205F || n == 0x3000
  }

  /** A rune that makes `NeedQuote` answer true. */
  predicate QuoteTrigger(c: char)
  {
    c == '"' || c == '\\' || c == '(' || c == '[' || c == '{' || c == ' ' || c == '\t' || IsSpace(c)
  }

  /** The loop of `NeedQuote`: some rune of `s` is a trigger. */
  predicate HasTrigger(s: string)
  {
    s != [] && (QuoteTrigger(s[0]) || HasTrigger(s[1..]))
  }

  /** `NeedQuote`: the empty atom and any atom holding a trigger need quotes. */
  predicate NeedQuote(s: string)
  {
    |s| == 0 || HasTrigger(s)
  }

  /** `NeedQuote` answers true exactly for the empty string and the strings holding a trigger rune. */
  lemma {:induction false} NeedQuoteIff(s: string)
    ensures NeedQuote(s) <==> s == [] || exists i :: 0 <= i < |s| && QuoteTrigger(s[i])
  {
    HasTriggerIff(s);
  }

  lemma {:induction false} HasTriggerIff(s: string)
    ensures HasTrigger(s) <==> exists i :: 0 <= i < |s| && QuoteTrigger(s[i])
  {
    if s != [] {
      HasTriggerIff(s[1..]);
      if HasTrigger(s[1..]) {
        var i :| 0 <= i < |s[1..]| && QuoteTrigger(s[1..][i]);
        assert QuoteTrigger(s[i + 1]);
      }
      if exists i :: 0 <= i < |s| && QuoteTrigger(s[i]) {
        var i :| 0 <= i < |s| && QuoteTrigger(s[i]);
        if i > 0 {
          assert QuoteTrigger(s[1..][i - 1]);
        }
      }
    }
  }

  /** The closing brackets are not triggers: an atom made of them is written bare. */
  lemma ClosersNeedNoQuote()
    ensures !NeedQuote(")") && !NeedQuote("]") && !NeedQuote("}")
    ensures NeedQuote("(") && NeedQuote("[") && NeedQuote("{")
  {
    assert ")"[1..] == [] && "]"[1..] == [] && "}"[1..] == [];
  }

  // ---------------------------------------------------------------------
  // Escaping and quoting (`EscapeTo`, `QuoteTo`, `Quoted`).

  /** What `EscapeTo` writes for one rune. */
  function EscRune(c: char): (r: string)
  {
    if c == '"' then "\\\"" else if c == '\\' then "\\\\" else [c]
  }

  /** Whether `EscapeTo` counts the rune as an escape. */
  predicate Escaped(c: char)
  {
    c == '"' || c == '\\'
  }

  /** The number of escapes in `s`. */
  function EscCount(s: string): nat
  {
    if s == [] then 0 else (if Escaped(s[0]) then 1 else 0) + EscCount(s[1..])
  }

  /** The escaped form of `s`: every `"` and `\` gets a backslash in front. */
  function Escape(s: string): string
  {
    if s == [] then [] else EscRune(s[0]) + Escape(s[1..])
  }

  /** Escaping works rune by rune, so it distributes over concatenation; so does the count of escapes. */
  lemma {:induction false} EscapeConcat(a: string, b: string)
    ensures Escape(a + b) == Escape(a) + Escape(b)
    ensures EscCount(a + b) == EscCount(a) + EscCount(b)
    decreases |a|
  {
    if a == [] {
      assert a + b == b;
    } else {
      assert (a + b)[0] == a[0];
      assert (a + b)[1..] == a[1..] + b;
      EscapeConcat(a[1..], b);
    }
  }

  /** One more rune escaped: what `EscapeTo` adds in one pass of its loop. */
  lemma EscapeSnoc(s: string, i: nat)
    requires i < |s|
    ensures Escape(s[..i + 1]) == Escape(s[..i]) + EscRune(s[i])
    ensures EscCount(s[..i + 1]) == EscCount(s[..i]) + if Escaped(s[i]) then 1 else 0
  {
    assert s[..i + 1] == s[..i] + [s[i]];
    EscapeConcat(s[..i], [s[i]]);
    assert [s[i]][1..] == [];
  }

  /** A string with neither `"` nor `\` escapes to itself. */
  lemma {:induction false} EscapeNothing(s: string)
    requires forall i :: 0 <= i < |s| ==> !Escaped(s[i])
    ensures Escape(s) == s
  {
    if s != [] {
      assert forall i :: 0 <= i < |s[1..]| ==> s[1..][i] == s[i + 1];
      EscapeNothing(s[1..]);
    }
  }

  /** The escaped form is longer by the number of escapes, and stays within Latin-1. */
  lemma {:induction false} EscapeLength(s: string)
    ensures |Escape(s)| == |s| + EscCount(s)
    ensures IsLatin1(s) ==> IsLatin1(Escape(s))
  {
    if s != [] {
      EscapeLength(s[1..]);
      if IsLatin1(s) {
        assert forall i :: 0 <= i < |s[1..]| ==> s[1..][i] == s[i + 1];
        var e := EscRune(s[0]);
        var r := Escape(s);
        forall i | 0 <= i < |r|
          ensures r[i] as int < 256
        {
          if i >= |e| {
            assert r[i] == Escape(s[1..])[i - |e|];
          }
        }
      }
    }
  }

  /** `Quoted`: the escaped text between two quotes. */
  function Quoted(s: string): string
  {
    "\"" + Escape(s) + "\""
  }

  /** A run of bytes holding neither `"` nor `\` is read as literal text, leaving the atom open. */
  lemma {:induction false} PlainRead(u: seq<byte>)
    requires forall j :: 0 <= j < |u| ==> u[j] != QUOTE && u[j] != BACKSLASH
    ensures QuotedRead(u, false) == QRead(-1, u, false)
  {
    if u != [] {
      assert forall j :: 0 <= j < |u[1..]| ==> u[1..][j] == u[j + 1];
      PlainRead(u[1..]);
      assert [u[0]] + u[1..] == u;
    }
  }

  /** What `EscapeTo` writes for one rune is read back as the bytes of that rune. */
  lemma EscRuneRead(c: char)
    ensures QuotedRead(Utf8(EscRune(c)), false) == QRead(-1, Utf8Rune(c), false)
  {
    var e := EscRune(c);
    if Escaped(c) {
      assert e == ['\\', c] && e[1..] == [c] && e[1..][1..] == [];
      var b := Utf8Rune(c);
      assert |b| == 1 && Utf8Rune('\\') == [BACKSLASH];
      assert Utf8(e[1..]) == b;
      var t := Utf8(e);
      assert t == [BACKSLASH, b[0]];
      assert t[1..] == b && t[1..][1..] == [];
      assert QuotedRead(t[1..], true) == QRead(-1, b, false);
      assert QuotedRead(t, false) == Behind(QuotedRead(t[1..], true), []);
      assert [] + b == b;
    } else {
      assert e[1..] == [];
      assert Utf8(e) == Utf8Rune(c);
      PlainRead(Utf8Rune(c));
    }
  }

  /**
   * Escaping then reading back: the quoted-body reading of the bytes of the
   * escaped text followed by `"` closes exactly at that quote, with the
   * bytes of the original text.
   */
  lemma {:induction false} EscapeReads(s: string)
    ensures QuotedRead(Utf8(Escape(s)) + [QUOTE], false) == QRead(|Utf8(Escape(s))|, Utf8(s), false)
  {
    if s == [] {
      assert Utf8(Escape(s)) + [QUOTE] == [QUOTE];
      assert [QUOTE][1..] == [];
    } else {
      var u := Utf8(EscRune(s[0]));
      var rest := Utf8(Escape(s[1..])) + [QUOTE];
      Utf8Concat(EscRune(s[0]), Escape(s[1..]));
      assert Utf8(Escape(s)) + [QUOTE] == u + rest;
      QuotedReadConcat(u, rest, false);
      EscRuneRead(s[0]);
      EscapeReads(s[1..]);
    }
  }

  /** The bytes of the quoted form. */
  lemma QuotedBytes(s: string)
    ensures Utf8(Quoted(s)) == [QUOTE] + Utf8(Escape(s)) + [QUOTE]
  {
    var e := Escape(s);
    Utf8Concat("\"", e);
    Utf8Concat("\"" + e, "\"");
    assert Utf8("\"") == [QUOTE];
  }

  /** `skipQAtom` on the body of the quoted form closes at its final quote, with the original bytes as text. */
  lemma QuotedSkip(s: string)
    ensures var t := Utf8(Quoted(s));
      |t| >= 2 && t[0] == QUOTE && SkipQ(t[1..]).atom == |t| - 2 &&
      QText(t[1..|t| - 1], SkipQ(t[1..])) == Utf8(s)
  {
    QuotedBytes(s);
    var t := Utf8(Quoted(s));
    var u := t[1..];
    assert u == Utf8(Escape(s)) + [QUOTE];
    EscapeReads(s);
    SkipQAgrees(u);
    assert u[..SkipQ(u).atom] == t[1..|t| - 1];
  }

  /** The quoted form reads back, through the scanner, as one quoted atom with the original bytes. */
  lemma QuotedScans(s: string)
    ensures var t := Utf8(Quoted(s));
      ScanString(Initial, t) == Outcome(State(|t|, Initial.core), [Atom(false, Utf8(s), true)], None)
  {
    QuotedSkip(s);
    ScanQuotedAtom(Utf8(Quoted(s)));
  }

  // ---------------------------------------------------------------------
  // Conditional quoting (`CondQuoted`).

  /** `CondQuoted`: the quoted form if the atom needs quotes, else the atom itself; and which it chose. */
  function CondQuoted(s: string): (r: (string, bool))
    ensures r.1 == NeedQuote(s)
    ensures r.0 == if r.1 then Quoted(s) else s
  {
    if NeedQuote(s) then (Quoted(s), true) else (s, false)
  }

  /** A closing bracket rune. */
  predicate IsCloser(c: char)
  {
    c == ')' || c == ']' || c == '}'
  }

  /**
   * A rune whose UTF-8 encoding holds one of the bytes 0x85 and 0xA0, which
   * the scanner classes as whitespace (`à` is C3 A0, `Å` is C3 85).
   */
  predicate SpaceByteIn(c: char)
  {
    NEL in Utf8Rune(c) || NBSP in Utf8Rune(c)
  }

  /** A string with no trigger, no closer and no rune holding a space byte encodes to no byte that ends a bare atom. */
  lemma {:induction false} NoDelimiter(s: string)
    requires forall i :: 0 <= i < |s| ==> !QuoteTrigger(s[i]) && !IsCloser(s[i]) && !SpaceByteIn(s[i])
    ensures forall j :: 0 <= j < |Utf8(s)| ==> !IsDelim(Utf8(s)[j])
  {
    if s != [] {
      var u := Utf8Rune(s[0]);
      forall j | 0 <= j < |u|
        ensures !IsDelim(u[j])
      {
        DelimiterBytes(u[j]);
      }
      assert forall i :: 0 <= i < |s[1..]| ==> s[1..][i] == s[i + 1];
      NoDelimiter(s[1..]);
      forall j | 0 <= j < |Utf8(s)|
        ensures !IsDelim(Utf8(s)[j])
      {
        if j >= |u| {
          assert Utf8(s)[j] == Utf8(s[1..])[j - |u|];
        }
      }
    }
  }

  /**
   * Reading back the bytes `CondQuoted` wrote, when the atom holds no closer
   * and no rune whose encoding holds a space byte.
   */
  lemma CondQuotedReads(s: string)
    requires forall i :: 0 <= i < |s| ==> !IsCloser(s[i]) && !SpaceByteIn(s[i])
    ensures var (text, q) := CondQuoted(s);
      ScanString(Initial, Utf8(text)) == Outcome(State(|Utf8(text)|, Initial.core), [Atom(false, Utf8(s), q)], None)
  {
    if NeedQuote(s) {
      QuotedScans(s);
    } else {
      NeedQuoteIff(s);
      NoDelimiter(s);
      ScanBareAtom(Utf8(s));
    }
  }

  /**
   * The atom `a)` needs no quotes by `NeedQuote`, so `CondQuoted` writes it
   * bare, and the scanner reads the atom `a` and then fails on `)` with
   * nothing open.
   */
  lemma CondQuotedSplitsCloser()
    ensures CondQuoted("a)") == ("a)", false)
    ensures var o := ScanString(Initial, Utf8("a)"));
      o.events == [Atom(false, [97], false)] && o.err == Some(ScanError(1, Unnested(RPAREN)))
  {
    var s := "a)";
    assert s[1..] == ")" && s[1..][1..] == [];
    assert Utf8(s) == [97, RPAREN];
    ExampleCloserAfterAtom();
  }

  /** The one-rune atom `à` (U+00E0). */
  const AGrave: string := [0xE0 as char]

  /**
   * `à` holds no trigger rune, so `CondQuoted` writes it bare; its bytes are
   * C3 A0, and the scanner ends the atom at A0, which it takes for
   * whitespace: it reads the one-byte atom C3.
   */
  lemma CondQuotedSplitsRune()
    ensures CondQuoted(AGrave) == (AGrave, false)
    ensures Utf8(AGrave) == [0xC3, NBSP]
    ensures ScanString(Initial, Utf8(AGrave)) == Outcome(State(2, Initial.core), [Atom(false, [0xC3], false)], None)
  {
    assert AGrave[1..] == [];
    assert !HasTrigger(AGrave);
    assert Utf8(AGrave) == [0xC3, NBSP];
    ExampleSplitRune();
  }

  /**
   * `NeedQuote` with the closing brackets and the runes holding a space
   * byte added to the triggers.
   */
  predicate NeedQuoteStrict(s: string)
  {
    NeedQuote(s) || exists i :: 0 <= i < |s| && (IsCloser(s[i]) || SpaceByteIn(s[i]))
  }

  /** `CondQuoted` on `NeedQuoteStrict`. */
  function CondQuotedStrict(s: string): (r: (string, bool))
    ensures r.1 == NeedQuoteStrict(s)
    ensures r.0 == if r.1 then Quoted(s) else s
  {
    if NeedQuoteStrict(s) then (Quoted(s), true) else (s, false)
  }

  /** With those triggers added, every atom reads back as itself. */
  lemma CondQuotedStrictReads(s: string)
    ensures var (text, q) := CondQuotedStrict(s);
      ScanString(Initial, Utf8(text)) == Outcome(State(|Utf8(text)|, Initial.core), [Atom(false, Utf8(s), q)], None)
  {
    if NeedQuoteStrict(s) {
      QuotedScans(s);
    } else {
      NeedQuoteIff(s);
      NoDelimiter(s);
      ScanBareAtom(Utf8(s));
    }
  }

  // ---------------------------------------------------------------------
  // Writers that may fail.

  /** Writes that a writer with `budget` accepts out of `n`; `None` is a writer that never fails. */
  function Taken(budget: Option<nat>, n: nat): (k: nat)
    ensures k <= n && (k < n <==> budget.Some? && budget.value < n)
  {
    if budget.None? || n <= budget.value then n else budget.value
  }

  /** The budget left after `n` attempted writes (the failing write spends nothing). */
  function Left(budget: Option<nat>, n: nat): Option<nat>
  {
    if budget.None? then None else Some(budget.value - Taken(budget, n))
  }

  /** A run of `n + 1` writes is its first write and then a run of `n`. */
  lemma TakenStep(b: Option<nat>, n: nat)
    ensures Taken(b, n + 1) == if b == Some(0) then 0 else 1 + Taken(Left(b, 1), n)
    ensures Left(b, n + 1) == if b == Some(0) then b else Left(Left(b, 1), n)
  {
  }

  /** An `io.Writer`: a write appends to `out` while the budget lasts, and fails once it is spent. */
  class Writer {
    var out: string
    var budget: Option<nat>

    constructor (budget: Option<nat>)
      ensures out == [] && this.budget == budget
    {
      out := [];
      this.budget := budget;
    }

    method Write(p: string) returns (err: bool)
      modifies this
      ensures err <==> old(budget) == Some(0)
      ensures out == if err then old(out) else old(out) + p
      ensures budget == Left(old(budget), 1)
    {
      if budget == Some(0) {
        err := true;
      } else {
        out := out + p;
        if budget.Some? {
          budget := Some(budget.value - 1);
        }
        err := false;
      }
    }
  }

  /**
   * `EscapeTo`: one write per rune.  The writer holds the escaped form of
   * the runes whose writes succeeded; on a failed write the count is 0.
   */
  method EscapeTo(s: string, w: Writer) returns (numEsc: int, err: bool)
    modifies w
    ensures var k := Taken(old(w.budget), |s|);
      w.out == old(w.out) + Escape(s[..k]) && (err <==> k < |s|)
    ensures w.budget == Left(old(w.budget), |s|)
    ensures numEsc == if err then 0 else EscCount(s)
  {
    var res := 0;
    for i := 0 to |s|
      invariant w.out == old(w.out) + Escape(s[..i])
      invariant old(w.budget).None? || i <= old(w.budget).value
      invariant w.budget == Left(old(w.budget), i)
      invariant res == EscCount(s[..i])
    {
      var e := w.Write(EscRune(s[i]));
      if e {
        assert old(w.budget) == Some(i);
        return 0, true;
      }
      EscapeSnoc(s, i);
      if s[i] == '"' || s[i] == '\\' {
        res := res + 1;
      }
    }
    assert s[..|s|] == s;
    return res, false;
  }

  /** What `QuoteTo` leaves behind when `k` of its writes succeed. */
  function QuotePartial(s: string, k: nat): string
  {
    if k == 0 then []
    else if k <= |s| + 1 then "\"" + Escape(s[..k - 1])
    else Quoted(s)
  }

  /** A `QuoteTo` cut short has written a prefix of the quoted form. */
  lemma QuotePartialPrefix(s: string, k: nat)
    ensures QuotePartial(s, k) <= Quoted(s)
    ensures k >= |s| + 2 ==> QuotePartial(s, k) == Quoted(s)
  {
    if 0 < k <= |s| + 1 {
      assert s == s[..k - 1] + s[k - 1..];
      EscapeConcat(s[..k - 1], s[k - 1..]);
      assert Quoted(s) == "\"" + Escape(s[..k - 1]) + (Escape(s[k - 1..]) + "\"");
    }
  }

  /** `QuoteTo`: the opening quote, `EscapeTo`, the closing quote; the first failed write ends it. */
  method QuoteTo(s: string, w: Writer) returns (err: bool)
    modifies w
    ensures var k := Taken(old(w.budget), |s| + 2);
      w.out == old(w.out) + QuotePartial(s, k) && (err <==> k < |s| + 2)
    ensures w.budget == Left(old(w.budget), |s| + 2)
  {
    ghost var b := w.budget;
    ghost var out0 := w.out;
    TakenStep(b, |s| + 1);
    err := w.Write("\"");
    if err {
      return;
    }
    ghost var b1 := w.budget;
    ghost var out1 := w.out;
    var _, e := EscapeTo(s, w);
    ghost var k1 := Taken(b1, |s|);
    if e {
      assert Taken(b1, |s| + 1) == k1;
      assert Taken(b, |s| + 2) == 1 + k1;
      assert w.out == out0 + ("\"" + Escape(s[..k1]));
      return true;
    }
    assert s[..|s|] == s;
    assert w.out == out0 + ("\"" + Escape(s));
    err := w.Write("\"");
    if err {
      assert Taken(b, |s| + 2) == |s| + 1;
    } else {
      assert Taken(b, |s| + 2) == |s| + 2;
      assert w.out == out0 + Quoted(s);
    }
  }

  /** `CondQuoteTo`: `QuoteTo` if the atom needs quotes, else one write of the atom. */
  method CondQuoteTo(s: string, w: Writer) returns (quoted: bool, err: bool)
    modifies w
    ensures quoted == NeedQuote(s)
    ensures quoted ==> var k := Taken(old(w.budget), |s| + 2);
      w.out == old(w.out) + QuotePartial(s, k) && (err <==> k < |s| + 2) && w.budget == Left(old(w.budget), |s| + 2)
    ensures !quoted ==> var k := Taken(old(w.budget), 1);
      w.out == old(w.out) + (if k == 1 then s else []) && (err <==> k == 0) && w.budget == Left(old(w.budget), 1)
  {
    if NeedQuote(s) {
      err := QuoteTo(s, w);
      quoted := true;
    } else {
      err := w.Write(s);
      quoted := false;
    }
  }
}
