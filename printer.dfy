// The printer protocol (printer.go, and `Printer`, `QuoteMode` and `Print`
// of write.go): the calls a printer accepts, `closingRune`, how an atom is
// written (`printAtom`) and `Print`, which turns a list of items into
// printer calls.
//
// A printer is modelled by its state and a step function from a state and
// a call to the next state and an error; the printers of pcompact.go,
// pnewline.go and ppretty.go each provide one.
module Printer {
  import opened Common
  import opened Write
  import Sp = ScanSpec
  import Pr = ScanProps

  /** `QuoteMode`; any other value behaves like `Qcond`. */
  const Qcond: int := 0
  const Qforce: int := 1
  const QSUPPRESS: int := 2

  /** `MetaStr`: the meta prefix. */
  const MetaStr: string := "\\"

  /** One call on a `Printer`. */
  datatype Call =
    | Begin(bracket: char, meta: bool)
    | End
    | Atom(text: string, meta: bool, quote: int)
    | Newline(count: int, indent: int)

  /** The errors the printers return, and the panic of an unguarded `End` on an empty stack. */
  datatype PrintError = IllegalBracket(bracket: char) | NothingToEnd | EmptyNest

  /** The rune `0`, which `closingRune` returns for anything but an opening bracket. */
  const NoRune: char := 0 as char

  /** `closingRune`: the rune cut down to its low byte, then `closing`. */
  function ClosingRune(open: char): (c: char)
    ensures c == ')' || c == ']' || c == '}' || c == NoRune
    ensures c != NoRune <==> Sp.IsOpen((open as int % 256) as byte)
    ensures (c == ')' <==> open as int % 256 == 40) && (c == ']' <==> open as int % 256 == 91) &&
            (c == '}' <==> open as int % 256 == 123)
  {
    CharOf(Sp.Closing((open as int % 256) as byte))
  }

  /** Only the low byte counts: U+0128 closes like `(`. */
  lemma ClosingRuneTruncates()
    ensures ClosingRune('(') == ')' && ClosingRune('[') == ']' && ClosingRune('{') == '}'
    ensures ClosingRune(0x128 as char) == ')' && ClosingRune('a') == NoRune
  {
  }

  /** The byte a rune is cut down to by Go's `byte(r)` conversion. */
  function LowByte(r: char): (b: byte)
    ensures b as int == r as int % 256
  {
    (r as int % 256) as byte
  }

  /** `n` copies of `unit`; none when `n <= 0`, as a counting loop from 0 to `n` does not start. */
  function Repeat(unit: string, n: int): (r: string)
    ensures |r| == (if n > 0 then n * |unit| else 0)
    decreases n
  {
    if n <= 0 then "" else Repeat(unit, n - 1) + unit
  }

  /** What `printAtom` writes: the meta prefix if `meta`, then the atom as `quote` asks. */
  function AtomText(atom: string, meta: bool, quote: int): string
  {
    (if meta then MetaStr else "") +
    (if quote == Qforce then Quoted(atom)
     else if quote == QSUPPRESS then atom
     else CondQuoted(atom).0)
  }

  /** Whether the atom `AtomText` writes is quoted. */
  predicate WritesQuoted(atom: string, quote: int)
  {
    quote == Qforce || (quote != QSUPPRESS && NeedQuote(atom))
  }

  /** A word of lower-case letters (the examples' atoms). */
  predicate IsWord(s: string)
  {
    s != [] && forall i :: 0 <= i < |s| ==> 'a' <= s[i] <= 'z'
  }

  /** A word is written as it is unless quoting is forced, and then between quotes and unescaped. */
  lemma WordText(s: string, meta: bool)
    requires IsWord(s)
    ensures AtomText(s, meta, Qcond) == (if meta then MetaStr else "") + s
    ensures AtomText(s, meta, Qforce) == (if meta then MetaStr else "") + "\"" + s + "\""
  {
    WordIsPlain(s);
    assert CondQuoted(s).0 == s;
    assert Quoted(s) == "\"" + s + "\"";
  }

  /** A word holds no trigger and nothing to escape. */
  lemma WordIsPlain(s: string)
    requires IsWord(s)
    ensures !NeedQuote(s) && Escape(s) == s
  {
    NeedQuoteIff(s);
    assert forall i :: 0 <= i < |s| ==> !QuoteTrigger(s[i]) && !Escaped(s[i]);
    EscapeNothing(s);
  }

  /** A mode other than the three behaves like `Qcond`. */
  lemma UnknownModeIsCond(atom: string, meta: bool, quote: int)
    requires quote != Qcond && quote != Qforce && quote != QSUPPRESS
    ensures AtomText(atom, meta, quote) == AtomText(atom, meta, Qcond)
  {
  }

  /** The meta prefix, if any, then a quoted atom: read back as that atom with its meta flag. */
  lemma PrefixedQuotedReads(s: string, meta: bool)
    ensures var text := Utf8((if meta then MetaStr else "") + Quoted(s));
      Sp.ScanString(Sp.Initial, text) ==
        Sp.Outcome(Sp.State(|text|, Sp.Initial.core), [Sp.Atom(meta, Utf8(s), true)], None)
  {
    if meta {
      MetaQuotedReads(s);
    } else {
      assert "" + Quoted(s) == Quoted(s);
      QuotedSkip(s);
      Pr.ScanQuotedAtom(Utf8(Quoted(s)));
    }
  }

  lemma MetaQuotedReads(s: string)
    ensures var text := Utf8(MetaStr + Quoted(s));
      Sp.ScanString(Sp.Initial, text) ==
        Sp.Outcome(Sp.State(|text|, Sp.Initial.core), [Sp.Atom(true, Utf8(s), true)], None)
  {
    QuotedSkip(s);
    var body := Quoted(s);
    Utf8Concat(MetaStr, body);
    assert Utf8(MetaStr) == [BACKSLASH];
    Pr.ScanMetaQuotedAtom(Utf8(body));
  }

  /**
   * The meta prefix, if any, then a bare atom with no trigger, no closer and
   * no rune holding a space byte: read back as that atom with its meta flag.
   */
  lemma PrefixedBareReads(s: string, meta: bool)
    requires s != []
    requires forall i :: 0 <= i < |s| ==> !QuoteTrigger(s[i]) && !IsCloser(s[i]) && !SpaceByteIn(s[i])
    ensures var text := Utf8((if meta then MetaStr else "") + s);
      Sp.ScanString(Sp.Initial, text) ==
        Sp.Outcome(Sp.State(|text|, Sp.Initial.core), [Sp.Atom(meta, Utf8(s), false)], None)
  {
    NoDelimiter(s);
    if meta {
      Utf8Concat(MetaStr, s);
      assert Utf8(MetaStr) == [BACKSLASH];
      Pr.ScanMetaBareAtom(Utf8(s));
    } else {
      assert "" + s == s;
      Pr.ScanBareAtom(Utf8(s));
    }
  }

  /**
   * The bytes `printAtom` writes read back, through the scanner, as the atom
   * with its meta flag, quoted as `WritesQuoted` says: unless quoting is
   * suppressed, and, when it is conditional, provided the atom holds no
   * closing bracket and no rune whose encoding holds a space byte.
   */
  lemma AtomTextReads(atom: string, meta: bool, quote: int)
    requires quote != QSUPPRESS
    requires quote != Qforce ==> forall i :: 0 <= i < |atom| ==> !IsCloser(atom[i]) && !SpaceByteIn(atom[i])
    ensures var text := Utf8(AtomText(atom, meta, quote));
      Sp.ScanString(Sp.Initial, text) ==
        Sp.Outcome(Sp.State(|text|, Sp.Initial.core), [Sp.Atom(meta, Utf8(atom), WritesQuoted(atom, quote))], None)
  {
    if WritesQuoted(atom, quote) {
      assert AtomText(atom, meta, quote) == (if meta then MetaStr else "") + Quoted(atom);
      PrefixedQuotedReads(atom, meta);
    } else {
      NeedQuoteIff(atom);
      assert AtomText(atom, meta, quote) == (if meta then MetaStr else "") + atom;
      PrefixedBareReads(atom, meta);
    }
  }

  /**
   * The items `Print` accepts: `Nl`, `B`, `Bm`, `End`, a string, a number
   * or boolean (with the text `fmt.Sprint` gives it) and any other value
   * (likewise).
   */
  datatype Item =
    | Nl(count: int, indent: int)
    | B(r: char)
    | Bm(r: char)
    | EndItem
    | Str(s: string)
    | Scalar(text: string)
    | Other(text: string)

  /** The printer call `Print` makes for one item. */
  function ItemCall(it: Item): Call
  {
    match it
    case Nl(n, d) => Newline(n, d)
    case B(r) => Begin(r, false)
    case Bm(r) => Begin(r, true)
    case EndItem => End
    case Str(s) => Atom(s, false, Qcond)
    case Scalar(text) => Atom(text, false, QSUPPRESS)
    case Other(text) => Atom(text, false, Qcond)
  }

  /**
   * `Print` on a printer whose calls are `step`: the items are handed over
   * in order until one fails.  The result is the printer, the number of
   * items handed over and the error, if any.
   */
  function Print<S>(step: (S, Call) -> (S, Option<PrintError>), p: S, items: seq<Item>): (r: (S, nat, Option<PrintError>))
    ensures r.1 <= |items| && (r.2.None? ==> r.1 == |items|) && (r.2.Some? ==> r.1 > 0)
  {
    if items == [] then (p, 0, None)
    else
      var (p1, err) := step(p, ItemCall(items[0]));
      if err.Some? then (p1, 1, err)
      else var (p2, n, err2) := Print(step, p1, items[1..]); (p2, n + 1, err2)
  }

  /** Printing `a + b` is printing `a` and then, unless that failed, printing `b`. */
  lemma {:induction false} PrintConcat<S>(step: (S, Call) -> (S, Option<PrintError>), p: S, a: seq<Item>, b: seq<Item>)
    ensures var ra := Print(step, p, a);
      Print(step, p, a + b) ==
        if ra.2.Some? then ra
        else var rb := Print(step, ra.0, b); (rb.0, |a| + rb.1, rb.2)
    decreases |a|
  {
    if a == [] {
      assert a + b == b;
    } else {
      assert (a + b)[0] == a[0];
      assert (a + b)[1..] == a[1..] + b;
      PrintConcat(step, step(p, ItemCall(a[0])).0, a[1..], b);
    }
  }

  /** `Print` stops at the first failing call: the items before it all succeeded. */
  lemma PrintStopsAtFirstError<S>(step: (S, Call) -> (S, Option<PrintError>), p: S, items: seq<Item>)
    ensures var (q, n, err) := Print(step, p, items);
      err.Some? ==>
        var before := Print(step, p, items[..n - 1]);
        before.2.None? && step(before.0, ItemCall(items[n - 1])) == (q, err)
  {
    var (q, n, err) := Print(step, p, items);
    if err.Some? {
      PrintFails(step, p, items);
    }
  }

  lemma {:induction false} PrintFails<S>(step: (S, Call) -> (S, Option<PrintError>), p: S, items: seq<Item>)
    requires Print(step, p, items).2.Some?
    ensures var (q, n, err) := Print(step, p, items);
      var before := Print(step, p, items[..n - 1]);
      before.2.None? && step(before.0, ItemCall(items[n - 1])) == (q, err)
    decreases |items|
  {
    var (q, n, err) := Print(step, p, items);
    var (p1, e1) := step(p, ItemCall(items[0]));
    if e1.Some? {
      assert items[..n - 1] == [];
    } else {
      PrintFails(step, p1, items[1..]);
      var m := Print(step, p1, items[1..]).1;
      assert items[1..][..m - 1] == items[1..n - 1];
      assert items[..n - 1][1..] == items[1..n - 1];
      assert items[..n - 1][0] == items[0];
      assert items[1..][m - 1] == items[n - 1];
    }
  }
}
