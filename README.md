# XSX in Dafny

A verified model of the core of XSX (fractalqb/xsx): a Go library for
S-expressions, extended with *meta* marks. A backslash before an atom or a
bracket marks it meta, as in `\foo` or `\(`. XSX has three brackets, `(`,
`[` and `{`; atoms are bare words or quoted strings with `\` escapes.

The model follows the packages module by module:

- **Scanner** (`scanner.go`). A resumable state machine over byte chunks.
  It reports `Begin`, `End` and `Atom` through callbacks; the model logs
  them as an event sequence.
  - `ScanSpec` holds the pure reference definitions.
  - `Scanning.Scanner` is the scanner as a class. Its fields are the
    position, the pending meta flag, the nesting stack, the partial atom
    and its mode. Each method is proved against `ScanSpec`.
  - `ScanSplit` and `Unquote` state what splitting the input into chunks
    preserves, and where the code breaks that.
  - `ScanProps` holds the scanner's documented behaviour and the examples
    of its tests.
- **Pull parser** (`pull.go`).
  - `Pull` holds the two-slot token queue, fed by the scanner one byte at
    a time, as pure functions over `PullState`. It also holds the
    `PullParser` class whose methods are proved against them, and `SkipMeta`
    with the `Next*`/`Expect*` checks.
  - `PullExamples` holds the test examples.
- **Writing** (`write.go`, `printer.go`).
  - `Write`: escaping and quoting as functions on strings, and the
    rune-by-rune writers over a `Writer` that may fail.
  - `Printer`: the dispatcher `Print` and `printAtom`.
- **Printers**, each a class with its state as fields and every method
  proved against a step function: `Compact` (`pcompact.go`), `Indenting`
  (`pnewline.go`) and `Pretty` (`ppretty.go`).
- **General model** (`gem/`).
  - `Gem`: the flag word, with the brace tables as written and corrected.
  - `GemParse`: the tree builder fed by scanner events.
  - `GemPrint`: the recursive printer.
  - `GemPull` and `GemPullExamples`: the reader over pull tokens.
- **Tables** (`table/`). `Table` and `TableExamples`: column definitions
  and rows read over pull tokens.

Bytes are the unit of input throughout, as they are in the scanner. A Go
string is a sequence of runes (`char`). What a writer emits is the UTF-8
encoding of its runes (`Common.Utf8`), so the read-back lemmas scan those
bytes. Text the scanner hands over becomes one rune per byte
(`Common.Chars`). Go panics are error values in the model.

## Model

| member | source | states |
|---|---|---|
| Common.Utf8Rune | write.go:28 | the bytes `[]byte(string(c))` gives a rune: one byte for ASCII, otherwise two to four bytes all with the high bit set, a lead byte of at least 0xC0 and continuation bytes |
| Common.Utf8RuneValue | write.go:28 | decoding the bytes written for a rune gives back the rune |
| Common.Utf8Concat | write.go:76 | the bytes of a string are the bytes of its parts, one after the other |
| Write.NeedQuote | write.go:36-52 | definition: the empty atom and any atom holding a trigger rune (quote, backslash, opening bracket, white space) need quotes; `Write.NeedQuoteIff` states it as an if-and-only-if |
| Write.Escape | write.go:13-34 | definition: every `"` and `\` gets a backslash in front, rune by rune |
| Write.Quoted | write.go:54-69 | definition: the escaped text between two quotes |
| Write.QuotePartial | write.go:54-63 | definition: what `QuoteTo` has written after `k` successful writes: nothing, the opening quote and an escaped prefix, or the whole quoted form |
| Write.Writer.Write | write.go:54-63 | a write fails exactly when the budget is spent, and otherwise appends its bytes; the budget goes down by one |
| Write.NeedQuoteIff | write.go:36-52 | `NeedQuote` answers true exactly for the empty atom and for an atom that holds `"`, `\`, an opening bracket, a space, a tab or another Unicode space rune (both directions) |
| Write.HasTriggerIff | write.go:40-50 | the rune loop of `NeedQuote` finds a trigger exactly when some rune of the atom is one |
| Write.ClosersNeedNoQuote | write.go:42 | the opening brackets force quotes, the closing brackets do not |
| Write.EscapeConcat | write.go:13-34 | escaping works rune by rune: it distributes over concatenation, and so does the count of escapes |
| Write.EscapeNothing | write.go:16-31 | a string without `"` and `\` escapes to itself |
| Write.EscapeLength | write.go:13-34 | the escaped form is longer by exactly the number of escapes and stays within one byte per rune |
| Write.EscRuneRead | write.go:16-31 | what `EscapeTo` writes for one rune is read by the quoted-atom reader as exactly that rune's UTF-8 bytes, with the atom left open |
| Write.EscapeReads | write.go:13-34 | for every atom: the UTF-8 bytes of the escaped form, followed by a quote, are read by the scanner's quoted-atom reader back to the atom's UTF-8 bytes, ending at that quote |
| Write.QuotedBytes | write.go:54-69 | the bytes of `Quoted` are a quote, the bytes of the escaped atom, and a quote |
| Write.QuotedSkip | write.go:54-69 | for every atom, the quoted-atom reader stops at the last quote of the bytes of the quoted form and yields the atom's bytes |
| Write.QuotedScans | write.go:65-69 | for every atom, scanning the bytes of the quoted form gives exactly one quoted atom with the atom's bytes, no error, all input consumed |
| Write.CondQuoted | write.go:81-87 | the flag is `NeedQuote` of the atom; the text is the quoted form when quoted and the atom itself otherwise |
| Write.CondQuotedReads | write.go:81-87 | as written: for an atom with no closing bracket and no rune whose UTF-8 encoding holds the byte 0x85 or 0xA0, scanning the bytes `CondQuoted` wrote gives back exactly that atom, quoted as the flag says |
| Write.CondQuotedSplitsCloser | write.go:42 | as written: `a)` is left bare, and scanning it gives the atom `a` and then an error on the unmatched `)` |
| Write.CondQuotedSplitsRune | write.go:36-52 | as written: `à` (U+00E0) needs no quotes, its bytes are C3 A0, and scanning them gives the one-byte atom C3, because the scanner takes A0 for whitespace (scanner.go:197) |
| Write.CondQuotedStrict | write.go:81-87 | corrected `CondQuoted` that also quotes atoms holding a closing bracket or a rune whose encoding holds 0x85 or 0xA0: flag and text as for `CondQuoted` |
| Write.CondQuotedStrictReads | write.go:81-87 | round trip for every atom: scanning the UTF-8 bytes of the corrected output gives back exactly that atom's bytes, quoted as the flag says |
| Write.EscapeTo | write.go:13-34 | with a writer that fails after k writes: the output grows by the escaped first k runes, the error is set exactly when a write failed, and the escape count is returned (0 on error) |
| Write.QuotePartialPrefix | write.go:54-63 | whatever a cut-short `QuoteTo` wrote is a prefix of the quoted form, and a run with no failed write writes all of it |
| Write.QuoteTo | write.go:54-63 | opening quote, escaped runes, closing quote, one write each; the output is the part written before the first failure, and the error is set exactly when a write failed |
| Write.CondQuoteTo | write.go:71-79 | `quoted` is `NeedQuote`; a quoted atom is written as `QuoteTo` writes it, otherwise the atom is written in one write, or nothing if that write fails |
| Printer.AtomText | printer.go:18-36 | definition: the meta prefix if `meta`, then the atom quoted (`Qforce`), raw (`QSUPPRESS`) or quoted only when needed (`Qcond` and any other mode) |
| Printer.ItemCall | write.go:118-154 | definition: the printer call `Print` makes for one item: `Newline`, `Begin` without or with meta, `End`, a string atom (`Qcond`), a number or boolean unquoted (`QSUPPRESS`), anything else formatted and quoted when needed |
| Printer.ClosingRune | printer.go:14-16 | the rune is cut to its low byte; the result is `)`, `]` or `}` exactly for a low byte of `(`, `[` or `{`, else rune 0 |
| Printer.ClosingRuneTruncates | printer.go:14-16 | `closingRune` closes the three brackets, U+0128 closes like `(`, and a letter gets rune 0 |
| Printer.WordText | printer.go:18-36 | a word of letters is written as it is in `Qcond` mode and between quotes in `Qforce` mode, after the meta prefix if meta |
| Printer.UnknownModeIsCond | printer.go:32-33 | a quote mode other than the three named ones behaves like `Qcond` |
| Printer.PrefixedQuotedReads | printer.go:18-29 | for every atom, the bytes of the meta prefix, if any, then of the quoted atom: the scanner reads back that atom's bytes with its meta flag, quoted |
| Printer.PrefixedBareReads | printer.go:18-27 | the bytes of the meta prefix, if any, then of a non-empty bare atom with no trigger, no closer and no rune whose encoding holds 0x85 or 0xA0: read back as that atom, with its meta flag, not quoted |
| Printer.AtomTextReads | printer.go:18-36 | round trip of `printAtom` over the bytes it writes: unless quoting is suppressed (and, in conditional mode, for atoms with no closer and no rune whose encoding holds 0x85 or 0xA0) the scanner reads back exactly the atom, its meta flag and whether it was quoted |
| Printer.Print | write.go:118-155 | `Print` hands the items over in order and stops at the first failing call: the count never exceeds the items, all are handed over on success, and at least one on failure |
| Printer.PrintConcat | write.go:118-155 | printing `a + b` is printing `a` and then, unless that failed, printing `b` on the resulting printer |
| Printer.PrintStopsAtFirstError | write.go:118-155 | on failure, every item before the failing one was handed over without error, and the failing item's call produced the result |
| Printer.PrintFails | write.go:118-155 | the same, under the premise that `Print` failed |
| Compact.BeginStep | pcompact.go:20-47 | `sep` is cleared; it succeeds exactly for `(`, `[`, `{` and pushes the matching closer; the meta prefix is written even when the bracket is refused; an illegal bracket leaves the stack unchanged and reports it |
| Compact.EndStep | pcompact.go:49-58 | `sep` is cleared; it fails exactly on an empty stack ("nothing to end"), else pops the last closer and writes it |
| Compact.AtomStep | pcompact.go:60-68 | a space goes first exactly when an atom came before, then `printAtom`'s text; `sep` is set; the stack is unchanged |
| Compact.StepInvariant | pcompact.go:20-72 | every call keeps the stack made of closers and only appends to the output; the depth changes by one exactly on a successful `Begin` or `End` |
| Compact.RunInvariant | pcompact.go:20-72 | any sequence of calls keeps the state valid and only appends to the output |
| Compact.CompactPrinter.constructor | pcompact.go:15-18 | a new printer has an empty stack, no separator pending and no output |
| Compact.CompactPrinter.Begin | pcompact.go:20-47 | the new fields and the error are those of `BeginStep` |
| Compact.CompactPrinter.End | pcompact.go:49-58 | the new fields and the error are those of `EndStep` |
| Compact.CompactPrinter.Atom | pcompact.go:60-68 | the new fields and the error are those of `AtomStep` |
| Compact.CompactPrinter.Newline | pcompact.go:70-72 | does nothing and succeeds |
| Compact.ExampleBracketSteps | pcompact_test.go:9-16 | the bracket calls of the compact-printer example, one state at a time |
| Compact.ExampleFooStep | pcompact_test.go:10 | the atom `foo` after `(` is written bare without a space |
| Compact.ExampleBarStep | pcompact_test.go:12 | `bar` in `Qforce` mode after `\{` is written quoted without a space |
| Compact.ExampleBazStep | pcompact_test.go:13 | the meta atom `baz` after an atom is written as ` \baz` |
| Compact.ExampleQuuxStep | pcompact_test.go:15 | the meta atom `quux` in `Qforce` mode after `}` is written as `\"quux"` |
| Compact.ExampleCompact | pcompact_test.go:7-19 | the example's calls on a fresh printer print `(foo\{"bar" \baz}\"quux")` |
| Indenting.BeginStep | pnewline.go:36-60 | definition: pending indentation, then the pending separator (which is cleared), the meta prefix, and the bracket's low byte if it is an opening bracket, whose closer is pushed; any other bracket is `IllegalBracket` with the stack unchanged |
| Indenting.EndStep | pnewline.go:62-71 | definition: pending indentation, then the top closer is popped and written and a separator becomes pending; with nothing open, `EmptyNest` after the indentation |
| Indenting.AtomStep | pnewline.go:73-85 | definition: pending indentation, the pending separator, the atom as `printAtom` writes it; a separator is pending afterwards |
| Indenting.NewlineStep | pnewline.go:87-98 | definition: `count` line breaks, the indentation level moved by `indent`, indentation pending and no separator |
| Indenting.DoIndentStep | pnewline.go:24-34 | the pending indentation (the indent unit `indlvl` times, or nothing if none is pending) is written once and is no longer pending; nothing else changes |
| Indenting.StepInvariant | pnewline.go:36-98 | every call keeps the stack made of closers and the indent unit, only appends to the output, changes the depth by one exactly on a successful `Begin` or `End`, and changes the level only on `Newline`, by its argument |
| Indenting.BeginAccepts | pnewline.go:51-58 | `Begin` succeeds exactly when the rune's low byte is an opening bracket; it then writes that byte and owes its closer, else it reports the illegal bracket with the stack unchanged |
| Indenting.BeginTruncates | pnewline.go:51-55 | U+0128 is written as `(` and closed by `)` |
| Indenting.EndOnEmpty | pnewline.go:62-67 | `End` with nothing open writes the pending indentation and then fails (a Go index panic in the source) |
| Indenting.IndentOnce | pnewline.go:24-34 | every call but `Newline` writes the pending indentation first and leaves none pending |
| Indenting.NoPendingIndent | pnewline.go:24-34 | with no indentation pending, what a call writes depends neither on the level nor on the indent unit |
| Indenting.SepPendingAfter | pnewline.go:40-45 | after a successful call a separator is pending exactly when the call was an `Atom` or an `End` |
| Indenting.AtomSep | pnewline.go:73-85 | `Atom` writes the pending separator, then the atom's text |
| Indenting.BeginSep | pnewline.go:36-60 | `Begin` writes the pending separator, then the meta prefix and the accepted bracket |
| Indenting.SepWritten | pnewline.go:36-85 | `Atom` and `Begin` write the pending separator and then what they would write with none pending |
| Indenting.Separators | pnewline.go:36-98 | one space goes between two atoms and between an `End` and a following `Atom` or `Begin`, and nowhere else |
| Indenting.EndWritesCloser | pnewline.go:62-71 | `End` writes the pending indentation and then the closer, never a separator |
| Indenting.NewlineThenAtom | pnewline.go:87-98 | `Newline(count, d)` then an atom writes `count` line breaks, the indentation of the new level, and the atom with no separator |
| Indenting.RunInvariant | pnewline.go:36-98 | any sequence of calls keeps the state valid and the indent unit, and only appends to the output |
| Indenting.ExampleOpenStep | write_test.go:40 | `B('(')` on a fresh printer writes `(` |
| Indenting.ExampleFooStep | write_test.go:40 | `"foo"` after `(` is written without a separator |
| Indenting.ExampleBreakStep | write_test.go:40 | `Nl{1, 1}` writes one line break and raises the level |
| Indenting.ExampleMetaOpenStep | write_test.go:40 | `Bm('{')` writes the indentation, then `\{` |
| Indenting.ExampleBarStep | write_test.go:40 | `"bar"` after `\{` is written without a separator |
| Indenting.ExampleNumberStep | write_test.go:40 | the number 4711 is written after one space, unquoted |
| Indenting.ExampleCloseStep | write_test.go:40 | `End` writes `}` with no separator |
| Indenting.ExampleUnbreakStep | write_test.go:40 | `Nl{1, -1}` writes a line break and lowers the level |
| Indenting.ExampleCloseLastStep | write_test.go:40 | the last `End` writes `)` at level 0 |
| Indenting.ExamplePrintTail | write_test.go:40 | `Print` of the items from `"bar"` on finishes the example |
| Indenting.ExamplePrint | write_test.go:38-45 | `Print` of the example items on a two-space `Indenting` printer writes the three lines of the expected output and hands over all nine items |
| Indenting.IndentingPrinter.constructor | pnewline.go:17-22 | a new printer has the given indent unit, an empty stack, level 0, nothing pending, no output |
| Indenting.IndentingPrinter.DoIndent | pnewline.go:24-34 | the loop writes the indent unit `indlvl` times when indentation is pending; the new fields are those of `DoIndentStep` |
| Indenting.IndentingPrinter.Begin | pnewline.go:36-60 | the new fields and the error are those of `BeginStep` |
| Indenting.IndentingPrinter.End | pnewline.go:62-71 | the new fields and the error are those of `EndStep` |
| Indenting.IndentingPrinter.Atom | pnewline.go:73-85 | the new fields and the error are those of `AtomStep` |
| Indenting.IndentingPrinter.Newline | pnewline.go:87-98 | the loop writes `count` line breaks; the new fields are those of `NewlineStep` |
| Pretty.BeginStep | ppretty.go:35-50 | definition: a line with the margin, the meta prefix and the bracket, unchecked; one level deeper, owing the bracket's closing rune |
| Pretty.EndStep | ppretty.go:52-65 | definition: with nothing owed, "nothing to end" and no change; otherwise one level up and a line with the margin and the owed closer |
| Pretty.AtomStep | ppretty.go:67-78 | definition: a line with the margin and the atom as `printAtom` writes it |
| Pretty.FreshValid | ppretty.go:17-23 | a new printer is at level 0 with nothing owed and nothing written |
| Pretty.StepInvariant | ppretty.go:35-80 | every call keeps the level equal to the number of closers owed and keeps the indent unit, only appends to the output; `Begin` goes one level deeper, `End` fails ("nothing to end") exactly when nothing is owed and then changes nothing, else goes one level up |
| Pretty.OneLine | ppretty.go:25-78 | every call writes one whole line: `Begin` and `Atom` at the current level, `End` at the level it returns to, holding the meta prefix and bracket, the closer owed last, or the atom |
| Pretty.BeginThenEnd | ppretty.go:35-65 | a `Begin` and the `End` after it write their lines at the same margin, the second holding the closer the first owes, and leave the level and stack as they were |
| Pretty.BeginUnchecked | ppretty.go:46-48 | `Begin` does not check its bracket: `a` is written as it is and owes rune 0 |
| Pretty.PrettyPrinter.constructor | ppretty.go:17-23 | a new printer has the given indent unit, level 0, nothing owed, no output |
| Pretty.PrettyPrinter.Indent | ppretty.go:25-33 | the counting-down loop writes the indent unit `ilvl` times and changes nothing else |
| Pretty.PrettyPrinter.Begin | ppretty.go:35-50 | the new fields and the error are those of `BeginStep` |
| Pretty.PrettyPrinter.End | ppretty.go:52-65 | the new fields and the error are those of `EndStep` |
| Pretty.PrettyPrinter.Atom | ppretty.go:67-78 | the new fields and the error are those of `AtomStep` |
| Pretty.PrettyPrinter.Newline | ppretty.go:80 | does nothing and succeeds |
| Pretty.ExampleOpenStep | ppretty_test.go:9 | `(` on a fresh printer writes the line `(` |
| Pretty.ExampleFooStep | ppretty_test.go:10 | `foo` is written on its own line at level 1 |
| Pretty.ExampleMetaOpenStep | ppretty_test.go:11 | the meta `{` is written as the line `\{` at level 1 |
| Pretty.ExampleBarStep | ppretty_test.go:12 | `bar` in `Qforce` mode is written quoted at level 2 |
| Pretty.ExampleDotsStep | ppretty_test.go:13 | `...` is written bare at level 2 |
| Pretty.ExampleBazStep | ppretty_test.go:14 | the meta atom `baz` is written as `\baz` at level 2 |
| Pretty.ExampleCloseStep | ppretty_test.go:15 | `End` writes `}` at level 1 |
| Pretty.ExampleQuuxStep | ppretty_test.go:16 | the meta atom `quux` in `Qforce` mode is written as `\"quux"` at level 1 |
| Pretty.ExampleCloseLastStep | ppretty_test.go:17 | the last `End` writes `)` at level 0 |
| Pretty.ExamplePretty | ppretty_test.go:7-28 | the example's calls on a fresh printer with a two-space unit write the nine lines of the expected output |
| ScanSpec.Scan | scanner.go:301-440 | definition: an empty chunk with a token pending changes nothing; else `Resume` (token pending) or the scan loop, the position advanced by the bytes consumed, and an error reported at that position |
| ScanSpec.Finish | scanner.go:99-138 | definition: open nesting fails with `NestedFinish`, a pending quoted atom with `UnterminatedQuote`; a pending bare atom is reported, a lone pending meta is reported as the atom `\` |
| ScanSpec.CallEnd | scanner.go:290-299 | definition: a pending meta is flushed as the atom `\`; then the top nesting is popped and must match the closer (`Unnested` with nothing open, `Unbalanced` on a mismatch, the popped entry removed either way) |
| ScanSpec.Reset | scanner.go:142-149 | definition: position 0, meta cleared, nesting and partial token emptied; the head mode is kept |
| ScanSpec.SkipQ | scanner.go:248-282 | definition: the index of the closing quote or -1, the mode at the end, and `qatomBuf`, empty until the first backslash, after which it holds the text with escapes removed |
| ScanSpec.DelimiterBytes | scanner.go:196-209 | the bytes that end a bare atom are exactly the eight space bytes (tab, LF, VT, FF, CR, space, 0x85, 0xA0), the six brackets, `"` and `\`; the space class is exactly the eight space bytes |
| ScanSpec.Closing | scanner.go:172-183 | the result is non-zero exactly for `(`, `[`, `{`, and then it is a closing bracket |
| ScanSpec.SkipSpace | scanner.go:215-236 | the count is at most the length, and the byte after the skipped run is not a space |
| ScanSpec.SpaceFrom | scanner.go:217-223 | the loop of `skipspace` ends at a non-space byte or at the end |
| ScanSpec.SkipU | scanner.go:238-246 | the result is -1 or the index of a byte that ends a bare atom |
| ScanSpec.DelimFrom | scanner.go:239-245 | the loop of `skipUAtom` returns -1 or a delimiter index at or after its start |
| ScanSpec.SkipQFrom | scanner.go:250-281 | `skipQAtom` returns -1 or the index of a closing `"`, found in quote mode, and never the plain mode |
| ScanSpec.EscLoop | scanner.go:254-277 | the escape loop returns -1 or the index of an unescaped `"` in quote mode |
| ScanSpec.PrependTwice | scanner.go:301-440 | reporting events in two steps is reporting their concatenation |
| ScanSpec.Loop | scanner.go:363-438 | the scan loop only moves forward; when it ends without error it has consumed the whole chunk |
| ScanSpec.Step | scanner.go:374-437 | the same for one `switch` case followed by the rest of the loop |
| ScanSpec.Then | scanner.go:374-437 | the same after the events of a case |
| ScanSpec.StepOpen | scanner.go:375-383 | an opening bracket: the same bounds |
| ScanSpec.StepClose | scanner.go:384-392 | a closing bracket: the same bounds |
| ScanSpec.StepQuote | scanner.go:393-415 | a quoted atom: the same bounds |
| ScanSpec.StepMeta | scanner.go:416-423 | a backslash: the same bounds |
| ScanSpec.StepBare | scanner.go:424-436 | a bare atom: the same bounds |
| ScanSpec.Resume | scanner.go:320-361 | continuing a pending token consumes at most the chunk |
| Scanning.SkipSpaceBytes | scanner.go:215-236 | the loop returns `SkipSpace` of the chunk |
| Scanning.SkipUAtom | scanner.go:238-246 | the loop returns `SkipU` of the chunk |
| Scanning.SkipQAtom | scanner.go:248-282 | the two nested loops return the index, mode and buffer of `SkipQ` |
| Scanning.Scanner.constructor | scanner.go:87-93 | a new scanner is in the initial state with no callbacks made |
| Scanning.Scanner.Complete | scanner.go:95-97 | true exactly when no token is pending, no meta is pending and nothing is open |
| Scanning.Scanner.Depth | scanner.go:140 | the number of open brackets |
| Scanning.Scanner.Reset | scanner.go:142-149 | position, meta, nesting and pending token are cleared; the head mode is kept |
| Scanning.Scanner.Push | scanner.go:151-153 | one nesting entry is appended; nothing else changes |
| Scanning.Scanner.Pop | scanner.go:155-169 | with nothing open: an error for the unnested closer; otherwise the top entry is removed even when it does not match, its meta flag is returned, and a mismatch is reported with the expected closer |
| Scanning.Scanner.CallBegin | scanner.go:284-288 | reports the bracket with the pending meta, pushes its closer with that meta, clears meta |
| Scanning.Scanner.CallEnd | scanner.go:290-297 | flushes a pending meta as the atom `\`, pops, and reports the end with the meta of its `Begin`; state, events and error are those of `ScanSpec.CallEnd` |
| Scanning.Scanner.Finish | scanner.go:99-138 | refuses inside a nesting or an open quoted atom, else reports the pending bare token (or a lone pending meta as `\`); new state, events and error are those of `ScanSpec.Finish` |
| Scanning.Scanner.Scan | scanner.go:301-440 | one chunk: new state, appended callbacks and error are those of `ScanSpec.Scan` |
| Scanning.Scanner.ResumeHead | scanner.go:320-361 | the continuation of a pending token agrees with `Resume` |
| Scanning.Scanner.ScanLoop | scanner.go:363-438 | the `for rp < end` loop agrees with `Loop` |
| Scanning.Scanner.LoopBody | scanner.go:364-437 | one pass moves forward or stops, and agrees with `Loop` |
| Scanning.Scanner.Whitespace | scanner.go:364-373 | skips the whitespace run, flushing a lone meta as `\`, and stops when the chunk ends in it |
| Scanning.Scanner.Dispatch | scanner.go:374-437 | the `switch` agrees with `Step` |
| Scanning.Scanner.QuotedAtom | scanner.go:393-415 | the quoted-atom case agrees with `StepQuote` |
| Scanning.Scanner.BareAtom | scanner.go:424-436 | the bare-atom case agrees with `StepBare` |
| ScanSplit.SkipSpaceConcat | scanner.go:215-236 | the whitespace at the front of `x + y` is that of `x`, continued into `y` when `x` is all whitespace |
| ScanSplit.SkipUConcat | scanner.go:238-246 | the end of a bare atom at the front of `x + y` is in `x`, else in `y`, else nowhere |
| ScanSplit.SkipQConcat | scanner.go:248-282 | a quoted atom closed in `x` is read the same whatever follows |
| ScanSplit.EscGrows | scanner.go:256-276 | after a backslash, `qatomBuf` only grows, and gains a byte before the atom can close or the scan can end outside an escape |
| ScanSplit.EscShift | scanner.go:256-276 | the unescaping loop read at a later offset of a longer input, with more already in the buffer, closes at the shifted index with that buffer prefix |
| ScanSplit.EscJoin | scanner.go:256-276 | an unescaping loop that ends inside the quote of `x` goes on into `x + y` from the end of `x` with the buffer and the pending escape it had |
| ScanSplit.SkipQFromBuf | scanner.go:248-282 | a quoted atom left with an escape pending holds in `qatomBuf` at least every byte before the point the scan started from |
| ScanSplit.EscPendingBuf | scanner.go:248-282 | a quoted atom left with an escape pending and an empty `qatomBuf` was the lone backslash |
| ScanSplit.QuoteJoinPending | scanner.go:248-282 | a quoted atom of `x` left with an escape pending, closed in `b` after the escaped byte `b[0]`: in `x + b` it closes at the same place, and its text is the buffer held after `x`, then `b[0]`, then the text read from the rest of `b` |
| ScanSplit.EscPendingJoin | scanner.go:256-276 | the same, from the first backslash of the quote in `x` |
| ScanSplit.EscPendingTail | scanner.go:256-276 | an unescaping loop with an escape pending at the end of `x` takes `b[0]` and then reads the rest of `b` up to its quote |
| ScanSplit.EscShiftStart | scanner.go:256-276 | the unescaping loop read from the start of `b` at a later offset of `p + b` closes at the shifted index, its buffer after what was held |
| ScanSplit.EscFromStart | scanner.go:248-282 | a quoted atom that closes, read by the unescaping loop from its start with nothing held, leaves exactly its text (`QText`) |
| ScanSplit.SkipAsEsc | scanner.go:248-282 | a quoted atom that closes, scanned while every byte is being copied, leaves exactly its text (`QText`) after the copied prefix |
| ScanSplit.SkipShift | scanner.go:248-282 | a quoted atom closing in `b`, read after `x`, closes at the shifted index, with `x` in front of a non-empty buffer |
| ScanSplit.QuoteJoin | scanner.go:248-282 | a quoted atom open at the end of `x` with no escape pending, closed in `b`: in `x + b` it closes at the same place and its text is the text held after `x` followed by the text read from `b` |
| ScanSplit.StepQuotePendingPrefix | scanner.go:336-360 | a quoted atom that runs to the end of `a` and that `b` closes goes on in `a + b` as `Resume` goes on over `b` |
| ScanSplit.StepQuoteEscPrefix | scanner.go:336-360 | a quoted atom that runs to the end of `a` with an escape pending and a held text other than a lone backslash, and that `b` closes after the escaped byte, goes on in `a + b` as `Resume` goes on over `b` |
| ScanSplit.QuoteEscJoined | scanner.go:397-399 | in `a + b`, that atom is reported with the held text, the escaped byte and the text read from the rest of `b`, and scanning goes on after its closing quote |
| ScanSplit.QuoteEscResumedMoved | scanner.go:336-360 | `Resume` over `b`, read at offset `|a|` of `a + b`, reports that same atom and goes on after the same quote |
| ScanSplit.ResumeEscClosed | scanner.go:336-360 | `Resume` of a held text with an escape pending takes the first byte of the chunk, reports the atom where the rest of the chunk closes it, and goes on after the quote with `meta` cleared |
| ScanSplit.LoopMoved | scanner.go:363-438 | the scan loop looks only at the bytes from its position on |
| ScanSplit.LoopPrefix | scanner.go:363-438 | up to the end of `a`, the loop over `a + b` does what the loop over `a` does, then goes on from there |
| ScanSplit.ScanSplit | scanner.go:301-440 | from a state with no pending token, scanning `a` and then `b` gives the events, error and observable state that scanning `a + b` gives, when `a` does not end inside a quoted atom, or ends inside one that `b` closes, with no escape pending or with one pending and a held text other than a lone backslash; when scanning `a` fails, scanning `a + b` fails the same way |
| ScanSplit.FinishView | scanner.go:99-138 | `Finish` depends only on the observable state |
| ScanSplit.SplitThenFinish | scanner_test.go:398-438 | the two-chunk comparison of the tests holds: `Scan(a); Scan(b); Finish` reports what `Scan(a + b); Finish` reports, under the same condition on the boundary as `ScanSplit.ScanSplit` |
| ScanProps.LoopQuotePending | scanner.go:393-405 | a chunk that is one unclosed quoted atom becomes the pending token |
| ScanProps.LoopQuoteClosed | scanner.go:406-415 | a chunk that is one closed quoted atom is reported as that atom |
| ScanProps.ResumeQuotedPending | scanner.go:336-349 | a pending quoted atom that the chunk does not close stays pending with the chunk's text added |
| ScanProps.ResumeQuotedClosedAtEnd | scanner.go:336-360 | a pending quoted atom closed at the chunk's last byte is reported |
| ScanProps.StepAtOpen | scanner.go:375-383 | an opening bracket reports `Begin` with the pending meta and goes on |
| ScanProps.StepAtClose | scanner.go:384-392 | a closing bracket does what `callEnd` does and stops on its error |
| ScanProps.StepAtMeta | scanner.go:416-423 | a backslash sets meta, or, with meta already set, reports the meta atom `\` |
| ScanProps.StepAtBare | scanner.go:424-436 | a bare atom that ends in the chunk is reported with the pending meta, which is then cleared |
| ScanProps.ExampleUnbalanced | scanner_test.go:179-197 | `(}` reports `(`, then fails at position 1 with found `}` and expected `)` |
| ScanProps.ExampleTouchingUnbalanced | scanner_test.go:199-209 | `(foo}` fails at position 4 |
| ScanProps.ExampleCloserAfterAtom | scanner.go:165-168 | `a)` reports the atom `a` and fails at 1 on a closer with nothing open |
| ScanProps.ExampleSplitRune | scanner.go:196-199 | the bytes C3 A0 scan as the bare atom C3: the byte A0 is whitespace to the scanner |
| ScanProps.ExamplePrematureEnd | scanner_test.go:211-221 | `"foo` fails in `Finish` at position 4 as an unterminated quoted atom |
| ScanProps.ExampleMetaBeforeClose | scanner_test.go:267-274 | `(\)` reports `(`, the plain atom `\`, and `)` |
| ScanProps.ExampleDoubledBackslash | scanner.go:416-419 | `\\` reports one meta atom `\` |
| ScanProps.LoopBareWhole | scanner.go:424-430 | a chunk without a delimiter becomes the pending bare token |
| ScanProps.ScanBareAtom | scanner.go:424-430 | an input without a delimiter reads as one bare atom, reported by `Finish` |
| ScanProps.ScanQuotedAtom | scanner.go:393-415 | an input that is one closed quoted atom reads as that atom |
| ScanProps.ScanMetaBareAtom | scanner_test.go:260-265 | `\` then a bare atom reads as that atom with meta set |
| ScanProps.ScanMetaQuotedAtom | scanner.go:416-423 | `\` then a closed quoted atom reads as that atom with meta set |
| ScanProps.SplitInQuoteAgrees | scanner_test.go:398-438 | `"ab` then `c"` reports the single atom `abc`, as the whole input does |
| ScanProps.SplitEscAgrees | scanner_test.go:467-472 | `"a\` then `\b"`, cut inside an escape with `a` held, reports the single atom `a\b`, as the whole input does |
| ScanProps.SplitKeepsBackslash | scanner.go:341-349 | as written: `"\` then `"x"` gives the atom `\"x`, while the whole input gives `"x` and the reference continuation also gives `"x` |
| ScanProps.SplitLosesPosition | scanner.go:341-349 | as written: a quoted atom cut after its first byte leaves the position one short (2, not 3), while the reference counts all bytes |
| ScanProps.SplitRepeatsByte | scanner.go:337-347 | as written: `"a\`, `bc`, `"` gives the atom `abbc`, while the whole input gives `abc` |
| Unquote.QuotedRead | scanner.go:248-282 | the reference reading of a quoted body: -1 or the index of an unescaped `"`, with the unescaped text never longer than the input |
| Unquote.QuotedReadConcat | scanner.go:248-282 | reading `x + y` is reading `x`, then, if `x` did not close the atom, reading `y` on from there |
| Unquote.EscLoopAgrees | scanner.go:254-277 | the escape loop agrees with the reference reading |
| Unquote.SkipQFromAgrees | scanner.go:250-281 | the first loop of `skipQAtom` agrees with the reference reading |
| Unquote.SkipQAgrees | scanner.go:248-282 | `skipQAtom` finds the closing quote and escape state the reference finds, and the text `Scan` takes is the unescaped text, except for a chunk that is a lone backslash |
| Unquote.LoneBackslash | scanner.go:254-277 | a chunk that is one backslash leaves `qatomBuf` empty, so `Scan` keeps the raw backslash |
| Unquote.ReadQuoted | scanner.go:336-360 | corrected continuation of a pending quoted atom: closed only at a `"`, and all bytes are counted when it stays open |
| Unquote.ReadQuotedSplit | scanner.go:336-360 | chunk boundaries do not matter to the corrected continuation: reading `x` then `y` gives the text, escape state and byte count of reading `x + y` |
| Pull.AfterNext | pull.go:89-121 | definition: a queued token is handed out; else the queue is emptied and filled |
| Pull.Fill | pull.go:97-118 | definition: bytes are fed to the scanner until a token is queued; at the end of input `AtEnd`; a scanner error stops the loop with `TokEOI` |
| Pull.Take | pull.go:90-93 | definition: the slot at `tokRd` is handed out and `tokRd` advances |
| Pull.AtEnd | pull.go:100-112 | definition: the scanner is finished, its events queued, then `TokEOI`; the first queued token is handed out with `Finish`'s error; the Go assertion panics are `QueueOverflow` |
| Pull.WasAny | pull.go:178-180 | definition: the tokens of `join` that the last token is (bitwise and) |
| Pull.Start | pull.go:53-87 | a new parser over the input is valid: two empty slots, nothing queued |
| Pull.Kind | pull.go:56-84 | a scanner event is queued as `TokBegin`, `TokEnd` or `TokAtom`, never `TokEOI` |
| Pull.Deliver | pull.go:56-84 | a callback fails (Go's index panic) exactly when the write index is outside the two slots; otherwise it writes the event's token into the slot at the write index, advances that index by one, and leaves the other slot, the read index, the input and the scanner alone |
| Pull.DeliverAll | pull.go:56-84 | the callbacks for a list of events fail exactly when the events do not fit in the slots left; otherwise the k-th event's token is in the k-th slot written |
| Pull.Feed | pull.go:114-116 | feeding consumes exactly one input byte and does not move the read index |
| Pull.LastToken | pull.go:123-128 | no token before the first `Next` |
| Pull.LastBrace | pull.go:130-136 | rune 0 before the first `Next` |
| Pull.WasMeta | pull.go:138-144 | false before the first `Next` |
| Pull.LoopDone | scanner.go:363 | the scan loop at the end of its chunk reports nothing |
| Pull.LoopOneByte | scanner.go:363-438 | one byte through the scan loop reports at most one event, two when a meta is pending |
| Pull.ScanOneByte | scanner.go:301-440 | one byte through `Scan` reports at most two events, whatever the scanner's state |
| Pull.FillSafe | pull.go:95-120 | the loop of `Next` keeps the queue valid, never writes a third slot, returns one of the four tokens, reports only scanner errors, and a token returned without error is what `LastToken` reports |
| Pull.FeedStep | pull.go:97-117 | one byte fed to an empty queue leaves it valid and shortens the input, and the loop goes on from there unless the scanner failed |
| Pull.NextSafe | pull.go:89-121 | `Next` keeps the queue valid and never overflows it (the Go code's "assert failed" panics cannot happen); its only errors are scanner errors; a token returned without error is `LastToken` |
| Pull.TrailingAtomBeforeEOI | pull.go:99-111 | at the end of input a pending bare atom is returned first, with its text, meta flag and no quotes, and `TokEOI` without error after it |
| Pull.EOIInsideBracket | pull.go:99-111 | at the end of input inside an open bracket, `Next` returns `TokEOI` with the scanner's "nested" error at the scanner's position |
| Pull.FillRank | pull.go:95-120 | each token the loop returns short of `TokEOI` lowers a rank measured on unread bytes and queued tokens |
| Pull.NextRank | pull.go:89-121 | a token other than `TokEOI` returned without error lowers the rank, so a token stream always reaches `TokEOI` |
| Pull.FillErrorIsEOI | pull.go:95-120 | the loop returns an error only together with `TokEOI` |
| Pull.NextErrorIsEOI | pull.go:89-121 | `Next` returns an error only together with `TokEOI` |
| Pull.SkipDepth | pull.go:157-171 | the depth loop keeps the parser valid; it fails only with a scanner error or `PullEOI`; success ends on a `TokEnd` and lowers the rank; it also returns the tokens it pulled (`Pulls`) |
| Pull.SkipDepthStops | pull.go:158-171 | success means the pulled tokens `Closes`: none is `TokEOI`, each but the last keeps the depth above 0 and the last is an `End` bringing it to 0; failure means they `RunsOut`: the same, except that the last is the first `TokEOI` |
| Pull.ClosesNotRunsOut | pull.go:158-171 | the two ways the loop stops exclude each other, so `PullEOI` (or a scanner error) comes exactly when `TokEOI` is pulled before the depth returns to 0 |
| Pull.AfterSkipMeta | pull.go:149-176 | nothing happens when the last token is not meta or is a meta atom; the "unreachable code" panic happens exactly for another meta token that is not a `Begin`; after a meta `Begin`, success means the tokens pulled close that `Begin` (`Closes` from depth 1) and failure means they run out first (`RunsOut`); never a queue overflow; the rank never grows |
| Pull.Message | pull.go:190-198 | an `Unexpected` has a message except `PullNoMeta` (a panic in the source) |
| Pull.Pulled | pull.go:208-214 | true exactly when the error is that `Unexpected` value |
| Pull.CheckMeta | pull.go:224-240 | no error exactly when the last token's meta flag satisfies the policy; otherwise `PullNoMeta` for `RequireMeta`, `PullMeta` for `NoMeta`, and the "Illegal ExpectMeta" panic for an unknown policy |
| Pull.ExpectBegin | pull.go:242-254 | `PullEOI` after `TokEOI`; no error exactly when the last token is a `Begin`, its bracket is allowed (an empty allow-string allows all) and the meta policy holds |
| Pull.ExpectEnd | pull.go:264-279 | `PullEOI` after `TokEOI`; `PullMeta` for any other meta-flagged token; no error exactly for an `End` that is not meta-flagged, with an allowed bracket |
| Pull.ExpectAtom | pull.go:289-298 | `PullEOI` and no text after `TokEOI`; no text and an error for another non-atom; for an atom its text together with the meta policy's verdict |
| Pull.AfterNextBegin | pull.go:216-222 | the parser after `Next`; `Next`'s error wins; no error exactly when `Next` succeeded and `ExpectBegin` holds |
| Pull.AfterNextEnd | pull.go:256-262 | the parser after `Next`; `Next`'s error wins; no error exactly when `Next` succeeded with a non-meta `End` whose bracket is allowed |
| Pull.AfterNextAtom | pull.go:281-287 | the parser after `Next`; `Next`'s error wins, with no text; no error exactly for an atom that meets the meta policy, whose text is returned |
| Pull.WasAnyIsMember | pull.go:178-180 | since the last token is a single bit, `WasAny` returns it when the mask holds it and no token otherwise |
| Pull.PullParser.constructor | pull.go:53-87 | the new parser's state is `Start` of its input |
| Pull.PullParser.Callback | pull.go:56-84 | the callback for one event changes the slots and indices as `Deliver` says |
| Pull.PullParser.Callbacks | pull.go:56-84 | the callbacks for one scanner call, in order, as `DeliverAll` says |
| Pull.PullParser.FeedByte | pull.go:114-116 | one byte through the scanner object, its callbacks, and the end callback's reset at depth 0, as `Feed` says |
| Pull.PullParser.EndOfInput | pull.go:99-111 | `Finish`, its callbacks, `TokEOI` queued, the first queued token handed out, as `AtEnd` says |
| Pull.PullParser.Next | pull.go:89-121 | the new state, token and error are those of `AfterNext` |
| Pull.PullParser.FillQueue | pull.go:95-120 | with the queue empty, the read loop runs until a token is queued, the input ends or the scanner fails; state, token and error are those of `Fill` |
| Pull.PullParser.FeedOnce | pull.go:97-116 | one pass of the read loop consumes one byte and leaves `Fill` of the old state equal to `Fill` of the new one, or stops with `TokEOI` and the scanner's error |
| Pull.PullParser.SkipMeta | pull.go:149-176 | the depth-counting loop gives the state and error of `AfterSkipMeta` |
| Pull.PullParser.NextBegin | pull.go:216-222 | as `AfterNextBegin` |
| Pull.PullParser.NextEnd | pull.go:256-262 | as `AfterNextEnd` |
| Pull.PullParser.NextAtom | pull.go:281-287 | as `AfterNextAtom` |
| PullExamples.ScanOpen | scanner.go:375-383 | an opening bracket on an idle scanner reports `Begin` and opens one level |
| PullExamples.ScanClose | scanner.go:384-392 | the closer of the only open bracket reports a non-meta `End` and leaves nothing open |
| PullExamples.ScanFirstLetter | scanner.go:424-436 | a letter with nothing pending starts a bare atom holding that letter; no event |
| PullExamples.ScanNextLetter | scanner.go:320-330 | a letter after a pending bare atom appends to it; no event |
| PullExamples.ScanOpenAfterAtom | scanner.go:320-335 | `(` after the pending bare atom `w` reports the atom `w` (not meta, not quoted), then a non-meta `Begin`, and opens one level |
| PullExamples.ScanCloseAfterAtom | scanner.go:320-335 | `)` after the pending bare atom `w` inside `(` reports the atom `w`, then a non-meta `End`, and closes the level |
| PullExamples.WasAnyExample | pull_test.go:113-122 | after the first `Next` on `{}`, `WasAny(TokBegin\|TokEnd)` is `TokBegin` and `WasAny(TokAtom)` is no token |
| PullExamples.FillLetter | pull.go:97-117 | a letter fed while nothing is queued and at most a bare atom is pending queues nothing, and the loop of `Next` goes on with the letter appended to the pending atom |
| PullExamples.FillFoo | pull.go:97-117 | the same for the three letters of `foo`: the loop goes on with `foo` pending and the rest of the input unread |
| PullExamples.EndOfInput | pull.go:89-111 | at the end of input, with nothing queued, nothing pending and nothing open, `Next` returns `TokEOI` without error, and `LastToken` is then `TokEOI` |
| PullExamples.FeedOpener | pull.go:56-63 | feeding an opening bracket to a fresh parser queues, in slot 0, a non-meta `Begin` with that bracket |
| PullExamples.FirstBegin | pull.go:89-121 | the first `Next` on an input that starts with an opening bracket returns `TokBegin` without error, having read that one byte |
| PullExamples.OpenBracket | pull_test.go:42-52 | `(`, `[` or `{` alone: `Next` returns `TokBegin` without error, `LastBrace` is that bracket and `WasMeta` is false |
| PullExamples.CloseAfterOpen | pull.go:64-74 | the closer right after its opener: `Next` returns `TokEnd` in slot 0 with the closer as bracket, and the scanner is reset because the depth is 0 |
| PullExamples.BracketPair | pull_test.go:54-66 | `()`, `[]` or `{}`: `TokBegin` with the opener, then `TokEnd` with the closer, neither meta and neither with an error |
| PullExamples.FeedFooOpen | pull.go:56-84 | feeding `(` after the pending atom `foo` queues the atom in slot 0 and the `Begin` in slot 1 |
| PullExamples.FillFooOpen | pull.go:89-121 | on a fresh parser over `foo(` and any rest, the loop of `Next` returns the atom `foo` and leaves the `Begin` queued |
| PullExamples.FooCallFirst | pull.go:89-121 | the first `Next` on `foo()` returns `TokAtom` without error |
| PullExamples.FooCallThird | pull.go:64-74 | the third `Next` on `foo()`: `)` closes the only level, its `End` goes to slot 0, and the scanner is reset |
| PullExamples.FooCallLast | pull.go:89-111 | the fourth `Next` on `foo()` returns `TokEOI` without error |
| PullExamples.AtomBeforeBegin | pull_test.go:68-75 | `foo()` pulls the atom `foo`, neither meta nor quoted, then `TokBegin` with `(` not meta, then `TokEnd` with `)`, then `TokEOI`, each without error |
| PullExamples.FeedParenFooClose | pull.go:64-84 | feeding `)` after `(foo` queues the atom in slot 0 and the `End` in slot 1, and resets the scanner |
| PullExamples.FillParenFoo | pull.go:89-121 | inside `(`, the loop of `Next` over `foo)` returns the atom `foo` and leaves the `End` queued |
| PullExamples.ParenFooSecond | pull.go:89-121 | the second `Next` on `(foo)` returns `TokAtom` without error |
| PullExamples.AtomBeforeEnd | pull_test.go:77-84 | `(foo)` pulls `TokBegin` with `(` not meta, then the atom `foo`, neither meta nor quoted, then `TokEnd` with `)`, then `TokEOI`, each without error |
| PullExamples.FirstNext | pull.go:89-121 | the first `Next` on `(\a )` returns `TokBegin` for `(` |
| PullExamples.SecondNext | pull.go:89-121 | the second `Next` returns the meta atom `a`, completed by the space |
| PullExamples.ThirdNext | pull.go:64-74 | the third `Next` returns `TokEnd` in the slot the atom used |
| PullExamples.StaleMetaOnEnd | pull.go:64-69 | on `(\a )` the `End` of `)` keeps the slot's stale meta flag, so `ExpectEnd(")")` fails with `PullMeta` and `SkipMeta` reaches its "unreachable code" case |
| Gem.FromInt | gem/gem.go:13 | the word of an integer stands for that integer |
| Gem.FromIntValue | gem/gem.go:13 | every word is the word of the integer it stands for, so words and integers correspond one to one |
| Gem.WithMeta | gem/gem.go:24-30 | after `SetMeta(flag)` the meta bit reads `flag` |
| Gem.WithQuoted | gem/gem.go:41-47 | after `SetQuoted(flag)` the quote bit reads `flag` |
| Gem.BraceOf | gem/gem.go:96-98 | `Brace` is one of `Undef`, `Paren`, `Square`, `Curly` |
| Gem.WithBrace | gem/gem.go:100-103 | after `SetBrace(b)` the brace reads the brace bits of `b` |
| Gem.FlagSettersValue | gem/gem.go:24-47 | `SetMeta` and `SetQuoted` change the integer by their own bit's weight and nothing else |
| Gem.BraceIsMasked | gem/gem.go:96-98 | `Brace` is the integer's low three bits without the meta bit, that is `e & braceMask` |
| Gem.BraceSetterValue | gem/gem.go:100-103 | `SetBrace` replaces the brace bits of the integer and keeps all the others |
| Gem.MetaIndependent | gem/gem_test.go:9-31 | `SetMeta` is idempotent and keeps the quote flag and the brace |
| Gem.QuotedKeepsMeta | gem/gem.go:41-47 | `SetQuoted` keeps the meta flag |
| Gem.BraceKeepsMeta | gem/gem.go:100-103 | `SetBrace` keeps the meta flag |
| Gem.BraceReadsBack | gem/gem.go:96-103 | a brace value set with `SetBrace` reads back from `Brace` |
| Gem.QuoteBitIsBraceBit | gem/gem.go:15-18 | the quote bit (`maskAtomQuot`, 2) is `Paren`'s bit inside `braceMask`: a quoted atom's word reads as `Paren` |
| Gem.FromRune | gem/gem.go:69-80 | each bracket of a pair gives its kind, and any other rune gives `Undef` (both directions) |
| Gem.OpeningAsWritten | gem/gem.go:82-87 | as written: the guard admits exactly 1 to 3, and anything else panics |
| Gem.ClosingAsWritten | gem/gem.go:89-94 | as written: the same guard for `Closing` |
| Gem.BraceTableMismatch | gem/gem.go:57-94 | as written: the brace constants are 2, 4 and 6, so `Paren` gets `[` and `]`, and `Square` and `Curly` panic |
| Gem.Opening | gem/gem.go:82-87 | corrected: defined exactly for the three brace values; the rune is an opening bracket that `FromRune` maps back to the brace |
| Gem.Closing | gem/gem.go:89-94 | corrected: defined exactly for the three brace values; the rune is a closing bracket that `FromRune` maps back to the brace |
| Gem.BraceRoundTrip | gem/gem_test.go:43-53 | the corrected tables give the bracket pairs of the tests, and every bracket leads back to itself through `FromRune` |
| Gem.ExpBase.constructor | gem/gem.go:13 | a flag word with the given bits |
| Gem.ExpBase.SetMeta | gem/gem.go:24-30 | the word becomes `WithMeta` of the old word |
| Gem.ExpBase.SetQuoted | gem/gem.go:41-47 | the word becomes `WithQuoted` of the old word |
| Gem.ExpBase.SetBrace | gem/gem.go:100-103 | the word becomes `WithBrace` of the old word |
| Gem.ExampleAtomMeta | gem/gem_test.go:9-19 | setting meta twice on a fresh atom reads meta and keeps its quote flag |
| GemParse.Add | gem/parse.go:38-43 | a finished value goes to `Results` at top level, else to the end of the innermost open sequence (where `Atom` puts an atom, and where the model puts a sequence at its `End`); the depth is unchanged |
| GemParse.SequenceBase | gem/parse.go:13-15 | a new sequence's word has the callback's meta flag and the kind of its bracket, and no other bits |
| GemParse.AtomOf | gem/parse.go:33-37 | the new atom's text is the callback's bytes, with its meta and quote flags and no other bits |
| GemParse.BeginStep | gem/parse.go:12-21 | a new empty sequence with the callback's meta flag and bracket kind becomes the innermost open one; `Results` and the outer sequences are untouched |
| GemParse.EndStep | gem/parse.go:23-30 | fails (Go's index panic) exactly when nothing is open; otherwise the innermost sequence is closed and goes to its parent, or to `Results` when it was the outermost |
| GemParse.AtomStep | gem/parse.go:32-44 | the new atom goes to `Results` at top level, else to the innermost open sequence |
| GemParse.RunConcat | gem/parse.go:12-44 | running `x + y` is running `x` and then `y` |
| GemParse.DepthAfter | gem/parse.go:12-30 | the depth after a run is never below -1 (the marker for an `End` at depth 0) |
| GemParse.RunFailsIff | gem/parse.go:23-30 | the builder fails exactly when some `End` comes with nothing open, and otherwise ends at the depth the brackets leave |
| GemParse.ResultsGrow | gem/parse.go:12-44 | finished values are never taken back: `Results` only grows |
| GemParse.OpenByte | gem/gem.go:69-80 | `FromRune` maps the opening bracket of a sequence's brace back to that brace, so the `Begin` callback rebuilds it |
| GemParse.CloseByte | gem/gem.go:69-80 | `FromRune` maps the closing bracket of a sequence's brace back to that brace |
| GemParse.AtomRebuilt | gem/parse.go:32-44 | an atom the builder can produce is rebuilt from its own callback |
| GemParse.BaseRebuilt | gem/parse.go:12-21 | a sequence's word is the one `Begin` builds from its own bracket |
| GemParse.BuildEvents | gem/parse.go:12-44 | the callbacks of an expression add exactly that expression where it belongs |
| GemParse.BuildSequence | gem/parse.go:12-30 | a sequence's `Begin`, its elements' callbacks and its `End` add the sequence |
| GemParse.BuildElems | gem/parse.go:32-44 | the callbacks of a run of elements leave the builder as adding each element in turn (`AddAll`) |
| GemParse.AddAllInner | gem/parse.go:38-43 | elements added while a sequence is innermost open are appended, in order, to that sequence and nothing else changes |
| GemParse.ParseRoundTrip | gem/parse.go:12-44 | round trip: from an empty builder the callbacks of one expression leave exactly that expression in `Results` and nothing open |
| GemParse.State.constructor | gem/parse.go:7-10 | the zero `State`: no results, nothing open |
| GemParse.State.Begin | gem/parse.go:12-21 | the builder becomes `BeginStep` of the old one |
| GemParse.State.End | gem/parse.go:23-30 | `ok` is false exactly where the Go code panics, and then nothing changes; otherwise the builder becomes `EndStep` of the old one |
| GemParse.State.Atom | gem/parse.go:32-44 | the builder becomes `AtomStep` of the old one |
| GemParse.ParenGroup | gem/parse_test.go:21-26 | at the top level, the callbacks for `(bar \[baz])` keep the earlier results and add one non-meta `Paren` sequence of two elements |
| GemParse.ExampleParse | gem/parse_test.go:10-27 | the callbacks for `foo (bar \[baz]) \4711` leave three results; the first is the atom `foo`, neither meta nor quoted; the second is a non-meta `Paren` sequence of two elements |
| GemPrint.Calls | gem/print.go:7-32 | definition: the printer calls for an expression: one `Atom` call, or `Begin`, the calls of the elements in order, `End` |
| GemPrint.CompactText | gem/print.go:7-32 | definition: what the compact printer writes for an expression: a space only between two atoms, a sequence as its meta prefix, bracket, elements and closer |
| GemPrint.OpenerOf | gem/print.go:16-25 | a sequence opens with the bracket of its brace; a word with no brace set (or an unknown one) opens with `(` |
| GemPrint.AtomCall | gem/print.go:9-14 | an atom is written with its own text and meta flag, forced into quotes exactly when its quote flag is set and quoted only when needed otherwise |
| GemPrint.PrintExpr | gem/print.go:7-32 | an error can come only from a top-level atom: the results of `Begin`, `End` and nested `Print` calls are dropped |
| GemPrint.RunAllConcat | gem/print.go:26-28 | making calls `a + b` is making `a` and then `b` |
| GemPrint.PrintMakesCalls | gem/print.go:7-32 | on any printer, `Print` leaves the printer the calls `Calls(e)` leave, in order; an error is the one of its single atom call |
| GemPrint.PrintElemsMakesCalls | gem/print.go:26-28 | the loop over the elements makes their calls one after the other |
| GemPrint.DepthConcat | gem/print.go:15-29 | the nesting a list of calls opens adds up over concatenation |
| GemPrint.BalancedConcat | gem/print.go:26-28 | two balanced call lists make a balanced list |
| GemPrint.BalancedWrap | gem/print.go:15-29 | a balanced list between a `Begin` and an `End` is balanced |
| GemPrint.CallsBalanced | gem/print.go:7-32 | every `Print` ends every sequence it begins and never calls `End` with nothing open |
| GemPrint.ElemsBalanced | gem/print.go:26-28 | the elements' calls together are balanced |
| GemPrint.CloserOf | gem/print.go:16-29 | the closing bracket of a sequence is the partner of its opener (same brace) |
| GemPrint.CloserIsClosingRune | gem/print.go:16-29 | that bracket is the one the compact printer pushes for the opener |
| GemPrint.AllSucceedConcat | gem/print.go:26-28 | calls that succeed one after the other succeed together |
| GemPrint.CompactPrint | gem/print.go:7-32 | on the compact printer every call succeeds, its stack of closers is as before, the output grows by the expression's compact text, and the last thing written was an atom exactly when the expression is one |
| GemPrint.CompactAtom | gem/print.go:9-14 | an atom's text, after a space exactly when an atom came before |
| GemPrint.CompactSequence | gem/print.go:15-29 | a sequence writes its meta prefix, its bracket, its elements with no space before the first, and its closer, leaving the stack as it found it |
| GemPrint.CompactElems | gem/print.go:26-28 | the elements write their texts in order, a space only between two atoms |
| GemPrint.FreshCompact | gem/print.go:7-32 | on a fresh compact printer the output is the compact text alone |
| GemPrint.PlainWordText | gem/print.go:13 | an atom with no flags whose text needs no quotes is written as itself |
| GemPrint.QuotedWordText | gem/print.go:11 | an atom with the quote flag is written between quotes even when it needs none |
| GemPrint.ExampleAtom | gem/print_test.go:9-15 | `Atom{Str: "foo"}` prints as `foo` |
| GemPrint.FooBarText | gem/print_test.go:17-23 | `foo bar` holds a space and so is quoted when quoting is conditional |
| GemPrint.ExampleQuotedAtom | gem/print_test.go:17-23 | `Atom{Str: "foo bar"}` prints as `"foo bar"` |
| GemPrint.SequenceText | gem/print.go:15-29 | a sequence's compact text is its meta prefix, opener, elements and closer |
| GemPrint.SquareBrackets | gem/print.go:19-20 | a word with only the `Square` brace opens with `[` and closes with `]` and is not meta |
| GemPrint.MetaParens | gem/print.go:23-24 | a meta word with no brace set opens with `(` and closes with `)` |
| GemPrint.ExampleEmptySequence | gem/print_test.go:25-32 | an empty `Square` sequence prints as `[]` |
| GemPrint.MetaWordText | gem/print.go:15-29 | a meta sequence holding one word is written `\(w)`, with no space before it whatever came before |
| GemPrint.ElemsTextCons | gem/print.go:26-28 | the elements' text is the first one's followed by the rest, which starts after a space exactly when the first was an atom |
| GemPrint.ElemsTextThree | gem/print.go:26-28 | three elements: each after the separator its predecessor calls for |
| GemPrint.WordsElemsText | gem/print_test.go:36-43 | a quoted atom, a meta sequence and an atom meet with no space between them |
| GemPrint.WordsText | gem/print_test.go:34-47 | the example's shape has the text `["a"\(b)c]` |
| GemPrint.WordsPrint | gem/print_test.go:34-47 | on a fresh compact printer the example's shape prints as `["a"\(b)c]`, which is `["foo"\(bar)baz]` for its words |
| GemPull.AtomRead | gem/pull.go:13-17 | the atom read holds the parser's atom bytes, with `WasMeta` as its meta flag and `WasQuot` as its quote flag |
| GemPull.BraceOfOpening | gem/pull.go:37-46 | exactly `(`, `[` and `{` have a brace, and it is the brace whose opening bracket that is; any other byte is the panic |
| GemPull.ReadCurrentOf | gem/pull.go:9-24 | `TokEOI` gives `PullEOI`, an atom token gives its atom with nothing pulled, `TokBegin` gives on success a sequence with the `End` token last pulled, and any other token gives the unexpected-token error; every error is one of the reading errors, every value a well-formed gem |
| GemPull.ReadSeqOf | gem/pull.go:34-58 | a sequence is returned exactly when the `Begin` bracket is known; it is well formed, has the `Begin`'s meta flag and the brace of its bracket, and on success an `End` is the last token pulled (that this `End` matches the `Begin` is `ReadSeqMatches`) |
| GemPull.ReadElems | gem/pull.go:47-56 | the loop keeps the sequence's word and only appends to its elements, also when it stops with an error (the partial sequence comes back with it); it stops without error only on `TokEnd`, having pulled more (which elements it appends is `ReadElemsFlat`) |
| GemPull.ReadCurrentFlat | gem/pull.go:9-24 | on success the expression read is exactly the one that the token it starts from and the tokens it pulls spell out (`Flat(e) == [PieceOf(p)] + CurrentPieces(p)`) |
| GemPull.ReadSeqFlat | gem/pull.go:34-58 | on success the sequence read is exactly the one that its `Begin` and the tokens pulled up to the `End` spell out |
| GemPull.ReadElemsFlat | gem/pull.go:47-56 | on success the elements appended are exactly those the pulled tokens spell out, in order, and the last token pulled is the closing `End` |
| GemPull.ElemsAfterFlat | gem/pull.go:47-56 | the same for the rest of a pass after `Next` |
| GemPull.FlatBalanced | gem/gem.go:49-52 | the tokens of an expression (an atom, or a sequence's bracket, its elements' tokens and its `End`) add up to depth 0 and no prefix goes below 0; inside a sequence every proper prefix stays above 0, so its last `End` closes its own `Begin` |
| GemPull.FlatElemsBalanced | gem/gem.go:49-52 | the tokens of a run of elements add up to depth 0 and no prefix goes below 0 |
| GemPull.DepthConcat | gem/gem.go:49-52 | the depth of a run of tokens adds up over concatenation |
| GemPull.FlatElemsSnoc | gem/pull.go:52 | appending an element appends its tokens |
| GemPull.ReadSeqMatches | gem/pull.go:34-58 | the `Begin` and the tokens a successful `readSeq` pulls add up to depth 0, end in an `End`, and stay above depth 0 before it: that `End` is the one matching the `Begin` |
| GemPull.ElemsAfter | gem/pull.go:47-56 | `TokEnd` ends the loop before the error is looked at, an error ends it with that error, and otherwise one more element is read and appended |
| GemPull.ReadNextOf | gem/pull.go:26-32 | one token is pulled; at `TokEOI` the result is `PullEOI`, otherwise `ReadCurrent` from the new state |
| GemPull.ReadNextDropsScanError | gem/pull.go:27 | an error of `Next` never reaches the caller of `ReadNext`: it reads as `PullEOI` |
| GemPull.UnclosedReadsAsEOI | gem/pull.go:26-32 | input that ends inside a bracket gives the scanner's unclosed-bracket error in `Next`, but `ReadNext` reports a plain end of input |
| GemPull.ReadCurrent | gem/pull.go:9-24 | the parser's new state and the results are those of `ReadCurrentOf` on the old state |
| GemPull.ReadNext | gem/pull.go:26-32 | the parser's new state and the results are those of `ReadNextOf` on the old state |
| GemPull.ReadSeq | gem/pull.go:34-46 | the parser's new state and the results are those of `ReadSeqOf` on the old state |
| GemPull.ReadElemsLoop | gem/pull.go:47-57 | the loop leaves the parser and results of `ReadElems` from no elements |
| GemPullExamples.ReadWord | gem/pull.go:26-32 | `ReadNext` on a word of letters gives that word as an atom that is neither meta nor quoted, and the next `ReadNext` is the end |
| GemPullExamples.ExampleReadAtom | gem/pull_test.go:12-22 | `ReadNext` on `foo` gives the atom `foo`, neither meta nor quoted |
| Table.ColIndex | table/xsxtable.go:74-83 | -1 exactly when no column has the name; otherwise the index of a column with that name and no earlier one |
| Table.ReadColOf | table/xsxtable.go:37-72 | an atom token is a column of that name and meta flag with no tags, nothing pulled; a token that is neither an atom nor a `Begin` is an error; a `Begin` other than `(` is the wrong-bracket error; a column read without error was opened by `(`, has its meta flag, is named by the non-meta atom pulled right after the `(`, holds well-formed tags, and ends at a non-meta `)`; every error comes with the zero column |
| Table.ReadTags | table/xsxtable.go:53-65 | tags are only appended, each well formed; the loop ends without error only at an `End` token, having pulled more |
| Table.TagsAfter | table/xsxtable.go:53-65 | `TokEnd` ends the tags before the error is looked at, then the error, then `TokEOI` as the premature end; any other token starts a tag read by `ReadCurrent` |
| Table.ReadTagsFlat | table/xsxtable.go:53-65 | on success the tags read are exactly those the pulled tokens spell out, in order, up to the `End` of the column group |
| Table.TagsAfterFlat | table/xsxtable.go:53-65 | the same for the rest of a pass after `Next` |
| Table.ReadColFlat | table/xsxtable.go:44-71 | a column read from a `(` group is spelled by that `(` (the column's meta flag), then a non-meta atom whose text is the column's name, then the tokens of its tags, then the closing `End` |
| Table.ReadColSpells | table/xsxtable.go:37-71 | every column read is spelled (`Spells`) by the token it starts from and the tokens it pulls: a lone atom, or the `(` group above |
| Table.ReadColsSpell | table/xsxtable.go:24-33 | on success the column loop appends exactly one column per run of tokens a column read pulls, each spelled by its run, in order |
| Table.ColsAfterSpell | table/xsxtable.go:24-33 | the same for the rest of a pass after `Next` |
| Table.ReadDefSpells | table/xsxtable.go:19-35 | a definition read without error has one column per element of the `[` group, in order, each spelled exactly by that element's tokens |
| Table.ReadCol | table/xsxtable.go:37-72 | the parser's new state and the results are those of `ReadColOf` on the old state |
| Table.ReadDefOf | table/xsxtable.go:19-35 | an error of `NextBegin("[", NoMeta)` comes back with no columns; success means that `[` was accepted and the last token is an `End` whose bracket is `]` (one column per element is `ReadDefSpells`) |
| Table.ReadCols | table/xsxtable.go:24-33 | columns are only appended, and kept when an error stops the loop; success ends at an `End` of `]` |
| Table.ColsAfter | table/xsxtable.go:24-33 | an `End` of `]` ends the definition before the error is looked at, then the error; any other token is a column |
| Table.ReadDef | table/xsxtable.go:19-35 | the parser's new state and the results are those of `ReadDefOf` on the old state |
| Table.SkipRowsOf | table/xsxtable.go:89-102 | an error of `NextBegin("(", AllowMeta)` ends the loop with that error, the end of input as `PullEOI`; success leaves a non-meta `(` as the last token |
| Table.FillRowOf | table/xsxtable.go:103-109 | elements are only appended and never more than `n`; there is no error exactly when all `n` were read, and an error is always one of `ReadNext` |
| Table.NextRowOf | table/xsxtable.go:85-114 | no row exactly when the row loop fails, with its error; the end of input gives no row and `PullEOI`; fewer than `n` elements always come with an error; success reads all `n` and ends at a non-meta `)` |
| Table.SkipRows | table/xsxtable.go:89-102 | the parser's new state and the error are those of `SkipRowsOf` on the old state |
| Table.FillRow | table/xsxtable.go:103-109 | the parser and error are those of `FillRowOf`; the first slots of the array hold the elements read, in order, and every other slot keeps its old value |
| Table.ReadRow | table/xsxtable.go:89-113 | the parser and error are those of `NextRowOf`; no slice exactly when no row, with the array untouched; otherwise the slice is the prefix read before an element failed or the whole row, over the same array, with the elements in its first slots and the rest as before |
| Table.NextRow | table/xsxtable.go:85-114 | a row passed in is reused exactly when it is not `nil`, not shorter than the definition, and its capacity is at most three times its length; then the elements overwrite its first slots in place and the other slots are kept, and otherwise a fresh row of the definition's length is allocated, all `nil` past the elements; the slice returned is `nil`, the prefix read before an element failed, or the whole row; the row passed in is untouched unless it was reused and a row was read |
| TableExamples.ExampleEmptyDefinition | table/xsxtable_test.go:17-26 | `ReadDef` on `[]` succeeds with no columns |
| TableExamples.EndOfInput | table/xsxtable.go:90-91 | at the end of input after a complete expression the next token is `TokEOI`, with no error |
| TableExamples.ExampleNoMoreRows | table/xsxtable_test.go:174-180 | `NextRow` at the end of input gives no row and `PullEOI`, whatever the definition's length |

## Left out

- `Scanner.Read` and its pooled 4 KiB buffer (scanner.go:451-470) are not modelled. They are reader plumbing; input is given to `Scan` as explicit chunks.
- `WsBuf`, the optional capture of skipped whitespace, is not modelled. The events do not depend on it.
- Error message texts (`fmt.Sprintf`, `ScanError.Error`, the `SrcHint`) are not modelled. Errors are a kind plus, for the scanner, a position. `Unexpected.Error` is modelled only as whether a message exists.
- Callback failures and the `panic`/`recover` machinery are not modelled: callbacks always succeed. Go panics that can happen are error results: the indenting printer's `End` with nothing open (`EmptyNest`), a full token queue (`QueueOverflow`), `SkipMeta`'s unreachable case (`SkipUnreachable`), `readSeq`'s unknown bracket (`IllegalOpening`), and `End` with nothing open in the tree builder (`State.End` returns false).
- UTF-8 decoding is not modelled. The pull parser reads its input as bytes, one per step, where the Go code reads runes. Text converted from scanned bytes (`string(txt)`) is one rune per byte (`Chars`), which is its UTF-8 reading only for ASCII text.
- Go strings holding invalid UTF-8 are not modelled: strings are sequences of runes, and what is written is their encoding.
- Write.CondQuotedReads, Printer.PrefixedBareReads and Printer.AtomTextReads: the bare path requires that no rune of the atom has the byte 0x85 or 0xA0 in its UTF-8 encoding. The source writes such atoms bare, and the scanner splits them (`Write.CondQuotedSplitsRune`); see Findings.
- `pull.go` calls `scn.Push(r)`, which `scanner.go` does not define, and its callbacks have other signatures. The model feeds one byte per call to `Scan`. The reset that the end callback performs is modelled on the state after that byte.
- Reader I/O errors are not modelled. The end of input is the end of the given byte sequence.
- `unicode.IsSpace` is written out as the Unicode White_Space set of code points.
- The printers do not model writer failures. Their output is a string field, so their writes always succeed. Only `Write`'s writers model a writer that fails, stopping at its first failure.
- `Printer.Print`: `fmt.Sprint` is not modelled. Numbers and booleans arrive as their text, tagged as such, so that the dispatch is what is modelled.
- `GemParse.State`: the Go builder appends a `*Sequence` to its parent at `Begin` and fills it later through the shared pointer. The model keeps open sequences as values on its stack and adds each one to its parent at `End`. The finished trees are the same.
- `Gem.Bits`: the flag word is kept as three flag bits plus the higher part. Overflow of the 64-bit integer is not modelled.
- `Table.NextRow`: a Go slice is modelled as `Nil` or as an array with a length. The array's length is the slice's capacity.
- `Table.NextRowOf`: the `PullEOI` branch and the general error branch of the row loop return the same thing in the source, and are one branch in the model.
- `Table`: the `fmt.Errorf` and `errors.New` errors are the values `ColumnNotClosed(name, bracket)` and `PrematureEnd`.
- `Pull`: `Token.String` is not modelled (it only formats).
- ScanSplit.ScanSplit and ScanSplit.SplitThenFinish: when the first chunk ends inside a quoted atom, they require that the second chunk closes it. With an escape pending, they also require a held text other than a lone backslash. A second chunk that does not close the atom breaks the property in the source (`ScanProps.SplitLosesPosition`, `ScanProps.SplitRepeatsByte`), and so does a lone backslash (`ScanProps.SplitKeepsBackslash`); see Findings. The condition reads only the scanner's state, so it also excludes a first chunk `"\\\`, an escaped backslash and then an escaping one, where `qatomBuf` holds one backslash. There the source agrees, but no proof is given.
- `parser.go` is not part of this model. It is a three-line wrapper that connects a `GemParse.State` to a scanner.
- Test examples not stated individually:
  - The `(foo "bar" \baz)` example of gem/pull_test.go:24-34. Only the single-atom example is proved; the general reading lemmas cover sequences.
  - The column and row examples of table/xsxtable_test.go:28-173. The `[]` definition and the end-of-rows example are proved. `Table.ReadDefSpells` states for every definition that each column is one element, spelled as a lone atom or as `(name tags…)`.
  - The `general` example of pull_test.go:86-96, `(\foo \["bar"])`. Its first two tokens, `(` and the meta atom `foo`, come from the kind of steps that `PullExamples.FirstNext` and `PullExamples.SecondNext` prove on `(\a )`. `Pull.DeliverAll` and `Pull.NextSafe` state the queueing for every input.
  - The `SkipMeta` example of pull_test.go:98-111. Its input is fed to the scanner one byte at a time, which is too long to evaluate in a proof. `Pull.AfterSkipMeta` and `Pull.SkipDepthStops` state the skip for every input.
  - Most of the split-invariance list of scanner_test.go:398-502. `ScanSplit.ScanSplit` states the property for every boundary the source handles correctly except the `"\\\` chunk named above, and `ScanProps` gives the counterexamples for the rest.
- `GemPrint.WordsPrint`: the `["foo"\(bar)baz]` example is proved for any three words, not for the literal words. This keeps the proof small.
- `PullExamples.StaleMetaOnEnd` keeps, as written, the stale meta flag the `End` callback leaves in its slot. No corrected variant is modelled, because every other member uses the queue as written.

## Findings

| source | as written | input that shows it | evidently intended | confidence | as-written member | corrected member |
|---|---|---|---|---|---|---|
| scanner.go:341-349 | a quoted atom continued from an earlier chunk appends the raw chunk when the unescape buffer is empty, re-appends the byte it already took after an escape, and does not advance the position on that path | `"\` then `"x"` reads `\"x` (whole: `"x`); `"a\` then `bc` then `"` reads `abbc` (whole: `abc`); `"a` then `b` reports the unterminated quote at 2 (whole: 3) | chunk boundaries do not change the events or positions, as the split tests of scanner_test.go:398-502 assert | high, not executed | ScanProps.SplitKeepsBackslash | Unquote.ReadQuotedSplit |
| write.go:36-52 | `NeedQuote` does not count closing brackets, so `CondQuoted` leaves an atom with `)`, `]` or `}` bare | `a)` is written `a)`; the scanner reads the atom `a` and then fails on the unbalanced `)` | every atom written by `CondQuoted` reads back as itself | medium, not executed | Write.CondQuotedSplitsCloser | Write.CondQuotedStrictReads |
| scanner.go:196-199 | the scanner classes the single bytes 0x85 and 0xA0 as whitespace, but `NeedQuote` (write.go:36-52) tests runes, so a rune whose UTF-8 encoding holds one of these bytes is written bare and split by the scanner | `à` (U+00E0) is written as the bytes C3 A0; the scanner reads the one-byte atom C3 | every atom written by `CondQuoted` reads back as itself | high, not executed | Write.CondQuotedSplitsRune | Write.CondQuotedStrictReads |
| gem/gem.go:57-94 | `Opening` and `Closing` admit braces 1 to 3 and index their tables by the brace value, but the brace constants are 2, 4 and 6 | `Paren.Opening()` gives `[`; `Square.Opening()` and `Curly.Opening()` panic | the bracket pairs that gem/gem_test.go:43-53 expects | high, not executed | Gem.BraceTableMismatch | Gem.BraceRoundTrip |
