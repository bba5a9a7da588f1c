/** The professional-search listing that `search_and_analyze_professionals` in
    backend/src/agents/tools/core.py writes into the chat, and the guarantee that the chat's
    parser reads each listed professional back as one card with the printed name, source and
    description. The search itself, the session update and the error path are not modelled:
    the listing is a function of the query, the location and the returned entries. */
module SearchListing {
  import opened Wrappers
  import opened Text
  import opened SearchResultsParser

  /** A returned professional: each field may be missing from the record. */
  datatype Professional = Professional(name: Option<string>, source: Option<string>,
                                       snippet: Option<string>)

  /** An entry of the returned list: a record, or something else, which is skipped. */
  datatype Entry = Record(p: Professional) | NotRecord

  const NoResults := "I couldn't find any " + Marker + " criteria."

  function NameOr(p: Professional): string { p.name.GetOr("Unknown") }
  function SourceOr(p: Professional): string { p.source.GetOr("Unknown") }
  function SnippetOr(p: Professional): string { p.snippet.GetOr("No description available") }

  /** The first line: the count of entries (records or not), the query, and the location when
      one was given and is not empty. */
  function HeaderLine(count: nat, query: string, location: Option<string>): string {
    "I found " + NatToDecimal(count) + " " + Marker + " for '" + query + "'"
    + (if location.Some? && location.value != [] then " in " + location.value else "") + ":"
  }

  function NameLine(i: nat, p: Professional): string { NatToDecimal(i) + ". " + NameOr(p) }
  function SourceLineText(p: Professional): string { SourceTag + " " + SourceOr(p) }
  function SnippetLine(p: Professional): string { Indent + SnippetOr(p) }

  /** The text for a record numbered `i`: three lines and a blank line. */
  function EntryText(i: nat, p: Professional): string {
    NameLine(i, p) + "\n" + SourceLineText(p) + "\n" + SnippetLine(p) + "\n\n"
  }

  /** The entries from number `i` on; an entry that is not a record uses up its number. */
  function EntriesText(es: seq<Entry>, i: nat): string
    decreases |es|
  {
    if es == [] then ""
    else
      (match es[0] case Record(p) => EntryText(i, p) case NotRecord => "")
      + EntriesText(es[1..], i + 1)
  }

  /** The reply for a query, a location and the returned entries. */
  function SearchListing(query: string, location: Option<string>, es: seq<Entry>): string {
    if es == [] then NoResults
    else HeaderLine(|es|, query, location) + "\n\n" + EntriesText(es, 1)
  }

  // ---------------------------------------------------------------------------------------
  // What the listing reads back as
  // ---------------------------------------------------------------------------------------

  /** The card a record is meant to become. */
  function Card(p: Professional): (c: SearchResult)
    ensures HasFields(c)
  {
    SearchResult(Some(NameOr(p)), Some(SourceOr(p)), Some(SnippetOr(p)), None)
  }

  /** The cards of the records, in listing order. */
  function Cards(es: seq<Entry>): (cs: seq<SearchResult>)
    ensures |cs| <= |es|
    ensures forall k :: 0 <= k < |cs| ==> cs[k].name.Some? && cs[k].link.None?
    decreases |es|
  {
    if es == [] then []
    else (match es[0] case Record(p) => [Card(p)] case NotRecord => []) + Cards(es[1..])
  }

  /** A field can stand on a listing line of its own: no line break, no marker phrase and no
      suggestion phrase in it. */
  predicate LineSafe(s: string) {
    '\n' !in s && !Contains(s, Marker) && !IsStopLine(s)
  }

  predicate Trimmed(s: string) {
    s == [] || (!IsJsSpace(s[0]) && !IsJsSpace(s[|s| - 1]))
  }

  /** The printed fields of a record survive the parser's cleaning: the name has no leading
      whitespace, the source and description none at either end, and the description is not
      empty and does not itself look like a source or current-position line. */
  predicate ReadableRecord(p: Professional) {
    var n, s, d := NameOr(p), SourceOr(p), SnippetOr(p);
    LineSafe(n) && (n == [] || !IsJsSpace(n[0]))
    && LineSafe(s) && Trimmed(s)
    && LineSafe(d) && Trimmed(d) && d != []
    && !StartsWith(d, "Source:") && !StartsWith(d, "Current:")
  }

  predicate ReadableEntries(es: seq<Entry>) {
    forall k :: 0 <= k < |es| && es[k].Record? ==> ReadableRecord(es[k].p)
  }

  /** The query and location do not break the first line. */
  predicate SingleLineQuery(query: string, location: Option<string>) {
    '\n' !in query && (location.Some? ==> '\n' !in location.value)
  }

  /** The query and location neither break the first line nor end the scan early. */
  predicate ReadableQuery(query: string, location: Option<string>) {
    SingleLineQuery(query, location)
    && !IsStopLine(query) && (location.Some? ==> !IsStopLine(location.value))
  }

  /** The listing reads back as exactly the cards of its records, in order, with nothing for
      the entries that are not records and nothing for an empty search. */
  lemma ListingRoundTrip(query: string, location: Option<string>, es: seq<Entry>)
    requires ReadableQuery(query, location) && ReadableEntries(es)
    ensures SearchResults(SearchListing(query, location, es)) == Some(Cards(es))
  {
    if es == [] {
      NoResultsReadsEmpty();
    } else {
      var h := HeaderLine(|es|, query, location);
      var content := SearchListing(query, location, es);
      var lines := Split(content, '\n');
      HeaderKind(|es|, query, location);
      ListingText(query, location, es);
      HeaderText(|es|, query, location);
      SplitEntries(es, 1);
      ListingShape(content, h, EntriesText(es, 1), EntryLines(es, 1));
      assert MarkerLine(lines, 0) == Some(0);
      assert lines[0..] == lines;
      ScanListing(h, es);
      PendingFlush(Cards(es));
    }
  }

  /** The message for an empty search carries the marker and reads back as no cards. */
  lemma NoResultsReadsEmpty()
    ensures SearchResults(NoResults) == Some([])
  {
    NoResultsText();
    SplitWithoutSeparator(NoResults, '\n');
    var lines := [NoResults];
    assert MarkerLine(lines, 0) == Some(0);
    assert lines[0..] == lines;
    FirstCharAbsent(NoResults, OutreachSuggestion);
    FirstCharAbsent(NoResults, DetailsSuggestion);
    FirstCharAbsent(NoResults, RefineSuggestion);
    ScanOne(lines, Initial);
    assert lines[1..] == [];
  }

  // ---------------------------------------------------------------------------------------
  // Fixed text
  // ---------------------------------------------------------------------------------------

  /** No line break and no capital `G` or `R`, the first letters of the suggestion phrases. */
  predicate Plain(s: string) {
    '\n' !in s && 'G' !in s && 'R' !in s
  }

  lemma PhraseHeads()
    ensures Marker[0] == 'p' && OutreachSuggestion[0] == 'G' && DetailsSuggestion[0] == 'G'
      && RefineSuggestion[0] == 'R'
  {
  }

  /** The suggestion phrases hold no apostrophe and no colon. */
  lemma OutreachPunctuation()
    ensures '\'' !in OutreachSuggestion && ':' !in OutreachSuggestion
  {
  }

  lemma DetailsPunctuation()
    ensures '\'' !in DetailsSuggestion && ':' !in DetailsSuggestion
  {
  }

  lemma RefinePunctuation()
    ensures '\'' !in RefineSuggestion && ':' !in RefineSuggestion
  {
  }

  lemma MarkerPlain()
    ensures Plain(Marker)
  {
    MarkerNoBreak();
    MarkerNoCapitals();
  }

  lemma MarkerNoBreak()
    ensures '\n' !in Marker
  {
  }

  lemma MarkerNoCapitals()
    ensures 'G' !in Marker && 'R' !in Marker
  {
  }

  lemma NoResultsText()
    ensures Plain(NoResults) && OccursAt(NoResults, Marker, 20)
  {
    MarkerPlain();
    assert Plain("I couldn't find any ") && Plain(" criteria.");
    assert NoResults[20..20 + |Marker|] == Marker;
  }

  /** The characters of a number: digits only. */
  lemma DigitsPlain(n: nat)
    ensures Plain(NatToDecimal(n)) && 'p' !in NatToDecimal(n)
    ensures forall c :: c in NatToDecimal(n) ==> IsDigit(c)
  {
    var d := NatToDecimal(n);
    assert forall c :: c in d ==> IsDigit(c);
  }

  // ---------------------------------------------------------------------------------------
  // The lines of the listing
  // ---------------------------------------------------------------------------------------

  /** The lines of the entries from number `i` on. */
  function EntryLines(es: seq<Entry>, i: nat): seq<string>
    decreases |es|
  {
    if es == [] then []
    else
      (match es[0]
       case Record(p) => [NameLine(i, p), SourceLineText(p), SnippetLine(p), ""]
       case NotRecord => [])
      + EntryLines(es[1..], i + 1)
  }

  /** A nonempty listing is the first line, two line breaks, then the entries. */
  lemma ListingText(query: string, location: Option<string>, es: seq<Entry>)
    requires es != []
    ensures SearchListing(query, location, es)
      == HeaderLine(|es|, query, location) + "\n\n" + EntriesText(es, 1)
  {
  }

  lemma ListingShape(s: string, h: string, e: string, lines: seq<string>)
    requires s == h + "\n\n" + e
    requires '\n' !in h && Contains(h, Marker) && Split(e, '\n') == lines + [""]
    ensures Contains(s, Marker) && Split(s, '\n') == [h, ""] + lines + [""]
  {
    ContainsBeforeBlank(h, e);
    SplitAfterBlank(h, e, lines);
  }

  lemma ContainsBeforeBlank(h: string, e: string)
    requires Contains(h, Marker)
    ensures Contains(h + "\n\n" + e, Marker)
  {
    ContainsInPrefix(h, "\n\n" + e, Marker);
    TwoBreaks(h, e);
  }

  lemma SplitAfterBlank(h: string, e: string, lines: seq<string>)
    requires '\n' !in h && Split(e, '\n') == lines + [""]
    ensures Split(h + "\n\n" + e, '\n') == [h, ""] + lines + [""]
  {
    TwoBreaks(h, e);
    SplitFirstLine([], '\n', e);
    SplitFirstLine(h, '\n', [] + ['\n'] + e);
    assert [h, ""] + (lines + [""]) == [h, ""] + lines + [""];
  }

  lemma TwoBreaks(h: string, e: string)
    ensures h + "\n\n" + e == h + ("\n\n" + e) == h + ['\n'] + ([] + ['\n'] + e)
  {
    assert "\n\n" == ['\n'] + ['\n'];
  }

  lemma ReadableTail(es: seq<Entry>)
    requires ReadableEntries(es) && es != []
    ensures ReadableEntries(es[1..])
    ensures es[0].Record? ==> ReadableRecord(es[0].p)
  {
    forall k | 0 <= k < |es[1..]| && es[1..][k].Record?
      ensures ReadableRecord(es[1..][k].p)
    {
      assert es[1..][k] == es[k + 1];
    }
  }

  lemma {:induction false} SplitEntries(es: seq<Entry>, i: nat)
    requires ReadableEntries(es)
    ensures Split(EntriesText(es, i), '\n') == EntryLines(es, i) + [""]
    decreases |es|
  {
    if es != [] {
      ReadableTail(es);
      SplitEntries(es[1..], i + 1);
      var rest := EntriesText(es[1..], i + 1);
      match es[0]
      case NotRecord =>
        assert EntriesText(es, i) == rest;
        assert EntryLines(es, i) == EntryLines(es[1..], i + 1);
      case Record(p) =>
        SplitRecord(i, p, rest);
        assert EntriesText(es, i) == EntryText(i, p) + rest;
        assert EntryLines(es, i) + [""]
          == [NameLine(i, p), SourceLineText(p), SnippetLine(p), ""] + (EntryLines(es[1..], i + 1) + [""]);
    }
  }

  /** The text of one record splits into its four lines, followed by whatever comes next. */
  lemma SplitRecord(i: nat, p: Professional, rest: string)
    requires ReadableRecord(p)
    ensures Split(EntryText(i, p) + rest, '\n')
      == [NameLine(i, p), SourceLineText(p), SnippetLine(p), ""] + Split(rest, '\n')
  {
    var a, b, c := NameLine(i, p), SourceLineText(p), SnippetLine(p);
    DigitsPlain(i);
    assert '\n' !in ". " && '\n' !in SourceTag + " " && '\n' !in Indent;
    assert '\n' !in a && '\n' !in b && '\n' !in c;
    EntryTextShape(i, p, rest);
    SplitFourLines(a, b, c, rest);
  }

  lemma SplitFourLines(a: string, b: string, c: string, rest: string)
    requires '\n' !in a && '\n' !in b && '\n' !in c
    ensures Split(a + ['\n'] + (b + ['\n'] + (c + ['\n'] + ([] + ['\n'] + rest))), '\n')
      == [a, b, c, ""] + Split(rest, '\n')
  {
    var r0 := [] + ['\n'] + rest;
    var r1 := c + ['\n'] + r0;
    var r2 := b + ['\n'] + r1;
    SplitFirstLine([], '\n', rest);
    SplitFirstLine(c, '\n', r0);
    SplitFirstLine(b, '\n', r1);
    SplitFirstLine(a, '\n', r2);
    FourParts(a, b, c, Split(rest, '\n'));
  }

  lemma FourParts(a: string, b: string, c: string, more: seq<string>)
    ensures [a] + ([b] + ([c] + ([""] + more))) == [a, b, c, ""] + more
  {
  }

  lemma EntryTextShape(i: nat, p: Professional, rest: string)
    ensures EntryText(i, p) + rest == NameLine(i, p) + ['\n'] + (SourceLineText(p) + ['\n']
      + (SnippetLine(p) + ['\n'] + ([] + ['\n'] + rest)))
  {
    assert "\n\n" == ['\n'] + ['\n'];
  }

  // ---------------------------------------------------------------------------------------
  // Scanning the listing
  // ---------------------------------------------------------------------------------------

  /** The scan state after reading `rs`: every card but the last pushed, the last being
      filled. */
  function Pending(rs: seq<SearchResult>): ScanState {
    if rs == [] then Initial else ScanState(rs[..|rs| - 1], rs[|rs| - 1])
  }

  lemma PendingFlush(rs: seq<SearchResult>)
    requires rs == [] || HasFields(rs[|rs| - 1])
    ensures Flush(Pending(rs)) == rs
  {
    if rs != [] {
      assert rs[..|rs| - 1] + [rs[|rs| - 1]] == rs;
    }
  }

  lemma BlankIgnored()
    ensures Classify("") == Ignored
  {
    FirstCharAbsent("", OutreachSuggestion);
    FirstCharAbsent("", DetailsSuggestion);
    FirstCharAbsent("", RefineSuggestion);
    FirstCharAbsent("", Marker);
  }

  /** From the first line on: it is skipped, the blank lines change nothing, and the entries
      leave their cards. */
  lemma ScanListing(h: string, es: seq<Entry>)
    requires Classify(h) == CountLine && ReadableEntries(es)
    ensures ScanLines([h, ""] + EntryLines(es, 1) + [""], Initial) == Pending(Cards(es))
  {
    var body := EntryLines(es, 1) + [""];
    ListingCons(h, EntryLines(es, 1));
    BlankIgnored();
    ScanCons(h, [""] + body, Initial);
    ScanCons("", body, Initial);
    ScanEntries(es, 1, [""], []);
    assert [] + Cards(es) == Cards(es);
    ScanCons("", [], Pending(Cards(es)));
  }

  lemma ListingCons(h: string, lines: seq<string>)
    ensures [h, ""] + lines + [""] == [h] + ([""] + (lines + [""]))
  {
  }

  /** Reading the lines of the entries adds their cards, whatever follows them. */
  lemma {:induction false} ScanEntries(es: seq<Entry>, i: nat, tail: seq<string>,
                                       done: seq<SearchResult>)
    requires ReadableEntries(es)
    requires done == [] || done[|done| - 1].name.Some?
    ensures ScanLines(EntryLines(es, i) + tail, Pending(done))
      == ScanLines(tail, Pending(done + Cards(es)))
    decreases |es|
  {
    if es == [] {
      assert EntryLines(es, i) + tail == tail;
      assert done + Cards(es) == done;
    } else {
      ReadableTail(es);
      var more := EntryLines(es[1..], i + 1) + tail;
      match es[0]
      case NotRecord =>
        assert EntryLines(es, i) + tail == more;
        assert Cards(es) == Cards(es[1..]);
        ScanEntries(es[1..], i + 1, tail, done);
      case Record(p) =>
        RecordLines(es, i, tail);
        ScanRecord(i, p, more, done);
        ScanEntries(es[1..], i + 1, tail, done + [Card(p)]);
    }
  }

  /** A record's lines come first, then those of the remaining entries; its card likewise. */
  lemma RecordLines(es: seq<Entry>, i: nat, tail: seq<string>)
    requires es != [] && es[0].Record?
    ensures var p := es[0].p;
      EntryLines(es, i) + tail
        == [NameLine(i, p), SourceLineText(p), SnippetLine(p), ""]
           + (EntryLines(es[1..], i + 1) + tail)
      && forall done: seq<SearchResult> :: done + Cards(es) == done + [Card(p)] + Cards(es[1..])
  {
  }

  /** The four lines of one record turn the pending cards into the same cards and this one. */
  lemma ScanRecord(i: nat, p: Professional, more: seq<string>, done: seq<SearchResult>)
    requires ReadableRecord(p)
    requires done == [] || done[|done| - 1].name.Some?
    ensures ScanLines([NameLine(i, p), SourceLineText(p), SnippetLine(p), ""] + more,
                      Pending(done))
      == ScanLines(more, Pending(done + [Card(p)]))
  {
    var a, b, c := NameLine(i, p), SourceLineText(p), SnippetLine(p);
    FourLines(a, b, c, "", more);
    ClassifyNameLine(i, p);
    PendingFlush(done);
    ScanCons(a, [b] + ([c] + ([""] + more)), Pending(done));
    ScanFields(p, more, done);
    assert (done + [Card(p)])[..|done|] == done;
  }

  lemma FourLines(a: string, b: string, c: string, d: string, more: seq<string>)
    ensures [a, b, c, d] + more == [a] + ([b] + ([c] + ([d] + more)))
  {
  }

  /** The source, description and blank lines fill in the card the name line opened. */
  lemma ScanFields(p: Professional, more: seq<string>, done: seq<SearchResult>)
    requires ReadableRecord(p)
    ensures ScanLines([SourceLineText(p)] + ([SnippetLine(p)] + ([""] + more)),
                      ScanState(done, NoFields.(name := Some(NameOr(p)))))
      == ScanLines(more, ScanState(done, Card(p)))
  {
    var b, c := SourceLineText(p), SnippetLine(p);
    ClassifySourceLine(p);
    ClassifySnippetLine(p);
    BlankIgnored();
    var st1 := ScanState(done, NoFields.(name := Some(NameOr(p))));
    var st2 := ScanState(done, st1.current.(source := Some(SourceOr(p))));
    var st3 := ScanState(done, Card(p));
    ScanCons(b, [c] + ([""] + more), st1);
    ScanCons(c, [""] + more, st2);
    ScanCons("", more, st3);
  }

  // ---------------------------------------------------------------------------------------
  // How the parser classifies each listing line
  // ---------------------------------------------------------------------------------------

  /** A prefix without the first character of any phrase keeps a safe field safe. */
  lemma SafeAfter(a: string, s: string)
    requires LineSafe(s)
    requires 'p' !in a && 'G' !in a && 'R' !in a
    ensures !Contains(a + s, Marker) && !IsStopLine(a + s)
  {
    PhraseHeads();
    NotContainsAfterPrefix(a, s, Marker);
    NotContainsAfterPrefix(a, s, OutreachSuggestion);
    NotContainsAfterPrefix(a, s, DetailsSuggestion);
    NotContainsAfterPrefix(a, s, RefineSuggestion);
  }

  lemma ClassifyNameLine(i: nat, p: Professional)
    requires ReadableRecord(p)
    ensures Classify(NameLine(i, p)) == Entry(NameOr(p))
  {
    var d, n := NatToDecimal(i), NameOr(p);
    var a := d + ". ";
    var line := a + n;
    assert line == NameLine(i, p);
    DigitsPlain(i);
    assert 'p' !in a && 'G' !in a && 'R' !in a;
    SafeAfter(a, n);
    NumberedName(d, n);
  }

  /** A number, a full stop, a space and a name without leading whitespace is a numbered line
      whose name is that name. */
  lemma NumberedName(d: string, n: string)
    requires d != [] && AllDigits(d) && (n == [] || !IsJsSpace(n[0]))
    ensures IsNumbered(d + ". " + n) && NameOf(d + ". " + n) == n
  {
    var line := d + ". " + n;
    DigitRunAt(line, 0, |d|);
    assert line[|d| + 1..] == [' '] + n;
    TrimStartAfterSpace(' ', n, IsJsSpace);
  }

  /** `DigitRun` from `i` stops at the first character that is not a digit. */
  lemma {:induction false} DigitRunAt(s: string, i: nat, e: nat)
    requires i <= e < |s| && !IsDigit(s[e])
    requires forall k :: i <= k < e ==> IsDigit(s[k])
    ensures DigitRun(s, i) == e
    decreases e - i
  {
    if i < e {
      DigitRunAt(s, i + 1, e);
    }
  }

  lemma ClassifySourceLine(p: Professional)
    requires ReadableRecord(p)
    ensures Classify(SourceLineText(p)) == SourceLine(SourceOr(p))
  {
    var s := SourceOr(p);
    var a := SourceTag + " ";
    var line := a + s;
    assert line == SourceLineText(p);
    assert 'p' !in a && 'G' !in a && 'R' !in a;
    SafeAfter(a, s);
    assert DigitRun(line, 0) == 0;
    assert line[..|SourceTag|] == SourceTag;
    assert line[|SourceTag|..] == [' '] + s;
    TrimStartAfterSpace(' ', s, IsJsSpace);
    TrimTrimmed(s, IsJsSpace);
  }

  lemma ClassifySnippetLine(p: Professional)
    requires ReadableRecord(p)
    ensures Classify(SnippetLine(p)) == DetailLine(SnippetOr(p))
  {
    var d := SnippetOr(p);
    var line := Indent + d;
    assert 'p' !in Indent && 'G' !in Indent && 'R' !in Indent;
    SafeAfter(Indent, d);
    assert DigitRun(line, 0) == 0;
    IndentedUntagged(d);
    assert line[..|Indent|] == Indent && line[|Indent|..] == d;
    TrimTrimmed(d, IsJsSpace);
  }

  /** An indented description is taken for a source or current-position line only when it
      starts with that tag's word. */
  lemma IndentedUntagged(d: string)
    requires !StartsWith(d, "Source:") && !StartsWith(d, "Current:")
    ensures !StartsWith(Indent + d, SourceTag) && !StartsWith(Indent + d, CurrentTag)
  {
    var line := Indent + d;
    if |d| >= 7 {
      assert line[3..10] == d[..7];
    }
    if |d| >= 8 {
      assert line[3..11] == d[..8];
    }
  }

  // ---------------------------------------------------------------------------------------
  // The first line
  // ---------------------------------------------------------------------------------------

  /** The first line holds the marker phrase and no line break. */
  lemma HeaderText(count: nat, query: string, location: Option<string>)
    requires SingleLineQuery(query, location)
    ensures var h := HeaderLine(count, query, location);
      '\n' !in h && Contains(h, Marker)
  {
    var d := NatToDecimal(count);
    var a := "I found " + d + " ";
    var y := "'" + (if location.Some? && location.value != [] then " in " + location.value else "")
      + ":";
    var h := HeaderLine(count, query, location);
    DigitsPlain(count);
    MarkerPlain();
    assert h == a + Marker + (" for '" + query + y);
    assert h[|a|..|a| + |Marker|] == Marker;
    assert OccursAt(h, Marker, |a|);
  }

  /** The first line is the skipped count line: it has the marker and no suggestion phrase. */
  lemma HeaderKind(count: nat, query: string, location: Option<string>)
    requires ReadableQuery(query, location)
    ensures Classify(HeaderLine(count, query, location)) == CountLine
  {
    HeaderText(count, query, location);
    HeaderNotStop(count, query, location);
  }

  lemma HeaderNotStop(count: nat, query: string, location: Option<string>)
    requires ReadableQuery(query, location)
    ensures !IsStopLine(HeaderLine(count, query, location))
  {
    var x := "I found " + NatToDecimal(count) + " " + Marker + " for '";
    var y := "'" + (if location.Some? && location.value != [] then " in " + location.value else "")
      + ":";
    HeaderFixedText(count);
    assert HeaderLine(count, query, location) == x + (query + y);
    OutreachPunctuation();
    HeaderPhrase(x, query, location, y, OutreachSuggestion);
    DetailsPunctuation();
    HeaderPhrase(x, query, location, y, DetailsSuggestion);
    RefinePunctuation();
    HeaderPhrase(x, query, location, y, RefineSuggestion);
  }

  /** The fixed text before the query lacks the capitals that start the suggestion phrases. */
  lemma HeaderFixedText(count: nat)
    ensures var x := "I found " + NatToDecimal(count) + " " + Marker + " for '";
      OutreachSuggestion[0] !in x && DetailsSuggestion[0] !in x && RefineSuggestion[0] !in x
  {
    DigitsPlain(count);
    MarkerPlain();
    PhraseHeads();
  }

  /** A suggestion phrase, which starts with a capital absent from the fixed text and holds no
      apostrophe or colon, occurs in the first line only if it occurs in the query or the
      location. */
  lemma HeaderPhrase(x: string, query: string, location: Option<string>, y: string, ph: string)
    requires ph != [] && ph[0] !in x && ph[0] != '\'' && ph[0] != ' ' && ph[0] != 'i'
      && ph[0] != 'n' && '\'' !in ph && ':' !in ph
    requires !Contains(query, ph)
    requires location.Some? ==> !Contains(location.value, ph)
    requires y == "'" + (if location.Some? && location.value != [] then " in " + location.value
      else "") + ":"
    ensures !Contains(x + (query + y), ph)
  {
    FirstCharAbsent(":", ph);
    if location.Some? && location.value != [] {
      NotContainsAcrossSeam(location.value, ":", ph);
      NotContainsAfterPrefix("' in ", location.value + ":", ph);
      assert y == "' in " + (location.value + ":");
    } else {
      FirstCharAbsent("':", ph);
      assert y == "':";
    }
    NotContainsAcrossSeam(query, y, ph);
    NotContainsAfterPrefix(x, query + y, ph);
  }
}
