/** `parseSearchResults` of frontend/app/components/Chat.tsx: the chat recognises the backend's
    professional-search listing in an assistant message and reads it back, line by line, into
    result cards. Scanning starts at the first line carrying the listing's marker phrase and
    stops at the first line that opens the follow-up suggestions. */
module SearchResultsParser {
  import opened Wrappers
  import opened Text

  /** One card: every field may be absent, as in the `Partial<SearchResult>` being filled. */
  datatype SearchResult = SearchResult(name: Option<string>, source: Option<string>,
                                       snippet: Option<string>, link: Option<string>)

  const NoFields := SearchResult(None, None, None, None)

  /** `Object.keys(currentResult).length > 0`: some field has been assigned. */
  predicate HasFields(r: SearchResult) {
    r.name.Some? || r.source.Some? || r.snippet.Some? || r.link.Some?
  }

  const Marker := "professionals matching your search"
  const OutreachSuggestion := "Generate a personalized outreach"
  const DetailsSuggestion := "Get more details about"
  const RefineSuggestion := "Refine the search"
  const SourceTag := "   Source:"
  const CurrentTag := "   Current:"
  const Indent := "   "
  const ProfileTag := "Profile:"

  /** A line that opens the suggestions after the listing. */
  predicate IsStopLine(line: string) {
    Contains(line, OutreachSuggestion) || Contains(line, DetailsSuggestion)
    || Contains(line, RefineSuggestion)
  }

  // ---------------------------------------------------------------------------------------
  // Reading one line
  // ---------------------------------------------------------------------------------------

  /** The end of the run of ASCII digits (`\d`) that starts at `i`. */
  function DigitRun(s: string, i: nat): (e: nat)
    requires i <= |s|
    ensures i <= e <= |s| && (e == |s| || !IsDigit(s[e]))
    ensures forall k :: i <= k < e ==> IsDigit(s[k])
    decreases |s| - i
  {
    if i < |s| && IsDigit(s[i]) then DigitRun(s, i + 1) else i
  }

  /** `/^\d+\./`: one or more digits, then a full stop. */
  predicate IsNumbered(line: string) {
    var d := DigitRun(line, 0);
    0 < d < |line| && line[d] == '.'
  }

  // The name: the line with the leading `^\d+\.\s*` removed, that is, without its number,
  // the full stop and any whitespace after it.
  function NameOf(line: string): (name: string)
    requires IsNumbered(line)
    ensures name == [] || !IsJsSpace(name[0])
    ensures |name| < |line| - DigitRun(line, 0) && name == line[|line| - |name|..]
    ensures forall k :: DigitRun(line, 0) + 1 <= k < |line| - |name| ==> IsJsSpace(line[k])
  {
    TrimStartBy(line[DigitRun(line, 0) + 1..], IsJsSpace)
  }

  /** What a line of the listing section means to the parser, in the order its `if` chain
      tests them. */
  datatype LineKind =
    | Stop                  // a suggestion line: the scan ends
    | CountLine             // a line with the marker phrase: skipped
    | Entry(name: string)   // `^\d+\.`: a new card
    | SourceLine(source: string)
    | DetailLine(text: string)   // indented: the cleaned text, possibly empty
    | ProfileLine(link: string)
    | Ignored

  function Classify(line: string): LineKind {
    if IsStopLine(line) then Stop
    else if Contains(line, Marker) then CountLine
    else if IsNumbered(line) then Entry(NameOf(line))
    else if StartsWith(line, SourceTag) then SourceLine(JsTrim(line[|SourceTag|..]))
    else if StartsWith(line, CurrentTag) || StartsWith(line, Indent) then
      DetailLine(JsTrim(if StartsWith(line, CurrentTag) then line[|CurrentTag|..]
                        else line[|Indent|..]))
    else if StartsWith(line, ProfileTag) then ProfileLine(JsTrim(line[|ProfileTag|..]))
    else Ignored
  }

  // ---------------------------------------------------------------------------------------
  // The scan as a specification
  // ---------------------------------------------------------------------------------------

  /** The cards pushed so far and the one being filled. */
  datatype ScanState = ScanState(results: seq<SearchResult>, current: SearchResult)

  const Initial := ScanState([], NoFields)

  /** The pushed cards, followed by the card being filled when it has any field. */
  function Flush(st: ScanState): (rs: seq<SearchResult>)
    ensures HasFields(st.current) ==> rs == st.results + [st.current]
    ensures !HasFields(st.current) ==> rs == st.results
  {
    if HasFields(st.current) then st.results + [st.current] else st.results
  }

  /** The effect of one line other than a stop line. */
  function ApplyLine(st: ScanState, kind: LineKind): ScanState {
    match kind
    case Entry(n) => ScanState(Flush(st), NoFields.(name := Some(n)))
    case SourceLine(v) => st.(current := st.current.(source := Some(v)))
    case DetailLine(v) => if v != [] then st.(current := st.current.(snippet := Some(v))) else st
    case ProfileLine(v) => st.(current := st.current.(link := Some(v)))
    case _ => st
  }

  /** The scan over `lines`, ending at the first stop line. */
  function ScanLines(lines: seq<string>, st: ScanState): ScanState
    decreases |lines|
  {
    if lines == [] then st
    else
      var kind := Classify(lines[0]);
      if kind == Stop then st else ScanLines(lines[1..], ApplyLine(st, kind))
  }

  /** `ScanLines` unfolded once. */
  lemma ScanOne(lines: seq<string>, st: ScanState)
    requires lines != []
    ensures ScanLines(lines, st) == if Classify(lines[0]) == Stop then st
      else ScanLines(lines[1..], ApplyLine(st, Classify(lines[0])))
  {
  }

  /** `ScanLines` from line `i` unfolded once. */
  lemma ScanAt(lines: seq<string>, i: nat, st: ScanState)
    requires i < |lines|
    ensures Classify(lines[i]) == Stop ==> ScanLines(lines[i..], st) == st
    ensures Classify(lines[i]) != Stop ==>
      ScanLines(lines[i..], st) == ScanLines(lines[i + 1..], ApplyLine(st, Classify(lines[i])))
  {
    assert lines[i..][0] == lines[i] && lines[i..][1..] == lines[i + 1..];
    ScanOne(lines[i..], st);
  }

  /** The scan of the rest is unchanged by one step of the loop. */
  lemma ScanAdvance(lines: seq<string>, i: nat, st: ScanState, st': ScanState, kind: LineKind,
                    target: ScanState)
    requires i < |lines| && kind == Classify(lines[i]) && kind != Stop
    requires st' == ApplyLine(st, kind) && ScanLines(lines[i..], st) == target
    ensures ScanLines(lines[i + 1..], st') == target
  {
    ScanAt(lines, i, st);
  }

  /** `ScanLines` on a first line and the rest. */
  lemma ScanCons(line: string, rest: seq<string>, st: ScanState)
    ensures ScanLines([line] + rest, st) == if Classify(line) == Stop then st
      else ScanLines(rest, ApplyLine(st, Classify(line)))
  {
    assert ([line] + rest)[0] == line && ([line] + rest)[1..] == rest;
  }

  /** The first line at or after `i` that carries the marker phrase. */
  function MarkerLine(lines: seq<string>, i: nat): (r: Option<nat>)
    ensures r.Some? ==> (i <= r.value < |lines| && Contains(lines[r.value], Marker)
      && forall j :: i <= j < r.value ==> !Contains(lines[j], Marker))
    ensures r.None? ==> forall j :: i <= j < |lines| ==> !Contains(lines[j], Marker)
    decreases |lines| - i
  {
    if i >= |lines| then None
    else if Contains(lines[i], Marker) then Some(i)
    else MarkerLine(lines, i + 1)
  }

  /** Where the scan starts: the first marker line, or the first line. */
  function StartIndex(lines: seq<string>): (start: nat)
    ensures start == 0 || start < |lines|
  {
    MarkerLine(lines, 0).GetOr(0)
  }

  /** What `parseSearchResults` returns: `null` for a message without the marker phrase, else
      the cards read from the first marker line on. */
  function SearchResults(content: string): (r: Option<seq<SearchResult>>)
    ensures r.None? <==> !Contains(content, Marker)
  {
    if !Contains(content, Marker) then None
    else
      var lines := Split(content, '\n');
      Some(Flush(ScanLines(lines[StartIndex(lines)..], Initial)))
  }

  // ---------------------------------------------------------------------------------------
  // The parser as written: a loop that mutates the card and the result list
  // ---------------------------------------------------------------------------------------

  method ParseSearchResults(content: string) returns (r: Option<seq<SearchResult>>)
    ensures r == SearchResults(content)
  {
    if !Contains(content, Marker) {
      return None;
    }
    var lines := Split(content, '\n');
    var startIndex := FindStart(lines);
    var results, currentResult := ScanSection(lines, startIndex);
    if HasFields(currentResult) {
      results := results + [currentResult];
    }
    return Some(results);
  }

  /** The line loop from `startIndex`: the cards pushed and the card being filled when it
      reaches the end of the message or a stop line. */
  method ScanSection(lines: seq<string>, startIndex: nat)
    returns (results: seq<SearchResult>, currentResult: SearchResult)
    requires startIndex < |lines|
    ensures ScanState(results, currentResult) == ScanLines(lines[startIndex..], Initial)
  {
    results, currentResult := [], NoFields;
    var i := startIndex;
    while i < |lines|
      invariant startIndex <= i <= |lines|
      invariant ScanLines(lines[i..], ScanState(results, currentResult))
        == ScanLines(lines[startIndex..], Initial)
    {
      var kind := Classify(lines[i]);
      ghost var before := ScanState(results, currentResult);
      ScanAt(lines, i, before);
      if kind == Stop {
        break;
      }
      results, currentResult := HandleLine(results, currentResult, kind);
      ScanAdvance(lines, i, before, ScanState(results, currentResult), kind,
                  ScanLines(lines[startIndex..], Initial));
      i := i + 1;
    }
  }

  /** The body of the line loop for a line that is not a stop line: a numbered line pushes the
      card being filled when it has a field and opens a new one; a field line sets its field. */
  method HandleLine(results: seq<SearchResult>, currentResult: SearchResult, kind: LineKind)
    returns (results': seq<SearchResult>, currentResult': SearchResult)
    ensures ScanState(results', currentResult') == ApplyLine(ScanState(results, currentResult), kind)
  {
    results', currentResult' := results, currentResult;
    match kind {
      case Entry(n) =>
        if HasFields(currentResult') {
          results' := results' + [currentResult'];
        }
        currentResult' := NoFields.(name := Some(n));
      case SourceLine(v) =>
        currentResult' := currentResult'.(source := Some(v));
      case DetailLine(v) =>
        if v != [] {
          currentResult' := currentResult'.(snippet := Some(v));
        }
      case ProfileLine(v) =>
        currentResult' := currentResult'.(link := Some(v));
      case _ =>
    }
  }

  /** The loop that looks for the first marker line. */
  method FindStart(lines: seq<string>) returns (startIndex: nat)
    ensures startIndex == StartIndex(lines)
  {
    startIndex := 0;
    var i := 0;
    while i < |lines|
      invariant i <= |lines|
      invariant MarkerLine(lines, i) == MarkerLine(lines, 0)
    {
      if Contains(lines[i], Marker) {
        startIndex := i;
        break;
      }
      i := i + 1;
    }
  }

  // ---------------------------------------------------------------------------------------
  // Properties
  // ---------------------------------------------------------------------------------------

  /** Nothing after the first stop line reaches the cards. */
  lemma {:induction false} StopLineEndsScan(lines: seq<string>, k: nat, st: ScanState)
    requires k < |lines| && IsStopLine(lines[k])
    ensures ScanLines(lines, st) == ScanLines(lines[..k], st)
    decreases k
  {
    if k == 0 {
      assert lines[..0] == [];
    } else {
      assert lines[1..][..k - 1] == lines[..k][1..];
      var kind := Classify(lines[0]);
      if kind != Stop {
        StopLineEndsScan(lines[1..], k - 1, ApplyLine(st, kind));
      }
    }
  }

  /** Every card returned has at least one field. */
  lemma {:induction false} CardsHaveFields(lines: seq<string>, st: ScanState)
    requires forall k :: 0 <= k < |st.results| ==> HasFields(st.results[k])
    ensures var rs := Flush(ScanLines(lines, st));
      forall k :: 0 <= k < |rs| ==> HasFields(rs[k])
    decreases |lines|
  {
    if lines != [] {
      ScanOne(lines, st);
      var kind := Classify(lines[0]);
      if kind != Stop {
        CardsHaveFields(lines[1..], ApplyLine(st, kind));
      }
    }
  }

  /** Only the first card can lack a name: every later card was opened by a numbered line. */
  predicate NamedAfterFirst(st: ScanState) {
    (forall k :: 1 <= k < |st.results| ==> st.results[k].name.Some?)
    && (st.results != [] ==> st.current.name.Some?)
  }

  /** Pushing the card being filled keeps every card after the first named. */
  lemma FlushNamedAfterFirst(st: ScanState)
    requires NamedAfterFirst(st)
    ensures var rs := Flush(st);
      forall k :: 1 <= k < |rs| ==> rs[k].name.Some?
  {
    var rs := Flush(st);
    forall k | 1 <= k < |rs| ensures rs[k].name.Some? {
      if k < |st.results| {
        assert rs[k] == st.results[k];
      } else {
        assert rs[k] == st.current;
      }
    }
  }

  lemma {:induction false} NamelessOnlyFirst(lines: seq<string>, st: ScanState)
    requires NamedAfterFirst(st)
    ensures var rs := Flush(ScanLines(lines, st));
      forall k :: 1 <= k < |rs| ==> rs[k].name.Some?
    decreases |lines|
  {
    if lines == [] {
      FlushNamedAfterFirst(st);
    } else {
      ScanOne(lines, st);
      var kind := Classify(lines[0]);
      if kind == Stop {
        FlushNamedAfterFirst(st);
      } else {
        if kind.Entry? {
          FlushNamedAfterFirst(st);
        }
        NamelessOnlyFirst(lines[1..], ApplyLine(st, kind));
      }
    }
  }

  /** The returned cards have names, except possibly the first. */
  lemma LaterCardsNamed(content: string)
    requires SearchResults(content).Some?
    ensures var rs := SearchResults(content).value;
      forall k :: 1 <= k < |rs| ==> rs[k].name.Some?
  {
    var lines := Split(content, '\n');
    assert SearchResults(content) == Some(Flush(ScanLines(lines[StartIndex(lines)..], Initial)));
    NamelessOnlyFirst(lines[StartIndex(lines)..], Initial);
  }

  /** The returned cards all have some field. */
  lemma ReturnedCardsHaveFields(content: string)
    requires SearchResults(content).Some?
    ensures var rs := SearchResults(content).value;
      forall k :: 0 <= k < |rs| ==> HasFields(rs[k])
  {
    var lines := Split(content, '\n');
    assert SearchResults(content) == Some(Flush(ScanLines(lines[StartIndex(lines)..], Initial)));
    CardsHaveFields(lines[StartIndex(lines)..], Initial);
  }

  /** Of two description lines for the same card, the later one wins. */
  lemma LastSnippetWins(st: ScanState, first: string, second: string)
    requires Classify(first).DetailLine? && Classify(second).DetailLine?
    requires Classify(second).text != []
    ensures ScanLines([first, second], st).current.snippet == Some(Classify(second).text)
  {
    ScanOne([first, second], st);
    assert [first, second][1..] == [second];
    var mid := ApplyLine(st, Classify(first));
    ScanOne([second], mid);
    assert [second][1..] == [];
  }
}
