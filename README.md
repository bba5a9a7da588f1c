# Outreach sequence tools: a Dafny model

This project models the core of a recruiting assistant. A chat agent builds an *outreach
sequence* for a session. The sequence is a list of `SequenceStep` rows, each a `step_number` and
a `content` text. The agent's tools generate, revise, re-tone and extend that sequence.

The model covers:

- **The current tools** (`backend/src/agents/tools/core.py`):
  - `validate_sequence_params`;
  - `generate_sequence`: validation, the two-stage JSON recovery, the all-or-nothing structure
    check, then the delete and the inserts;
  - `revise_step`, `change_tone`, `add_step` and `generate_recruiting_asset`;
  - the `tool_definitions` catalog, as a constant.
- **The older single-tool module** (`backend/src/agents/tools.py`):
  - its `generate_sequence`, with its own prompt prefix and its own error behaviour;
  - its one-entry tool schema.
- **Two functions of the chat front end** (`frontend/app/components/Chat.tsx`):
  - `convertUrlsToLinks`, which cuts a message into text and links;
  - `parseSearchResults`, which reads the professional-search listing back into cards.
- **The listing itself**, as `search_and_analyze_professionals` in core.py prints it. This is
  what proves that the parser reads back exactly the listed professionals.

**State and external calls.** One session's steps form the class `Steps.SessionSteps`. Its field
`steps` holds the rows in the order every read returns them: ascending `step_number`, and rows
with equal numbers in insertion order. The class invariant is that order, and nothing more. The
store accepts whatever numbers the model replied with, so dense numbering 1..N is not an
invariant. Each operation takes the outcome of its model call as a parameter: the reply text,
or the failed call's exception (`change_tone` takes one outcome per step). `json.loads` is a
function parameter, and whether the database accepts the commit is a boolean parameter. The
editing tools return a `ToolOutcome`: the returned text, or the exception that escapes them. The tools that change state are methods with `modifies store`. Their
loops carry invariants and are proved against specification functions: `SortByNumber`,
`Numbered`, `InsertAt` and `CountBelow`. The front-end functions are methods with the source's
loops, proved equal to recursive specifications (`Build`, `MatchesFrom`, `ScanLines`).

**Where the code does not keep the numbering 1..N that `add_step`'s renumbering (core.py:209-211)
establishes, the model follows the code:**

- `generate_sequence` stores the numbers and contents exactly as parsed. It does not renumber,
  does not strip whitespace, and does not check that `step_number` is an integer or that
  `content` is a string.
- The current generator commits the delete before the inserts (core.py:91-92). A rejected insert
  therefore leaves the session empty; the old steps are not restored.
- `add_step` clamps only positions above N + 1. A position of zero or below is kept, and the new
  step sorts first.

**Differences between the two generators:**

- **Parse-failure message.** The current generator reports the fallback's exception text. The
  older one reports the text of the first decode error.
- **Bad elements.** The older generator does not check elements. A malformed element raises out
  of the function, where the current generator returns "Invalid step structure in generated
  sequence". `Legacy.GeneratorsAgreeOnStructure` shows that both reject exactly the same batches.

## Model

Rows whose third column begins "catalog check" or "literal check" are facts about constant
data: the tool catalog, or one fixed text. The search-listing lemmas that state one literal each
are proof steps, and only the ones listed here have rows.

| member | source | states |
|---|---|---|
| Text.TrimBy | backend/src/agents/tools/core.py:151 | the stripped text is one contiguous slice of the input with only whitespace before and after it, and it starts and ends with non-whitespace (so every non-whitespace character survives, in order) |
| Text.DecimalRoundTrip | backend/src/agents/tools/core.py:136 | the decimal text a natural number is formatted as reads back as that number |
| Text.IntDecimalRoundTrip | backend/src/agents/tools/core.py:136 | the text `str(n)` gives any integer step number, negative ones with their minus, reads back as that number, so distinct numbers give distinct messages |
| Text.SplitJoin | frontend/app/components/Chat.tsx:317 | splitting lines joined by the separator gives back exactly those lines |
| Text.JoinSplit | frontend/app/components/Chat.tsx:317 | joining the pieces of a split gives back the original text |
| JsonModel.Lookup | backend/src/agents/tools/core.py:98-99 | `d[key]` is the value of a member with that key after which no member has the key (the last duplicate wins) |
| JsonModel.Iterate | backend/src/agents/tools/core.py:85-86 | a list yields its items, an object the key of each of its members and a string its characters (both as strings); anything else is not iterable, with the Python type name |
| Steps.InsertByNumber | backend/src/agents/tools/core.py:17-19 | adding a row to rows read in order keeps them in order and adds exactly that row |
| Steps.SortByNumber | backend/src/agents/tools/core.py:209 | the rows read back are sorted by step number and are a permutation of the rows stored |
| Steps.InsertByNumberSplits | backend/src/agents/tools/core.py:209 | inserting into ordered rows places the new row right after the rows numbered at most its own |
| Steps.SortSortedIsIdentity | backend/src/agents/tools/core.py:18 | rows that are already in order are read back unchanged |
| Steps.Numbered | backend/src/agents/tools/core.py:210-211 | giving texts the numbers 1..N in order yields a dense sequence with those contents |
| Steps.SessionSteps.constructor | backend/src/agents/tools/core.py:17-19 | a new session owns no steps and satisfies the ordering invariant |
| Recovery.BracketSpan | backend/src/agents/tools/core.py:79 | `\[.*\]` with DOTALL matches exactly when some `]` follows some `[`; the match runs from the first `[` to the last `]` |
| Recovery.Recover | backend/src/agents/tools/core.py:75-83 | recovery succeeds exactly when the whole reply decodes, or the bracketed span exists and decodes; a reply that decodes whole is used as is, and otherwise a recovered value is what the span decodes to; a failure keeps the whole reply's decode error first and, second, the span's decode error or, with no span, the missing-match error |
| Recovery.RecoverFromProse | backend/src/agents/tools/core.py:75-83 | a reply that is prose around one bracketed block recovers exactly what the block decodes to, or fails with both decode errors |
| Recovery.NoBracketsNoRecovery | backend/src/agents/tools/core.py:79-83 | without a `]` after a `[`, an undecodable reply fails with the missing-match error |
| ToolSchemas.OptionalParams | backend/src/agents/tools/core.py:342-453 | the optional arguments of a tool are exactly its declared parameters that are not required |
| Core.ValidateSequenceParams | backend/src/agents/tools/core.py:26-32 | no error exactly when both texts are non-empty and at most 100 characters; a missing text is reported before an over-long one |
| Core.Rows | backend/src/agents/tools/core.py:95-100 | one row per element, in list order, each with the element's own number and content |
| Core.GenerateSequence | backend/src/agents/tools/core.py:34-121 | every outcome and its message: validation error, call failure, parse failure with the raw reply, not iterable, invalid structure (store untouched in each); success stores exactly the parsed rows; a rejected save empties the session |
| Core.CheckStructure | backend/src/agents/tools/core.py:85-87 | accepts exactly when every element is a dict holding both keys; a rejection names a malformed element |
| Core.SaveBatch | backend/src/agents/tools/core.py:89-117 | on success the session holds exactly the parsed rows; on failure it is empty, because the delete was already committed, and the message carries the database error |
| Core.InsertRows | backend/src/agents/tools/core.py:95-104 | the insert loop reports whether every row could be formed, and then the session holds exactly those rows in read order |
| Core.SavedBatchIsTheParsedRows | backend/src/agents/tools/core.py:95-104 | the stored rows are a permutation of the parsed rows, and equal to them whenever they were listed in ascending order |
| Core.GeneratedNumberingIsNotRenumbered | backend/src/agents/tools/core.py:98 | a reply numbering its steps 2 and 5 is stored as steps 2 and 5, which is not dense |
| Core.NonListBatchValidOnlyWhenEmpty | backend/src/agents/tools/core.py:85-87 | a top-level object or string passes the structure check only when it is empty |
| Core.FindStep | backend/src/agents/tools/core.py:134 | finds the first step with the number, or reports that no step has it |
| Core.ReviseStep | backend/src/agents/tools/core.py:133-154 | a missing step gives "Step N not found." and nothing changes; a failed model call or commit raises its exception and nothing changes; otherwise only that step's content changes, to the stripped reply |
| Core.ReviseOnDense | backend/src/agents/tools/core.py:134-136 | on dense numbering step n exists exactly when 1 <= n <= N, and revising it keeps the numbering dense |
| Core.ReviseMissingStepExample | backend/src/agents/tools/core.py:135-136 | revising step 5 of a three-step sequence reports "Step 5 not found." |
| Core.FirstFailure | backend/src/agents/tools/core.py:162-171 | the first failed call among the per-step calls: every earlier call succeeded, and there is none exactly when every call succeeded |
| Core.RewriteContents | backend/src/agents/tools/core.py:162-171 | the per-step loop stops at the first failed call; when none fails, the numbers are kept and step k holds the k-th stripped reply |
| Core.ChangeTone | backend/src/agents/tools/core.py:156-176 | an empty sequence gives "No steps found for this session." and stays empty; the first failed per-step call, or a failed commit, raises its exception and nothing changes; otherwise the step numbers are unchanged and step k gets the k-th stripped reply |
| Core.SameNumbersSameDensity | backend/src/agents/tools/core.py:162-172 | rewriting contents keeps a sequence dense, and ordered, exactly when it was before |
| Core.ClampPosition | backend/src/agents/tools/core.py:181-182 | a missing position or one above N becomes N + 1; every other position, including zero and negatives, is kept |
| Core.ShiftFacts | backend/src/agents/tools/core.py:200-202 | the shift keeps ordered steps ordered with their contents, and exactly the steps numbered below p stay at most p |
| Core.SortAfterShift | backend/src/agents/tools/core.py:205-209 | after the shift, sorting places the new text right after the steps numbered below p |
| Core.AddStep | backend/src/agents/tools/core.py:178-215 | a failed model call or commit raises its exception and nothing changes; otherwise the steps become the old contents with the stripped reply inserted after the steps numbered below the clamped position, renumbered 1..N+1, and the message names the clamped position |
| Core.ShiftFrom | backend/src/agents/tools/core.py:200-202 | the shift loop raises by one exactly the steps numbered p or more |
| Core.Renumber | backend/src/agents/tools/core.py:210-211 | the renumbering loop gives the steps the numbers 1..N in order and keeps their contents |
| Core.AddStepOnDense | backend/src/agents/tools/core.py:199-211 | on dense numbering and 1 <= p <= N+1: the new step is step p, the earlier steps are untouched, and old steps p..N become p+1..N+1 with their contents |
| Core.AddStepNonPositive | backend/src/agents/tools/core.py:181-211 | a position of zero or below is kept; the new step becomes step 1 and every old step moves up by one |
| Core.AddStepAppends | backend/src/agents/tools/core.py:181-182 | with no position, or one above N, a dense sequence gets the new step appended as step N+1 |
| Core.AddStepExample | backend/src/agents/tools/core.py:199-211 | [A, B] with X added at position 2 gives [A, X, B] numbered 1, 2, 3 |
| Core.AddStepDefaultOnGappedNumbers | backend/src/agents/tools/core.py:181-211 | on steps numbered 2, 3, 4 the default position 4 puts the new step third, not last |
| Core.GenerateRecruitingAsset | backend/src/agents/tools/core.py:217-241 | a failed model call or commit raises its exception and nothing changes; otherwise the whole sequence becomes one step, numbered 1, holding the stripped reply |
| Core.ToolDefinitionsWellFormed | backend/src/agents/tools/core.py:342-453 | every tool in the catalog declares each parameter once, declares every required name, and requires `session_id` |
| Core.GenerateSequenceOptional | backend/src/agents/tools/core.py:343-358 | catalog check: `step_count` is the only optional argument of generate_sequence |
| Core.AddStepOptional | backend/src/agents/tools/core.py:391-405 | catalog check: `position` is the only optional argument of add_step |
| Core.SearchOptional | backend/src/agents/tools/core.py:422-436 | catalog check: `location` is the only optional argument of the professional search |
| Legacy.LegacyPrompt | backend/src/agents/tools.py:12-23 | the prompt always ends with the base prompt; it equals the base prompt exactly when the step count is absent or zero, and otherwise it is exactly the count line followed by the base prompt |
| Legacy.StepCountReadBack | backend/src/agents/tools.py:22-23 | literal check: a positive step count appears in decimal right after "Generate a " and reads back as that count |
| Legacy.ElementError | backend/src/agents/tools.py:48-52 | reading both keys raises exactly when the element is not a dict with both; a non-dict fails on its subscript, a missing `step_number` gives KeyError('step_number'), and a dict with `step_number` but no `content` gives KeyError('content') |
| Legacy.ReadElement | backend/src/agents/tools.py:48-53 | an element is readable exactly when it is a dict with both keys, and then it stages its row |
| Legacy.FirstElementError | backend/src/agents/tools.py:48-52 | the loop raises exactly when some element is malformed, and it raises the error of the first such element |
| Legacy.ScanReads | backend/src/agents/tools.py:48-54 | the element loop stops at the first unreadable element with its error |
| Legacy.LegacyGenerateSequence | backend/src/agents/tools.py:11-58 | each outcome: call error, parse failure (warning, first decode error, raw reply), not iterable, the first element's exception, database error; only success changes the store, which then holds exactly the parsed rows |
| Legacy.GeneratorsAgreeOnStructure | backend/src/agents/tools.py:48-52 | the legacy loop raises on exactly the batches the current structure check rejects (a corollary of `Legacy.FirstElementError` set beside `Core.CheckStructure`) |
| Legacy.StringElementRaises | backend/src/agents/tools.py:48-52 | a batch whose first element is a string raises a subscript TypeError naming `str` |
| Legacy.LegacySchemaShape | backend/src/agents/tools.py:61-80 | one tool, well formed, requiring role, location and tone, with only `step_count` optional and no session parameter |
| UrlLinks.SchemeLength | frontend/app/components/Chat.tsx:126 | a match's scheme is followed by a non-whitespace character and holds no whitespace |
| UrlLinks.UrlEnd | frontend/app/components/Chat.tsx:126 | a match runs past its scheme to the next whitespace or the end: a maximal non-whitespace run |
| UrlLinks.NextUrl | frontend/app/components/Chat.tsx:131 | the search finds the leftmost match start at or after the position, or reports that none exists |
| UrlLinks.MatchesFrom | frontend/app/components/Chat.tsx:129-133 | the matches found from a position lie after it, in order, without overlapping, within the text |
| UrlLinks.CollectMatches | frontend/app/components/Chat.tsx:129-133 | the `exec` loop collects exactly the matches, left to right |
| UrlLinks.LinkDisplay | frontend/app/components/Chat.tsx:149-157 | an address containing "linkedin.com" is labelled "View LinkedIn Profile"; otherwise one longer than 30 characters is labelled with its first 30 characters and "..."; otherwise the label is the address itself |
| UrlLinks.LinkNodes | frontend/app/components/Chat.tsx:139-186 | the `forEach` over the matches and the trailing text produce exactly the specified nodes |
| UrlLinks.ConvertUrlsToLinks | frontend/app/components/Chat.tsx:122-187 | the result is the specified text and link nodes for the matches of the text (empty for empty text) |
| UrlLinks.BuildRoundTrip | frontend/app/components/Chat.tsx:139-186 | concatenating the text nodes and the link targets in order gives back the input exactly |
| UrlLinks.NoUrlWholeText | frontend/app/components/Chat.tsx:135-136 | a text without any address is returned as a single text node, or nothing when it is empty |
| UrlLinks.NoEmptyTextNodes | frontend/app/components/Chat.tsx:144-184 | no text node is empty |
| UrlLinks.LinksAreUrls | frontend/app/components/Chat.tsx:148-178 | every link targets an address of the form the expression matches and carries the label rule's label for it |
| UrlLinks.TextHasNoUrl | frontend/app/components/Chat.tsx:126-145 | no text node holds an address the search would have linked |
| UrlLinks.LinkFollowedBySpace | frontend/app/components/Chat.tsx:126 | a link is never directly followed by another link: the next node, if any, is text starting with whitespace |
| SearchResultsParser.NameOf | frontend/app/components/Chat.tsx:352 | the name is the numbered line with exactly its leading digits, the full stop and the whitespace after it removed: a suffix that starts with non-whitespace, with only whitespace between the full stop and it |
| SearchResultsParser.MarkerLine | frontend/app/components/Chat.tsx:321-327 | the first line at or after a position that holds the marker phrase, or none |
| SearchResultsParser.FindStart | frontend/app/components/Chat.tsx:321-327 | the search loop starts the scan at the first marker line, or at line 0 |
| SearchResultsParser.SearchResults | frontend/app/components/Chat.tsx:312-314 | `null` exactly when the message lacks the marker phrase |
| SearchResultsParser.ParseSearchResults | frontend/app/components/Chat.tsx:312-377 | the line loop, with its mutable card and result list, returns exactly the cards the line-by-line scan specifies |
| SearchResultsParser.ScanSection | frontend/app/components/Chat.tsx:330-369 | the line loop from the start line ends with exactly the cards pushed and the card being filled that the line-by-line scan specifies |
| SearchResultsParser.HandleLine | frontend/app/components/Chat.tsx:347-368 | one non-stop line updates the cards as the scan's step specifies: a numbered line pushes a card with fields and opens a named one, a field line sets its field, an empty description changes nothing |
| SearchResultsParser.StopLineEndsScan | frontend/app/components/Chat.tsx:333-340 | nothing after the first suggestion line affects the cards |
| SearchResultsParser.CardsHaveFields | frontend/app/components/Chat.tsx:349-374 | a scan never pushes a card without fields |
| SearchResultsParser.NamelessOnlyFirst | frontend/app/components/Chat.tsx:347-353 | every card after the first was opened by a numbered line and has a name |
| SearchResultsParser.LaterCardsNamed | frontend/app/components/Chat.tsx:347-353 | in the returned cards, every card but the first has a name |
| SearchResultsParser.ReturnedCardsHaveFields | frontend/app/components/Chat.tsx:371-376 | every returned card has some field |
| SearchResultsParser.LastSnippetWins | frontend/app/components/Chat.tsx:359-364 | of two description lines for one card, the later non-empty one is its snippet |
| SearchListing.Cards | backend/src/agents/tools/core.py:271-275 | one named, link-less card per record, in listing order; entries that are not records give none |
| SearchListing.HeaderText | backend/src/agents/tools/core.py:266-269 | the first line of the listing holds the marker phrase and no line break |
| SearchListing.HeaderKind | backend/src/agents/tools/core.py:266-269 | the parser skips the first line as the count line |
| SearchListing.ListingRoundTrip | backend/src/agents/tools/core.py:261-275 | when its fields are readable, the listing reads back as exactly the cards of its records, in order, with the printed name, source and description |
| SearchListing.NoResultsReadsEmpty | backend/src/agents/tools/core.py:261-263 | the no-results message carries the marker and reads back as no cards |

## Left out

- Calls to the language model are not made. Each call's outcome (the reply, or the exception of
  a failed call) is a parameter, and the prompts of the current tools are not modelled, including its `step_count` line (core.py:46-57).
  `get_user_context` only feeds those prompts.
- `json.loads` is an arbitrary function parameter. Its grammar and its error texts are not
  modelled.
- `emit_sequence_update` and the debug prints are not modelled. They only send or log the
  sequence. An exception raised by `emit_sequence_update` after a successful commit is not
  modelled either: `Core.ReviseStep`, `Core.ChangeTone`, `Core.AddStep` and
  `Core.GenerateRecruitingAsset` would then raise with the new steps already stored.
- A reply whose `message.content` is `None` is not modelled; replies are strings.
- The database is an in-memory list, in read order:
  - row identity and physical order are not modelled;
  - rows with equal numbers are taken to read back in insertion order;
  - commits and rollbacks appear only through what a session then reads.
- Core.RowOf: an element whose `step_number` is not an integer or whose `content` is not a
  string gives no row, and the save is then reported as rejected. The source's columns are
  nullable and its default SQLite database stores values of other types, so the source stores a
  JSON `null`, and with SQLite also a string, float or boolean value, and reports success. For
  those inputs `Core.GenerateSequence`, `Core.SaveBatch` and `Legacy.LegacyGenerateSequence`
  report a database error and leave the session empty (or unchanged, in the legacy module), where
  the source stores the rows. Step numbers and contents are modelled as an integer and a string
  only.
- Core.SaveBatch: the delete and its own commit (core.py:91-92) are assumed to succeed. The one
  `dbAccepts` flag covers the inserts' commit only. A failure of the delete itself, which would
  keep the old steps, is not modelled. Nor is a failure after the inserts' commit, in the
  verification read or in `emit_sequence_update` (core.py:108-111): the source then returns
  "Error saving sequence to database: ..." with the new rows already stored, an outcome the model
  cannot produce.
- JsonModel.Iterate: an object yields the key of every member of the decoded text, so a key that
  appears twice is yielded twice. Python's `dict` yields it once. No modelled outcome depends on
  this, because every key is a string and the structure check rejects any string item.
- Core.ChangeTone: requires exactly one call outcome per stored step. The source makes one model
  call per step, so the outcomes are that oracle's answers; those after the first failure are
  never used.
- Legacy.LegacyGenerateSequence:
  - it performs every key read before any row is staged, which has the same outcome because
    nothing is committed before the end;
  - the delete that a raised exception leaves uncommitted is treated as discarded, so the stored
    steps are unchanged.
- Python exceptions are outcomes (`Raised` in the older module, `Raises` in the editing tools)
  rather than unwinding.
- `search_and_analyze_professionals`, other than the listing text it prints, is not modelled:
  - the web search is not part of this model;
  - the session update and the error path are not modelled either;
  - listing fields are modelled as strings or absent; a present non-string value is not modelled.
- `generate_personalized_outreach` is not modelled beyond its catalog entry. It is a prompt
  around a network search that is not part of this model.
- Chat.tsx rendering (React elements, keys, styles) is not modelled. A link is its target and its
  label.
- Strings are sequences of Unicode scalar values. JavaScript counts UTF-16 code units, so the
  30-character label cut differs for characters outside the Basic Multilingual Plane.
- Whitespace is modelled as two fixed character sets: Python's `str.strip()` set and
  JavaScript's `\s` and `trim()` set.
