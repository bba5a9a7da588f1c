/** The sequence tools of backend/src/agents/tools/core.py: input validation, generating a whole
    sequence from a model reply, revising one step, rewriting every step's tone, inserting a
    step, and replacing the sequence with a single asset. Every language-model call's outcome
    (its reply or its exception) is an input of the operation; `json.loads` is a function
    parameter; the database is the session's `SessionSteps` object. */
module Core {
  import opened Wrappers
  import opened Text
  import opened JsonModel
  import opened Steps
  import opened Recovery
  import opened ToolSchemas

  // ---------------------------------------------------------------------------------------
  // validate_sequence_params
  // ---------------------------------------------------------------------------------------

  const MaxParamLength := 100
  const MissingParams := "Missing required parameters: role and location are required"
  const ParamsTooLong := "Role and location exceed maximum length limits"

  /** `None` when both texts are present and short enough; otherwise the error message, where
      a missing text is reported in preference to an over-long one. */
  function ValidateSequenceParams(role: string, location: string): (err: Option<string>)
    ensures err.None? <==>
      (role != "" && location != "" && |role| <= MaxParamLength && |location| <= MaxParamLength)
    ensures (role == "" || location == "") ==> err == Some(MissingParams)
    ensures (err.Some? && role != "" && location != "") ==> err == Some(ParamsTooLong)
  {
    if role == "" || location == "" then Some(MissingParams)
    else if |role| > MaxParamLength || |location| > MaxParamLength then Some(ParamsTooLong)
    else None
  }

  // ---------------------------------------------------------------------------------------
  // generate_sequence
  // ---------------------------------------------------------------------------------------

  /** What the chat-completion call gave back: the reply text, or an exception's message. */
  datatype Completion = Completion(content: string) | CallFailed(error: string)

  const InvalidStructure := "Invalid step structure in generated sequence"
  const SequenceSaved := "Outreach sequence generated and saved successfully."

  /** Every element the generator iterates over is a dict with both keys. */
  predicate AllStepObjects(es: seq<Json>) {
    forall k :: 0 <= k < |es| ==> IsStepObject(es[k])
  }

  /** The row an element becomes when its `step_number` is an integer and its `content` a
      string; any other value is one the model treats as rejected by the database. */
  function RowOf(e: Json): (row: Option<Step>)
    requires IsStepObject(e)
    ensures row.Some? <==>
      (Lookup(e.fields, "step_number").JInt? && Lookup(e.fields, "content").JStr?)
    ensures row.Some? ==> (row.value ==
      Step(Lookup(e.fields, "step_number").i, Lookup(e.fields, "content").s))
  {
    match (Lookup(e.fields, "step_number"), Lookup(e.fields, "content"))
    case (JInt(n), JStr(c)) => Some(Step(n, c))
    case _ => None
  }

  predicate AllRows(es: seq<Json>) {
    AllStepObjects(es) && forall k :: 0 <= k < |es| ==> RowOf(es[k]).Some?
  }

  /** The rows of a batch, one per element, in list order, each with its own number. */
  function Rows(es: seq<Json>): (rows: seq<Step>)
    requires AllRows(es)
    ensures |rows| == |es|
    ensures forall k :: 0 <= k < |es| ==>
      rows[k].number == Lookup(es[k].fields, "step_number").i
      && rows[k].content == Lookup(es[k].fields, "content").s
  {
    seq(|es|, k requires 0 <= k < |es| => RowOf(es[k]).value)
  }

  /** `generate_sequence`: validate, recover a JSON value from the reply, check every element,
      then delete the session's steps and insert the batch. The delete is committed before the
      inserts, so a failed insert leaves the session with no steps at all. */
  method GenerateSequence(store: SessionSteps, role: string, location: string,
                          completion: Completion, loads: Loads, dbAccepts: bool, dbError: string)
    returns (msg: string)
    requires store.Valid()
    modifies store
    ensures store.Valid()
    ensures ValidateSequenceParams(role, location).Some? ==>
      msg == ValidateSequenceParams(role, location).value && store.steps == old(store.steps)
    ensures ValidateSequenceParams(role, location).None? ==>
      match completion
      case CallFailed(e) =>
        msg == "Error generating sequence: " + e && store.steps == old(store.steps)
      case Completion(content) =>
        match Recover(content, loads)
        case Unrecovered(_, second) =>
          msg == "Failed to parse sequence steps: " + second + "\n\nRaw content:\n" + content
          && store.steps == old(store.steps)
        case Recovered(j) =>
          match Iterate(j)
          case NotIterable(t) =>
            msg == "Error generating sequence: '" + t + "' object is not iterable"
            && store.steps == old(store.steps)
          case Items(es) =>
            if !AllStepObjects(es) then
              msg == InvalidStructure && store.steps == old(store.steps)
            else if AllRows(es) && dbAccepts then
              msg == SequenceSaved && store.steps == SortByNumber(Rows(es))
            else
              msg == "Error saving sequence to database: " + dbError && store.steps == []
  {
    var invalid := ValidateSequenceParams(role, location);
    if invalid.Some? {
      return invalid.value;
    }
    if completion.CallFailed? {
      return "Error generating sequence: " + completion.error;
    }
    var content := completion.content;
    var recovered := Recover(content, loads);
    if recovered.Unrecovered? {
      return "Failed to parse sequence steps: " + recovered.secondError + "\n\nRaw content:\n" + content;
    }
    var iteration := Iterate(recovered.value);
    if iteration.NotIterable? {
      return "Error generating sequence: '" + iteration.typeName + "' object is not iterable";
    }
    var es := iteration.elems;
    var wellFormed := CheckStructure(es);
    if !wellFormed {
      return InvalidStructure;
    }
    msg := SaveBatch(store, es, dbAccepts, dbError);
  }

  /** The structure check: every element must be a dict holding both keys, and one malformed
      element rejects the whole batch. */
  method CheckStructure(es: seq<Json>) returns (ok: bool)
    ensures ok <==> AllStepObjects(es)
    ensures !ok ==> exists k :: 0 <= k < |es| && !IsStepObject(es[k])
  {
    var i := 0;
    while i < |es|
      invariant 0 <= i <= |es|
      invariant forall k :: 0 <= k < i ==> IsStepObject(es[k])
    {
      if !IsStepObject(es[i]) {
        return false;
      }
      i := i + 1;
    }
    return true;
  }

  /** The save: the delete is committed on its own, then one insert per element in list order,
      committed together; a rejected insert rolls back the inserts but not the delete. */
  method SaveBatch(store: SessionSteps, es: seq<Json>, dbAccepts: bool, dbError: string)
    returns (msg: string)
    requires store.Valid() && AllStepObjects(es)
    modifies store
    ensures store.Valid()
    ensures AllRows(es) && dbAccepts ==> msg == SequenceSaved && store.steps == SortByNumber(Rows(es))
    ensures !(AllRows(es) && dbAccepts) ==>
      msg == "Error saving sequence to database: " + dbError && store.steps == []
  {
    store.steps := [];
    var opts := RowOptions(es);
    var typed := InsertRows(store, opts);
    if typed && dbAccepts {
      assert Values(opts) == Rows(es);
      msg := SequenceSaved;
    } else {
      store.steps := [];
      msg := "Error saving sequence to database: " + dbError;
    }
  }

  /** The row of each element, in list order. */
  function RowOptions(es: seq<Json>): (opts: seq<Option<Step>>)
    requires AllStepObjects(es)
    ensures |opts| == |es| && forall k :: 0 <= k < |es| ==> opts[k] == RowOf(es[k])
    ensures (forall k :: 0 <= k < |es| ==> opts[k].Some?) <==> AllRows(es)
    ensures AllRows(es) ==> forall k :: 0 <= k < |es| ==> opts[k] == Some(Rows(es)[k])
  {
    seq(|es|, k requires 0 <= k < |es| => RowOf(es[k]))
  }

  /** The insert loop: each row is added in list order; `typed` reports whether every row could
      be formed, and then the session holds exactly those rows in read order. */
  method InsertRows(store: SessionSteps, opts: seq<Option<Step>>) returns (typed: bool)
    requires store.Valid() && store.steps == []
    modifies store
    ensures store.Valid()
    ensures typed <==> forall k :: 0 <= k < |opts| ==> opts[k].Some?
    ensures typed ==> store.steps == SortByNumber(Values(opts))
  {
    typed := true;
    ghost var rows: seq<Step> := [];
    ghost var bad := 0;
    var i := 0;
    while i < |opts|
      invariant 0 <= i <= |opts|
      invariant store.Valid()
      invariant !typed ==> bad < i && opts[bad].None?
      invariant typed ==> |rows| == i && store.steps == SortByNumber(rows)
      invariant typed ==> forall k :: 0 <= k < i ==> opts[k] == Some(rows[k])
    {
      var row := opts[i];
      if row.None? {
        typed, bad := false, i;
      } else if typed {
        SortAppend(rows, row.value);
        RowsExtend(opts, rows, i);
        rows := rows + [row.value];
        store.steps := InsertByNumber(store.steps, row.value);
      }
      i := i + 1;
    }
    if typed {
      assert rows == Values(opts);
    }
  }

  /** One more present row extends the rows read so far. */
  lemma RowsExtend(opts: seq<Option<Step>>, rows: seq<Step>, i: nat)
    requires i < |opts| && opts[i].Some? && |rows| == i
    requires forall k :: 0 <= k < i ==> opts[k] == Some(rows[k])
    ensures forall k :: 0 <= k < i + 1 ==> opts[k] == Some((rows + [opts[i].value])[k])
  {
  }

  /** The values of options that are all present. */
  function Values(opts: seq<Option<Step>>): (vs: seq<Step>)
    requires forall k :: 0 <= k < |opts| ==> opts[k].Some?
    ensures |vs| == |opts| && forall k :: 0 <= k < |opts| ==> opts[k] == Some(vs[k])
  {
    seq(|opts|, k requires 0 <= k < |opts| => opts[k].value)
  }

  /** A saved batch is exactly the parsed rows with their own numbers: nothing renumbered,
      nothing lost, and in list order whenever the model listed them in ascending order. */
  lemma {:induction false} SavedBatchIsTheParsedRows(es: seq<Json>)
    requires AllRows(es)
    ensures multiset(SortByNumber(Rows(es))) == multiset(Rows(es))
    ensures Sorted(Rows(es)) ==> SortByNumber(Rows(es)) == Rows(es)
  {
    if Sorted(Rows(es)) {
      SortSortedIsIdentity(Rows(es));
    }
  }

  /** A reply numbering its two steps 2 and 5. */
  const GappedReply := [JObj([("step_number", JInt(2)), ("content", JStr("a"))]),
                        JObj([("step_number", JInt(5)), ("content", JStr("b"))])]

  /** The generator does not establish dense numbering: a reply numbering its steps 2 and 5 is
      stored as steps 2 and 5. */
  lemma GeneratedNumberingIsNotRenumbered()
    ensures AllRows(GappedReply)
      && SortByNumber(Rows(GappedReply)) == [Step(2, "a"), Step(5, "b")]
      && !Dense(SortByNumber(Rows(GappedReply)))
  {
    GappedReplyRows();
    StoredAsNumbered(GappedReply, [Step(2, "a"), Step(5, "b")]);
  }

  /** A batch whose rows are already in order is stored exactly as the rows, so a first step
      numbered other than 1 stays that way. */
  lemma StoredAsNumbered(es: seq<Json>, s: seq<Step>)
    requires AllRows(es) && Rows(es) == s && Sorted(s)
    ensures SortByNumber(Rows(es)) == s
    ensures s != [] && s[0].number != 1 ==> !Dense(SortByNumber(Rows(es)))
  {
    SortSortedIsIdentity(s);
  }

  lemma GappedReplyRows()
    ensures AllRows(GappedReply) && Rows(GappedReply) == [Step(2, "a"), Step(5, "b")]
  {
    StepElementRow(2, "a");
    StepElementRow(5, "b");
  }

  /** A two-key step element yields the row it spells out. */
  lemma StepElementRow(n: int, c: string)
    ensures var e := JObj([("step_number", JInt(n)), ("content", JStr(c))]);
      IsStepObject(e) && RowOf(e) == Some(Step(n, c))
  {
    var e := JObj([("step_number", JInt(n)), ("content", JStr(c))]);
    assert e.fields[0].0 == "step_number" && e.fields[1].0 == "content";
  }

  /** A top-level object or string is iterable, but its items are strings, so the structure
      check accepts it only when it is empty (and then the session is cleared). */
  lemma NonListBatchValidOnlyWhenEmpty(j: Json)
    requires j.JObj? || j.JStr?
    ensures Iterate(j).Items? && (AllStepObjects(Iterate(j).elems) <==> Iterate(j).elems == [])
  {
    var es := Iterate(j).elems;
    if es != [] {
      assert es[0].JStr?;
    }
  }

  // ---------------------------------------------------------------------------------------
  // revise_step
  // ---------------------------------------------------------------------------------------

  /** `filter_by(step_number=n).first()`: the first step, in read order, numbered `n`. */
  function FindStep(s: seq<Step>, n: int): (r: Option<nat>)
    ensures r.Some? ==> (r.value < |s| && s[r.value].number == n
      && forall k :: 0 <= k < r.value ==> s[k].number != n)
    ensures r.None? ==> forall k :: 0 <= k < |s| ==> s[k].number != n
    decreases |s|
  {
    if s == [] then None
    else if s[0].number == n then Some(0)
    else
      match FindStep(s[1..], n)
      case None => None
      case Some(k) => Some(k + 1)
  }

  /** How one of the editing tools ends: the text it returns, or the message of the exception
      that escapes it (a failed model call, or a failed commit). */
  datatype ToolOutcome = Returns(message: string) | Raises(exception: string)

  /** `revise_step`: a missing step is reported and nothing changes. Otherwise the model is
      called; when the call or the commit fails the exception escapes and nothing is stored,
      and when both succeed that step's content becomes the stripped reply and nothing else
      changes. */
  method ReviseStep(store: SessionSteps, stepNumber: int, completion: Completion,
                    commitOk: bool, dbError: string) returns (out: ToolOutcome)
    requires store.Valid()
    modifies store
    ensures store.Valid()
    ensures match FindStep(old(store.steps), stepNumber)
      case None =>
        out == Returns("Step " + IntToDecimal(stepNumber) + " not found.")
        && store.steps == old(store.steps)
      case Some(i) =>
        match completion
        case CallFailed(e) => out == Raises(e) && store.steps == old(store.steps)
        case Completion(reply) =>
          if commitOk then
            out == Returns("Step " + IntToDecimal(stepNumber) + " revised.")
            && store.steps == old(store.steps)[i := Step(stepNumber, PyStrip(reply))]
          else
            out == Raises(dbError) && store.steps == old(store.steps)
  {
    var found := FindStep(store.steps, stepNumber);
    if found.None? {
      return Returns("Step " + IntToDecimal(stepNumber) + " not found.");
    }
    if completion.CallFailed? {
      return Raises(completion.error);
    }
    if !commitOk {
      return Raises(dbError);
    }
    store.steps := store.steps[found.value := store.steps[found.value].(content := PyStrip(completion.content))];
    out := Returns("Step " + IntToDecimal(stepNumber) + " revised.");
  }

  /** On a densely numbered sequence, step `n` exists exactly when 1 <= n <= N, sits at index
      n - 1, and revising it keeps the numbering dense. */
  lemma {:induction false} ReviseOnDense(s: seq<Step>, n: int, c: string)
    requires Dense(s)
    ensures FindStep(s, n) == if 1 <= n <= |s| then Some(n - 1) else None
    ensures 1 <= n <= |s| ==> Dense(s[n - 1 := Step(n, c)])
  {
    var r := FindStep(s, n);
    if 1 <= n <= |s| {
      assert s[n - 1].number == n;
    }
  }

  /** Revising step 5 of a three-step sequence reports "Step 5 not found.". */
  lemma ReviseMissingStepExample(s: seq<Step>)
    requires Dense(s) && |s| == 3
    ensures FindStep(s, 5).None?
    ensures "Step " + IntToDecimal(5) + " not found." == "Step 5 not found."
  {
    ReviseOnDense(s, 5, "");
  }

  // ---------------------------------------------------------------------------------------
  // change_tone
  // ---------------------------------------------------------------------------------------

  const NoSteps := "No steps found for this session."

  /** Each reply stripped of surrounding whitespace. */
  function StripAll(replies: seq<string>): (cs: seq<string>)
    ensures |cs| == |replies| && forall k :: 0 <= k < |replies| ==> cs[k] == PyStrip(replies[k])
  {
    seq(|replies|, k requires 0 <= k < |replies| => PyStrip(replies[k]))
  }

  /** The index of the first failed call among the per-step calls, if any. */
  function FirstFailure(cs: seq<Completion>): (k: Option<nat>)
    ensures k.Some? ==> (k.value < |cs| && cs[k.value].CallFailed?
      && forall j :: 0 <= j < k.value ==> cs[j].Completion?)
    ensures k.None? <==> forall j :: 0 <= j < |cs| ==> cs[j].Completion?
    decreases |cs|
  {
    if cs == [] then None
    else if cs[0].CallFailed? then Some(0)
    else
      match FirstFailure(cs[1..])
      case None => None
      case Some(k) => Some(k + 1)
  }

  /** The reply texts of calls that all succeeded. */
  function Replies(cs: seq<Completion>): (rs: seq<string>)
    requires forall j :: 0 <= j < |cs| ==> cs[j].Completion?
    ensures |rs| == |cs| && forall j :: 0 <= j < |cs| ==> rs[j] == cs[j].content
  {
    seq(|cs|, j requires 0 <= j < |cs| => cs[j].content)
  }

  /** `change_tone`: with no steps, reported and nothing changes. Otherwise the model is called
      once per step in ascending order; the first failed call, or a failed commit, escapes as an
      exception and nothing is stored. When all succeed, step k gets the k-th stripped reply and
      every step keeps its number. */
  method ChangeTone(store: SessionSteps, tone: string, completions: seq<Completion>,
                    commitOk: bool, dbError: string) returns (out: ToolOutcome)
    requires store.Valid()
    requires |completions| == |store.steps|
    modifies store
    ensures store.Valid()
    ensures old(store.steps) == [] ==> out == Returns(NoSteps) && store.steps == []
    ensures old(store.steps) != [] ==>
      match FirstFailure(completions)
      case Some(k) => out == Raises(completions[k].error) && store.steps == old(store.steps)
      case None =>
        if commitOk then
          out == Returns("All steps updated to have a more " + tone + " tone.")
          && Numbers(store.steps) == Numbers(old(store.steps))
          && Contents(store.steps) == StripAll(Replies(completions))
        else
          out == Raises(dbError) && store.steps == old(store.steps)
  {
    if store.steps == [] {
      return Returns(NoSteps);
    }
    var failed, steps := RewriteContents(store.steps, completions);
    if failed.Some? {
      return Raises(completions[failed.value].error);
    }
    if !commitOk {
      return Raises(dbError);
    }
    SameNumbersSameDensity(steps, store.steps);
    store.steps := steps;
    out := Returns("All steps updated to have a more " + tone + " tone.");
  }

  /** The per-step loop of `change_tone`: step k's content becomes the k-th stripped reply,
      until the first failed call, which ends the loop. */
  method RewriteContents(steps: seq<Step>, completions: seq<Completion>)
    returns (failed: Option<nat>, r: seq<Step>)
    requires |completions| == |steps|
    ensures failed == FirstFailure(completions)
    ensures failed.None? ==>
      Numbers(r) == Numbers(steps) && Contents(r) == StripAll(Replies(completions))
  {
    r := steps;
    var i := 0;
    while i < |r|
      invariant 0 <= i <= |r| && |r| == |steps|
      invariant forall k :: 0 <= k < i ==> completions[k].Completion?
      invariant forall k :: 0 <= k < |r| ==> r[k].number == steps[k].number
      invariant forall k :: 0 <= k < i ==> r[k].content == PyStrip(completions[k].content)
    {
      if completions[i].CallFailed? {
        FailureAt(completions, i);
        return Some(i), r;
      }
      r := r[i := r[i].(content := PyStrip(completions[i].content))];
      i := i + 1;
    }
    failed := None;
    assert Numbers(r) == Numbers(steps);
    StrippedReplies(r, completions);
  }

  /** A failed call preceded only by successful ones is the first failure. */
  lemma FailureAt(cs: seq<Completion>, i: nat)
    requires i < |cs| && cs[i].CallFailed?
    requires forall k :: 0 <= k < i ==> cs[k].Completion?
    ensures FirstFailure(cs) == Some(i)
  {
  }

  /** Steps whose contents are the stripped replies, one by one, have those contents. */
  lemma StrippedReplies(r: seq<Step>, cs: seq<Completion>)
    requires |r| == |cs| && forall k :: 0 <= k < |cs| ==> cs[k].Completion?
    requires forall k :: 0 <= k < |r| ==> r[k].content == PyStrip(cs[k].content)
    ensures Contents(r) == StripAll(Replies(cs))
  {
  }

  /** Rewriting contents keeps the numbering: dense before exactly when dense after. */
  lemma SameNumbersSameDensity(a: seq<Step>, b: seq<Step>)
    requires Numbers(a) == Numbers(b)
    ensures Dense(a) <==> Dense(b)
    ensures Sorted(a) <==> Sorted(b)
  {
    assert forall k :: 0 <= k < |a| ==> a[k].number == Numbers(a)[k] == b[k].number;
  }

  // ---------------------------------------------------------------------------------------
  // add_step
  // ---------------------------------------------------------------------------------------

  /** A missing position, or one past the end, becomes N + 1; anything else, including zero
      and negative positions, is kept. */
  function ClampPosition(position: Option<int>, n: nat): (p: int)
    ensures p <= n + 1
    ensures position.Some? && position.value <= n ==> p == position.value
    ensures (position.None? || position.value > n) ==> p == n + 1
  {
    if position.None? || position.value > n then n + 1 else position.value
  }

  /** `cs` with `c` inserted before index `k`. */
  function InsertAt(cs: seq<string>, k: nat, c: string): (r: seq<string>)
    requires k <= |cs|
    ensures |r| == |cs| + 1 && r[k] == c
    ensures forall i :: 0 <= i < k ==> r[i] == cs[i]
    ensures forall i :: k <= i < |cs| ==> r[i + 1] == cs[i]
  {
    cs[..k] + [c] + cs[k..]
  }

  /** The shift pass: every step numbered `p` or more moves up by one. */
  ghost function Shifted(s: seq<Step>, p: int): (r: seq<Step>)
    ensures |r| == |s|
  {
    seq(|s|, k requires 0 <= k < |s| =>
      if s[k].number >= p then s[k].(number := s[k].number + 1) else s[k])
  }

  /** The shift keeps the steps in order and their contents, and afterwards exactly the steps
      that were numbered below `p` are numbered at most `p`. */
  lemma {:induction false} ShiftFacts(s: seq<Step>, p: int)
    requires Sorted(s)
    ensures Sorted(Shifted(s, p))
    ensures Contents(Shifted(s, p)) == Contents(s)
    ensures CountAtMost(Shifted(s, p), p) == CountBelow(s, p)
    decreases |s|
  {
    var sh := Shifted(s, p);
    if s != [] {
      var n := |s|;
      assert sh[..n - 1] == Shifted(s[..n - 1], p);
      ShiftFacts(s[..n - 1], p);
    }
  }

  /** The contents of a sequence with one step spliced in are the old contents with its text
      spliced in at the same place. */
  lemma ContentsOfSplice(sh: seq<Step>, k: nat, x: Step)
    requires k <= |sh|
    ensures Contents(sh[..k] + [x] + sh[k..]) == InsertAt(Contents(sh), k, x.content)
  {
    var r := sh[..k] + [x] + sh[k..];
    forall i | 0 <= i < |r| ensures Contents(r)[i] == InsertAt(Contents(sh), k, x.content)[i] {
      if i < k {
        assert r[i] == sh[i];
      } else if i > k {
        assert r[i] == sh[i - 1];
      }
    }
  }

  /** The sort pass after the shift places the new step right after the steps numbered below
      `p`, so its text lands at that index of the old contents. */
  lemma SortAfterShift(s: seq<Step>, p: int, c: string)
    requires Sorted(s)
    ensures Contents(SortByNumber(Shifted(s, p) + [Step(p, c)]))
      == InsertAt(Contents(s), CountBelow(s, p), c)
  {
    var sh := Shifted(s, p);
    var x := Step(p, c);
    ShiftFacts(s, p);
    assert (sh + [x])[..|sh|] == sh;
    assert SortByNumber(sh + [x]) == InsertByNumber(SortByNumber(sh), x);
    SortSortedIsIdentity(sh);
    InsertByNumberSplits(sh, x);
    ContentsOfSplice(sh, CountBelow(s, p), x);
  }

  /** `add_step`: clamp the position and call the model; a failed call or commit escapes as an
      exception and nothing is stored. Otherwise shift the steps at or after the position, add
      the new step with the clamped number, sort, and renumber 1..N+1: the result is the old
      contents with the stripped reply inserted after the steps numbered below the clamped
      position. */
  method AddStep(store: SessionSteps, stepContent: string, position: Option<int>,
                 completion: Completion, commitOk: bool, dbError: string) returns (out: ToolOutcome)
    requires store.Valid()
    modifies store
    ensures store.Valid()
    ensures match completion
      case CallFailed(e) => out == Raises(e) && store.steps == old(store.steps)
      case Completion(reply) =>
        if commitOk then
          var p := ClampPosition(position, |old(store.steps)|);
          out == Returns("New step added at position " + IntToDecimal(p) + ".")
          && store.steps ==
            Numbered(InsertAt(Contents(old(store.steps)), CountBelow(old(store.steps), p), PyStrip(reply)))
          && Dense(store.steps) && |store.steps| == |old(store.steps)| + 1
        else
          out == Raises(dbError) && store.steps == old(store.steps)
  {
    var steps := store.steps;
    var p := if position.None? || position.value > |steps| then |steps| + 1 else position.value;
    if completion.CallFailed? {
      return Raises(completion.error);
    }
    var all := InsertStep(steps, p, PyStrip(completion.content));
    if !commitOk {
      return Raises(dbError);
    }
    assert p == ClampPosition(position, |steps|);
    store.steps := all;
    out := Returns("New step added at position " + IntToDecimal(p) + ".");
  }

  /** The three passes of `add_step` on the ordered steps: shift, add the step numbered `p`,
      sort, renumber. */
  method InsertStep(steps: seq<Step>, p: int, c: string) returns (r: seq<Step>)
    requires Sorted(steps)
    ensures r == Numbered(InsertAt(Contents(steps), CountBelow(steps, p), c))
  {
    var shifted := ShiftFrom(steps, p);
    var sorted := SortByNumber(shifted + [Step(p, c)]);
    SortAfterShift(steps, p, c);
    r := Renumber(sorted);
  }

  /** The shift pass of `add_step`: every step numbered `p` or more moves up by one, in place. */
  method ShiftFrom(steps: seq<Step>, p: int) returns (r: seq<Step>)
    ensures r == Shifted(steps, p)
    ensures Sorted(steps) ==> Sorted(r) && Contents(r) == Contents(steps)
  {
    r := steps;
    var i := 0;
    while i < |r|
      invariant 0 <= i <= |r| && |r| == |steps|
      invariant forall k :: 0 <= k < i ==> r[k] == Shifted(steps, p)[k]
      invariant forall k :: i <= k < |r| ==> r[k] == steps[k]
    {
      if r[i].number >= p {
        r := r[i := r[i].(number := r[i].number + 1)];
      }
      i := i + 1;
    }
    if Sorted(steps) {
      ShiftFacts(steps, p);
    }
  }

  /** The renumbering pass of `add_step`: the steps, in order, get the numbers 1..N. */
  method Renumber(sorted: seq<Step>) returns (r: seq<Step>)
    ensures Dense(r) && Contents(r) == Contents(sorted)
    ensures r == Numbered(Contents(sorted))
  {
    r := sorted;
    var j := 0;
    while j < |r|
      invariant 0 <= j <= |r| && |r| == |sorted|
      invariant forall k :: 0 <= k < j ==> r[k] == Step(k + 1, sorted[k].content)
      invariant forall k :: j <= k < |r| ==> r[k] == sorted[k]
    {
      r := r[j := r[j].(number := j + 1)];
      j := j + 1;
    }
    DenseByContents(r);
  }

  /** A densely numbered sequence is determined by its contents. */
  lemma DenseByContents(s: seq<Step>)
    requires Dense(s)
    ensures s == Numbered(Contents(s))
  {
  }

  /** On dense numbering 1..N, the count of steps below `p` is `p - 1` clamped to 0..N. */
  lemma {:induction false} CountBelowDense(s: seq<Step>, p: int)
    requires Dense(s)
    ensures CountBelow(s, p) == if p <= 1 then 0 else if p > |s| then |s| else p - 1
    decreases |s|
  {
    if s != [] {
      CountBelowDense(s[..|s| - 1], p);
    }
  }

  /** On a dense sequence and a position 1..N+1: the new step is step `p`, the steps before it
      are untouched, and old steps p..N become p+1..N+1 with their contents. */
  lemma AddStepOnDense(s: seq<Step>, p: int, c: string)
    requires Dense(s) && 1 <= p <= |s| + 1
    ensures var r := Numbered(InsertAt(Contents(s), CountBelow(s, p), c));
      |r| == |s| + 1 && r[p - 1] == Step(p, c)
      && (forall i :: 0 <= i < p - 1 ==> r[i] == s[i])
      && (forall i :: p - 1 <= i < |s| ==> r[i + 1] == Step(s[i].number + 1, s[i].content))
  {
    CountBelowDense(s, p);
  }

  /** A position of zero or below is not clamped: the new step sorts first and every old step
      moves up by one. */
  lemma AddStepNonPositive(s: seq<Step>, p: int, c: string)
    requires Dense(s) && p <= 0
    ensures ClampPosition(Some(p), |s|) == p
    ensures var r := Numbered(InsertAt(Contents(s), CountBelow(s, p), c));
      r[0] == Step(1, c)
      && (forall i :: 0 <= i < |s| ==> r[i + 1] == Step(s[i].number + 1, s[i].content))
  {
    CountBelowDense(s, p);
    var cs := InsertAt(Contents(s), 0, c);
    var r := Numbered(cs);
    forall i | 0 <= i < |s| ensures r[i + 1] == Step(s[i].number + 1, s[i].content) {
      assert cs[i + 1] == s[i].content;
    }
  }

  /** With no position, or one past the end, a dense sequence gets the new step appended. */
  lemma AddStepAppends(s: seq<Step>, position: Option<int>, c: string)
    requires Dense(s) && (position.None? || position.value > |s|)
    ensures ClampPosition(position, |s|) == |s| + 1
    ensures Numbered(InsertAt(Contents(s), CountBelow(s, |s| + 1), c)) == s + [Step(|s| + 1, c)]
  {
    CountBelowDense(s, |s| + 1);
  }

  /** [A, B] with X added at position 2 gives [A, X, B], numbered 1, 2, 3. */
  lemma AddStepExample()
    ensures var s := [Step(1, "A"), Step(2, "B")];
      Numbered(InsertAt(Contents(s), CountBelow(s, ClampPosition(Some(2), 2)), "X"))
      == [Step(1, "A"), Step(2, "X"), Step(3, "B")]
  {
    var s := [Step(1, "A"), Step(2, "B")];
    AddStepOnDense(s, 2, "X");
  }

  /** Without dense numbering the default position does not append: steps numbered 2, 3, 4 get
      a default-position step third, not last, because N + 1 = 4 is below the last number. */
  lemma AddStepDefaultOnGappedNumbers()
    ensures var s := [Step(2, "A"), Step(3, "B"), Step(4, "C")];
      ClampPosition(None, 3) == 4
      && Numbered(InsertAt(Contents(s), CountBelow(s, 4), "X"))
         == [Step(1, "A"), Step(2, "B"), Step(3, "X"), Step(4, "C")]
  {
    var s := [Step(2, "A"), Step(3, "B"), Step(4, "C")];
    assert s[..2] == [Step(2, "A"), Step(3, "B")] && s[..2][..1] == [Step(2, "A")];
    assert CountAtMost(s[..2][..1][..0], 3) == 0;
    assert CountAtMost(s[..2][..1], 3) == 1;
    assert CountAtMost(s[..2], 3) == 2;
    assert CountBelow(s, 4) == 2;
  }

  // ---------------------------------------------------------------------------------------
  // generate_recruiting_asset
  // ---------------------------------------------------------------------------------------

  /** `generate_recruiting_asset`: a failed model call or commit escapes as an exception and
      nothing is stored; otherwise the whole sequence becomes one step, numbered 1, holding the
      stripped reply. */
  method GenerateRecruitingAsset(store: SessionSteps, task: string, completion: Completion,
                                 commitOk: bool, dbError: string) returns (out: ToolOutcome)
    requires store.Valid()
    modifies store
    ensures store.Valid()
    ensures match completion
      case CallFailed(e) => out == Raises(e) && store.steps == old(store.steps)
      case Completion(reply) =>
        if commitOk then
          out == Returns("Recruiting asset generated successfully.")
          && store.steps == [Step(1, PyStrip(reply))] && Dense(store.steps)
        else
          out == Raises(dbError) && store.steps == old(store.steps)
  {
    if completion.CallFailed? {
      return Raises(completion.error);
    }
    if !commitOk {
      return Raises(dbError);
    }
    store.steps := [];
    store.steps := store.steps + [Step(1, PyStrip(completion.content))];
    out := Returns("Recruiting asset generated successfully.");
  }

  // ---------------------------------------------------------------------------------------
  // tool_definitions
  // ---------------------------------------------------------------------------------------

  /** The catalog offered to the model: names, parameter types and required names. */
  const ToolDefinitions: seq<ToolSchema> := [
    ToolSchema("generate_sequence",
      [Param("role", StringParam), Param("location", StringParam),
       Param("step_count", IntegerParam), Param("session_id", StringParam)],
      ["role", "location", "session_id"]),
    ToolSchema("revise_step",
      [Param("step_number", IntegerParam), Param("new_instruction", StringParam),
       Param("session_id", StringParam)],
      ["step_number", "new_instruction", "session_id"]),
    ToolSchema("change_tone",
      [Param("tone", StringParam), Param("session_id", StringParam)],
      ["tone", "session_id"]),
    ToolSchema("add_step",
      [Param("step_content", StringParam), Param("position", IntegerParam),
       Param("session_id", StringParam)],
      ["step_content", "session_id"]),
    ToolSchema("generate_recruiting_asset",
      [Param("task", StringParam), Param("session_id", StringParam)],
      ["task", "session_id"]),
    ToolSchema("search_and_analyze_professionals",
      [Param("session_id", StringParam), Param("query", StringParam),
       Param("location", StringParam)],
      ["session_id", "query"]),
    ToolSchema("generate_personalized_outreach",
      [Param("session_id", StringParam), Param("profile_url", StringParam)],
      ["session_id", "profile_url"])
  ]

  /** A tool whose declared names are `names` (pairwise distinct) and whose required names are
      among them is well formed. */
  lemma WellFormedByNames(t: ToolSchema, names: seq<string>)
    requires Names(t.params) == names
    requires forall i, j :: 0 <= i < j < |names| ==> names[i] != names[j]
    requires forall r :: r in t.required ==> r in names
    ensures WellFormed(t)
  {
  }

  /** Every tool's required names are declared and every tool requires `session_id`. */
  lemma ToolDefinitionsWellFormed()
    ensures forall t :: t in ToolDefinitions ==> WellFormed(t) && Requires(t, "session_id")
  {
    SequenceToolsWellFormed();
    OtherToolsWellFormed();
  }

  lemma SequenceToolsWellFormed()
    ensures forall k :: 0 <= k < 4 ==>
      WellFormed(ToolDefinitions[k]) && Requires(ToolDefinitions[k], "session_id")
  {
    var ts := ToolDefinitions;
    WellFormedByNames(ts[0], ["role", "location", "step_count", "session_id"]);
    WellFormedByNames(ts[1], ["step_number", "new_instruction", "session_id"]);
    WellFormedByNames(ts[2], ["tone", "session_id"]);
    WellFormedByNames(ts[3], ["step_content", "position", "session_id"]);
  }

  lemma OtherToolsWellFormed()
    ensures forall k :: 4 <= k < 7 ==>
      WellFormed(ToolDefinitions[k]) && Requires(ToolDefinitions[k], "session_id")
  {
    var ts := ToolDefinitions;
    WellFormedByNames(ts[4], ["task", "session_id"]);
    WellFormedByNames(ts[5], ["session_id", "query", "location"]);
    WellFormedByNames(ts[6], ["session_id", "profile_url"]);
  }

  /** `step_count` is the only optional argument of generate_sequence. */
  lemma GenerateSequenceOptional()
    ensures OptionalParams(ToolDefinitions[0]) == ["step_count"]
  {
    var t := ToolDefinitions[0];
    assert OptionalFrom(t.params[3..], t.required) == [];
    assert OptionalFrom(t.params[2..], t.required) == ["step_count"];
  }

  /** `position` is the only optional argument of add_step. */
  lemma AddStepOptional()
    ensures OptionalParams(ToolDefinitions[3]) == ["position"]
  {
    var t := ToolDefinitions[3];
    assert OptionalFrom(t.params[2..], t.required) == [];
    assert OptionalFrom(t.params[1..], t.required) == ["position"];
  }

  /** `location` is the only optional argument of the search. */
  lemma SearchOptional()
    ensures OptionalParams(ToolDefinitions[5]) == ["location"]
  {
    var t := ToolDefinitions[5];
    assert OptionalFrom(t.params[2..], t.required) == ["location"];
    assert OptionalFrom(t.params[1..], t.required) == ["location"];
  }
}
