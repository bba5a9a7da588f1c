/** The older single-tool module backend/src/agents/tools.py: a `generate_sequence` that also
    takes a tone and an optional step count, recovers the JSON the same way, but neither validates
    its inputs nor checks the structure of the elements; anything unexpected is raised out of the
    function as a Python exception. */
module Legacy {
  import opened Wrappers
  import opened Text
  import opened JsonModel
  import opened Steps
  import opened Recovery
  import opened ToolSchemas
  import opened Core

  // ---------------------------------------------------------------------------------------
  // The prompt
  // ---------------------------------------------------------------------------------------

  /** The fixed request text, with the role, location and tone filled in. */
  function BasePrompt(role: string, location: string, tone: string): string {
    "\nGenerate an outreach sequence for recruiting a " + role + " based in " + location
    + ".\nUse a " + tone + " tone.\nRespond in JSON format as a list like:\n[\n"
    + "  { \"step_number\": 1, \"content\": \"...\" },\n  ...\n]\n"
  }

  const CountLead := "Generate a "

  /** The line put in front of the base prompt when a step count is given. */
  function CountPrefix(n: int, role: string, location: string, tone: string): string {
    CountLead + IntToDecimal(n) + CountRest(role, location, tone)
  }

  function CountRest(role: string, location: string, tone: string): string {
    "-step outreach sequence for a " + role + " in " + location + " with a " + tone + " tone.\n"
  }

  /** The prompt sent to the model: the count line is added only when `step_count` is truthy,
      that is, present and non-zero. */
  function LegacyPrompt(role: string, location: string, tone: string, stepCount: Option<int>)
    : (prompt: string)
    ensures var base := BasePrompt(role, location, tone);
      |prompt| >= |base| && prompt[|prompt| - |base|..] == base
    ensures (stepCount.None? || stepCount.value == 0) <==> prompt == BasePrompt(role, location, tone)
    ensures stepCount.Some? && stepCount.value != 0 ==>
      (var pre := CountPrefix(stepCount.value, role, location, tone);
       |pre| <= |prompt| && prompt[..|pre|] == pre
       && |prompt| == |pre| + |BasePrompt(role, location, tone)|)
  {
    if stepCount.Some? && stepCount.value != 0 then
      CountPrefix(stepCount.value, role, location, tone) + BasePrompt(role, location, tone)
    else
      BasePrompt(role, location, tone)
  }

  /** A positive step count can be read back from the prompt: the digits right after the lead
      words are its decimal form. */
  lemma StepCountReadBack(role: string, location: string, tone: string, n: nat)
    requires n > 0
    ensures var prompt := LegacyPrompt(role, location, tone, Some(n));
      var d := NatToDecimal(n);
      |CountLead| + |d| <= |prompt|
      && prompt[..|CountLead|] == CountLead
      && prompt[|CountLead|..|CountLead| + |d|] == d
      && AllDigits(d) && DecimalValue(d) == n
  {
    var d := NatToDecimal(n);
    LeadThenDigits(CountLead, d, CountRest(role, location, tone), BasePrompt(role, location, tone));
    DecimalRoundTrip(n);
  }

  /** Where the lead words and the digits sit in the prompt. */
  lemma LeadThenDigits(lead: string, d: string, c: string, b: string)
    ensures var p := lead + d + c + b;
      |lead| + |d| <= |p| && p[..|lead|] == lead && p[|lead|..|lead| + |d|] == d
  {
    var p := lead + d + c + b;
    assert p == lead + (d + (c + b));
  }

  // ---------------------------------------------------------------------------------------
  // generate_sequence
  // ---------------------------------------------------------------------------------------

  /** The exceptions the legacy generator lets escape. */
  datatype LegacyError =
    | CallError(message: string)        // the chat-completion call itself failed
    | NotIterableError(typeName: string) // TypeError: the decoded value cannot be iterated
    | BadSubscript(typeName: string)     // TypeError: an element of this type indexed by a string
    | MissingKey(key: string)            // KeyError
    | DatabaseError(message: string)     // the commit was refused

  datatype LegacyOutcome = Returned(text: string) | Raised(error: LegacyError)

  const Warning := "\U{26A0}\U{FE0F} "
  const LegacySaved := "Outreach sequence generated and saved."

  /** What reading `step["step_number"]` and then `step["content"]` does to one element. */
  function ElementError(e: Json): (err: Option<LegacyError>)
    ensures err.None? <==> IsStepObject(e)
    ensures !e.JObj? ==> err == Some(BadSubscript(TypeName(e)))
    ensures e.JObj? && !HasKey(e.fields, "step_number") ==> err == Some(MissingKey("step_number"))
    ensures e.JObj? && HasKey(e.fields, "step_number") && !HasKey(e.fields, "content") ==>
      err == Some(MissingKey("content"))
  {
    if !e.JObj? then Some(BadSubscript(TypeName(e)))
    else if !HasKey(e.fields, "step_number") then Some(MissingKey("step_number"))
    else if !HasKey(e.fields, "content") then Some(MissingKey("content"))
    else None
  }

  /** One element after its keys are read: the exception it raises, or the row it stages
      (`None` when the row lacks the column types). */
  datatype ElementRead = Unreadable(error: LegacyError) | Readable(row: Option<Step>)

  function ReadElement(e: Json): (r: ElementRead)
    ensures r.Readable? <==> IsStepObject(e)
    ensures r.Unreadable? ==> Some(r.error) == ElementError(e)
    ensures r.Readable? ==> r.row == RowOf(e)
  {
    match ElementError(e)
    case Some(err) => Unreadable(err)
    case None => Readable(RowOf(e))
  }

  function ReadAll(es: seq<Json>): (rs: seq<ElementRead>)
    ensures |rs| == |es| && forall k :: 0 <= k < |es| ==> rs[k] == ReadElement(es[k])
  {
    seq(|es|, k requires 0 <= k < |es| => ReadElement(es[k]))
  }

  /** The exception of the first unreadable element, if any. */
  function FirstUnreadable(rs: seq<ElementRead>): (err: Option<LegacyError>)
    ensures err.None? <==> forall k :: 0 <= k < |rs| ==> rs[k].Readable?
    ensures err.Some? ==> exists k :: (0 <= k < |rs| && rs[k] == Unreadable(err.value)
      && forall m :: 0 <= m < k ==> rs[m].Readable?)
    decreases |rs|
  {
    if rs == [] then None
    else if rs[0].Unreadable? then Some(rs[0].error)
    else
      var rest := FirstUnreadable(rs[1..]);
      assert forall m :: 1 <= m < |rs| ==> rs[m] == rs[1..][m - 1];
      assert rest.Some? ==> exists k :: (0 <= k < |rs| && rs[k] == Unreadable(rest.value)
        && forall m :: 0 <= m < k ==> rs[m].Readable?) by {
        if rest.Some? {
          var k :| 0 <= k < |rs[1..]| && rs[1..][k] == Unreadable(rest.value)
            && forall m :: 0 <= m < k ==> rs[1..][m].Readable?;
          assert rs[k + 1] == Unreadable(rest.value);
        }
      }
      rest
  }

  /** The error of element `i` is the first error when every element before it is readable. */
  lemma {:induction false} FirstUnreadableAt(rs: seq<ElementRead>, i: nat)
    requires i < |rs| && rs[i].Unreadable?
    requires forall k :: 0 <= k < i ==> rs[k].Readable?
    ensures FirstUnreadable(rs) == Some(rs[i].error)
    decreases i
  {
    if i > 0 {
      assert forall k :: 0 <= k < i - 1 ==> rs[1..][k] == rs[k + 1];
      FirstUnreadableAt(rs[1..], i - 1);
    }
  }

  /** The exception the element loop raises: that of the first element that cannot be read. */
  function FirstElementError(es: seq<Json>): (err: Option<LegacyError>)
    ensures err.None? <==> AllStepObjects(es)
    ensures err.Some? ==> exists k :: (0 <= k < |es| && err == ElementError(es[k])
      && forall m :: 0 <= m < k ==> IsStepObject(es[m]))
  {
    var rs := ReadAll(es);
    var err := FirstUnreadable(rs);
    assert err.Some? ==> exists k :: (0 <= k < |es| && err == ElementError(es[k])
      && forall m :: 0 <= m < k ==> IsStepObject(es[m])) by {
      if err.Some? {
        var k :| 0 <= k < |rs| && rs[k] == Unreadable(err.value)
          && forall m :: 0 <= m < k ==> rs[m].Readable?;
        assert err == ElementError(es[k]);
      }
    }
    err
  }

  /** The key reads of the element loop, in list order, up to the first element that raises.
      The model performs every read before staging any row: nothing is committed until the end,
      so the outcome is the same as reading and staging element by element. */
  method ScanReads(rs: seq<ElementRead>) returns (err: Option<LegacyError>)
    ensures err == FirstUnreadable(rs)
  {
    var i := 0;
    while i < |rs|
      invariant 0 <= i <= |rs|
      invariant forall k :: 0 <= k < i ==> rs[k].Readable?
    {
      if rs[i].Unreadable? {
        FirstUnreadableAt(rs, i);
        return Some(rs[i].error);
      }
      i := i + 1;
    }
    return None;
  }

  /** `generate_sequence` of tools.py. Every path but success leaves the stored steps as they
      were: a parse failure returns before the delete, and a raised exception or a refused commit
      leaves the delete uncommitted. */
  method LegacyGenerateSequence(store: SessionSteps, completion: Completion, loads: Loads,
                                dbAccepts: bool, dbError: string)
    returns (out: LegacyOutcome)
    requires store.Valid()
    modifies store
    ensures store.Valid()
    ensures store.steps == old(store.steps) || out == Returned(LegacySaved)
    ensures match completion
      case CallFailed(e) => out == Raised(CallError(e))
      case Completion(content) =>
        match Recover(content, loads)
        case Unrecovered(first, _) =>
          out == Returned(Warning + "Failed to parse sequence steps: " + first
                          + "\n\nRaw content:\n" + content)
        case Recovered(j) =>
          match Iterate(j)
          case NotIterable(t) => out == Raised(NotIterableError(t))
          case Items(es) =>
            match FirstElementError(es)
            case Some(err) => out == Raised(err)
            case None =>
              if AllRows(es) && dbAccepts then
                out == Returned(LegacySaved) && store.steps == SortByNumber(Rows(es))
              else
                out == Raised(DatabaseError(dbError))
  {
    if completion.CallFailed? {
      return Raised(CallError(completion.error));
    }
    var content := completion.content;
    var recovered := Recover(content, loads);
    if recovered.Unrecovered? {
      return Returned(Warning + "Failed to parse sequence steps: " + recovered.firstError
                      + "\n\nRaw content:\n" + content);
    }
    var iteration := Iterate(recovered.value);
    if iteration.NotIterable? {
      return Raised(NotIterableError(iteration.typeName));
    }
    var es := iteration.elems;
    var err := ScanReads(ReadAll(es));
    if err.Some? {
      return Raised(err.value);
    }
    // The delete and the inserts stay pending until the commit.
    var committed := store.steps;
    store.steps := [];
    var opts := RowOptions(es);
    var typed := InsertRows(store, opts);
    if typed && dbAccepts {
      assert Values(opts) == Rows(es);
      return Returned(LegacySaved);
    }
    // A refused commit rolls back the delete as well.
    store.steps := committed;
    return Raised(DatabaseError(dbError));
  }

  /** The two generators agree on which batches they can store: an element the current
      generator's structure check rejects is exactly one the legacy element loop raises on. */
  lemma GeneratorsAgreeOnStructure(es: seq<Json>)
    ensures FirstElementError(es).None? <==> AllStepObjects(es)
    ensures FirstElementError(es).Some? ==>
      exists k :: 0 <= k < |es| && !IsStepObject(es[k])
  {
    var err := FirstElementError(es);
    if err.Some? {
      var k :| 0 <= k < |es| && err == ElementError(es[k]);
      assert !IsStepObject(es[k]);
    }
  }

  /** A list of strings (or a top-level object) makes the legacy loop raise a `TypeError` on
      its first element, where the current generator reports an invalid structure. */
  lemma StringElementRaises(es: seq<Json>)
    requires es != [] && es[0].JStr?
    ensures FirstElementError(es) == Some(BadSubscript("str"))
  {
  }

  // ---------------------------------------------------------------------------------------
  // tool_definitions
  // ---------------------------------------------------------------------------------------

  /** The single tool tools.py advertises. */
  const LegacyToolDefinitions: seq<ToolSchema> := [
    ToolSchema("generate_sequence",
      [Param("role", StringParam), Param("location", StringParam),
       Param("tone", StringParam), Param("step_count", IntegerParam)],
      ["role", "location", "tone"])
  ]

  /** The legacy schema is well formed, requires role, location and tone, leaves only
      `step_count` optional, and does not expose the session (the caller supplies it). */
  lemma LegacySchemaShape()
    ensures |LegacyToolDefinitions| == 1 && WellFormed(LegacyToolDefinitions[0])
    ensures OptionalParams(LegacyToolDefinitions[0]) == ["step_count"]
    ensures !Declares(LegacyToolDefinitions[0], "session_id")
  {
    LegacyNames();
    LegacyOptional();
  }

  lemma LegacyNames()
    ensures var t := LegacyToolDefinitions[0];
      Names(t.params) == ["role", "location", "tone", "step_count"]
      && forall i, j :: 0 <= i < j < |t.params| ==> t.params[i].name != t.params[j].name
  {
  }

  lemma LegacyOptional()
    ensures var t := LegacyToolDefinitions[0];
      OptionalFrom(t.params, t.required) == ["step_count"]
  {
    var t := LegacyToolDefinitions[0];
    assert OptionalFrom(t.params[3..], t.required) == ["step_count"];
  }
}
