/** Recovering a JSON value from a model reply that may wrap it in prose: first the whole reply
    is decoded; only if that fails is the span `re.search(r"\[.*\]", reply, re.DOTALL)` finds
    decoded instead. Both sequence generators (backend/src/agents/tools/core.py and
    backend/src/agents/tools.py) use this two-stage recovery. */
module Recovery {
  import opened Wrappers
  import opened JsonModel

  /** The first position of `c` in `s`. */
  function FirstIndex(s: string, c: char): (r: Option<nat>)
    ensures r.Some? ==> r.value < |s| && s[r.value] == c && c !in s[..r.value]
    ensures r.None? ==> c !in s
    decreases |s|
  {
    if s == [] then None
    else if s[0] == c then Some(0)
    else
      match FirstIndex(s[1..], c)
      case None => None
      case Some(i) =>
        assert s[..i + 1] == [s[0]] + s[1..][..i];
        Some(i + 1)
  }

  /** The last position of `c` in `s`. */
  function LastIndex(s: string, c: char): (r: Option<nat>)
    ensures r.Some? ==> r.value < |s| && s[r.value] == c && c !in s[r.value + 1..]
    ensures r.None? ==> c !in s
    decreases |s|
  {
    if s == [] then None
    else if s[|s| - 1] == c then Some(|s| - 1)
    else
      match LastIndex(s[..|s| - 1], c)
      case None => None
      case Some(i) =>
        assert s[i + 1..] == s[..|s| - 1][i + 1..] + [s[|s| - 1]];
        Some(i)
  }

  /** The match of `\[.*\]` under `re.DOTALL`, searched leftmost-first with a greedy `.*`: it
      exists exactly when some `]` follows some `[`, and it runs from the first `[` to the
      last `]`. */
  function BracketSpan(s: string): (span: Option<string>)
    ensures span.Some? <==> exists i, j :: 0 <= i < j < |s| && s[i] == '[' && s[j] == ']'
    ensures span.Some? ==> (|span.value| >= 2 && span.value[0] == '['
      && span.value[|span.value| - 1] == ']')
    ensures span.Some? ==> exists i :: (0 <= i && i + |span.value| <= |s|
      && s[i..i + |span.value|] == span.value
      && '[' !in s[..i] && ']' !in s[i + |span.value|..])
  {
    match FirstIndex(s, '[')
    case None => None
    case Some(i) =>
      match LastIndex(s, ']')
      case None => None
      case Some(j) =>
        if i < j then
          assert s[i..j + 1][0] == s[i] && s[i..j + 1][j - i] == s[j];
          Some(s[i..j + 1])
        else
          assert forall a :: 0 <= a < i ==> s[a] == s[..i][a];
          assert forall b :: j < b < |s| ==> s[b] == s[j + 1..][b - j - 1];
          None
  }

  /** The error text Python gives when `re.search` finds nothing and `.group()` is called on
      the resulting `None`. */
  const NoMatchError := "'NoneType' object has no attribute 'group'"

  /** The outcome of the two-stage recovery. On failure both exception texts are kept: the
      first is that of the direct decode, the second that of the fallback (the missing match
      or the span's own decode error); the two generators report different ones. */
  datatype Recovery = Recovered(value: Json) | Unrecovered(firstError: string, secondError: string)

  /** Decode the whole reply; on a decode error, decode the bracketed span instead. */
  function Recover(content: string, loads: Loads): (r: Recovery)
    ensures r.Recovered? <==> (loads(content).Decoded?
      || (BracketSpan(content).Some? && loads(BracketSpan(content).value).Decoded?))
    ensures r.Unrecovered? ==> r.firstError == loads(content).message
    ensures loads(content).Decoded? ==> r == Recovered(loads(content).value)
    ensures loads(content).DecodeError? && r.Recovered? ==>
      r.value == loads(BracketSpan(content).value).value
    ensures r.Unrecovered? ==> (r.secondError ==
      if BracketSpan(content).None? then NoMatchError else loads(BracketSpan(content).value).message)
  {
    match loads(content)
    case Decoded(v) => Recovered(v)
    case DecodeError(first) =>
      match BracketSpan(content)
      case None => Unrecovered(first, NoMatchError)
      case Some(span) =>
        match loads(span)
        case Decoded(v) => Recovered(v)
        case DecodeError(second) => Unrecovered(first, second)
  }

  /** A reply that is prose around one bracketed block (no `[` before it, no `]` after it)
      recovers exactly what the block decodes to, whenever the reply as a whole does not decode. */
  lemma RecoverFromProse(pre: string, block: string, post: string, loads: Loads)
    requires |block| >= 2 && block[0] == '[' && block[|block| - 1] == ']'
    requires '[' !in pre && ']' !in post
    requires loads(pre + block + post).DecodeError?
    ensures Recover(pre + block + post, loads) ==
      match loads(block)
      case Decoded(v) => Recovered(v)
      case DecodeError(m) => Unrecovered(loads(pre + block + post).message, m)
  {
    var s := pre + block + post;
    var open, close := |pre|, |pre| + |block| - 1;
    assert s[..open] == pre && s[close + 1..] == post && s[open..close + 1] == block;
    FirstIndexAt(s, '[', open);
    LastIndexAt(s, ']', close);
  }

  lemma FirstIndexAt(s: string, c: char, k: nat)
    requires k < |s| && s[k] == c && c !in s[..k]
    ensures FirstIndex(s, c) == Some(k)
  {
    var r := FirstIndex(s, c);
    assert s[k] in s;
    assert forall m :: 0 <= m < k ==> s[..k][m] == s[m];
    assert forall m :: 0 <= m < r.value ==> s[..r.value][m] == s[m];
  }

  lemma LastIndexAt(s: string, c: char, k: nat)
    requires k < |s| && s[k] == c && c !in s[k + 1..]
    ensures LastIndex(s, c) == Some(k)
  {
    var r := LastIndex(s, c);
    assert s[k] in s;
    assert forall m :: k < m < |s| ==> s[k + 1..][m - k - 1] == s[m];
    assert forall m :: r.value < m < |s| ==> s[r.value + 1..][m - r.value - 1] == s[m];
  }

  /** A reply with no `]` after any `[` cannot be recovered unless it decodes as a whole. */
  lemma NoBracketsNoRecovery(content: string, loads: Loads)
    requires loads(content).DecodeError?
    requires forall i, j :: 0 <= i < j < |content| && content[i] == '[' ==> content[j] != ']'
    ensures Recover(content, loads) == Unrecovered(loads(content).message, NoMatchError)
  {
  }
}
