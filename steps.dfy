/** One session's outreach sequence: the `SequenceStep` rows of a session, as every read in the
    backend returns them (`order_by(SequenceStep.step_number)`). */
module Steps {

  /** One `SequenceStep` row: its `step_number` and its `content`. */
  datatype Step = Step(number: int, content: string)

  /** Ascending by step number, the order of every read. */
  predicate Sorted(s: seq<Step>) {
    forall i, j :: 0 <= i < j < |s| ==> s[i].number <= s[j].number
  }

  /** The numbering `add_step`'s renumbering establishes: exactly 1..N in order, no gaps and no
      repeats. */
  predicate Dense(s: seq<Step>) {
    forall i :: 0 <= i < |s| ==> s[i].number == i + 1
  }

  lemma DenseIsSorted(s: seq<Step>)
    requires Dense(s)
    ensures Sorted(s)
  {
  }

  /** The texts of the steps, in order. */
  function Contents(s: seq<Step>): (cs: seq<string>)
    ensures |cs| == |s| && forall i :: 0 <= i < |s| ==> cs[i] == s[i].content
  {
    seq(|s|, i requires 0 <= i < |s| => s[i].content)
  }

  /** The step numbers, in order. */
  function Numbers(s: seq<Step>): (ns: seq<int>)
    ensures |ns| == |s| && forall i :: 0 <= i < |s| ==> ns[i] == s[i].number
  {
    seq(|s|, i requires 0 <= i < |s| => s[i].number)
  }

  /** Texts given the numbers 1..N in order. */
  function Numbered(cs: seq<string>): (s: seq<Step>)
    ensures Dense(s) && Contents(s) == cs
  {
    seq(|cs|, i requires 0 <= i < |cs| => Step(i + 1, cs[i]))
  }

  /** How many steps carry a number at most `v`. */
  function CountAtMost(s: seq<Step>, v: int): (n: nat)
    ensures n <= |s|
  {
    if s == [] then 0
    else CountAtMost(s[..|s| - 1], v) + (if s[|s| - 1].number <= v then 1 else 0)
  }

  /** How many steps carry a number below `p`. */
  function CountBelow(s: seq<Step>, p: int): (n: nat)
    ensures n <= |s|
  {
    CountAtMost(s, p - 1)
  }

  /** Adding row `x` to rows read in order: `x` lands after every row whose number is at most
      its own (a database returns rows with equal keys in insertion order; the model fixes that
      choice), so the rows stay in order and nothing is lost. */
  function InsertByNumber(s: seq<Step>, x: Step): (r: seq<Step>)
    ensures multiset(r) == multiset(s) + multiset{x}
    ensures Sorted(s) ==> Sorted(r)
    decreases |s|
  {
    if s == [] || s[|s| - 1].number <= x.number then
      s + [x]
    else
      var init, last := s[..|s| - 1], s[|s| - 1];
      assert s == init + [last];
      var r' := InsertByNumber(init, x);
      AppendLargest(s, x, r');
      r' + [last]
  }

  /** The step in the recursive case of `InsertByNumber`: the old last row is at least every row
      of the shorter result. */
  lemma AppendLargest(s: seq<Step>, x: Step, r': seq<Step>)
    requires s != [] && s[|s| - 1].number > x.number
    requires multiset(r') == multiset(s[..|s| - 1]) + multiset{x}
    requires Sorted(s[..|s| - 1]) ==> Sorted(r')
    ensures multiset(r' + [s[|s| - 1]]) == multiset(s) + multiset{x}
    ensures Sorted(s) ==> Sorted(r' + [s[|s| - 1]])
  {
    var init, last := s[..|s| - 1], s[|s| - 1];
    assert s == init + [last];
    if Sorted(s) {
      forall e | e in r' ensures e.number <= last.number {
        assert e in multiset(r');
        if e != x {
          assert e in multiset(init);
          var i :| 0 <= i < |init| && init[i] == e;
          assert s[i] == e;
        }
      }
      forall i, j | 0 <= i < j < |r' + [last]|
        ensures (r' + [last])[i].number <= (r' + [last])[j].number
      {
        if j == |r'| {
          assert (r' + [last])[i] in r';
        }
      }
    }
  }

  /** Rows inserted one by one and then read back: Python's stable `sorted` by step number, and
      a database's `ORDER BY step_number`. */
  function SortByNumber(s: seq<Step>): (r: seq<Step>)
    ensures Sorted(r) && multiset(r) == multiset(s)
    decreases |s|
  {
    if s == [] then []
    else
      assert s == s[..|s| - 1] + [s[|s| - 1]];
      InsertByNumber(SortByNumber(s[..|s| - 1]), s[|s| - 1])
  }

  /** Reading rows back after one more insert is inserting that row into the earlier read. */
  lemma SortAppend(s: seq<Step>, x: Step)
    ensures SortByNumber(s + [x]) == InsertByNumber(SortByNumber(s), x)
  {
    assert (s + [x])[..|s|] == s;
  }

  /** Inserting into ordered rows puts the new row right after the rows numbered at most its own. */
  lemma {:induction false} InsertByNumberSplits(s: seq<Step>, x: Step)
    requires Sorted(s)
    ensures var k := CountAtMost(s, x.number);
      InsertByNumber(s, x) == s[..k] + [x] + s[k..]
    decreases |s|
  {
    if s == [] {
    } else if s[|s| - 1].number <= x.number {
      CountAtMostSorted(s, x.number);
    } else {
      var init := s[..|s| - 1];
      InsertByNumberSplits(init, x);
      var k := CountAtMost(init, x.number);
      assert CountAtMost(s, x.number) == k;
      assert init[..k] == s[..k];
      assert init[k..] + [s[|s| - 1]] == s[k..];
    }
  }

  /** In ordered rows whose last number is at most `v`, every row counts. */
  lemma {:induction false} CountAtMostSorted(s: seq<Step>, v: int)
    requires Sorted(s) && s != [] && s[|s| - 1].number <= v
    ensures CountAtMost(s, v) == |s|
    decreases |s|
  {
    if |s| > 1 {
      CountAtMostSorted(s[..|s| - 1], v);
    }
  }

  /** Reading rows that were already in order gives them back unchanged. */
  lemma {:induction false} SortSortedIsIdentity(s: seq<Step>)
    requires Sorted(s)
    ensures SortByNumber(s) == s
    decreases |s|
  {
    if s != [] {
      var init, last := s[..|s| - 1], s[|s| - 1];
      SortedInit(s);
      SortSortedIsIdentity(init);
      InitLast(s);
      SortAppend(init, last);
      InsertAtEnd(init, last);
    }
  }

  lemma InitLast(s: seq<Step>)
    requires s != []
    ensures s == s[..|s| - 1] + [s[|s| - 1]]
  {
  }

  /** A row numbered at least the last row goes at the end. */
  lemma InsertAtEnd(s: seq<Step>, x: Step)
    requires s == [] || s[|s| - 1].number <= x.number
    ensures InsertByNumber(s, x) == s + [x]
  {
  }

  /** Ordered rows without their last row are ordered, and that row is at least the others. */
  lemma SortedInit(s: seq<Step>)
    requires Sorted(s) && s != []
    ensures var init := s[..|s| - 1];
      Sorted(init) && (init == [] || init[|init| - 1].number <= s[|s| - 1].number)
  {
  }

  /** One session's steps. The rows are kept in the order every read returns them, so the
      class invariant is that they are ordered by step number; dense numbering is NOT part of the
      invariant, because the sequence generator stores whatever numbers the model returned. */
  class SessionSteps {
    var steps: seq<Step>

    ghost predicate Valid()
      reads this
    {
      Sorted(steps)
    }

    /** A new session owns no steps. */
    constructor ()
      ensures Valid() && steps == []
    {
      steps := [];
    }
  }
}
