/** `convertUrlsToLinks` of frontend/app/components/Chat.tsx: a chat message is cut into plain
    text and links. A link is what the global regular expression `https?://` followed by one or
    more non-whitespace characters matches, searched left to right; its label is a LinkedIn
    caption, a 30-character abbreviation, or the address itself. Rendering (React elements, their
    keys and styles) is not modelled: a node is its text, or its target and label. */
module UrlLinks {
  import opened Wrappers
  import opened Text

  datatype Node = TextNode(text: string) | LinkNode(href: string, display: string)

  /** One match of the regular expression: the matched text and where it starts. */
  datatype Match = Match(url: string, index: nat)

  const MaxLabel := 30
  const LinkedInLabel := "View LinkedIn Profile"

  // ---------------------------------------------------------------------------------------
  // The regular expression
  // ---------------------------------------------------------------------------------------

  /** A match can start at `i`: `https://` or `http://` followed by a character that is not
      JavaScript whitespace (`s?` is tried first, and backtracking to `http` then fails on the
      `s`, so the two cases are exclusive). */
  predicate UrlAt(t: string, i: nat) {
    (HttpsAt(t, i) && i + 8 < |t| && !IsJsSpace(t[i + 8]))
    || (HttpAt(t, i) && i + 7 < |t| && !IsJsSpace(t[i + 7]))
  }

  /** `t` has `http://` at `i`. */
  predicate HttpAt(t: string, i: nat) {
    i + 7 <= |t| && t[i] == 'h' && t[i + 1] == 't' && t[i + 2] == 't' && t[i + 3] == 'p'
    && t[i + 4] == ':' && t[i + 5] == '/' && t[i + 6] == '/'
  }

  /** `t` has `https://` at `i`. */
  predicate HttpsAt(t: string, i: nat) {
    i + 8 <= |t| && t[i] == 'h' && t[i + 1] == 't' && t[i + 2] == 't' && t[i + 3] == 'p'
    && t[i + 4] == 's' && t[i + 5] == ':' && t[i + 6] == '/' && t[i + 7] == '/'
  }

  /** The length of the scheme part of the match at `i`. */
  function SchemeLength(t: string, i: nat): (n: nat)
    requires UrlAt(t, i)
    ensures i + n < |t| && !IsJsSpace(t[i + n])
    ensures forall m :: i <= m < i + n ==> !IsJsSpace(t[m])
  {
    if HttpsAt(t, i) && i + 8 < |t| && !IsJsSpace(t[i + 8]) then 8 else 7
  }

  /** The end of the run of non-whitespace characters starting at `j`. */
  function RunEnd(t: string, j: nat): (e: nat)
    requires j <= |t|
    ensures j <= e <= |t|
    ensures forall m :: j <= m < e ==> !IsJsSpace(t[m])
    ensures e == |t| || IsJsSpace(t[e])
    decreases |t| - j
  {
    if j == |t| || IsJsSpace(t[j]) then j else RunEnd(t, j + 1)
  }

  /** The end of the match at `i`: `[^\s]+` is greedy, so it runs to the next whitespace. */
  function UrlEnd(t: string, i: nat): (e: nat)
    requires UrlAt(t, i)
    ensures i + SchemeLength(t, i) < e <= |t|
    ensures e == |t| || IsJsSpace(t[e])
    ensures forall m :: i + SchemeLength(t, i) <= m < e ==> !IsJsSpace(t[m])
  {
    RunEnd(t, i + SchemeLength(t, i))
  }

  /** `exec` from `lastIndex = k`: the leftmost position at or after `k` where a match starts. */
  function NextUrl(t: string, k: nat): (r: Option<nat>)
    ensures r.Some? ==> (k <= r.value < |t| && UrlAt(t, r.value)
      && forall j :: k <= j < r.value ==> !UrlAt(t, j))
    ensures r.None? ==> forall j :: k <= j ==> !UrlAt(t, j)
    decreases |t| - k
  {
    if k >= |t| then None
    else if UrlAt(t, k) then Some(k)
    else NextUrl(t, k + 1)
  }

  /** The matches are in order, do not overlap, and lie within `t` after `last`. */
  predicate Ordered(t: string, last: nat, ms: seq<Match>)
    decreases |ms|
  {
    ms == [] || (last <= ms[0].index && ms[0].index + |ms[0].url| <= |t|
                 && Ordered(t, ms[0].index + |ms[0].url|, ms[1..]))
  }

  /** Every match the global search finds from position `k` on. */
  function MatchesFrom(t: string, k: nat): (ms: seq<Match>)
    ensures Ordered(t, k, ms)
    decreases |t| - k
  {
    match NextUrl(t, k)
    case None => []
    case Some(i) =>
      var e := UrlEnd(t, i);
      [Match(t[i..e], i)] + MatchesFrom(t, e)
  }

  // ---------------------------------------------------------------------------------------
  // Building the nodes
  // ---------------------------------------------------------------------------------------

  /** The label of a link: a fixed caption for LinkedIn addresses, otherwise the first 30
      characters and an ellipsis when the address is longer than that, otherwise the address. */
  function LinkDisplay(url: string): (d: string)
    ensures |d| <= MaxLabel + 3
    ensures Contains(url, "linkedin.com") ==> d == LinkedInLabel
    ensures !Contains(url, "linkedin.com") && |url| > MaxLabel ==>
      d == url[..MaxLabel] + "..." && |d| == MaxLabel + 3
    ensures !Contains(url, "linkedin.com") && |url| <= MaxLabel ==> d == url
  {
    if Contains(url, "linkedin.com") then LinkedInLabel
    else if |url| > MaxLabel then url[..MaxLabel] + "..."
    else url
  }

  /** The nodes for matches `ms` found from `last` on: the text before each match (when there
      is any), the link, and the text after the last match (when there is any). */
  function Build(t: string, last: nat, ms: seq<Match>): (nodes: seq<Node>)
    requires last <= |t| && Ordered(t, last, ms)
    decreases |ms|
  {
    if ms == [] then
      (if last < |t| then [TextNode(t[last..])] else [])
    else
      var m := ms[0];
      (if m.index > last then [TextNode(t[last..m.index])] else [])
      + [LinkNode(m.url, LinkDisplay(m.url))]
      + Build(t, m.index + |m.url|, ms[1..])
  }

  /** `convertUrlsToLinks`: collect the matches with repeated `exec`, then walk them, emitting
      the text before each, the link, and the trailing text. */
  method ConvertUrlsToLinks(text: string) returns (result: seq<Node>)
    ensures result == Build(text, 0, MatchesFrom(text, 0))
  {
    if text == [] {
      return [];
    }
    var matches := CollectMatches(text);
    if |matches| == 0 {
      return [TextNode(text)];
    }
    result := LinkNodes(text, matches);
  }

  /** The `exec` loop of the global regular expression: every match, left to right. */
  method CollectMatches(text: string) returns (matches: seq<Match>)
    ensures matches == MatchesFrom(text, 0)
  {
    matches := [];
    var pos := 0;
    while true
      invariant pos <= |text|
      invariant matches + MatchesFrom(text, pos) == MatchesFrom(text, 0)
      decreases |text| - pos
    {
      var next := NextUrl(text, pos);
      if next.None? {
        MatchesEnd(text, pos);
        break;
      }
      var i := next.value;
      var e := UrlEnd(text, i);
      MatchesStep(text, pos, i);
      matches := matches + [Match(text[i..e], i)];
      pos := e;
    }
  }

  /** The `forEach` over the matches, then the trailing text. */
  method LinkNodes(text: string, matches: seq<Match>) returns (result: seq<Node>)
    requires Ordered(text, 0, matches)
    ensures result == Build(text, 0, matches)
  {
    result := [];
    var lastIndex: nat := 0;
    var rest := matches;
    while rest != []
      invariant lastIndex <= |text| && Ordered(text, lastIndex, rest)
      invariant result + Build(text, lastIndex, rest) == Build(text, 0, matches)
      decreases |rest|
    {
      var m := rest[0];
      ghost var before, last := result, lastIndex;
      if m.index > lastIndex {
        result := result + [TextNode(text[lastIndex..m.index])];
      }
      result := result + [LinkNode(m.url, LinkDisplay(m.url))];
      lastIndex := m.index + |m.url|;
      BuildAdvance(text, last, rest, before, result);
      rest := rest[1..];
    }
    if lastIndex < |text| {
      result := result + [TextNode(text[lastIndex..])];
    }
  }

  /** The search finds nothing more once `exec` fails. */
  lemma MatchesEnd(t: string, k: nat)
    requires NextUrl(t, k).None?
    ensures MatchesFrom(t, k) == []
  {
  }

  /** One successful `exec` contributes the next match and moves `lastIndex` to its end. */
  lemma MatchesStep(t: string, k: nat, i: nat)
    requires NextUrl(t, k) == Some(i)
    ensures MatchesFrom(t, k) == [Match(t[i..UrlEnd(t, i)], i)] + MatchesFrom(t, UrlEnd(t, i))
  {
  }

  /** The nodes emitted so far, followed by `Build` over the remaining matches, after one
      more match has been emitted. */
  lemma BuildAdvance(t: string, last: nat, ms: seq<Match>, acc: seq<Node>, acc': seq<Node>)
    requires last <= |t| && Ordered(t, last, ms) && ms != []
    requires var m := ms[0];
      acc' == acc + (if m.index > last then [TextNode(t[last..m.index])] else [])
        + [LinkNode(m.url, LinkDisplay(m.url))]
    ensures Ordered(t, ms[0].index + |ms[0].url|, ms[1..])
    ensures acc' + Build(t, ms[0].index + |ms[0].url|, ms[1..]) == acc + Build(t, last, ms)
  {
    BuildCons(t, last, ms);
  }

  /** `Build` over a non-empty list of matches, unfolded once. */
  lemma BuildCons(t: string, last: nat, ms: seq<Match>)
    requires last <= |t| && Ordered(t, last, ms) && ms != []
    ensures var m := ms[0];
      Ordered(t, m.index + |m.url|, ms[1..])
      && Build(t, last, ms) ==
        (if m.index > last then [TextNode(t[last..m.index])] else [])
        + [LinkNode(m.url, LinkDisplay(m.url))]
        + Build(t, m.index + |m.url|, ms[1..])
  {
  }

  // ---------------------------------------------------------------------------------------
  // Properties
  // ---------------------------------------------------------------------------------------

  /** One step of `Build` over the search's own matches. */
  lemma BuildStep(t: string, k: nat, i: nat)
    requires k <= |t| && NextUrl(t, k) == Some(i)
    ensures var e := UrlEnd(t, i);
      Build(t, k, MatchesFrom(t, k)) ==
        (if i > k then [TextNode(t[k..i])] else [])
        + [LinkNode(t[i..e], LinkDisplay(t[i..e]))]
        + Build(t, e, MatchesFrom(t, e))
  {
    var e := UrlEnd(t, i);
    MatchesStep(t, k, i);
    ConsParts(Match(t[i..e], i), MatchesFrom(t, e));
    BuildCons(t, k, MatchesFrom(t, k));
  }

  lemma ConsParts(x: Match, r: seq<Match>)
    ensures ([x] + r)[0] == x && ([x] + r)[1..] == r
  {
  }

  /** The text a node stands for: plain text, or the link's full address. */
  function Piece(n: Node): string {
    match n
    case TextNode(x) => x
    case LinkNode(h, _) => h
  }

  /** The texts and addresses of the nodes, in order. */
  function Flatten(nodes: seq<Node>): (s: string)
    ensures nodes == [] ==> s == []
    ensures |nodes| == 1 ==> s == Piece(nodes[0])
    decreases |nodes|
  {
    if nodes == [] then [] else Piece(nodes[0]) + Flatten(nodes[1..])
  }

  lemma {:induction false} FlattenAppend(a: seq<Node>, b: seq<Node>)
    ensures Flatten(a + b) == Flatten(a) + Flatten(b)
    decreases |a|
  {
    if a == [] {
      assert a + b == b;
    } else {
      assert (a + b)[0] == a[0] && (a + b)[1..] == a[1..] + b;
      FlattenAppend(a[1..], b);
      assert Flatten(a + b) == Piece(a[0]) + (Flatten(a[1..]) + Flatten(b));
    }
  }

  /** With no further match, what is left is one text node, or nothing. */
  lemma BuildEnd(t: string, k: nat)
    requires k <= |t| && NextUrl(t, k).None?
    ensures Build(t, k, MatchesFrom(t, k)) == if k < |t| then [TextNode(t[k..])] else []
  {
  }

  /** Nothing is lost or added: the texts and link addresses, in order, give back the input. */
  lemma {:induction false} BuildRoundTrip(t: string, k: nat)
    requires k <= |t|
    ensures Flatten(Build(t, k, MatchesFrom(t, k))) == t[k..]
    decreases |t| - k
  {
    match NextUrl(t, k)
    case None =>
      BuildEnd(t, k);
    case Some(i) =>
      var e := UrlEnd(t, i);
      var pre: seq<Node> := if i > k then [TextNode(t[k..i])] else [];
      var link := [LinkNode(t[i..e], LinkDisplay(t[i..e]))];
      var rest := Build(t, e, MatchesFrom(t, e));
      BuildStep(t, k, i);
      BuildRoundTrip(t, e);
      FlattenAppend(pre + link, rest);
      FlattenAppend(pre, link);
      assert Flatten(pre) == t[k..i];
      SliceSplit(t, k, i, e);
  }

  lemma SliceSplit(t: string, a: nat, b: nat, c: nat)
    requires a <= b <= c <= |t|
    ensures t[a..] == t[a..b] + t[b..c] + t[c..]
  {
  }

  /** A message without any address is a single text node; an empty message has no nodes. */
  lemma NoUrlWholeText(t: string)
    requires forall j :: !UrlAt(t, j)
    ensures Build(t, 0, MatchesFrom(t, 0)) == if t == [] then [] else [TextNode(t)]
  {
    assert NextUrl(t, 0).None?;
  }

  /** Every text node is non-empty. */
  lemma {:induction false} NoEmptyTextNodes(t: string, k: nat)
    requires k <= |t|
    ensures forall n :: n in Build(t, k, MatchesFrom(t, k)) && n.TextNode? ==> n.text != []
    decreases |t| - k
  {
    match NextUrl(t, k)
    case None =>
    case Some(i) =>
      BuildStep(t, k, i);
      NoEmptyTextNodes(t, UrlEnd(t, i));
  }

  /** An address that is a whole link target: a scheme, then only non-whitespace. */
  predicate IsUrl(u: string) {
    UrlAt(u, 0) && forall m :: 0 <= m < |u| ==> !IsJsSpace(u[m])
  }

  /** A match is a link target starting where the search found it. */
  lemma MatchIsUrl(t: string, i: nat)
    requires UrlAt(t, i)
    ensures IsUrl(t[i..UrlEnd(t, i)])
  {
    var e := UrlEnd(t, i);
    var u := t[i..e];
    assert forall m :: 0 <= m < |u| ==> u[m] == t[i + m];
  }

  /** Every link targets an address and carries the label rule's label for it. */
  lemma {:induction false} LinksAreUrls(t: string, k: nat)
    requires k <= |t|
    ensures forall n :: n in Build(t, k, MatchesFrom(t, k)) && n.LinkNode? ==>
      IsUrl(n.href) && n.display == LinkDisplay(n.href)
    decreases |t| - k
  {
    match NextUrl(t, k)
    case None =>
      BuildEnd(t, k);
    case Some(i) =>
      BuildStep(t, k, i);
      MatchIsUrl(t, i);
      LinksAreUrls(t, UrlEnd(t, i));
  }

  /** A window of `t` has a match start only where `t` itself has one. */
  lemma UrlAtWindow(t: string, a: nat, b: nat, j: nat)
    requires a <= b <= |t|
    ensures UrlAt(t[a..b], j) ==> a + j < b && UrlAt(t, a + j)
  {
    var w := t[a..b];
    assert forall m :: 0 <= m < |w| ==> w[m] == t[a + m];
  }

  /** No text node contains an address the search would have turned into a link. */
  lemma {:induction false} TextHasNoUrl(t: string, k: nat)
    requires k <= |t|
    ensures forall n :: n in Build(t, k, MatchesFrom(t, k)) && n.TextNode? ==>
      forall j :: !UrlAt(n.text, j)
    decreases |t| - k
  {
    match NextUrl(t, k)
    case None =>
      BuildEnd(t, k);
      forall j ensures !UrlAt(t[k..], j) {
        UrlAtWindow(t, k, |t|, j);
      }
    case Some(i) =>
      BuildStep(t, k, i);
      forall j ensures !UrlAt(t[k..i], j) {
        UrlAtWindow(t, k, i, j);
      }
      TextHasNoUrl(t, UrlEnd(t, i));
  }

  /** After a match the text resumes with whitespace, or ends. */
  lemma BuildAtSpace(t: string, k: nat)
    requires k <= |t| && (k == |t| || IsJsSpace(t[k]))
    ensures k == |t| ==> Build(t, k, MatchesFrom(t, k)) == []
    ensures k < |t| ==> (Build(t, k, MatchesFrom(t, k)) != []
      && Build(t, k, MatchesFrom(t, k))[0].TextNode?
      && Build(t, k, MatchesFrom(t, k))[0].text != []
      && Build(t, k, MatchesFrom(t, k))[0].text[0] == t[k])
  {
    if k < |t| {
      assert !UrlAt(t, k);
    }
  }

  /** A link is never followed directly by another link: the next node, if any, is text that
      starts with whitespace. */
  lemma {:induction false} LinkFollowedBySpace(t: string, k: nat)
    requires k <= |t|
    ensures var r := Build(t, k, MatchesFrom(t, k));
      forall x :: 0 <= x < |r| - 1 && r[x].LinkNode? ==>
        r[x + 1].TextNode? && r[x + 1].text != [] && IsJsSpace(r[x + 1].text[0])
    decreases |t| - k
  {
    match NextUrl(t, k)
    case None =>
    case Some(i) =>
      var e := UrlEnd(t, i);
      BuildStep(t, k, i);
      LinkFollowedBySpace(t, e);
      BuildAtSpace(t, e);
      SpaceAfterEachLink(if i > k then [TextNode(t[k..i])] else [],
        LinkNode(t[i..e], LinkDisplay(t[i..e])), Build(t, e, MatchesFrom(t, e)));
  }

  /** Text, one link, then nodes that start with whitespace text and keep the property. */
  lemma SpaceAfterEachLink(pre: seq<Node>, link: Node, rest: seq<Node>)
    requires forall x :: 0 <= x < |pre| ==> pre[x].TextNode?
    requires rest == [] || (rest[0].TextNode? && rest[0].text != [] && IsJsSpace(rest[0].text[0]))
    requires forall x :: 0 <= x < |rest| - 1 && rest[x].LinkNode? ==>
      rest[x + 1].TextNode? && rest[x + 1].text != [] && IsJsSpace(rest[x + 1].text[0])
    ensures var r := pre + [link] + rest;
      forall x :: 0 <= x < |r| - 1 && r[x].LinkNode? ==>
        r[x + 1].TextNode? && r[x + 1].text != [] && IsJsSpace(r[x + 1].text[0])
  {
    var r := pre + [link] + rest;
    forall x | 0 <= x < |r| - 1 && r[x].LinkNode?
      ensures r[x + 1].TextNode? && r[x + 1].text != [] && IsJsSpace(r[x + 1].text[0])
    {
      if x >= |pre| + 1 {
        assert r[x] == rest[x - |pre| - 1] && r[x + 1] == rest[x - |pre|];
      } else {
        assert x == |pre|;
        assert r[x + 1] == rest[0];
      }
    }
  }

}
