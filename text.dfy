/** String primitives shared by the backend (Python) and the frontend (TypeScript) models:
    the two languages' whitespace sets and trimming, substring tests, decimal rendering of
    integers, and splitting text into lines. */
module Text {
  import opened Wrappers

  // ---------------------------------------------------------------------------------------
  // Whitespace
  // ---------------------------------------------------------------------------------------

  /** The characters Python's `str.isspace` accepts, which `str.strip()` removes. */
  predicate IsPySpace(c: char) {
    ('\U{9}' <= c <= '\U{D}') || ('\U{1C}' <= c <= '\U{20}') || c == '\U{85}' || c == '\U{A0}'
    || c == '\U{1680}' || ('\U{2000}' <= c <= '\U{200A}') || c == '\U{2028}' || c == '\U{2029}'
    || c == '\U{202F}' || c == '\U{205F}' || c == '\U{3000}'
  }

  /** The characters of JavaScript's WhiteSpace and LineTerminator productions: what the regular
      expression class `\s` matches and what `String.prototype.trim` removes. */
  predicate IsJsSpace(c: char) {
    ('\U{9}' <= c <= '\U{D}') || c == ' ' || c == '\U{A0}' || c == '\U{1680}'
    || ('\U{2000}' <= c <= '\U{200A}') || c == '\U{2028}' || c == '\U{2029}'
    || c == '\U{202F}' || c == '\U{205F}' || c == '\U{3000}' || c == '\U{FEFF}'
  }

  /** `s` without its leading characters of the class `ws`. */
  function TrimStartBy(s: string, ws: char -> bool): (r: string)
    ensures |r| <= |s| && r == s[|s| - |r|..]
    ensures forall k :: 0 <= k < |s| - |r| ==> ws(s[k])
    ensures r == [] || !ws(r[0])
    decreases |s|
  {
    if s != [] && ws(s[0]) then TrimStartBy(s[1..], ws) else s
  }

  /** `s` without its trailing characters of the class `ws`. */
  function TrimEndBy(s: string, ws: char -> bool): (r: string)
    ensures |r| <= |s| && r == s[..|r|]
    ensures forall k :: |r| <= k < |s| ==> ws(s[k])
    ensures r == [] || !ws(r[|r| - 1])
    decreases |s|
  {
    if s != [] && ws(s[|s| - 1]) then TrimEndBy(s[..|s| - 1], ws) else s
  }

  /** Both ends trimmed: what is left is the part of `s` from its first to its last character
      outside `ws`, so every such character of `s` survives. */
  function TrimBy(s: string, ws: char -> bool): (r: string)
    ensures r == [] || (!ws(r[0]) && !ws(r[|r| - 1]))
    ensures forall k :: 0 <= k < |s| && !ws(s[k]) ==> s[k] in r
    ensures forall k :: 0 <= k < |r| ==> r[k] in s
    ensures exists a, b :: (0 <= a <= b <= |s| && r == s[a..b]
      && (forall k :: 0 <= k < a ==> ws(s[k])) && (forall k :: b <= k < |s| ==> ws(s[k])))
  {
    var t := TrimStartBy(s, ws);
    var r := TrimEndBy(t, ws);
    TrimKeeps(s, ws, t, r);
    TrimAddsNothing(s, ws, t, r);
    TrimSlice(s, ws, t, r);
    r
  }

  /** Trimming both ends leaves one contiguous piece of `s`, with only whitespace around it. */
  lemma TrimSlice(s: string, ws: char -> bool, t: string, r: string)
    requires t == TrimStartBy(s, ws) && r == TrimEndBy(t, ws)
    ensures exists a, b :: (0 <= a <= b <= |s| && r == s[a..b]
      && (forall k :: 0 <= k < a ==> ws(s[k])) && (forall k :: b <= k < |s| ==> ws(s[k])))
  {
    var a := |s| - |t|;
    assert t == s[a..];
    assert r == t[..|r|];
    SliceOfSuffix(s, t, r, a, ws);
  }

  lemma SliceOfSuffix(s: string, t: string, r: string, a: nat, ws: char -> bool)
    requires a <= |s| && t == s[a..] && |r| <= |t| && r == t[..|r|]
    requires forall k :: 0 <= k < a ==> ws(s[k])
    requires forall k :: |r| <= k < |t| ==> ws(t[k])
    ensures exists a', b :: (0 <= a' <= b <= |s| && r == s[a'..b]
      && (forall k :: 0 <= k < a' ==> ws(s[k])) && (forall k :: b <= k < |s| ==> ws(s[k])))
  {
    var b := a + |r|;
    assert r == s[a..b];
    forall k | b <= k < |s| ensures ws(s[k]) {
      assert s[k] == t[k - a];
    }
  }

  /** Trimming both ends keeps every character outside `ws`. */
  lemma TrimKeeps(s: string, ws: char -> bool, t: string, r: string)
    requires t == TrimStartBy(s, ws) && r == TrimEndBy(t, ws)
    ensures forall k :: 0 <= k < |s| && !ws(s[k]) ==> s[k] in r
  {
    var a := |s| - |t|;
    assert t == s[a..];
    assert r == t[..|r|];
    forall k | 0 <= k < |s| && !ws(s[k]) ensures s[k] in r {
      assert a <= k;
      assert s[k] == t[k - a];
      assert k - a < |r|;
      assert t[k - a] == r[k - a];
    }
  }

  /** Trimming both ends adds no character. */
  lemma TrimAddsNothing(s: string, ws: char -> bool, t: string, r: string)
    requires t == TrimStartBy(s, ws) && r == TrimEndBy(t, ws)
    ensures forall k :: 0 <= k < |r| ==> r[k] in s
  {
    var a := |s| - |t|;
    assert t == s[a..];
    assert r == t[..|r|];
    forall k | 0 <= k < |r| ensures r[k] in s {
      assert r[k] == t[k] == s[a + k];
    }
  }

  /** Trimming a string with no whitespace at either end leaves it as it is. */
  lemma TrimTrimmed(s: string, ws: char -> bool)
    requires s == [] || (!ws(s[0]) && !ws(s[|s| - 1]))
    ensures TrimBy(s, ws) == s
  {
  }

  /** One whitespace character before a string with no leading whitespace is all that
      trimming the start removes. */
  lemma TrimStartAfterSpace(c: char, s: string, ws: char -> bool)
    requires ws(c) && (s == [] || !ws(s[0]))
    ensures TrimStartBy([c] + s, ws) == s
  {
    assert ([c] + s)[1..] == s;
  }

  /** Python's `str.strip()` with no argument. */
  function PyStrip(s: string): string {
    TrimBy(s, IsPySpace)
  }

  /** JavaScript's `String.prototype.trim()`. */
  function JsTrim(s: string): string {
    TrimBy(s, IsJsSpace)
  }

  // ---------------------------------------------------------------------------------------
  // Substrings
  // ---------------------------------------------------------------------------------------

  /** `s.startsWith(p)` in JavaScript, `s.startswith(p)` in Python. */
  predicate StartsWith(s: string, p: string) {
    |p| <= |s| && s[..|p|] == p
  }

  /** `p` occurs in `s` starting at position `k`. */
  predicate OccursAt(s: string, p: string, k: nat) {
    k + |p| <= |s| && s[k..k + |p|] == p
  }

  /** `s.includes(p)` in JavaScript, `p in s` in Python: `p` occurs at some position. */
  predicate Contains(s: string, p: string) {
    exists k: nat :: k <= |s| && OccursAt(s, p, k)
  }

  /** A pattern cannot start inside a prefix that lacks its first character. */
  lemma NotContainsAfterPrefix(a: string, s: string, p: string)
    requires p != [] && p[0] !in a && !Contains(s, p)
    ensures !Contains(a + s, p)
  {
    var t := a + s;
    forall k: nat | k <= |t| && k + |p| <= |t| ensures !OccursAt(t, p, k) {
      if k < |a| {
        assert t[k..k + |p|][0] == a[k];
      } else {
        assert t[k..k + |p|] == s[k - |a|..k - |a| + |p|];
        assert !OccursAt(s, p, k - |a|);
      }
    }
  }

  /** A pattern cannot straddle the seam between `a` and `b` when `b` starts with a character
      the pattern lacks. */
  lemma NotContainsAcrossSeam(a: string, b: string, p: string)
    requires !Contains(a, p) && !Contains(b, p)
    requires b != [] && b[0] !in p
    ensures !Contains(a + b, p)
  {
    var t := a + b;
    forall k: nat | k <= |t| && k + |p| <= |t| ensures !OccursAt(t, p, k) {
      if k + |p| <= |a| {
        assert t[k..k + |p|] == a[k..k + |p|];
        assert !OccursAt(a, p, k);
      } else if k >= |a| {
        assert t[k..k + |p|] == b[k - |a|..k - |a| + |p|];
        assert !OccursAt(b, p, k - |a|);
      } else {
        assert t[k..k + |p|][|a| - k] == b[0];
      }
    }
  }

  /** A pattern whose first character does not occur in `s` does not occur in `s`. */
  lemma FirstCharAbsent(s: string, p: string)
    requires p != [] && p[0] !in s
    ensures !Contains(s, p)
  {
    forall k: nat | k <= |s| && k + |p| <= |s| ensures !OccursAt(s, p, k) {
      assert s[k..k + |p|][0] == s[k];
    }
  }

  /** An occurrence in a prefix is an occurrence in the whole. */
  lemma ContainsInPrefix(a: string, b: string, p: string)
    requires Contains(a, p)
    ensures Contains(a + b, p)
  {
    var k: nat :| k <= |a| && OccursAt(a, p, k);
    assert (a + b)[k..k + |p|] == a[k..k + |p|];
    assert OccursAt(a + b, p, k);
  }

  // ---------------------------------------------------------------------------------------
  // Decimal rendering: Python's `str(n)` and JavaScript's `String(n)` on integers
  // ---------------------------------------------------------------------------------------

  predicate IsDigit(c: char) {
    '0' <= c <= '9'
  }

  predicate AllDigits(s: string) {
    forall k :: 0 <= k < |s| ==> IsDigit(s[k])
  }

  function DigitChar(d: nat): (c: char)
    requires d < 10
    ensures IsDigit(c) && c as int - '0' as int == d
  {
    ('0' as int + d) as char
  }

  /** The shortest decimal numeral of `n`: nonempty, all digits, no leading zero. */
  function NatToDecimal(n: nat): (r: string)
    ensures r != [] && AllDigits(r)
    ensures |r| > 1 ==> r[0] != '0'
    decreases n
  {
    if n < 10 then [DigitChar(n)] else NatToDecimal(n / 10) + [DigitChar(n % 10)]
  }

  /** The value of a numeral. */
  function DecimalValue(s: string): nat
    requires AllDigits(s)
  {
    if s == [] then 0 else DecimalValue(s[..|s| - 1]) * 10 + (s[|s| - 1] as int - '0' as int)
  }

  /** Reading back a rendered number gives the number. */
  lemma {:induction false} DecimalRoundTrip(n: nat)
    ensures DecimalValue(NatToDecimal(n)) == n
    decreases n
  {
    if n >= 10 {
      DecimalRoundTrip(n / 10);
      var r := NatToDecimal(n);
      assert r[..|r| - 1] == NatToDecimal(n / 10);
    }
  }

  /** `str(n)` for a Python `int`, with a leading minus for negative numbers. */
  function IntToDecimal(n: int): string {
    if n < 0 then "-" + NatToDecimal(-n) else NatToDecimal(n)
  }

  /** `int(s)` restricted to the numerals `str` produces: digits, with an optional leading
      minus; anything else is not read. */
  function ReadInt(s: string): Option<int> {
    if s != [] && s[0] == '-' && s[1..] != [] && AllDigits(s[1..]) then Some(-(DecimalValue(s[1..]) as int))
    else if s != [] && AllDigits(s) then Some(DecimalValue(s))
    else None
  }

  /** Reading back a rendered integer, negative ones included, gives the integer, so distinct
      step numbers are reported with distinct texts. */
  lemma IntDecimalRoundTrip(n: int)
    ensures ReadInt(IntToDecimal(n)) == Some(n)
  {
    if n < 0 {
      DecimalRoundTrip(-n);
      assert IntToDecimal(n)[1..] == NatToDecimal(-n);
    } else {
      DecimalRoundTrip(n);
      assert IsDigit(NatToDecimal(n)[0]);
    }
  }

  // ---------------------------------------------------------------------------------------
  // Lines: JavaScript's `s.split("\n")` and its inverse
  // ---------------------------------------------------------------------------------------

  /** `s.split(sep)` for a one-character separator: the pieces between separators, including
      the empty ones at either end. */
  function Split(s: string, sep: char): (parts: seq<string>)
    ensures |parts| >= 1
    ensures forall k :: 0 <= k < |parts| ==> sep !in parts[k]
    decreases |s|
  {
    if s == [] then [""]
    else
      var rest := Split(s[1..], sep);
      if s[0] == sep then [""] + rest else [[s[0]] + rest[0]] + rest[1..]
  }

  /** The pieces glued back together with `sep` between neighbours. */
  function Join(parts: seq<string>, sep: char): string
    requires |parts| >= 1
    decreases |parts|
  {
    if |parts| == 1 then parts[0] else parts[0] + [sep] + Join(parts[1..], sep)
  }

  lemma {:induction false} SplitWithoutSeparator(a: string, sep: char)
    requires sep !in a
    ensures Split(a, sep) == [a]
    decreases |a|
  {
    if a != [] {
      SplitWithoutSeparator(a[1..], sep);
      assert [a[0]] + a[1..] == a;
    }
  }

  /** Splitting a first line followed by a separator yields that line, then the rest. */
  lemma {:induction false} SplitFirstLine(a: string, sep: char, t: string)
    requires sep !in a
    ensures Split(a + [sep] + t, sep) == [a] + Split(t, sep)
    decreases |a|
  {
    var s := a + [sep] + t;
    if a == [] {
      assert s[0] == sep && s[1..] == t;
    } else {
      assert s[0] == a[0];
      assert s[1..] == a[1..] + [sep] + t;
      SplitFirstLine(a[1..], sep, t);
      assert [a[0]] + a[1..] == a;
    }
  }

  /** Splitting undoes joining when no piece holds the separator. */
  lemma {:induction false} SplitJoin(parts: seq<string>, sep: char)
    requires |parts| >= 1
    requires forall k :: 0 <= k < |parts| ==> sep !in parts[k]
    ensures Split(Join(parts, sep), sep) == parts
    decreases |parts|
  {
    if |parts| == 1 {
      SplitWithoutSeparator(parts[0], sep);
    } else {
      SplitJoin(parts[1..], sep);
      SplitFirstLine(parts[0], sep, Join(parts[1..], sep));
      assert [parts[0]] + parts[1..] == parts;
    }
  }

  /** Joining undoes splitting. */
  lemma {:induction false} JoinSplit(s: string, sep: char)
    ensures Join(Split(s, sep), sep) == s
    decreases |s|
  {
    if s != [] {
      JoinSplit(s[1..], sep);
      var rest := Split(s[1..], sep);
      if s[0] != sep {
        var parts := Split(s, sep);
        assert parts[1..] == rest[1..];
        if |rest| == 1 {
          assert Join(parts, sep) == [s[0]] + rest[0];
        } else {
          assert Join(parts, sep) == [s[0]] + rest[0] + [sep] + Join(rest[1..], sep);
        }
        assert [s[0]] + s[1..] == s;
      } else {
        assert ([""] + rest)[1..] == rest;
        assert [s[0]] + s[1..] == s;
      }
    }
  }
}
