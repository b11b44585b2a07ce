/** The JavaScript string operations the core relies on: `String.prototype.trim`
    and `String.prototype.split` with a one-character separator. Strings are
    sequences of Unicode scalar values. */
module Strings {

  /** ECMAScript WhiteSpace and LineTerminator code points, the set `trim` removes. */
  predicate IsWhitespace(c: char) {
    var n := c as int;
    n == 0x09 || n == 0x0A || n == 0x0B || n == 0x0C || n == 0x0D || n == 0x20
    || n == 0xA0 || n == 0x1680 || (0x2000 <= n <= 0x200A)
    || n == 0x2028 || n == 0x2029 || n == 0x202F || n == 0x205F
    || n == 0x3000 || n == 0xFEFF
  }

  /** Every character of `s` in positions `lo .. hi-1` is whitespace. */
  predicate WhitespaceBetween(s: string, lo: int, hi: int) {
    forall k :: lo <= k < hi && 0 <= k < |s| ==> IsWhitespace(s[k])
  }

  predicate AllWhitespace(s: string) {
    WhitespaceBetween(s, 0, |s|)
  }

  /** Neither end of `s` is whitespace. */
  predicate IsTrimmed(s: string) {
    s == [] || (!IsWhitespace(s[0]) && !IsWhitespace(s[|s| - 1]))
  }

  /** The index of the first non-whitespace character, or `|s|`. */
  function TrimStartIndex(s: string): (i: nat)
    ensures i <= |s|
    ensures WhitespaceBetween(s, 0, i)
    ensures i == |s| || !IsWhitespace(s[i])
    decreases |s|
  {
    if |s| > 0 && IsWhitespace(s[0]) then
      var j := TrimStartIndex(s[1..]);
      assert forall k :: 1 <= k < j + 1 ==> s[k] == s[1..][k - 1];
      j + 1
    else 0
  }

  /** One past the index of the last non-whitespace character at or after `lo`, or `lo`. */
  function TrimEndIndex(s: string, lo: nat): (j: nat)
    requires lo <= |s|
    ensures lo <= j <= |s|
    ensures WhitespaceBetween(s, j, |s|)
    ensures j == lo || !IsWhitespace(s[j - 1])
    decreases |s| - lo
  {
    if lo < |s| && IsWhitespace(s[|s| - 1]) then
      var j := TrimEndIndex(s[..|s| - 1], lo);
      assert forall k :: lo <= k < |s| - 1 ==> s[k] == s[..|s| - 1][k];
      j
    else |s|
  }

  /** `s.trim()`: the slice of `s` left after removing whitespace at both ends. */
  function Trim(s: string): (r: string)
    ensures IsTrimmed(r)
    ensures exists i :: 0 <= i <= |s| - |r| && r == s[i..i + |r|]
                        && WhitespaceBetween(s, 0, i) && WhitespaceBetween(s, i + |r|, |s|)
    ensures r == [] <==> AllWhitespace(s)
    ensures forall c :: c in r ==> c in s
  {
    var i := TrimStartIndex(s);
    var j := TrimEndIndex(s, i);
    var r := s[i..j];
    assert r == s[i..i + |r|];
    assert r != [] ==> r[0] == s[i] && r[|r| - 1] == s[j - 1];
    r
  }

  /** Trimming a trimmed string changes nothing, so trimming twice is trimming once. */
  lemma TrimTrimmed(s: string)
    requires IsTrimmed(s)
    ensures Trim(s) == s
  {
  }

  lemma TrimIdempotent(s: string)
    ensures Trim(Trim(s)) == Trim(s)
  {
  }

  /** `s.split(d)` for a one-character separator: at least one segment, none
      containing `d`, and joining them back with `d` gives `s`. */
  function Split(s: string, d: char): (r: seq<string>)
    ensures |r| >= 1
    ensures forall i :: 0 <= i < |r| ==> d !in r[i]
    ensures Join(r, d) == s
    decreases |s|
  {
    if |s| == 0 then [""]
    else if s[0] == d then
      var rest := Split(s[1..], d);
      assert [d] + Join(rest, d) == s;
      [""] + rest
    else
      var rest := Split(s[1..], d);
      var r := [[s[0]] + rest[0]] + rest[1..];
      JoinCons(s[0], rest, d);
      r
  }

  /** `parts.join(d)`. */
  function Join(parts: seq<string>, d: char): string
    requires |parts| >= 1
  {
    if |parts| == 1 then parts[0] else parts[0] + [d] + Join(parts[1..], d)
  }

  lemma JoinCons(c: char, parts: seq<string>, d: char)
    requires |parts| >= 1
    ensures Join([[c] + parts[0]] + parts[1..], d) == [c] + Join(parts, d)
  {
  }

  /** The first segment of `s.split(d)`: what `s.split(d)[0]` reads. */
  function FirstSegment(s: string, d: char): (r: string)
    ensures d !in r
    ensures r == s || (|r| < |s| && s[|r|] == d)
    ensures r == s[..|r|]
  {
    var parts := Split(s, d);
    JoinPrefix(parts, d);
    parts[0]
  }

  lemma {:induction false} JoinPrefix(parts: seq<string>, d: char)
    requires |parts| >= 1
    ensures var j := Join(parts, d);
            (|parts| == 1 && j == parts[0])
            || (|parts| > 1 && |parts[0]| < |j| && j[..|parts[0]|] == parts[0] && j[|parts[0]|] == d)
  {
  }

  /** Splitting a string with no separator in its prefix `a` yields `a` first. */
  lemma {:induction false} SplitAfterSegment(a: string, b: string, d: char)
    requires d !in a
    ensures Split(a + [d] + b, d) == [a] + Split(b, d)
    decreases |a|
  {
    if |a| == 0 {
      assert a + [d] + b == [d] + b;
      assert ([d] + b)[1..] == b;
    } else {
      var s := a + [d] + b;
      assert s[0] == a[0] && s[1..] == a[1..] + [d] + b;
      SplitAfterSegment(a[1..], b, d);
      assert [a[0]] + a[1..] == a;
    }
  }

  lemma SplitNoSeparator(a: string, d: char)
    requires d !in a
    ensures Split(a, d) == [a]
    decreases |a|
  {
  }

  /** Split is the inverse of Join on segments that do not contain the separator. */
  lemma {:induction false} SplitJoin(parts: seq<string>, d: char)
    requires |parts| >= 1
    requires forall i :: 0 <= i < |parts| ==> d !in parts[i]
    ensures Split(Join(parts, d), d) == parts
    decreases |parts|
  {
    if |parts| == 1 {
      SplitNoSeparator(parts[0], d);
    } else {
      SplitJoin(parts[1..], d);
      SplitAfterSegment(parts[0], Join(parts[1..], d), d);
      assert [parts[0]] + parts[1..] == parts;
    }
  }
}
