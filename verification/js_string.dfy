/** The few JavaScript string operations the shortener relies on, written out
    over `seq<char>`: `String.prototype.trim`, `String.prototype.substring`
    with its index clamping, and a literal prefix test that ignores ASCII case
    the way a `/^…/i` regular expression does for an ASCII pattern. */
module JsString {

  /** The characters `trim` removes: the ECMAScript WhiteSpace and
      LineTerminator code points. */
  predicate IsWhitespace(c: char) {
    var n := c as int;
    n == 0x09 || n == 0x0A || n == 0x0B || n == 0x0C || n == 0x0D || n == 0x20
    || n == 0xA0 || n == 0x1680 || (0x2000 <= n <= 0x200A)
    || n == 0x2028 || n == 0x2029 || n == 0x202F || n == 0x205F
    || n == 0x3000 || n == 0xFEFF
  }

  /** Every character of `s` is whitespace (vacuously so for ""). */
  predicate AllWhitespace(s: string) {
    forall i :: 0 <= i < |s| ==> IsWhitespace(s[i])
  }

  /** Where leading whitespace from position `i` on ends: the first index at
      or after `i` holding a non-whitespace character, or `|s|`. */
  function LeadingEnd(s: string, i: nat): (r: nat)
    requires i <= |s|
    ensures i <= r <= |s|
    ensures forall k :: i <= k < r ==> IsWhitespace(s[k])
    ensures r < |s| ==> !IsWhitespace(s[r])
    decreases |s| - i
  {
    if i < |s| && IsWhitespace(s[i]) then LeadingEnd(s, i + 1) else i
  }

  /** Where trailing whitespace before position `j` begins, looking no
      further back than `lo`: one past the last non-whitespace character in
      `s[lo..j]`, or `lo`. */
  function TrailingStart(s: string, lo: nat, j: nat): (r: nat)
    requires lo <= j <= |s|
    ensures lo <= r <= j
    ensures forall k :: r <= k < j ==> IsWhitespace(s[k])
    ensures lo < r ==> !IsWhitespace(s[r - 1])
    decreases j - lo
  {
    if lo < j && IsWhitespace(s[j - 1]) then TrailingStart(s, lo, j - 1) else j
  }

  /** Where the text `s.trim()` keeps starts. */
  function TrimFrom(s: string): (i: nat)
    ensures i <= |s|
  {
    LeadingEnd(s, 0)
  }

  /** Where the text `s.trim()` keeps ends. */
  function TrimTo(s: string): (j: nat)
    ensures TrimFrom(s) <= j <= |s|
  {
    TrailingStart(s, TrimFrom(s), |s|)
  }

  /** `r` is the slice of `s` starting at `i`, with only whitespace before
      and after it. */
  predicate IsSliceBetweenWhitespace(s: string, r: string, i: int) {
    && 0 <= i <= |s| - |r|
    && r == s[i..i + |r|]
    && AllWhitespace(s[..i])
    && AllWhitespace(s[i + |r|..])
  }

  /** `s.trim()`: empty exactly when `s` is all whitespace, and otherwise
      neither starting nor ending with whitespace. Which slice of `s` it is
      is `TrimIsSlice`. */
  function Trim(s: string): (r: string)
    ensures |r| <= |s|
    ensures r == [] <==> AllWhitespace(s)
    ensures r != [] ==> !IsWhitespace(r[0]) && !IsWhitespace(r[|r| - 1])
  {
    var i := TrimFrom(s);
    var j := TrimTo(s);
    s[i..j]
  }

  /** `s.trim()` is the contiguous slice of `s` that starts where leading
      whitespace ends, with nothing but whitespace on either side of it. */
  lemma TrimIsSlice(s: string)
    ensures IsSliceBetweenWhitespace(s, Trim(s), TrimFrom(s))
  {
    var i := TrimFrom(s);
    var j := TrimTo(s);
    assert AllWhitespace(s[..i]) by {
      forall k | 0 <= k < i
        ensures IsWhitespace(s[..i][k])
      {
        assert s[..i][k] == s[k];
      }
    }
    assert AllWhitespace(s[j..]) by {
      forall k | 0 <= k < |s| - j
        ensures IsWhitespace(s[j..][k])
      {
        assert s[j..][k] == s[j + k];
      }
    }
  }

  /** A string that neither starts nor ends with whitespace is left alone by
      `trim`. */
  lemma TrimKeepsTrimmed(s: string)
    requires s == [] || (!IsWhitespace(s[0]) && !IsWhitespace(s[|s| - 1]))
    ensures Trim(s) == s
  {
    assert s[0..|s|] == s;
  }

  /** Trimming twice is trimming once. */
  lemma TrimIdempotent(s: string)
    ensures Trim(Trim(s)) == Trim(s)
  {
    TrimKeepsTrimmed(Trim(s));
  }

  /** `s.substring(start, end)`: both indices are clamped into `[0, |s|]` and
      swapped when they come out in the wrong order. */
  function Substring(s: string, start: int, end: int): (r: string)
    ensures |r| <= |s|
    ensures 0 <= start <= end ==> |r| <= end - start
    ensures 0 <= start <= end <= |s| ==> r == s[start..end]
    ensures 0 <= start <= |s| <= end ==> r == s[start..]
    ensures |s| <= start <= end ==> r == []
  {
    var a := Clamp(start, |s|);
    var b := Clamp(end, |s|);
    if a <= b then s[a..b] else s[b..a]
  }

  /** `substring` does not care which index comes first. */
  lemma SubstringSymmetric(s: string, start: int, end: int)
    ensures Substring(s, start, end) == Substring(s, end, start)
  {
  }

  function Clamp(i: int, len: nat): (r: nat)
    ensures r <= len
    ensures 0 <= i <= len ==> r == i
  {
    if i < 0 then 0 else if i > len then len else i
  }

  /** ASCII lower-casing; every other character maps to itself. */
  function AsciiLower(c: char): (r: char)
    ensures 'A' <= c <= 'Z' ==> r as int == c as int + 32
    ensures !('A' <= c <= 'Z') ==> r == c
  {
    if 'A' <= c <= 'Z' then (c as int + 32) as char else c
  }

  /** `s` begins with the lower-case pattern `p` when ASCII case is ignored.
      A JavaScript `/i` regular expression without the `u` flag never folds a
      non-ASCII character onto an ASCII one, so for an ASCII pattern this is
      exactly what `/^p/i.test(s)` decides. */
  predicate StartsWithIgnoringCase(s: string, p: string) {
    |p| <= |s| && forall i :: 0 <= i < |p| ==> AsciiLower(s[i]) == p[i]
  }

  /** A prefix match is unaffected by what follows the matched part. */
  lemma StartsWithIgnoringCaseExtends(s: string, t: string, p: string)
    requires StartsWithIgnoringCase(s, p)
    ensures StartsWithIgnoringCase(s + t, p)
  {
    assert forall i :: 0 <= i < |s| ==> (s + t)[i] == s[i];
  }

  /** A case-insensitive prefix match only looks at the first `|p|` characters. */
  lemma StartsWithIgnoringCasePrefix(s: string, t: string, p: string)
    requires |p| <= |s| <= |t| && s == t[..|s|]
    ensures StartsWithIgnoringCase(s, p) <==> StartsWithIgnoringCase(t, p)
  {
    assert forall i :: 0 <= i < |s| ==> s[i] == t[i];
  }

  predicate EndsWith(s: string, suffix: string) {
    |suffix| <= |s| && s[|s| - |suffix|..] == suffix
  }
}
