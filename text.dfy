/** The string tests the session applies to user input: JavaScript's
    `String.prototype.trim` and the "missing or blank" test `!x?.trim()`. */
module Text {
  import opened Wrappers

  /** The code points `trim` strips: the ECMAScript WhiteSpace production
      (tab, vertical tab, form feed, byte order mark and every Unicode space
      separator) together with the LineTerminator production (line feed,
      carriage return, line and paragraph separator). */
  predicate IsWhitespace(c: char) {
    c == '\t' || c == '\n' || c == '\U{000B}' || c == '\U{000C}' || c == '\r'
    || c == ' ' || c == '\U{00A0}' || c == '\U{1680}'
    || ('\U{2000}' <= c <= '\U{200A}')
    || c == '\U{2028}' || c == '\U{2029}' || c == '\U{202F}' || c == '\U{205F}'
    || c == '\U{3000}' || c == '\U{FEFF}'
  }

  /** The characters of `s` at positions `lo` up to (not including) `hi` are
      all whitespace. */
  predicate WhitespaceBetween(s: string, lo: int, hi: int) {
    forall i :: lo <= i < hi && 0 <= i < |s| ==> IsWhitespace(s[i])
  }

  /** Every character of `s` is whitespace (the empty string included). */
  predicate AllWhitespace(s: string) {
    WhitespaceBetween(s, 0, |s|)
  }

  /** The first position at or after `i` that does not hold whitespace, or
      the length of `s` when there is none: where the trimmed text starts. */
  function SkipLeading(s: string, i: nat): (k: nat)
    requires i <= |s|
    ensures i <= k <= |s|
    ensures WhitespaceBetween(s, i, k)
    ensures k < |s| ==> !IsWhitespace(s[k])
    decreases |s| - i
  {
    if i < |s| && IsWhitespace(s[i]) then SkipLeading(s, i + 1) else i
  }

  /** The last position at or before `j`, and after `lo`, that follows a
      character which is not whitespace, or `lo` when there is none: where
      the trimmed text ends. */
  function SkipTrailing(s: string, lo: nat, j: nat): (k: nat)
    requires lo <= j <= |s|
    ensures lo <= k <= j
    ensures WhitespaceBetween(s, k, j)
    ensures k > lo ==> !IsWhitespace(s[k - 1])
    decreases j
  {
    if j > lo && IsWhitespace(s[j - 1]) then SkipTrailing(s, lo, j - 1) else j
  }

  /** `String.prototype.trim`: the input without its leading and trailing
      whitespace. The input is whitespace, then the result, then whitespace;
      the result is empty exactly when the input is all whitespace, and
      otherwise it neither starts nor ends with whitespace. */
  function Trim(s: string): (r: string)
    ensures exists lo, hi :: 0 <= lo <= hi <= |s| && r == s[lo..hi]
                             && WhitespaceBetween(s, 0, lo) && WhitespaceBetween(s, hi, |s|)
    ensures r == [] <==> AllWhitespace(s)
    ensures r != [] ==> !IsWhitespace(r[0]) && !IsWhitespace(r[|r| - 1])
  {
    var lo := SkipLeading(s, 0);
    var hi := SkipTrailing(s, lo, |s|);
    assert hi > lo ==> s[lo..hi][0] == s[lo] && s[lo..hi][hi - lo - 1] == s[hi - 1];
    s[lo..hi]
  }

  /** `s.trim() === ""`: `s` is empty or all whitespace (see `BlankIffTrimEmpty`). */
  predicate IsBlank(s: string) {
    AllWhitespace(s)
  }

  lemma BlankIffTrimEmpty(s: string)
    ensures IsBlank(s) <==> Trim(s) == []
  {
  }

  /** The guard `!x?.trim()` (see `MissingOrBlankIffFalsyTrim`). */
  predicate IsMissingOrBlank(x: Option<string>) {
    x.None? || IsBlank(x.value)
  }

  /** `!x?.trim()` holds when `x` is `undefined` (optional chaining gives
      `undefined`, which is false) or when trimming `x` leaves the empty
      string (also false); any other string is true. */
  lemma MissingOrBlankIffFalsyTrim(x: Option<string>)
    ensures IsMissingOrBlank(x) <==> x.None? || Trim(x.value) == []
  {
  }
}
