/**
 * JavaScript's `String.prototype.trim`: strip the white space and line
 * terminators of the ECMAScript language specification (ECMA-262, the
 * WhiteSpace and LineTerminator productions) from both ends of a string.
 */
module Text {

  /** TAB, VT, FF, ZWNBSP, LF, CR, LS, PS and every Unicode "Space_Separator" (Zs). */
  const Spaces: set<char> := {
    '\t', '\U{000B}', '\U{000C}', '\U{FEFF}', '\n', '\r', '\U{2028}', '\U{2029}',
    ' ', '\U{00A0}', '\U{1680}',
    '\U{2000}', '\U{2001}', '\U{2002}', '\U{2003}', '\U{2004}', '\U{2005}',
    '\U{2006}', '\U{2007}', '\U{2008}', '\U{2009}', '\U{200A}',
    '\U{202F}', '\U{205F}', '\U{3000}'}

  predicate IsSpace(c: char) {
    c in Spaces
  }

  /** Every character of `s` from index `lo` up to (not including) `hi` is white space. */
  predicate SpaceBetween(s: string, lo: int, hi: int)
    requires 0 <= lo && hi <= |s|
  {
    forall k :: lo <= k < hi ==> IsSpace(s[k])
  }

  predicate AllSpace(s: string) {
    SpaceBetween(s, 0, |s|)
  }

  /** The index of the first character at or after `k` that is not white space, or |s|. */
  function SkipSpace(s: string, k: nat): (i: nat)
    requires k <= |s|
    ensures k <= i <= |s| && SpaceBetween(s, k, i)
    ensures i == |s| || !IsSpace(s[i])
    decreases |s| - k
  {
    if k < |s| && IsSpace(s[k]) then SkipSpace(s, k + 1) else k
  }

  /** The index just past the last character before `k` that is not white space, or `lo`. */
  function SkipSpaceBack(s: string, lo: nat, k: nat): (j: nat)
    requires lo <= k <= |s|
    ensures lo <= j <= k && SpaceBetween(s, j, k)
    ensures j == lo || !IsSpace(s[j - 1])
    decreases k
  {
    if lo < k && IsSpace(s[k - 1]) then SkipSpaceBack(s, lo, k - 1) else k
  }

  /** Where `s.trim()` starts in `s`: after the leading white space. */
  function TrimStartIndex(s: string): nat
    ensures TrimStartIndex(s) <= |s|
  {
    SkipSpace(s, 0)
  }

  /**
   * `s.trim()`: the slice of `s` that starts after the leading white space
   * and stops before the trailing white space. It is empty exactly when `s`
   * is all white space, and otherwise starts and ends with a character that
   * is not white space.
   */
  function Trim(s: string): (r: string)
    ensures var i := TrimStartIndex(s);
      && i + |r| <= |s| && s[i..i + |r|] == r
      && SpaceBetween(s, 0, i) && SpaceBetween(s, i + |r|, |s|)
    ensures r == [] <==> AllSpace(s)
    ensures r == [] || (!IsSpace(r[0]) && !IsSpace(r[|r| - 1]))
  {
    var i := SkipSpace(s, 0);
    var j := SkipSpaceBack(s, i, |s|);
    assert j == i ==> AllSpace(s);
    s[i..j]
  }

  /** Trimming is idempotent. */
  lemma TrimIdempotent(s: string)
    ensures Trim(Trim(s)) == Trim(s)
  {
    NoBorderSpaceTrimsToItself(Trim(s));
  }

  /** A string that neither starts nor ends with white space is its own trim. */
  lemma NoBorderSpaceTrimsToItself(s: string)
    requires s == [] || (!IsSpace(s[0]) && !IsSpace(s[|s| - 1]))
    ensures Trim(s) == s
  {
  }
}
