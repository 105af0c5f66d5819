/** The part of ECMAScript's string semantics the request handler relies on:
    `String.prototype.trim` and the truthiness of strings. */
module JsString {

  /** ECMAScript WhiteSpace (TAB, VT, FF, ZWNBSP and every Unicode "Zs" space
      separator) and LineTerminator (LF, CR, LS, PS): exactly the characters
      `trim` removes. */
  predicate IsWhitespace(c: char) {
    var n := c as int;
    n == 0x09 || n == 0x0B || n == 0x0C || n == 0x20 || n == 0xA0 || n == 0xFEFF
    || n == 0x1680 || (0x2000 <= n <= 0x200A) || n == 0x202F || n == 0x205F || n == 0x3000
    || n == 0x0A || n == 0x0D || n == 0x2028 || n == 0x2029
  }

  predicate AllWhitespace(s: string) {
    forall i :: 0 <= i < |s| ==> IsWhitespace(s[i])
  }

  /** A JavaScript string is truthy exactly when it is not empty. */
  predicate Truthy(s: string) {
    s != ""
  }

  /** Scans forward from `i` over whitespace: the position of the first
      non-whitespace character at or after `i`, or `|s|` if there is none. */
  function TrimStartIndex(s: string, i: nat): (lo: nat)
    requires i <= |s|
    ensures i <= lo <= |s|
    ensures forall k :: i <= k < lo ==> IsWhitespace(s[k])
    ensures lo < |s| ==> !IsWhitespace(s[lo])
    decreases |s| - i
  {
    if i < |s| && IsWhitespace(s[i]) then TrimStartIndex(s, i + 1) else i
  }

  /** Scans backward from `j`, not below `lo`, over whitespace: the position
      just after the last non-whitespace character in `s[lo..j]`, or `lo`. */
  function TrimEndIndex(s: string, lo: nat, j: nat): (hi: nat)
    requires lo <= j <= |s|
    ensures lo <= hi <= j
    ensures forall k :: hi <= k < j ==> IsWhitespace(s[k])
    ensures lo < hi ==> !IsWhitespace(s[hi - 1])
  {
    if lo < j && IsWhitespace(s[j - 1]) then TrimEndIndex(s, lo, j - 1) else j
  }

  /** `r` is `s` with its leading and trailing whitespace cut off, the cut
      starting at offset `lo`: an independent statement of what `trim` returns. */
  ghost predicate IsTrimAt(s: string, r: string, lo: int) {
    && 0 <= lo <= lo + |r| <= |s|
    && (forall k :: 0 <= k < |r| ==> r[k] == s[lo + k])
    && (forall k :: 0 <= k < lo ==> IsWhitespace(s[k]))
    && (forall k :: lo + |r| <= k < |s| ==> IsWhitespace(s[k]))
    && (r != [] ==> !IsWhitespace(r[0]) && !IsWhitespace(r[|r| - 1]))
  }

  ghost predicate IsTrimOf(s: string, r: string) {
    exists lo :: IsTrimAt(s, r, lo)
  }

  /** `String.prototype.trim`. */
  function Trim(s: string): (r: string)
    ensures IsTrimOf(s, r)
    ensures r == [] <==> AllWhitespace(s)
  {
    var lo := TrimStartIndex(s, 0);
    var hi := TrimEndIndex(s, lo, |s|);
    var r := s[lo..hi];
    assert IsTrimAt(s, r, lo);
    assert r != [] ==> s[lo] == r[0];
    r
  }

  /** Whitespace on both sides pins the cut down: a string has only one trim. */
  lemma TrimIsUnique(s: string, r1: string, r2: string)
    requires IsTrimOf(s, r1) && IsTrimOf(s, r2)
    ensures r1 == r2
  {
    var lo1 :| IsTrimAt(s, r1, lo1);
    var lo2 :| IsTrimAt(s, r2, lo2);
    TrimAtIsEmptyIffBlank(s, r1, lo1);
    TrimAtIsEmptyIffBlank(s, r2, lo2);
    if r1 != [] && r2 != [] {
      // Each cut starts at a non-whitespace character that the other cut
      // must keep, so neither start lies before the other; likewise the ends.
      assert !IsWhitespace(s[lo1]) && !IsWhitespace(s[lo2]);
      assert lo1 == lo2;
      assert !IsWhitespace(s[lo1 + |r1| - 1]) && !IsWhitespace(s[lo2 + |r2| - 1]);
      assert |r1| == |r2|;
    }
  }

  lemma TrimAtIsEmptyIffBlank(s: string, r: string, lo: int)
    requires IsTrimAt(s, r, lo)
    ensures r == [] <==> AllWhitespace(s)
  {
    if r != [] {
      assert s[lo] == r[0];
    }
  }

  /** A string with no whitespace at either end is its own trim. */
  lemma TrimOfUnpadded(s: string)
    requires s != [] && !IsWhitespace(s[0]) && !IsWhitespace(s[|s| - 1])
    ensures Trim(s) == s
  {
    assert IsTrimAt(s, s, 0);
    TrimIsUnique(s, s, Trim(s));
  }

  /** Whitespace added around a string does not change its trim. */
  lemma TrimIgnoresPadding(s: string, pre: string, post: string)
    requires AllWhitespace(pre) && AllWhitespace(post)
    ensures Trim(pre + s + post) == Trim(s)
  {
    var r := Trim(s);
    var lo :| IsTrimAt(s, r, lo);
    var p := pre + s + post;
    assert forall k :: 0 <= k < |pre| ==> p[k] == pre[k];
    assert forall k :: 0 <= k < |s| ==> p[|pre| + k] == s[k];
    assert forall k :: 0 <= k < |post| ==> p[|pre| + |s| + k] == post[k];
    assert IsTrimAt(p, r, |pre| + lo);
    TrimIsUnique(p, r, Trim(p));
  }
}
