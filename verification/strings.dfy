/** `String.prototype.trim`, the one piece of string processing the popup
    applies to a completion before showing it. */
module Strings {

  /** The code points `trim` strips: the WhiteSpace and LineTerminator
      productions of ECMA-262 (sections 12.2 and 12.3): TAB, VT, FF, SPACE,
      NBSP, ZWNBSP, the other Zs space separators, LF, CR, LS and PS. */
  const Whitespace: set<char> := {
    '\t', '\U{000B}', '\U{000C}', ' ', '\U{00A0}', '\U{FEFF}', '\U{1680}',
    '\U{2000}', '\U{2001}', '\U{2002}', '\U{2003}', '\U{2004}', '\U{2005}',
    '\U{2006}', '\U{2007}', '\U{2008}', '\U{2009}', '\U{200A}',
    '\U{202F}', '\U{205F}', '\U{3000}',
    '\n', '\r', '\U{2028}', '\U{2029}' }

  predicate IsSpace(c: char)
  {
    c in Whitespace
  }

  /** Every character of `s` is one `trim` would strip. */
  ghost predicate AllSpace(s: string)
  {
    forall m :: 0 <= m < |s| ==> IsSpace(s[m])
  }

  /** `r` is `s[i..j]`, everything before `i` and from `j` on is whitespace,
      and a non-empty `r` neither starts nor ends with whitespace. */
  ghost predicate TrimAt(r: string, s: string, i: int, j: int)
  {
    && 0 <= i <= j <= |s| && r == s[i..j]
    && (forall m :: 0 <= m < i ==> IsSpace(s[m]))
    && (forall m :: j <= m < |s| ==> IsSpace(s[m]))
    && (i < j ==> !IsSpace(s[i]) && !IsSpace(s[j - 1]))
  }

  /** `r` is what remains of `s` once a run of leading and a run of trailing
      whitespace is cut off, leaving no whitespace at either end. */
  ghost predicate IsTrimOf(r: string, s: string)
  {
    exists i, j :: TrimAt(r, s, i, j)
  }

  /** The first index at or after `i` that does not hold whitespace, or
      `|s|` when there is none. */
  function SkipForward(s: string, i: nat): (k: nat)
    requires i <= |s|
    ensures i <= k <= |s|
    ensures forall m :: i <= m < k ==> IsSpace(s[m])
    ensures k < |s| ==> !IsSpace(s[k])
    decreases |s| - i
  {
    if i < |s| && IsSpace(s[i]) then SkipForward(s, i + 1) else i
  }

  /** The end of `s[lo..hi]` once its trailing whitespace is dropped. */
  function SkipBackward(s: string, lo: nat, hi: nat): (k: nat)
    requires lo <= hi <= |s|
    ensures lo <= k <= hi
    ensures forall m :: k <= m < hi ==> IsSpace(s[m])
    ensures lo < k ==> !IsSpace(s[k - 1])
    decreases hi
  {
    if lo < hi && IsSpace(s[hi - 1]) then SkipBackward(s, lo, hi - 1) else hi
  }

  /** `s.trim()`. */
  function Trim(s: string): (r: string)
    ensures IsTrimOf(r, s)
    ensures |r| <= |s|
  {
    var i := SkipForward(s, 0);
    var j := SkipBackward(s, i, |s|);
    assert TrimAt(s[i..j], s, i, j);
    s[i..j]
  }

  /** IsTrimOf pins its result down: there is only one trim of a string. */
  lemma TrimUnique(r1: string, r2: string, s: string)
    requires IsTrimOf(r1, s) && IsTrimOf(r2, s)
    ensures r1 == r2
  {
    var i1, j1 :| TrimAt(r1, s, i1, j1);
    var i2, j2 :| TrimAt(r2, s, i2, j2);
    // a non-empty trim starts at the first and ends after the last non-space
    // character, and an empty one leaves no non-space character anywhere
    assert i1 < j1 ==> i1 == i2 && j1 == j2;
    assert i2 < j2 ==> i1 == i2 && j1 == j2;
  }

  /** A string without whitespace at either end is its own trim. */
  lemma TrimOfTrimmed(s: string)
    requires |s| > 0 ==> !IsSpace(s[0]) && !IsSpace(s[|s| - 1])
    ensures Trim(s) == s
  {
    assert s == s[0..|s|];
    assert TrimAt(s, s, 0, |s|);
    TrimUnique(Trim(s), s, s);
  }

  /** Trimming twice is trimming once. */
  lemma TrimIdempotent(s: string)
    ensures Trim(Trim(s)) == Trim(s)
  {
    var r := Trim(s);
    var i, j :| TrimAt(r, s, i, j);
    assert |r| > 0 ==> r[0] == s[i] && r[|r| - 1] == s[j - 1];
    TrimOfTrimmed(r);
  }

  /** The trim is empty exactly when the string is all whitespace. */
  lemma TrimEmptyIff(s: string)
    ensures Trim(s) == "" <==> AllSpace(s)
  {
    var r := Trim(s);
    var i, j :| TrimAt(r, s, i, j);
    assert i < j ==> !IsSpace(s[i]);
  }
}
