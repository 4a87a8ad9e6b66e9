/**
 * The three JavaScript string operations the credential form relies on:
 * `includes`, `toLowerCase` and `trim`, on strings modelled as `seq<char>`.
 */
module Text {

  /** `s.includes(sub)`: `sub` occurs in `s` as a contiguous piece. */
  predicate Contains(s: string, sub: string) {
    exists i :: 0 <= i <= |s| && sub <= s[i..]
  }

  /** A pattern is absent when one of its characters, `sub[j]`, occurs nowhere it would have to
      stand in `s` for some occurrence of the pattern. */
  lemma NotContains(s: string, sub: string, j: nat)
    requires j < |sub|
    requires |sub| <= |s| ==> sub[j] !in s[j..|s| - |sub| + j + 1]
    ensures !Contains(s, sub)
  {
    forall i | 0 <= i <= |s|
      ensures !(sub <= s[i..])
    {
      if i + |sub| <= |s| {
        assert s[j..|s| - |sub| + j + 1][i] == s[i + j];
        assert s[i..][j] == s[i + j];
      }
    }
  }

  /** `toLowerCase` on one character, for the characters whose lower case is an ASCII letter:
      A–Z, and U+212A KELVIN SIGN, whose lower case is 'k'. */
  function LowerChar(c: char): char {
    if 'A' <= c <= 'Z' then (c as int + 32) as char
    else if c == '\U{212A}' then 'k'
    else c
  }

  predicate IsUpper(c: char) {
    'A' <= c <= 'Z'
  }

  /** `s.toLowerCase()`, character by character. */
  function ToLower(s: string): (r: string)
    ensures |r| == |s|
    ensures forall i :: 0 <= i < |r| ==> !IsUpper(r[i])
    ensures forall i :: 0 <= i < |s| ==>
              if IsUpper(s[i]) then r[i] as int == s[i] as int + 32
              else if s[i] == '\U{212A}' then r[i] == 'k'
              else r[i] == s[i]
  {
    seq(|s|, i requires 0 <= i < |s| => LowerChar(s[i]))
  }

  /** Lower-casing never destroys an occurrence of a pattern that is already in lower case:
      a message that mentions the pattern still mentions it once lowered. */
  lemma ContainsLowered(s: string, sub: string)
    requires forall k :: 0 <= k < |sub| ==> LowerChar(sub[k]) == sub[k]
    requires Contains(s, sub)
    ensures Contains(ToLower(s), sub)
  {
    var i :| 0 <= i <= |s| && sub <= s[i..];
    var l := ToLower(s);
    forall k | 0 <= k < |sub|
      ensures l[i..][k] == sub[k]
    {
      assert s[i..][k] == sub[k];
    }
    assert sub <= l[i..];
  }

  /** The characters `String.prototype.trim` removes: ECMAScript WhiteSpace and LineTerminator. */
  predicate IsSpace(c: char) {
    || c == ' ' || c == '\t' || c == '\n' || c == '\r'
    || c == '\U{000B}' || c == '\U{000C}' || c == '\U{00A0}' || c == '\U{1680}'
    || ('\U{2000}' <= c <= '\U{200A}')
    || c == '\U{2028}' || c == '\U{2029}' || c == '\U{202F}' || c == '\U{205F}'
    || c == '\U{3000}' || c == '\U{FEFF}'
  }

  /** The first index at or after `i` whose character is not white space (or `|s|`). */
  function SkipForward(s: string, i: nat): (k: nat)
    requires i <= |s|
    ensures i <= k <= |s|
    ensures forall m :: i <= m < k ==> IsSpace(s[m])
    ensures k < |s| ==> !IsSpace(s[k])
    decreases |s| - i
  {
    if i < |s| && IsSpace(s[i]) then SkipForward(s, i + 1) else i
  }

  /** The end, between `lo` and `j`, of `s[lo..j]` without its trailing white space. */
  function SkipBackward(s: string, lo: nat, j: nat): (k: nat)
    requires lo <= j <= |s|
    ensures lo <= k <= j
    ensures forall m :: k <= m < j ==> IsSpace(s[m])
    ensures lo < k ==> !IsSpace(s[k - 1])
    decreases j - lo
  {
    if lo < j && IsSpace(s[j - 1]) then SkipBackward(s, lo, j - 1) else j
  }

  /** `s.trim()`: the one slice of `s` that has only white space around it and none at its ends. */
  function Trim(s: string): (r: string)
    ensures |r| <= |s|
    ensures IsTrimOf(r, s)
  {
    var i := SkipForward(s, 0);
    var j := SkipBackward(s, i, |s|);
    assert TrimAt(s[i..j], s, i, j);
    s[i..j]
  }

  /** `r` is the slice `s[i..j]`, everything outside it is white space, and it neither begins
      nor ends in white space. */
  ghost predicate TrimAt(r: string, s: string, i: int, j: int) {
    && 0 <= i <= j <= |s|
    && r == s[i..j]
    && (forall m :: 0 <= m < i ==> IsSpace(s[m]))
    && (forall m :: j <= m < |s| ==> IsSpace(s[m]))
    && (i < j ==> !IsSpace(s[i]) && !IsSpace(s[j - 1]))
  }

  /** `r` is `s` with its white-space prefix and suffix removed and nothing else. */
  ghost predicate IsTrimOf(r: string, s: string) {
    exists i, j :: TrimAt(r, s, i, j)
  }

  /** With white space only in `s[start..i]`, `SkipForward` from `start` stops at `i`. */
  lemma {:induction false} SkipForwardAt(s: string, start: nat, i: nat)
    requires start <= i <= |s|
    requires forall m :: start <= m < i ==> IsSpace(s[m])
    requires i < |s| ==> !IsSpace(s[i])
    ensures SkipForward(s, start) == i
    decreases i - start
  {
    if start < i {
      SkipForwardAt(s, start + 1, i);
    }
  }

  /** With white space only in `s[i..j]` and a non-space just before `i`, `SkipBackward` stops at `i`. */
  lemma {:induction false} SkipBackwardAt(s: string, lo: nat, i: nat, j: nat)
    requires lo <= i <= j <= |s|
    requires forall m :: i <= m < j ==> IsSpace(s[m])
    requires lo < i ==> !IsSpace(s[i - 1])
    ensures SkipBackward(s, lo, j) == i
    decreases j - i
  {
    if i < j {
      SkipBackwardAt(s, lo, i, j - 1);
    }
  }

  /** Any slice that meets the description of a trim is the one `Trim` computes. */
  lemma TrimWitness(r: string, s: string, i: int, j: int)
    requires TrimAt(r, s, i, j)
    ensures r == Trim(s)
  {
    if i == j {
      SkipForwardAt(s, 0, |s|);
      SkipBackwardAt(s, |s|, |s|, |s|);
    } else {
      SkipForwardAt(s, 0, i);
      SkipBackwardAt(s, i, j, |s|);
    }
  }

  /** There is only one way to trim a string, so `IsTrimOf` is a complete description of `Trim`. */
  lemma TrimOfUnique(r1: string, r2: string, s: string)
    requires IsTrimOf(r1, s) && IsTrimOf(r2, s)
    ensures r1 == r2
  {
    var i1, j1 :| TrimAt(r1, s, i1, j1);
    var i2, j2 :| TrimAt(r2, s, i2, j2);
    TrimWitness(r1, s, i1, j1);
    TrimWitness(r2, s, i2, j2);
  }

  /** Trimming twice is trimming once. */
  lemma TrimIdempotent(s: string)
    ensures Trim(Trim(s)) == Trim(s)
  {
    var i := SkipForward(s, 0);
    var j := SkipBackward(s, i, |s|);
    var r := Trim(s);
    assert TrimAt(r, r, 0, |r|) by {
      assert r == r[0..|r|];
      if r != [] {
        assert r[0] == s[i] && r[|r| - 1] == s[j - 1];
      }
    }
    TrimWitness(r, r, 0, |r|);
  }
}
