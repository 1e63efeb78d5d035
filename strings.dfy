/**
 * The few functions of Go's `strings` package that the core relies on,
 * over `string` = `seq<char>`. Lengths are counted in characters, which is
 * Go's byte length on ASCII text; letter case is folded on ASCII only.
 */
module Strings {

  predicate HasPrefix(s: string, prefix: string) {
    |prefix| <= |s| && s[..|prefix|] == prefix
  }

  predicate HasSuffix(s: string, suffix: string) {
    |suffix| <= |s| && s[|s| - |suffix|..] == suffix
  }

  /** `strings.Contains`: `sub` occurs somewhere in `s`. */
  predicate Contains(s: string, sub: string)
    decreases |s|
  {
    HasPrefix(s, sub) || (|s| > 0 && Contains(s[1..], sub))
  }

  /** `strings.Count` for a one-character separator. */
  function CountChar(s: string, c: char): nat {
    multiset(s)[c]
  }

  /** Index of the first occurrence of `c` in `s`. */
  function IndexOf(s: string, c: char): (i: nat)
    requires c in s
    ensures i < |s| && s[i] == c && c !in s[..i]
  {
    if s[0] == c then 0 else
      assert s == [s[0]] + s[1..];
      var j := IndexOf(s[1..], c);
      assert s[..j + 1] == [s[0]] + s[1..][..j];
      j + 1
  }

  /** The part of `s` before the first `c`, or all of `s` when there is none. */
  function FirstSegment(s: string, c: char): (first: string)
    ensures c !in first
    ensures HasPrefix(s, first)
    ensures c in s ==> |first| < |s| && s[|first|] == c
    ensures c !in s ==> first == s
  {
    if c in s then s[..IndexOf(s, c)] else s
  }

  /** `strings.Split` for a one-character separator. */
  function Split(s: string, c: char): (parts: seq<string>)
    ensures |parts| == CountChar(s, c) + 1
    ensures parts[0] == FirstSegment(s, c)
    ensures forall k :: 0 <= k < |parts| ==> c !in parts[k]
    decreases |s|
  {
    if c !in s then
      assert multiset(s)[c] == 0;
      [s]
    else
      var i := IndexOf(s, c);
      assert s == s[..i] + [c] + s[i + 1..];
      assert multiset(s) == multiset(s[..i]) + multiset{c} + multiset(s[i + 1..]);
      assert c !in multiset(s[..i]);
      [s[..i]] + Split(s[i + 1..], c)
  }

  function LowerChar(c: char): char {
    if 'A' <= c <= 'Z' then (c as int + 32) as char else c
  }

  /** `strings.ToLower` on ASCII letters. */
  function ToLower(s: string): (r: string)
    ensures |r| == |s|
    ensures forall i :: 0 <= i < |s| ==> r[i] == LowerChar(s[i])
  {
    seq(|s|, i requires 0 <= i < |s| => LowerChar(s[i]))
  }

  /** `strings.EqualFold` with ASCII case folding. */
  predicate EqualFold(a: string, b: string) {
    ToLower(a) == ToLower(b)
  }

  predicate IsAsciiLetter(c: char) {
    ('a' <= c <= 'z') || ('A' <= c <= 'Z')
  }

  predicate IsAsciiDigit(c: char) {
    '0' <= c <= '9'
  }
}
