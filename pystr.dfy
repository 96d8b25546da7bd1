/**
 * String operations stated on `string` (a sequence of `char`). The sync script
 * itself calls `str.lower` and `str.find`; splitting at the first separator and
 * removing a suffix are the reading side of the strings it builds, used by the
 * round-trip lemmas about them.
 */
module PyStr {
  import opened Basics

  predicate IsUpperAscii(c: char) {
    'A' <= c <= 'Z'
  }

  /** `str.lower` on one character, for the ASCII capitals; every other character is kept. */
  function LowerChar(c: char): char {
    if IsUpperAscii(c) then (c as int + 32) as char else c
  }

  /** `s.lower()`: every ASCII capital replaced by its small letter. */
  function Lower(s: string): (r: string)
    ensures |r| == |s|
    ensures forall i :: 0 <= i < |s| ==> r[i] == LowerChar(s[i])
    ensures forall i :: 0 <= i < |r| ==> !IsUpperAscii(r[i])
  {
    if s == [] then [] else [LowerChar(s[0])] + Lower(s[1..])
  }

  /** A string without ASCII capitals is its own lower-case form. */
  lemma LowerKeepsLowercase(s: string)
    requires forall i :: 0 <= i < |s| ==> !IsUpperAscii(s[i])
    ensures Lower(s) == s
  {
    assert forall i :: 0 <= i < |s| ==> Lower(s)[i] == s[i];
  }

  /** Lower-casing twice is lower-casing once. */
  lemma LowerIdempotent(s: string)
    ensures Lower(Lower(s)) == Lower(s)
  {
    LowerKeepsLowercase(Lower(s));
  }

  /** `sub` occurs in `s` starting at index `i`. */
  predicate OccursAt(s: string, sub: string, i: int) {
    0 <= i && i + |sub| <= |s| && s[i..i + |sub|] == sub
  }

  /** Python's `sub in s`. */
  ghost predicate Contains(s: string, sub: string) {
    exists i :: OccursAt(s, sub, i)
  }

  /** Python's `s.startswith(sub)`. */
  predicate StartsWith(s: string, sub: string) {
    OccursAt(s, sub, 0)
  }

  /** `s.find(sub, start)`: the first index from `start` on where `sub` occurs, or -1. */
  function FindFrom(s: string, sub: string, start: nat): (r: int)
    requires start <= |s|
    ensures r == -1 || (start <= r && OccursAt(s, sub, r))
    ensures r == -1 ==> forall i :: start <= i ==> !OccursAt(s, sub, i)
    ensures forall i :: start <= i < r ==> !OccursAt(s, sub, i)
    decreases |s| - start
  {
    if OccursAt(s, sub, start) then start
    else if start + |sub| >= |s| then -1
    else FindFrom(s, sub, start + 1)
  }

  /** `s.find(sub)`: the index of the first occurrence of `sub` in `s`, or -1 when there is none. */
  function Find(s: string, sub: string): (r: int)
    ensures r == -1 <==> !Contains(s, sub)
    ensures r != -1 ==> 0 <= r && OccursAt(s, sub, r)
    ensures forall i :: 0 <= i < r ==> !OccursAt(s, sub, i)
  {
    FindFrom(s, sub, 0)
  }

  /** `find` answers above 0 exactly when `sub` occurs but `s` does not start with it. */
  lemma FindPositive(s: string, sub: string)
    ensures Find(s, sub) > 0 <==> Contains(s, sub) && !StartsWith(s, sub)
  {
  }

  /** `s.split(sep, 1)` as a pair: the text before the first `sep` and the text after it. */
  function SplitAtFirst(s: string, sep: char): (r: Option<(string, string)>)
    ensures r.None? <==> sep !in s
    ensures r.Some? ==> sep !in r.value.0 && s == r.value.0 + [sep] + r.value.1
  {
    if s == [] then None
    else if s[0] == sep then Some(([], s[1..]))
    else match SplitAtFirst(s[1..], sep)
      case None => None
      case Some((before, after)) => Some(([s[0]] + before, after))
  }

  /** Splitting a key and a value joined by a separator that the key does not contain gives them back. */
  lemma {:induction false} SplitAtFirstJoin(key: string, sep: char, value: string)
    requires sep !in key
    ensures SplitAtFirst(key + [sep] + value, sep) == Some((key, value))
  {
    var s := key + [sep] + value;
    if key == [] {
      assert s == [sep] + value;
    } else {
      assert s[0] == key[0] && s[1..] == key[1..] + [sep] + value;
      SplitAtFirstJoin(key[1..], sep, value);
      assert [key[0]] + key[1..] == key;
    }
  }

  /** `s.removesuffix(suffix)`, reporting whether the suffix was there. */
  function StripSuffix(s: string, suffix: string): (r: Option<string>)
    ensures r.Some? <==> |suffix| <= |s| && s[|s| - |suffix|..] == suffix
    ensures r.Some? ==> r.value + suffix == s
  {
    if |suffix| <= |s| && s[|s| - |suffix|..] == suffix then Some(s[..|s| - |suffix|]) else None
  }

  /** Appending a suffix and removing it again gives back the string. */
  lemma StripSuffixAppend(s: string, suffix: string)
    ensures StripSuffix(s + suffix, suffix) == Some(s)
  {
    assert (s + suffix)[|s|..] == suffix;
    assert (s + suffix)[..|s|] == s;
  }
}
