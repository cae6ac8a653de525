/**
 * Strings as sequences of characters, and the few string operations the
 * scripts use: JavaScript `includes`/`startsWith`/`endsWith` and Python
 * `in`/`startswith`/`endswith` (all substring tests), JavaScript
 * `String.replace(c, d)` with a one-character pattern (first occurrence
 * only) and Python `str.replace(c, d)` (every occurrence).
 */
module Text {

  /** `s.startsWith(p)` */
  predicate StartsWith(s: string, p: string) {
    |p| <= |s| && s[..|p|] == p
  }

  /** `s.endsWith(p)` */
  predicate EndsWith(s: string, p: string) {
    |p| <= |s| && s[|s| - |p|..] == p
  }

  /** `s.includes(t)` / `t in s`: t occurs in s at some offset. */
  predicate Contains(s: string, t: string)
    decreases |s|
  {
    StartsWith(s, t) || (|s| > 0 && Contains(s[1..], t))
  }

  /** Every string contains the empty string (so `''.includes('')` holds). */
  lemma ContainsEmpty(s: string)
    ensures Contains(s, "")
  {
  }

  /** A one-character needle occurs exactly when the character is in the string. */
  lemma {:induction false} ContainsChar(s: string, c: char)
    ensures Contains(s, [c]) <==> c in s
    decreases |s|
  {
    if |s| > 0 {
      ContainsChar(s[1..], c);
      assert s == [s[0]] + s[1..];
    }
  }

  /** A string that starts with `t` contains `t` (Python `startswith` implies `in`). */
  lemma StartsWithContains(s: string, t: string)
    requires StartsWith(s, t)
    ensures Contains(s, t)
  {
  }

  /** A string that ends with `t` contains `t`. */
  lemma {:induction false} EndsWithContains(s: string, t: string)
    requires EndsWith(s, t)
    ensures Contains(s, t)
    decreases |s|
  {
    if |s| > |t| {
      assert s[1..][|s[1..]| - |t|..] == s[|s| - |t|..];
      EndsWithContains(s[1..], t);
    } else {
      assert s[..|t|] == s[|s| - |t|..];
    }
  }

  /** The empty string contains only the empty string. */
  lemma EmptyContainsOnlyEmpty(t: string)
    ensures Contains("", t) <==> t == ""
  {
  }

  /** Index of the first occurrence of character c in s, or |s| when there is none. */
  function FirstIndexOf(s: string, c: char): (i: nat)
    ensures i <= |s|
    ensures i < |s| ==> s[i] == c
    ensures forall k :: 0 <= k < i ==> s[k] != c
    decreases |s|
  {
    if |s| == 0 then 0
    else if s[0] == c then 0
    else 1 + FirstIndexOf(s[1..], c)
  }

  /** JavaScript `s.replace(c, d)` for one-character strings c and d: the first c becomes d. */
  function ReplaceFirst(s: string, c: char, d: char): (r: string)
    ensures |r| == |s|
    ensures c !in s ==> r == s
    ensures c in s ==> var i := FirstIndexOf(s, c);
      r[i] == d && forall k :: 0 <= k < |s| && k != i ==> r[k] == s[k]
  {
    var i := FirstIndexOf(s, c);
    if i == |s| then s else s[..i] + [d] + s[i + 1..]
  }

  /** JavaScript `s.replace(c, '')` for a one-character string c: the first c is removed. */
  function RemoveFirst(s: string, c: char): (r: string)
    ensures c !in s ==> r == s
    ensures c in s ==> |r| == |s| - 1 && r == s[..FirstIndexOf(s, c)] + s[FirstIndexOf(s, c) + 1..]
  {
    var i := FirstIndexOf(s, c);
    if i == |s| then s else s[..i] + s[i + 1..]
  }

  /** Python `s.replace(c, d)` for one-character strings c and d: every c becomes d. */
  function ReplaceAll(s: string, c: char, d: char): (r: string)
    ensures |r| == |s|
    ensures forall k :: 0 <= k < |s| ==> r[k] == (if s[k] == c then d else s[k])
    decreases |s|
  {
    if |s| == 0 then [] else [if s[0] == c then d else s[0]] + ReplaceAll(s[1..], c, d)
  }
}
