/** The few JavaScript built-ins the core relies on, with their ECMAScript meaning. */
module Js {
  import opened Wrappers

  /** Truthiness of an optional string: `undefined`, `null` and "" are falsy. */
  predicate Truthy(s: Option<string>) {
    s.Some? && s.value != ""
  }

  /** Truthiness of an optional number (NaN is not modelled): `undefined` and 0 are falsy. */
  predicate TruthyNumber(n: Option<int>) {
    n.Some? && n.value != 0
  }

  /** `s.startsWith(c)` for a one-character prefix. */
  predicate StartsWith(s: string, c: char) {
    |s| > 0 && s[0] == c
  }

  /** `toLowerCase` on one character; only the ASCII letters are mapped. */
  function ToLowerChar(c: char): (r: char)
    ensures 'A' <= c <= 'Z' ==> r as int == c as int + 32
    ensures !('A' <= c <= 'Z') ==> r == c
  {
    if 'A' <= c <= 'Z' then (c as int + 32) as char else c
  }

  function ToLower(s: string): (r: string)
    ensures |r| == |s|
    ensures forall i :: 0 <= i < |s| ==> r[i] == ToLowerChar(s[i])
  {
    if s == [] then [] else [ToLowerChar(s[0])] + ToLower(s[1..])
  }

  /** `a.toLowerCase() === b.toLowerCase()`, also Prisma's `mode: 'insensitive'` equality. */
  predicate EqualsIgnoringCase(a: string, b: string) {
    ToLower(a) == ToLower(b)
  }

  function Min(a: int, b: int): int {
    if a <= b then a else b
  }

  /** `Array.prototype.slice(start, end)` for non-negative arguments: both ends are
      clamped to the length, and a start at or past the end gives []. */
  function Slice<T>(s: seq<T>, start: nat, end: nat): (r: seq<T>)
    ensures |r| <= end - start || (start >= end && r == [])
    ensures start <= end <= |s| ==> r == s[start..end]
    ensures start <= |s| <= end ==> r == s[start..]
    ensures |s| <= start ==> r == []
    ensures forall x :: x in r ==> x in s
  {
    var e := Min(end, |s|);
    s[Min(start, e)..e]
  }
}
