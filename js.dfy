/** The few JavaScript built-ins the handlers rely on: `String.prototype.indexOf`,
    `Array.prototype.indexOf` and the truthiness of an optional string. */
module Js {
  import opened Wrappers

  /** `pat` occurs in `s` starting at index `i`. */
  predicate OccursAt(s: string, pat: string, i: int) {
    0 <= i && i + |pat| <= |s| && s[i..i + |pat|] == pat
  }

  /** Reference meaning of a substring test, independent of any search order. */
  ghost predicate Contains(s: string, pat: string) {
    exists i :: OccursAt(s, pat, i)
  }

  /** `s.indexOf(pat, from)` for `from <= |s|`: the first occurrence at or after
      `from`, or -1. (JavaScript clamps a larger `from`; the handlers only search from 0.) */
  function IndexOfFrom(s: string, pat: string, from: nat): (r: int)
    ensures r == -1 || (from <= r && OccursAt(s, pat, r))
    ensures r == -1 ==> forall i :: from <= i ==> !OccursAt(s, pat, i)
    ensures r != -1 ==> forall i :: from <= i < r ==> !OccursAt(s, pat, i)
    decreases |s| - from
  {
    if from + |pat| > |s| then -1
    else if s[from..from + |pat|] == pat then from
    else IndexOfFrom(s, pat, from + 1)
  }

  /** `s.indexOf(pat)`: the result is non-negative exactly when `pat` occurs in `s`,
      and then it is the first occurrence. */
  function IndexOf(s: string, pat: string): (r: int)
    ensures r >= 0 <==> Contains(s, pat)
    ensures r >= 0 ==> OccursAt(s, pat, r) && forall i :: 0 <= i < r ==> !OccursAt(s, pat, i)
    ensures r < 0 ==> r == -1
  {
    IndexOfFrom(s, pat, 0)
  }

  /** `xs.indexOf(x, from)` on an array: the first position at or after `from` holding `x`, or -1. */
  function ArrayIndexOfFrom<T(==)>(xs: seq<T>, x: T, from: nat): (r: int)
    ensures r == -1 || (from <= r < |xs| && xs[r] == x)
    ensures r == -1 ==> forall i :: from <= i < |xs| ==> xs[i] != x
    ensures r != -1 ==> forall i :: from <= i < r ==> xs[i] != x
    decreases |xs| - from
  {
    if from >= |xs| then -1
    else if xs[from] == x then from
    else ArrayIndexOfFrom(xs, x, from + 1)
  }

  /** `xs.indexOf(x) === -1` holds exactly when `x` is not an element of `xs`. */
  function ArrayIndexOf<T(==)>(xs: seq<T>, x: T): (r: int)
    ensures r == -1 <==> x !in xs
    ensures r != -1 ==> 0 <= r < |xs| && xs[r] == x && x !in xs[..r]
  {
    ArrayIndexOfFrom(xs, x, 0)
  }

  /** Truthiness of a value that is either absent or a string: `undefined`,
      `null` and the empty string are falsy. */
  predicate Truthy(v: Option<string>) {
    v.Some? && v.value != ""
  }
}
