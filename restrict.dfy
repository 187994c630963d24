/**
 * The array loops of the `restrict` experiment: `dot0` and `dot1` copy `a`
 * into `r` but zero the entries where `b` is zero, the second with every
 * pointer `restrict`-qualified; `sum_array` adds up a prefix and
 * `init_array` fills one with 0, 1, 2, 0, 1, 2, ...
 *
 * A C array parameter becomes an `array<Int32>`; `size` is the C `int`
 * bound of the loop, which runs no times when it is not positive. Two
 * parameters may be the same array, as `main` arranges by passing `arr1`
 * both as `a` and as `r`.
 */
module Restrict {
  import opened CInt

  /** How many times `for (i = 0; i < size; i++)` runs. */
  function Trips(size: int): nat {
    if size < 0 then 0 else size
  }

  /** One entry of the result: `a`'s, unless `b`'s is zero, in which case `b`'s, that is 0. */
  function Mask(x: int, y: int): int {
    if y == 0 then y else x
  }

  /** `a` with the entries at which `b` is zero set to zero. */
  function Dot(a: seq<int>, b: seq<int>): (r: seq<int>)
    requires |a| == |b|
    ensures |r| == |a|
    ensures forall i :: 0 <= i < |r| ==> r[i] == Mask(a[i], b[i])
  {
    if |a| == 0 then [] else Dot(a[..|a| - 1], b[..|b| - 1]) + [Mask(a[|a| - 1], b[|b| - 1])]
  }

  /** Where `b` has no zero, `Dot` is `a` itself. */
  lemma DotNoZero(a: seq<int>, b: seq<int>)
    requires |a| == |b| && forall i :: 0 <= i < |b| ==> b[i] != 0
    ensures Dot(a, b) == a
  {
  }

  /** Applying the same mask twice is applying it once. */
  lemma DotIdempotent(a: seq<int>, b: seq<int>)
    requires |a| == |b|
    ensures Dot(Dot(a, b), b) == Dot(a, b)
  {
  }

  /** An entry of the result is zero exactly where `a` or `b` is. */
  lemma DotZero(a: seq<int>, b: seq<int>, i: int)
    requires |a| == |b| && 0 <= i < |a|
    ensures Dot(a, b)[i] == 0 <==> a[i] == 0 || b[i] == 0
  {
  }

  /**
   * `dot0(a, b, r, size)`, with no `restrict`: any two of the arrays may
   * be one. Iteration `i` reads `a[i]` and `b[i]` and writes only `r[i]`,
   * so what it reads is what was there before the loop, except when `b`
   * is `r`: then `b[i]` is read back after `r[i] = a[i]`, and the entry
   * stays `a[i]` either way.
   */
  method Dot0(a: array<Int32>, b: array<Int32>, r: array<Int32>, size: Int32)
    requires Trips(size) <= a.Length && Trips(size) <= b.Length && Trips(size) <= r.Length
    modifies r
    ensures b != r ==> r[..Trips(size)] == Dot(old(a[..Trips(size)]), old(b[..Trips(size)]))
    ensures b == r ==> r[..Trips(size)] == old(a[..Trips(size)])
    ensures r[Trips(size)..] == old(r[Trips(size)..])
  {
    var i := 0;
    while i < size
      invariant 0 <= i <= Trips(size)
      invariant forall k :: 0 <= k < i ==> r[k] == if b == r then old(a[k]) else Mask(old(a[k]), old(b[k]))
      invariant forall k :: i <= k < r.Length ==> r[k] == old(r[k])
      invariant a != r ==> a[..] == old(a[..])
      invariant b != r ==> b[..] == old(b[..])
    {
      r[i] := a[i];
      if b[i] == 0 {
        r[i] := b[i];
      }
      i := i + 1;
    }
  }

  /**
   * `dot1(a, b, r, size)`: `restrict` promises the compiler that `r`
   * shares no entry with `a` or `b`, so callers must pass distinct arrays;
   * `a` and `b`, only read, may still be one.
   */
  method Dot1(a: array<Int32>, b: array<Int32>, r: array<Int32>, size: Int32)
    requires r != a && r != b
    requires Trips(size) <= a.Length && Trips(size) <= b.Length && Trips(size) <= r.Length
    modifies r
    ensures r[..Trips(size)] == Dot(a[..Trips(size)], b[..Trips(size)])
    ensures r[Trips(size)..] == old(r[Trips(size)..])
  {
    var i := 0;
    while i < size
      invariant 0 <= i <= Trips(size)
      invariant forall k :: 0 <= k < i ==> r[k] == Mask(a[k], b[k])
      invariant forall k :: i <= k < r.Length ==> r[k] == old(r[k])
    {
      r[i] := a[i];
      if b[i] == 0 {
        r[i] := b[i];
      }
      i := i + 1;
    }
  }

  /** The sum of a sequence, added up from the front as `sum_array` does. */
  function Sum(s: seq<int>): int {
    if |s| == 0 then 0 else Sum(s[..|s| - 1]) + s[|s| - 1]
  }

  /** Sums add up over a concatenation. */
  lemma {:induction false} SumConcat(s: seq<int>, t: seq<int>)
    ensures Sum(s + t) == Sum(s) + Sum(t)
    decreases |t|
  {
    if |t| > 0 {
      assert (s + t)[..|s + t| - 1] == s + t[..|t| - 1];
      SumConcat(s, t[..|t| - 1]);
    } else {
      assert s + t == s;
    }
  }

  /** Every running total of `s` fits in an `int`, so `sum += a[i]` never overflows. */
  predicate PrefixSumsFit(s: seq<int>) {
    forall k :: 0 <= k <= |s| ==> IntMin <= Sum(s[..k]) <= IntMax
  }

  /**
   * `sum_array(a, size)`: signed overflow being undefined, callers must
   * keep every running total within `int`.
   */
  method SumArray(a: array<Int32>, size: Int32) returns (sum: Int32)
    requires Trips(size) <= a.Length
    requires PrefixSumsFit(a[..Trips(size)])
    ensures sum == Sum(a[..Trips(size)])
  {
    sum := 0;
    var i := 0;
    while i < size
      invariant 0 <= i <= Trips(size)
      invariant sum == Sum(a[..i])
    {
      assert a[..i + 1][..i] == a[..i];
      assert a[..Trips(size)][..i + 1] == a[..i + 1];
      sum := sum + a[i];
      i := i + 1;
    }
  }

  /** The contents `init_array` gives the first `n` entries. */
  function Pattern(n: nat): (r: seq<int>)
    ensures |r| == n
  {
    seq(n, i => i % 3)
  }

  /** `init_array(a, size)`: entry `i` becomes `i % 3`, the rest of the array is untouched. */
  method InitArray(a: array<Int32>, size: Int32)
    requires Trips(size) <= a.Length
    modifies a
    ensures a[..Trips(size)] == Pattern(Trips(size))
    ensures a[Trips(size)..] == old(a[Trips(size)..])
  {
    var i := 0;
    while i < size
      invariant 0 <= i <= Trips(size)
      invariant forall k :: 0 <= k < i ==> a[k] == k % 3
      invariant forall k :: i <= k < a.Length ==> a[k] == old(a[k])
    {
      a[i] := i % 3;
      i := i + 1;
    }
  }

  /** The pattern adds up to 3 for each full round of 0, 1, 2, plus 1 when it stops after a 0 and a 1. */
  lemma {:induction false} SumPattern(n: nat)
    ensures Sum(Pattern(n)) == 3 * (n / 3) + (if n % 3 == 2 then 1 else 0)
  {
    if n > 0 {
      assert Pattern(n)[..n - 1] == Pattern(n - 1);
      SumPattern(n - 1);
    }
  }

  /** The running totals of the pattern stay small, so `sum_array` may add up what `init_array` wrote. */
  lemma PatternSumsFit(n: nat)
    requires n <= IntMax / 2
    ensures PrefixSumsFit(Pattern(n))
  {
    forall k | 0 <= k <= n
      ensures IntMin <= Sum(Pattern(n)[..k]) <= IntMax
    {
      assert Pattern(n)[..k] == Pattern(k);
      SumPattern(k);
    }
  }
}
