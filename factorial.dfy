/**
 * `fact(n)` of the code-generation examples: `r` starts at `n`, and while
 * `n > 1` the loop decrements `n` and multiplies it into `r`. So
 * `fact(0)` is 0, not 1, and any `n <= 1` comes back unchanged. `int` is
 * 32 bits and signed overflow is undefined, which keeps callers to
 * `n <= 12`, since 13! does not fit.
 */
module Factorials {
  import opened CInt

  /** n!, the reference the C code is compared with. */
  function Factorial(n: nat): (r: nat)
    ensures r >= 1
  {
    if n == 0 then 1 else n * Factorial(n - 1)
  }

  /** Up to 12, n! fits in a C `int`, and grows with n. */
  lemma {:induction false} FactorialFits(n: nat)
    requires n <= 12
    ensures Factorial(n) <= Factorial(12) == 479001600 <= IntMax
    decreases 12 - n
  {
    if n < 12 {
      FactorialFits(n + 1);
      assert Factorial(n + 1) == (n + 1) * Factorial(n);
    } else {
      assert Factorial(6) == 720;
      assert Factorial(12) == 12 * 11 * 10 * 9 * 8 * 7 * Factorial(6);
    }
  }

  lemma MulAssoc(a: int, b: int, c: int)
    ensures a * (b * c) == (a * b) * c
  {
  }

  lemma MulAtLeast(a: int, b: int)
    requires a >= 1 && b >= 1
    ensures a * b >= a
  {
    assert a * b == a * (b - 1) + a;
  }

  /** One turn of the loop: multiplying `k` into `r` moves one factor across, and the product stays within `int`. */
  lemma LoopStep(n: nat, k: nat, r: int)
    requires 1 <= k && n <= 12 && r >= 1 && r * Factorial(k) == Factorial(n)
    ensures (r * k) * Factorial(k - 1) == Factorial(n)
    ensures 1 <= r * k <= IntMax
  {
    FactorialFits(n);
    var f := Factorial(k - 1);
    var rk := r * k;
    assert Factorial(k) == k * f;
    MulAssoc(r, k, f);
    MulAtLeast(r, k);
    MulAtLeast(rk, f);
  }

  /** `fact(n)`: `n` itself up to 1, n! from 1 on. */
  method Fact(n: Int32) returns (r: Int32)
    requires n <= 12
    ensures n <= 1 ==> r == n
    ensures n >= 1 ==> r == Factorial(n)
  {
    var k := n;
    r := n;
    while k > 1
      invariant n <= 1 ==> k == n && r == n
      invariant n >= 1 ==> 1 <= k <= n && 1 <= r && r * Factorial(k - 1) == Factorial(n)
    {
      k := k - 1;
      LoopStep(n as nat, k as nat, r);
      r := r * k;
    }
  }

  /** `main` prints `fact(3)`, `fact(6)` and `fact(10)`: 6, 720 and 3628800. */
  lemma MainValues()
    ensures Factorial(3) == 6 && Factorial(6) == 720 && Factorial(10) == 3628800
  {
    assert Factorial(6) == 720;
    assert Factorial(10) == 10 * 9 * 8 * 7 * Factorial(6);
  }
}
