/**
 * `gcd(m, n)` by repeated subtraction. The function returns nothing: its
 * one effect is to write the global `answer` when the two arguments meet.
 * The global becomes the one field of a `Globals` object that the method
 * may modify.
 */
module Gcd {
  import opened CInt

  /** `d` divides `x`. */
  ghost predicate Divides(d: int, x: int)
    requires d >= 1
  {
    exists q :: x == d * q
  }

  /** A common divisor of `m` and `n` is one of `n` and `m - n`, and the other way round. */
  lemma DividesDifference(d: int, m: int, n: int)
    requires d >= 1
    ensures Divides(d, m) && Divides(d, n) <==> Divides(d, n) && Divides(d, m - n)
  {
    if Divides(d, m) && Divides(d, n) {
      var qm :| m == d * qm;
      var qn :| n == d * qn;
      assert m - n == d * (qm - qn);
    }
    if Divides(d, n) && Divides(d, m - n) {
      var qn :| n == d * qn;
      var q :| m - n == d * q;
      assert m == d * (q + qn);
    }
  }

  /** The greatest common divisor of `m` and `n`: a common divisor that every common divisor divides. */
  ghost predicate IsGcd(g: int, m: int, n: int) {
    g >= 1 && Divides(g, m) && Divides(g, n)
    && forall d :: d >= 1 && Divides(d, m) && Divides(d, n) ==> Divides(d, g)
  }

  /** Two greatest common divisors of the same pair are the same number, so `IsGcd` pins `answer` down. */
  lemma GcdUnique(g: int, h: int, m: int, n: int)
    requires IsGcd(g, m, n) && IsGcd(h, m, n)
    ensures g == h
  {
    var p :| g == h * p;
    var q :| h == g * q;
    assert g * 1 == g * (q * p);
    assert q * p == 1;
  }

  /** What one call does: recurse with the arguments swapped or reduced, or set `answer`. */
  datatype Step = Recurse(m: int, n: int) | Answer(value: int)

  function Next(m: int, n: int): (s: Step)
    ensures s.Answer? <==> m == n
    ensures s.Answer? ==> s.value == m
  {
    if n > m then Recurse(n, m)
    else if m == n then Answer(m)
    else Recurse(n, m - n)
  }

  /** With a zero argument and a positive one, the calls cycle between two states and `answer` is never set. */
  lemma ZeroCycles(k: int)
    requires k >= 1
    ensures Next(k, 0) == Recurse(0, k) && Next(0, k) == Recurse(k, 0)
  {
  }

  /** A step keeps the common divisors, and so the greatest one. */
  lemma NextKeepsGcd(m: int, n: int, g: int)
    requires m >= 1 && n >= 1 && m != n
    ensures Next(m, n).m >= 1 && Next(m, n).n >= 1
    ensures IsGcd(g, Next(m, n).m, Next(m, n).n) ==> IsGcd(g, m, n)
  {
    if m > n && IsGcd(g, n, m - n) {
      DividesDifference(g, m, n);
      forall d | d >= 1 && Divides(d, m) && Divides(d, n)
        ensures Divides(d, g)
      {
        DividesDifference(d, m, n);
      }
    }
  }

  class Globals {
    /** `int answer = 0;` */
    var answer: Int32

    constructor ()
      ensures answer == 0
    {
      answer := 0;
    }

    /**
     * `gcd(m, n)`: on positive arguments the calls reach `m == n`, and the
     * value they meet at, written to `answer`, is the greatest common
     * divisor. Nothing else is written.
     */
    method Gcd(m: Int32, n: Int32)
      requires m >= 1 && n >= 1
      modifies this
      ensures IsGcd(answer, m, n)
      decreases m + n, if n > m then 1 else 0
    {
      if n > m {
        Gcd(n, m);
        NextKeepsGcd(m, n, answer);
      } else if m == n {
        answer := m;
        assert m == m * 1;
      } else {
        var aux := m - n;
        Gcd(n, aux);
        NextKeepsGcd(m, n, answer);
      }
    }
  }
}
