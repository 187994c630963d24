/**
 * Python integer operators whose meaning differs from Dafny's.
 */
module PyInt {

  /**
   * Python's `a // b`: the quotient rounded towards negative infinity.
   * Dafny's `/` is Euclidean, which agrees with it for a positive divisor;
   * for a negative divisor both operands are negated first.
   */
  function FloorDiv(a: int, b: int): int
    requires b != 0
  {
    if b > 0 then a / b else (-a) / (-b)
  }

  /** `a // b` is the largest q with q * b <= a when b > 0, and the largest q with q * b >= a when b < 0. */
  lemma FloorDivIsFloor(a: int, b: int)
    requires b != 0
    ensures b > 0 ==> FloorDiv(a, b) * b <= a < FloorDiv(a, b) * b + b
    ensures b < 0 ==> FloorDiv(a, b) * b >= a > FloorDiv(a, b) * b + b
  {
    var q := FloorDiv(a, b);
    if b > 0 {
      assert a == b * (a / b) + a % b;
    } else {
      assert -a == (-b) * ((-a) / (-b)) + (-a) % (-b);
      assert q * b == -((-b) * q);
    }
  }

  lemma PositiveMultiple(k: int, b: int)
    requires b > 0
    ensures k > 0 ==> k * b >= b
  {
    assert k * b == (k - 1) * b + b;
  }

  /** The quotient is unique: any q satisfying the floor bounds is `a // b`. */
  lemma FloorDivUnique(a: int, b: int, q: int)
    requires b > 0 && q * b <= a < q * b + b
    ensures q == FloorDiv(a, b)
  {
    FloorDivIsFloor(a, b);
    var r := FloorDiv(a, b);
    assert (q - r) * b < b && (r - q) * b < b;
    PositiveMultiple(q - r, b);
    PositiveMultiple(r - q, b);
  }
}
