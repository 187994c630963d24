/**
 * `collatz(n)`: how many Collatz steps take `n` to 1. The loop stops only
 * on reaching 1, which no one has shown every positive start does, so the
 * model runs it under a bound on the number of turns and answers None
 * when the bound runs out first.
 */
module Collatz {
  import opened Wrappers
  import opened CInt

  /**
   * One turn: halve an even number, map an odd one to `3n + 1`. C's `%`
   * and `/` truncate towards zero and Dafny's are Euclidean, but the two
   * agree on whether `n % 2` is 0, and on `n / 2` when it is.
   */
  function Step(n: int): int {
    if n % 2 == 0 then n / 2 else 3 * n + 1
  }

  /** The number of turns from `n` to 1, when it is at most `fuel`. */
  function Steps(n: int, fuel: nat): (r: Option<nat>)
    ensures r.Some? ==> r.value <= fuel
    ensures n == 1 <==> r == Some(0)
    decreases fuel
  {
    if n == 1 then Some(0)
    else if fuel == 0 then None
    else
      match Steps(Step(n), fuel - 1)
      case None => None
      case Some(k) => Some(k + 1)
  }

  /** Away from 1, the count is one more than the count from the next number. */
  lemma StepsUnfold(n: int, fuel: nat)
    requires n != 1
    ensures Steps(n, fuel + 1) == match Steps(Step(n), fuel) case None => None case Some(k) => Some(k + 1)
  {
  }

  /** A count found under some bound is found, the same, under any larger one. */
  lemma {:induction false} StepsMonotone(n: int, fuel: nat, more: nat)
    requires Steps(n, fuel).Some? && fuel <= more
    ensures Steps(n, more) == Steps(n, fuel)
    decreases fuel
  {
    if n != 1 {
      StepsMonotone(Step(n), fuel - 1, more - 1);
    }
  }

  /** From zero or a negative number the walk never reaches 1: each step stays at or below zero. */
  lemma {:induction false} NonPositiveNeverEnds(n: int, fuel: nat)
    requires n <= 0
    ensures Steps(n, fuel).None?
    decreases fuel
  {
    if fuel > 0 {
      NonPositiveNeverEnds(Step(n), fuel - 1);
    }
  }

  /** A walk to 1: each number but the last is not 1 and steps to the next, and the last is 1. */
  predicate IsWalk(path: seq<int>)
  {
    |path| > 0 && path[|path| - 1] == 1 &&
    forall i :: 0 <= i < |path| - 1 ==> path[i] != 1 && Step(path[i]) == path[i + 1]
  }

  /** A walk of `k` steps from `n` to 1 means `n` takes `k` turns. */
  lemma {:induction false} WalkCounts(path: seq<int>)
    requires IsWalk(path)
    ensures Steps(path[0], |path| - 1) == Some(|path| - 1)
    decreases |path|
  {
    if |path| > 1 {
      WalkCounts(path[1..]);
      StepsUnfold(path[0], |path| - 2);
    }
  }

  /** `main` returns `collatz(6)`: 6, 3, 10, 5, 16, 8, 4, 2, 1 is eight steps. */
  lemma SixTakesEight()
    ensures Steps(6, 8) == Some(8)
  {
    var path := [6, 3, 10, 5, 16, 8, 4, 2, 1];
    WalkCounts(path);
  }

  /**
   * `collatz(n)`, allowed at most `fuel` turns of its loop: the count of
   * steps to 1, or None when the bound is reached first.
   */
  method Run(n: Int32, fuel: nat) returns (its: Option<nat>)
    ensures its == Steps(n, fuel)
  {
    var m: int := n;
    var count: nat := 0;
    var left := fuel;
    while m != 1
      invariant count + left == fuel
      invariant Steps(n, fuel) == match Steps(m, left) case None => None case Some(k) => Some(k + count)
      decreases left
    {
      if left == 0 {
        return None;
      }
      count := count + 1;
      if m % 2 == 0 {
        m := m / 2;
      } else {
        m := 3 * m + 1;
      }
      left := left - 1;
    }
    return Some(count);
  }
}
