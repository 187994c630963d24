/**
 * `dy_fact(n)` of the function code-generation examples: `result` is a
 * local, set to `n` and multiplied by `dy_fact(n - 1)` unless `n <= 1`.
 * It writes nothing outside its own frame, so it is a plain function.
 */
module FunctionFact {
  import opened CInt
  import opened Factorials

  /** `n` itself up to 1, n! from 1 on, for the arguments whose product stays within `int`. */
  function DyFact(n: Int32): (r: Int32)
    requires n <= 12
    ensures n <= 1 ==> r == n
    ensures n >= 1 ==> r == Factorial(n)
  {
    if n <= 1 then n
    else
      FactorialFits(n);
      n * DyFact(n - 1)
  }
}
