/**
 * The four integer operators the small arithmetic languages share: `+`,
 * `-`, `*` and Python's floor division `//`, which raises
 * ZeroDivisionError on a zero divisor.
 */
module Arith {
  import opened Wrappers
  import PyInt

  datatype Op = AddOp | SubOp | MulOp | DivOp

  /** The operator's printed symbol. */
  function Symbol(op: Op): (s: string)
    ensures |s| == 1
  {
    match op
    case AddOp => "+"
    case SubOp => "-"
    case MulOp => "*"
    case DivOp => "/"
  }

  /** `a op b` on Python ints. */
  function Apply(op: Op, a: int, b: int): (r: Result<int>)
    ensures r.Err? <==> op == DivOp && b == 0
    ensures r.Err? ==> r.error == ZeroDivisionError
    ensures op == DivOp && b > 0 ==> r.value * b <= a < r.value * b + b
    ensures op == DivOp && b < 0 ==> r.value * b >= a > r.value * b + b
  {
    match op
    case AddOp => Ok(a + b)
    case SubOp => Ok(a - b)
    case MulOp => Ok(a * b)
    case DivOp =>
      if b == 0 then Err(ZeroDivisionError)
      else
        PyInt.FloorDivIsFloor(a, b);
        Ok(PyInt.FloorDiv(a, b))
  }

  /** Distinct operators print differently, so a printed operator can be read back. */
  lemma SymbolInjective(a: Op, b: Op)
    ensures Symbol(a) == Symbol(b) <==> a == b
  {
    if a != b {
      assert Symbol(a)[0] != Symbol(b)[0];
    }
  }
}
