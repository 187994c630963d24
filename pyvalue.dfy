/**
 * The Python values the small expression languages compute with: ints and
 * bools. In Python `bool` is a subclass of `int` (True is 1, False is 0), so
 * the untyped evaluators may add booleans; `type(v) == int` is nevertheless
 * false for a bool, which the type-safe evaluators rely on.
 */
module PyValue {
  import opened Wrappers
  import PyInt

  datatype Value = IntV(i: int) | BoolV(b: bool)

  /** The two Python classes a value can have. */
  datatype Ty = IntT | BoolT

  /** `type(v)`: exact, so a bool is never of type int. */
  function TypeOf(v: Value): (t: Ty)
    ensures t == IntT <==> v.IntV?
  {
    if v.IntV? then IntT else BoolT
  }

  /** `t.__name__`. */
  function TyName(t: Ty): (s: string)
    ensures s == (if t == IntT then "int" else "bool")
  {
    match t
    case IntT => "int"
    case BoolT => "bool"
  }

  /** `str(t)` / `f"{t}"` for a class object. */
  function TyRepr(t: Ty): (s: string)
    ensures s == "<class '" + TyName(t) + "'>"
  {
    "<class '" + TyName(t) + "'>"
  }

  /** The integer a value stands for in arithmetic (`True + 1 == 2`). */
  function AsInt(v: Value): (n: int)
    ensures v.IntV? ==> n == v.i
    ensures v.BoolV? ==> n == (if v.b then 1 else 0)
  {
    match v
    case IntV(i) => i
    case BoolV(b) => if b then 1 else 0
  }

  /** `bool(v)`: zero and False are falsy. */
  predicate Truthy(v: Value) {
    AsInt(v) != 0
  }

  lemma TruthyMeaning(v: Value)
    ensures v.BoolV? ==> (Truthy(v) <==> v.b)
    ensures v.IntV? ==> (Truthy(v) <==> v.i != 0)
  {
  }

  /** `a + b`, `a - b`, `a * b` on ints and bools always give an int. */
  function PyAdd(a: Value, b: Value): (r: Value)
    ensures r == IntV(AsInt(a) + AsInt(b))
  {
    IntV(AsInt(a) + AsInt(b))
  }

  function PySub(a: Value, b: Value): (r: Value)
    ensures r == IntV(AsInt(a) - AsInt(b))
  {
    IntV(AsInt(a) - AsInt(b))
  }

  function PyMul(a: Value, b: Value): (r: Value)
    ensures r == IntV(AsInt(a) * AsInt(b))
  {
    IntV(AsInt(a) * AsInt(b))
  }

  /** `a // b`: floor division, ZeroDivisionError for a zero (or False) divisor. */
  function PyFloorDiv(a: Value, b: Value): (r: Result<Value>)
    ensures r.Err? <==> AsInt(b) == 0
    ensures r.Err? ==> r.error == ZeroDivisionError
    ensures r.Ok? ==> r.value == IntV(PyInt.FloorDiv(AsInt(a), AsInt(b)))
  {
    if AsInt(b) == 0 then Err(ZeroDivisionError)
    else Ok(IntV(PyInt.FloorDiv(AsInt(a), AsInt(b))))
  }

  /** `a < b` on ints and bools compares their integer values. */
  function PyLt(a: Value, b: Value): (r: Value)
    ensures r == BoolV(AsInt(a) < AsInt(b))
  {
    BoolV(AsInt(a) < AsInt(b))
  }

  /**
   * `ensure_type(value, t, operation)`: the exact class test `type(value) == t`;
   * on a mismatch, a TypeError naming the operation and both class names.
   */
  function EnsureType(v: Value, t: Ty, operation: string): (r: Result<Value>)
    ensures r.Ok? <==> TypeOf(v) == t
    ensures r.Ok? ==> r.value == v
    ensures r.Err? ==> r.error.TypeError?
  {
    if TypeOf(v) == t then Ok(v)
    else Err(TypeError("Type error in " + operation + ": expected " + TyName(t) + ", got " + TyName(TypeOf(v))))
  }

  /** A bool never passes where an int is demanded, although Python would add it. */
  lemma BoolIsNotInt(b: bool, operation: string)
    ensures EnsureType(BoolV(b), IntT, operation)
         == Err(TypeError("Type error in " + operation + ": expected int, got bool"))
    ensures PyAdd(BoolV(b), IntV(1)) == IntV(if b then 2 else 1)
  {
  }
}
