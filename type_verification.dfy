/**
 * An untyped `let` language of ints and booleans with two evaluators: one
 * that computes with Python's own operators (where True + 1 == 2 and `and`
 * returns an operand), and one that first demands exactly `int` operands for
 * arithmetic and exactly `bool` for `and` and the `if` condition, raising the
 * program's own TypeError otherwise.
 */
module TypeVerification {
  import opened Wrappers
  import opened PyValue
  import TC = TypeChecking

  datatype Exp =
    | Var(identifier: string)
    | Num(num: int)
    | Bln(bln: bool)
    | Bin(op: TC.BinOp, left: Exp, right: Exp)
    | Let(identifier: string, expDef: Exp, expBody: Exp)
    | IfThenElse(cond: Exp, e0: Exp, e1: Exp)

  type Env = map<string, Value>

  /**
   * `VisitorEval`: Python semantics. `and` returns the right operand's value
   * when the left one is truthy and False otherwise; `if` tests truthiness
   * and evaluates one branch; `let` extends a copy of the environment.
   */
  function Eval(e: Exp, env: Env): (r: Result<Value>)
    ensures r.Err? ==> r.error == ZeroDivisionError || r.error.SystemExit?
  {
    match e
    case Var(x) =>
      if x in env then Ok(env[x]) else Err(SystemExit("Variavel inexistente " + x))
    case Num(n) => Ok(IntV(n))
    case Bln(b) => Ok(BoolV(b))
    case Bin(AndOp, l, r) =>
      var v0 :- Eval(l, env);
      if Truthy(v0) then Eval(r, env) else Ok(BoolV(false))
    case Bin(op, l, r) =>
      var v0 :- Eval(l, env);
      var v1 :- Eval(r, env);
      TC.Apply(op, v0, v1)
    case Let(x, d, b) =>
      var v0 :- Eval(d, env);
      Eval(b, env[x := v0])
    case IfThenElse(c, e0, e1) =>
      var cv :- Eval(c, env);
      if Truthy(cv) then Eval(e0, env) else Eval(e1, env)
  }

  /** `VisitorTypeSafeEval`: the same evaluation with exact class checks on operands. */
  function TypeSafeEval(e: Exp, env: Env): (r: Result<Value>)
    ensures r.Err? ==> r.error == ZeroDivisionError || r.error.SystemExit? || r.error.TypeError?
  {
    match e
    case Var(x) =>
      if x in env then Ok(env[x]) else Err(SystemExit("Variable not found " + x))
    case Num(n) => Ok(IntV(n))
    case Bln(b) => Ok(BoolV(b))
    case Bin(AndOp, l, r) =>
      var v0 :- TypeSafeEval(l, env);
      var _ :- EnsureType(v0, BoolT, "And");
      if Truthy(v0) then
        var v1 :- TypeSafeEval(r, env);
        EnsureType(v1, BoolT, "And")
      else Ok(BoolV(false))
    case Bin(op, l, r) =>
      var v0 :- TypeSafeEval(l, env);
      var v1 :- TypeSafeEval(r, env);
      var _ :- EnsureType(v0, IntT, TC.OperationName(op));
      var _ :- EnsureType(v1, IntT, TC.OperationName(op));
      TC.Apply(op, v0, v1)
    case Let(x, d, b) =>
      var v0 :- TypeSafeEval(d, env);
      TypeSafeEval(b, env[x := v0])
    case IfThenElse(c, e0, e1) =>
      var cv :- TypeSafeEval(c, env);
      var _ :- EnsureType(cv, BoolT, "If-Then-Else Condition");
      if Truthy(cv) then TypeSafeEval(e0, env) else TypeSafeEval(e1, env)
  }

  /** `type_safe_eval`: the value, or the printed TypeError message (and None). */
  function TypeSafeEvalClosed(e: Exp): Result<TC.Outcome> {
    TC.CatchTypeError(TypeSafeEval(e, map[]))
  }

  /** The two conclusions of `TypeSafeRefinesEval` for one expression. */
  predicate Refines(e: Exp, env: Env)
  {
    (TypeSafeEval(e, env).Ok? ==> Eval(e, env) == TypeSafeEval(e, env)) &&
    (TypeSafeEval(e, env).Err? && !TypeSafeEval(e, env).error.TypeError? ==>
       Eval(e, env).Err? && (Eval(e, env).error == ZeroDivisionError <==> TypeSafeEval(e, env).error == ZeroDivisionError))
  }

  /** An operator node refines when both its operands do. */
  lemma BinRefines(op: TC.BinOp, l: Exp, r: Exp, env: Env)
    requires Refines(l, env) && Refines(r, env)
    ensures Refines(Bin(op, l, r), env)
  {
  }

  /**
   * The checks only ever add TypeErrors: where the type-safe evaluator returns
   * a value, Python's evaluation returns the same value, and where it fails
   * for another reason (an unbound name, a zero divisor) Python's fails too.
   */
  lemma {:induction false} TypeSafeRefinesEval(e: Exp, env: Env)
    ensures TypeSafeEval(e, env).Ok? ==> Eval(e, env) == TypeSafeEval(e, env)
    ensures TypeSafeEval(e, env).Err? && !TypeSafeEval(e, env).error.TypeError? ==>
              Eval(e, env).Err? && (Eval(e, env).error == ZeroDivisionError <==> TypeSafeEval(e, env).error == ZeroDivisionError)
  {
    match e
    case Var(_) =>
    case Num(_) =>
    case Bln(_) =>
    case Bin(op, l, r) =>
      TypeSafeRefinesEval(l, env);
      TypeSafeRefinesEval(r, env);
      BinRefines(op, l, r, env);
    case Let(x, d, b) =>
      TypeSafeRefinesEval(d, env);
      if TypeSafeEval(d, env).Ok? {
        TypeSafeRefinesEval(b, env[x := TypeSafeEval(d, env).value]);
      }
    case IfThenElse(c, e0, e1) =>
      TypeSafeRefinesEval(c, env);
      TypeSafeRefinesEval(e0, env);
      TypeSafeRefinesEval(e1, env);
  }

  /** The type-safe `and` inspects its right operand only after a True left one. */
  lemma AndChecksRightOnlyAfterTrue(l: Exp, r1: Exp, r2: Exp, env: Env)
    requires TypeSafeEval(l, env) == Ok(BoolV(false))
    ensures TypeSafeEval(Bin(TC.AndOp, l, r1), env) == TypeSafeEval(Bin(TC.AndOp, l, r2), env) == Ok(BoolV(false))
  {
  }

  /** Python's `and` returns the right operand itself, which need not be a bool. */
  lemma AndReturnsOperand()
    ensures Eval(Bin(TC.AndOp, Bln(true), Num(7)), map[]) == Ok(IntV(7))
    ensures TypeSafeEvalClosed(Bin(TC.AndOp, Bln(true), Num(7))) == Ok(TC.Printed("Type error in And: expected bool, got int"))
  {
    var msg := "Type error in " + "And" + ": expected " + "bool" + ", got " + "int";
    assert msg == "Type error in And: expected bool, got int";
  }

  /** A bool is an int to Python's `+` but not to the type-safe evaluator. */
  lemma BoolOperandRejected()
    ensures Eval(Bin(TC.AddOp, Bln(true), Num(1)), map[]) == Ok(IntV(2))
    ensures TypeSafeEvalClosed(Bin(TC.AddOp, Bln(true), Num(1)))
         == Ok(TC.Printed("Type error in Addition: expected int, got bool"))
  {
    var msg := "Type error in " + "Addition" + ": expected " + "int" + ", got " + "bool";
    assert msg == "Type error in Addition: expected int, got bool";
  }

  // The documented runs of `VisitorEval`.

  lemma EvalLetExample()
    ensures Eval(Let("v", Num(42), Var("v")), map[]) == Ok(IntV(42))
  {
    assert Eval(Var("v"), map["v" := IntV(42)]) == Ok(IntV(42));
  }

  lemma EvalNestedLetExample()
    ensures Eval(Let("v", Num(40), Let("w", Num(2), Bin(TC.AddOp, Var("v"), Var("w")))), map[]) == Ok(IntV(42))
  {
    var env1 := map["v" := IntV(40)];
    var env2 := env1["w" := IntV(2)];
    assert "v" != "w" by { assert "v"[0] != "w"[0]; }
    assert Eval(Var("v"), env2) == Ok(IntV(40));
    assert Eval(Var("w"), env2) == Ok(IntV(2));
    assert Eval(Let("w", Num(2), Bin(TC.AddOp, Var("v"), Var("w"))), env1) == Ok(IntV(42));
  }

  lemma EvalSquareExample()
    ensures Eval(Let("v", Bin(TC.AddOp, Num(40), Num(2)), Bin(TC.MulOp, Var("v"), Var("v"))), map[]) == Ok(IntV(1764))
  {
    assert Eval(Bin(TC.AddOp, Num(40), Num(2)), map[]) == Ok(IntV(42));
    assert Eval(Var("v"), map["v" := IntV(42)]) == Ok(IntV(42));
  }
}
