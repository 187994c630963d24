/**
 * A language of ints and booleans with type-annotated `let`: a static type
 * checker, an evaluator that checks operand classes at run time, and the two
 * drivers that either evaluate directly or type-check first.
 * Types are the Python classes `int` and `bool`; the checker prints them as
 * `<class 'int'>`, the run-time checks by their bare names.
 */
module TypeChecking {
  import opened Wrappers
  import opened PyValue

  datatype BinOp = AddOp | SubOp | MulOp | DivOp | AndOp | LthOp

  datatype Exp =
    | Var(identifier: string)
    | Num(num: int)
    | Bln(bln: bool)
    | Bin(op: BinOp, left: Exp, right: Exp)
    | Let(identifier: string, typeIdentifier: Ty, expDef: Exp, expBody: Exp)
    | IfThenElse(cond: Exp, e0: Exp, e1: Exp)

  type TypeEnv = map<string, Ty>
  type Env = map<string, Value>

  /** The operator as the checker's messages print it. */
  function Symbol(op: BinOp): string {
    match op
    case AddOp => "+"
    case SubOp => "-"
    case MulOp => "*"
    case DivOp => "/"
    case AndOp => "and"
    case LthOp => "<"
  }

  /** The operation as `ensure_type`'s messages name it. */
  function OperationName(op: BinOp): string {
    match op
    case AddOp => "Addition"
    case SubOp => "Subtraction"
    case MulOp => "Multiplication"
    case DivOp => "Division"
    case AndOp => "And"
    case LthOp => "Less Than"
  }

  /** The class both operands must have. */
  function OperandTy(op: BinOp): Ty {
    if op == AndOp then BoolT else IntT
  }

  /** The class of the result. */
  function ResultTy(op: BinOp): Ty {
    if op == AndOp || op == LthOp then BoolT else IntT
  }

  /**
   * `TypeChecker`: the type of `e` under `env`, or the TypeError it raises.
   * Operands are typed left then right before either is tested; `let` checks
   * the body in a copy of `env` extended with the declared type; `if` tests
   * the condition before typing the branches.
   */
  function TypeCheck(e: Exp, env: TypeEnv): (r: Result<Ty>)
    ensures r.Err? ==> r.error.TypeError?
    ensures e.Num? ==> r == Ok(IntT)
    ensures e.Bln? ==> r == Ok(BoolT)
    ensures e.Var? ==> (r.Ok? <==> e.identifier in env)
    ensures e.Bin? && r.Ok? ==> r.value == ResultTy(e.op)
    ensures e.Let? && r.Ok? ==> TypeCheck(e.expDef, env) == Ok(e.typeIdentifier)
    ensures e.IfThenElse? && r.Ok? ==>
              TypeCheck(e.cond, env) == Ok(BoolT) && TypeCheck(e.e0, env) == r == TypeCheck(e.e1, env)
  {
    match e
    case Var(x) =>
      if x in env then Ok(env[x]) else Err(TypeError("Variable " + x + " is not defined"))
    case Num(_) => Ok(IntT)
    case Bln(_) => Ok(BoolT)
    case Bin(op, l, r) =>
      var lt :- TypeCheck(l, env);
      var rt :- TypeCheck(r, env);
      if lt == OperandTy(op) && rt == OperandTy(op) then Ok(ResultTy(op))
      else Err(TypeError("Type error: " + TyRepr(lt) + " " + Symbol(op) + " " + TyRepr(rt)))
    case Let(x, t, d, b) =>
      var dt :- TypeCheck(d, env);
      if dt == t then TypeCheck(b, env[x := t])
      else Err(TypeError("Type error in let: expected " + TyRepr(t) + " but got " + TyRepr(dt)))
    case IfThenElse(c, e0, e1) =>
      var ct :- TypeCheck(c, env);
      if ct != BoolT then Err(TypeError("Type error: expected bool but got " + TyRepr(ct)))
      else
        var tt :- TypeCheck(e0, env);
        var et :- TypeCheck(e1, env);
        if tt == et then Ok(tt)
        else Err(TypeError("Type error: then branch is " + TyRepr(tt) + ", else branch is " + TyRepr(et)))
  }

  /** The arithmetic or comparison an operator computes once both operands are ints. */
  function Apply(op: BinOp, a: Value, b: Value): (r: Result<Value>)
    requires op != AndOp
    ensures r.Err? ==> op == DivOp && r.error == ZeroDivisionError
  {
    match op
    case AddOp => Ok(PyAdd(a, b))
    case SubOp => Ok(PySub(a, b))
    case MulOp => Ok(PyMul(a, b))
    case DivOp => PyFloorDiv(a, b)
    case LthOp => Ok(PyLt(a, b))
  }

  /**
   * `VisitorTypeSafeEval`: evaluation that raises a TypeError when an operand
   * does not have exactly the class its operator needs. An unbound variable
   * exits the program. Arithmetic operands are both evaluated before either
   * is checked; `and` checks its left operand and evaluates the right one only
   * when the left is True; `if` evaluates only the chosen branch.
   */
  function Eval(e: Exp, env: Env): (r: Result<Value>)
    ensures r.Err? ==> r.error.TypeError? || r.error == ZeroDivisionError || r.error.SystemExit?
  {
    match e
    case Var(x) =>
      if x in env then Ok(env[x]) else Err(SystemExit("Variable not found " + x))
    case Num(n) => Ok(IntV(n))
    case Bln(b) => Ok(BoolV(b))
    case Bin(AndOp, l, r) =>
      var v0 :- Eval(l, env);
      var _ :- EnsureType(v0, BoolT, "And");
      if Truthy(v0) then
        var v1 :- Eval(r, env);
        EnsureType(v1, BoolT, "And")
      else Ok(BoolV(false))
    case Bin(op, l, r) =>
      var v0 :- Eval(l, env);
      var v1 :- Eval(r, env);
      var _ :- EnsureType(v0, IntT, OperationName(op));
      var _ :- EnsureType(v1, IntT, OperationName(op));
      Apply(op, v0, v1)
    case Let(x, _, d, b) =>
      var v0 :- Eval(d, env);
      Eval(b, env[x := v0])
    case IfThenElse(c, e0, e1) =>
      var cv :- Eval(c, env);
      var _ :- EnsureType(cv, BoolT, "If-Then-Else Condition");
      if Truthy(cv) then Eval(e0, env) else Eval(e1, env)
  }

  /** What the two drivers produce: the value, or the TypeError message they print (returning None). */
  datatype Outcome = Returned(v: Value) | Printed(msg: string)

  /** `except TypeError as tp_error: print(tp_error)`; every other exception propagates. */
  function CatchTypeError(r: Result<Value>): (o: Result<Outcome>)
    ensures r.Ok? ==> o == Ok(Returned(r.value))
    ensures r.Err? && r.error.TypeError? ==> o == Ok(Printed(r.error.msg))
    ensures r.Err? && !r.error.TypeError? ==> o == Err(r.error)
  {
    match r
    case Ok(v) => Ok(Returned(v))
    case Err(TypeError(m)) => Ok(Printed(m))
    case Err(x) => Err(x)
  }

  /** `dynamically_type_safe_eval`. */
  function DynamicallyTypeSafeEval(e: Exp): (r: Result<Outcome>)
    ensures r.Err? ==> r.error == ZeroDivisionError || r.error.SystemExit?
  {
    CatchTypeError(Eval(e, map[]))
  }

  /** `statically_type_safe_eval`: the checker runs first, and a rejected program is not evaluated. */
  function StaticallyTypeSafeEval(e: Exp): (r: Result<Outcome>)
    ensures r.Err? ==> r.error == ZeroDivisionError || r.error.SystemExit?
  {
    var t := TypeCheck(e, map[]);
    if t.Err? then CatchTypeError(Err(t.error)) else CatchTypeError(Eval(e, map[]))
  }

  /** Every variable the checker knows is bound at run time to a value of its type. */
  predicate EnvMatches(env: Env, tenv: TypeEnv) {
    forall x :: x in tenv ==> x in env && TypeOf(env[x]) == tenv[x]
  }

  /**
   * Soundness of the checker: an accepted expression, evaluated in a matching
   * environment, either yields a value of the checked type or divides by zero;
   * it never fails a run-time class check and never meets an unbound variable.
   */
  lemma {:induction false} Soundness(e: Exp, tenv: TypeEnv, env: Env)
    requires EnvMatches(env, tenv)
    requires TypeCheck(e, tenv).Ok?
    ensures Eval(e, env).Ok? ==> TypeOf(Eval(e, env).value) == TypeCheck(e, tenv).value
    ensures Eval(e, env).Err? ==> Eval(e, env).error == ZeroDivisionError
    decreases e, 1
  {
    match e
    case Var(x) =>
    case Num(_) =>
    case Bln(_) =>
    case Bin(op, l, r) =>
      SoundnessBin(op, l, r, tenv, env);
    case Let(x, t, d, b) =>
      Soundness(d, tenv, env);
      if Eval(d, env).Ok? {
        Soundness(b, tenv[x := t], env[x := Eval(d, env).value]);
      }
    case IfThenElse(c, e0, e1) =>
      Soundness(c, tenv, env);
      Soundness(e0, tenv, env);
      Soundness(e1, tenv, env);
  }

  /** The operator case of `Soundness`. */
  lemma {:induction false} SoundnessBin(op: BinOp, l: Exp, r: Exp, tenv: TypeEnv, env: Env)
    requires EnvMatches(env, tenv)
    requires TypeCheck(Bin(op, l, r), tenv).Ok?
    ensures Eval(Bin(op, l, r), env).Ok? ==> TypeOf(Eval(Bin(op, l, r), env).value) == TypeCheck(Bin(op, l, r), tenv).value
    ensures Eval(Bin(op, l, r), env).Err? ==> Eval(Bin(op, l, r), env).error == ZeroDivisionError
    decreases Bin(op, l, r), 0
  {
    Soundness(l, tenv, env);
    if Eval(l, env).Ok? && op != AndOp {
      Soundness(r, tenv, env);
    } else if Eval(l, env).Ok? && Truthy(Eval(l, env).value) {
      Soundness(r, tenv, env);
    }
  }

  /**
   * A closed program the checker accepts is evaluated by the static driver,
   * which then never prints a run-time TypeError; a rejected one is never run.
   */
  lemma StaticDriverSafe(e: Exp)
    ensures TypeCheck(e, map[]).Ok? ==>
              StaticallyTypeSafeEval(e) == Err(ZeroDivisionError)
              || (StaticallyTypeSafeEval(e).Ok? && StaticallyTypeSafeEval(e).value.Returned?
                  && TypeOf(StaticallyTypeSafeEval(e).value.v) == TypeCheck(e, map[]).value)
    ensures TypeCheck(e, map[]).Err? ==>
              StaticallyTypeSafeEval(e) == Ok(Printed(TypeCheck(e, map[]).error.msg))
  {
    if TypeCheck(e, map[]).Ok? {
      Soundness(e, map[], map[]);
    }
  }

  /** Where the static driver returns a value, the dynamic one returns the same value. */
  lemma StaticAgreesWithDynamic(e: Exp)
    ensures StaticallyTypeSafeEval(e).Ok? && StaticallyTypeSafeEval(e).value.Returned? ==>
              DynamicallyTypeSafeEval(e) == StaticallyTypeSafeEval(e)
  {
  }

  /** `and` never evaluates its right operand after a False left one. */
  lemma AndShortCircuits(l: Exp, r1: Exp, r2: Exp, env: Env)
    requires Eval(l, env) == Ok(BoolV(false))
    ensures Eval(Bin(AndOp, l, r1), env) == Eval(Bin(AndOp, l, r2), env) == Ok(BoolV(false))
  {
  }

  /** `if` evaluates only the chosen branch, so the other one may fail. */
  lemma IfEvaluatesOneBranch(c: Exp, e0: Exp, e1: Exp, env: Env)
    requires Eval(c, env) == Ok(BoolV(true))
    ensures Eval(IfThenElse(c, e0, e1), env) == Eval(e0, env)
  {
  }

  /** `let` checks its body in an extended copy: the declared type is visible only inside it. */
  lemma LetScopesItsType(x: string, t: Ty, d: Exp, b: Exp, env: TypeEnv)
    requires TypeCheck(d, env) == Ok(t)
    ensures TypeCheck(Let(x, t, d, b), env) == TypeCheck(b, env[x := t])
  {
  }

  // The documented runs of the two drivers.

  function SumProgram(): Exp {
    Let("v", IntT, Num(40), Let("w", IntT, Num(2), Bin(AddOp, Var("v"), Var("w"))))
  }

  function AndProgram(): Exp {
    Let("v", IntT, Num(40), Let("w", IntT, Num(2), Bin(AndOp, Var("v"), Var("w"))))
  }

  function MixedIf(): Exp {
    IfThenElse(Bln(true), Num(0), Bln(false))
  }

  lemma DynamicSumExample()
    ensures DynamicallyTypeSafeEval(SumProgram()) == Ok(Returned(IntV(42)))
  {
    var env1 := map["v" := IntV(40)];
    var env2 := env1["w" := IntV(2)];
    assert "v" != "w" by { assert "v"[0] != "w"[0]; }
    assert Eval(Var("v"), env2) == Ok(IntV(40));
    assert Eval(Var("w"), env2) == Ok(IntV(2));
    assert Eval(Bin(AddOp, Var("v"), Var("w")), env2) == Ok(IntV(42));
    assert Eval(Let("w", IntT, Num(2), Bin(AddOp, Var("v"), Var("w"))), env1) == Ok(IntV(42));
  }

  lemma DynamicAndExample()
    ensures DynamicallyTypeSafeEval(AndProgram()) == Ok(Printed("Type error in And: expected bool, got int"))
  {
    var env1 := map["v" := IntV(40)];
    var env2 := env1["w" := IntV(2)];
    assert "v" != "w" by { assert "v"[0] != "w"[0]; }
    assert Eval(Var("v"), env2) == Ok(IntV(40));
    var msg := "Type error in " + "And" + ": expected " + "bool" + ", got " + "int";
    assert msg == "Type error in And: expected bool, got int";
    assert EnsureType(IntV(40), BoolT, "And") == Err(TypeError(msg));
    assert Eval(Bin(AndOp, Var("v"), Var("w")), env2) == Err(TypeError(msg));
    assert Eval(Let("w", IntT, Num(2), Bin(AndOp, Var("v"), Var("w"))), env1) == Err(TypeError(msg));
  }

  lemma DynamicIfExample()
    ensures DynamicallyTypeSafeEval(MixedIf()) == Ok(Returned(IntV(0)))
  {
  }

  lemma StaticSumExample()
    ensures StaticallyTypeSafeEval(SumProgram()) == Ok(Returned(IntV(42)))
  {
    var tenv1 := map["v" := IntT];
    var tenv2 := tenv1["w" := IntT];
    assert "v" != "w" by { assert "v"[0] != "w"[0]; }
    assert TypeCheck(Var("v"), tenv2) == Ok(IntT);
    assert TypeCheck(Var("w"), tenv2) == Ok(IntT);
    assert TypeCheck(Bin(AddOp, Var("v"), Var("w")), tenv2) == Ok(IntT);
    assert TypeCheck(Let("w", IntT, Num(2), Bin(AddOp, Var("v"), Var("w"))), tenv1) == Ok(IntT);
    DynamicSumExample();
  }

  lemma Reprs()
    ensures TyRepr(IntT) == "<class 'int'>" && TyRepr(BoolT) == "<class 'bool'>"
  {
  }

  lemma StaticAndExample()
    ensures StaticallyTypeSafeEval(AndProgram()) == Ok(Printed("Type error: " + "<class 'int'>" + " " + "and" + " " + "<class 'int'>"))
  {
    var tenv1 := map["v" := IntT];
    var tenv2 := tenv1["w" := IntT];
    assert "v" != "w" by { assert "v"[0] != "w"[0]; }
    assert TypeCheck(Var("v"), tenv2) == Ok(IntT);
    assert TypeCheck(Var("w"), tenv2) == Ok(IntT);
    Reprs();
    var msg := "Type error: " + TyRepr(IntT) + " " + Symbol(AndOp) + " " + TyRepr(IntT);
    assert TypeCheck(Bin(AndOp, Var("v"), Var("w")), tenv2) == Err(TypeError(msg));
    assert TypeCheck(Let("w", IntT, Num(2), Bin(AndOp, Var("v"), Var("w"))), tenv1) == Err(TypeError(msg));
  }

  lemma StaticIfExample()
    ensures StaticallyTypeSafeEval(MixedIf())
         == Ok(Printed("Type error: then branch is " + "<class 'int'>" + ", else branch is " + "<class 'bool'>"))
  {
    Reprs();
  }

  /** The checker's own documented rejections. */
  lemma CheckerAddExample()
    ensures TypeCheck(Bin(AddOp, Num(1), Bln(true)), map[]) == Err(TypeError("Type error: " + "<class 'int'>" + " " + "+" + " " + "<class 'bool'>"))
  {
    Reprs();
  }

  lemma CheckerLetExample()
    ensures TypeCheck(Let("x", BoolT, Num(1), Var("x")), map[])
         == Err(TypeError("Type error in let: expected " + "<class 'bool'>" + " but got " + "<class 'int'>"))
  {
    Reprs();
  }

  lemma CheckerVarExample()
    ensures TypeCheck(Var("x"), map[]) == Err(TypeError("Variable x is not defined"))
  {
  }
}
