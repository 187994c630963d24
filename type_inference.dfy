/**
 * A `let` language without type annotations: Python's evaluation, and a type
 * propagator that infers the type of every `let`-bound name from its
 * definition. Types are the classes `int` and `bool`.
 */
module TypeInference {
  import opened Wrappers
  import opened PyValue

  datatype Exp =
    | Var(identifier: string)
    | Num(num: int)
    | Bln(bln: bool)
    | And(left: Exp, right: Exp)
    | Add(left: Exp, right: Exp)
    | Lth(left: Exp, right: Exp)
    | Let(identifier: string, expDef: Exp, expBody: Exp)
    | IfThenElse(cond: Exp, e0: Exp, e1: Exp)

  type Env = map<string, Value>
  type TypeEnv = map<string, Ty>

  /**
   * `VisitorEval`: `and` returns the right operand's value after a truthy
   * left one and False otherwise, `+` and `<` use Python's int/bool
   * arithmetic, `if` evaluates one branch, and `let` extends a copy of env.
   */
  function Eval(e: Exp, env: Env): (r: Result<Value>)
    ensures r.Err? ==> r.error.SystemExit?
  {
    match e
    case Var(x) =>
      if x in env then Ok(env[x]) else Err(SystemExit("Variavel inexistente " + x))
    case Num(n) => Ok(IntV(n))
    case Bln(b) => Ok(BoolV(b))
    case And(l, r) =>
      var v0 :- Eval(l, env);
      if Truthy(v0) then Eval(r, env) else Ok(BoolV(false))
    case Add(l, r) =>
      var v0 :- Eval(l, env);
      var v1 :- Eval(r, env);
      Ok(PyAdd(v0, v1))
    case Lth(l, r) =>
      var v0 :- Eval(l, env);
      var v1 :- Eval(r, env);
      Ok(PyLt(v0, v1))
    case Let(x, d, b) =>
      var v0 :- Eval(d, env);
      Eval(b, env[x := v0])
    case IfThenElse(c, e0, e1) =>
      var cv :- Eval(c, env);
      if Truthy(cv) then Eval(e0, env) else Eval(e1, env)
  }

  /** The error both operands of a binary node are reported with. */
  function BinError(lt: Ty, symbol: string, rt: Ty): Exc {
    TypeError("Type error: " + TyRepr(lt) + " " + symbol + " " + TyRepr(rt))
  }

  /**
   * `VisitorTypePropagator`: the type of `e`, or the TypeError it raises.
   * Every operand is typed before any test; `if` types all three parts and
   * reports a bad condition with the branch message; `let` gives the name the
   * definition's type in a copy of env.
   */
  function Infer(e: Exp, env: TypeEnv): (r: Result<Ty>)
    ensures r.Err? ==> r.error.TypeError?
    ensures e.Num? || e.Add? ==> r.Ok? ==> r.value == IntT
    ensures e.Bln? || e.And? || e.Lth? ==> r.Ok? ==> r.value == BoolT
    ensures e.Var? ==> (r.Ok? <==> e.identifier in env)
    ensures e.IfThenElse? ==>
              (r.Ok? <==> Infer(e.cond, env) == Ok(BoolT) && Infer(e.e0, env).Ok? && Infer(e.e0, env) == Infer(e.e1, env))
  {
    match e
    case Var(x) =>
      if x in env then Ok(env[x]) else Err(TypeError("Variavel inexistente " + x))
    case Num(_) => Ok(IntT)
    case Bln(_) => Ok(BoolT)
    case Add(l, r) =>
      var lt :- Infer(l, env);
      var rt :- Infer(r, env);
      if lt == IntT && rt == IntT then Ok(IntT) else Err(BinError(lt, "+", rt))
    case Lth(l, r) =>
      var lt :- Infer(l, env);
      var rt :- Infer(r, env);
      if lt == IntT && rt == IntT then Ok(BoolT) else Err(BinError(lt, "<", rt))
    case And(l, r) =>
      var lt :- Infer(l, env);
      var rt :- Infer(r, env);
      if lt == BoolT && rt == BoolT then Ok(BoolT) else Err(BinError(lt, "and", rt))
    case IfThenElse(c, e0, e1) =>
      var ct :- Infer(c, env);
      var tt :- Infer(e0, env);
      var et :- Infer(e1, env);
      if ct == BoolT && tt == et then Ok(tt)
      else Err(TypeError("Type error: then branch is " + TyRepr(tt) + ", else branch is " + TyRepr(et)))
    case Let(x, d, b) =>
      var dt :- Infer(d, env);
      Infer(b, env[x := dt])
  }

  /** `find_type`: the type of a closed expression. */
  function FindType(e: Exp): Result<Ty> {
    Infer(e, map[])
  }

  predicate EnvMatches(env: Env, tenv: TypeEnv) {
    forall x :: x in tenv ==> x in env && PyValue.TypeOf(env[x]) == tenv[x]
  }

  /**
   * The inferred type is the class of the value: an expression the propagator
   * types evaluates without failing, to a value of exactly that class (so
   * `and` and `+` never see a bool where the other class was inferred).
   */
  lemma {:induction false} InferenceSound(e: Exp, tenv: TypeEnv, env: Env)
    requires EnvMatches(env, tenv)
    requires Infer(e, tenv).Ok?
    ensures Eval(e, env).Ok?
    ensures PyValue.TypeOf(Eval(e, env).value) == Infer(e, tenv).value
  {
    match e
    case Var(_) =>
    case Num(_) =>
    case Bln(_) =>
    case And(l, r) =>
      InferenceSound(l, tenv, env);
      InferenceSound(r, tenv, env);
    case Add(l, r) =>
      InferenceSound(l, tenv, env);
      InferenceSound(r, tenv, env);
    case Lth(l, r) =>
      InferenceSound(l, tenv, env);
      InferenceSound(r, tenv, env);
    case IfThenElse(c, e0, e1) =>
      InferenceSound(c, tenv, env);
      InferenceSound(e0, tenv, env);
      InferenceSound(e1, tenv, env);
    case Let(x, d, b) =>
      InferenceSound(d, tenv, env);
      var v := Eval(d, env).value;
      InferenceSound(b, tenv[x := Infer(d, tenv).value], env[x := v]);
  }

  /** A condition that is not a bool is reported with the branch types, even when they agree. */
  lemma BadConditionMessage()
    ensures FindType(IfThenElse(Num(1), Num(2), Num(3)))
         == Err(TypeError("Type error: then branch is " + "<class 'int'>" + ", else branch is " + "<class 'int'>"))
  {
    assert Infer(Num(1), map[]) == Ok(IntT) && Infer(Num(2), map[]) == Ok(IntT) && Infer(Num(3), map[]) == Ok(IntT);
    assert TyRepr(IntT) == "<class 'int'>";
  }

  // The documented runs of `find_type` and `VisitorEval`.

  lemma FindTypeSumExample()
    ensures FindType(Let("v", Num(40), Let("w", Num(2), Add(Var("v"), Var("w"))))) == Ok(IntT)
  {
    var tenv1 := map["v" := IntT];
    var tenv := tenv1["w" := IntT];
    assert "v" != "w" by { assert "v"[0] != "w"[0]; }
    assert Infer(Var("v"), tenv) == Ok(IntT);
    assert Infer(Var("w"), tenv) == Ok(IntT);
    assert Infer(Add(Var("v"), Var("w")), tenv) == Ok(IntT);
    assert Infer(Let("w", Num(2), Add(Var("v"), Var("w"))), tenv1) == Ok(IntT);
  }

  lemma FindTypeAndExample()
    ensures FindType(Let("v", Bln(false), Let("w", Bln(true), And(Var("v"), Var("w"))))) == Ok(BoolT)
  {
    var tenv1 := map["v" := BoolT];
    var tenv := tenv1["w" := BoolT];
    assert "v" != "w" by { assert "v"[0] != "w"[0]; }
    assert Infer(Var("v"), tenv) == Ok(BoolT);
    assert Infer(Var("w"), tenv) == Ok(BoolT);
    assert Infer(And(Var("v"), Var("w")), tenv) == Ok(BoolT);
    assert Infer(Let("w", Bln(true), And(Var("v"), Var("w"))), tenv1) == Ok(BoolT);
  }

  lemma FindTypeIfExample()
    ensures FindType(IfThenElse(Bln(true), Num(0), Num(42))) == Ok(IntT)
  {
  }

  lemma EvalExamples()
    ensures Eval(And(Bln(true), Bln(false)), map[]) == Ok(BoolV(false))
    ensures Eval(Add(Num(5), Num(3)), map[]) == Ok(IntV(8))
    ensures Eval(Lth(Num(2), Num(5)), map[]) == Ok(BoolV(true))
    ensures Eval(Let("x", Num(10), Var("x")), map[]) == Ok(IntV(10))
    ensures Eval(IfThenElse(Bln(true), Num(1), Num(0)), map[]) == Ok(IntV(1))
  {
    assert Eval(Var("x"), map["x" := IntV(10)]) == Ok(IntV(10));
  }

  lemma EvalNestedLetExample()
    ensures Eval(Let("v", Num(40), Let("w", Num(2), Add(Var("v"), Var("w")))), map[]) == Ok(IntV(42))
  {
    var env1 := map["v" := IntV(40)];
    var env2 := env1["w" := IntV(2)];
    assert "v" != "w" by { assert "v"[0] != "w"[0]; }
    assert Eval(Var("v"), env2) == Ok(IntV(40));
    assert Eval(Var("w"), env2) == Ok(IntV(2));
    assert Eval(Let("w", Num(2), Add(Var("v"), Var("w"))), env1) == Ok(IntV(42));
  }
}
