/**
 * A language with first-class functions under static scoping: `fn x => e`
 * evaluates to a closure that captures the environment it was created in,
 * and `fun f x => e` to a recursive closure that also binds its own name
 * when called. Two versions of the evaluator exist and differ only in how
 * they fail: one raises ValueError/TypeError, the other exits the program.
 */
module RecFun {
  import opened Wrappers

  datatype Exp =
    | Var(identifier: string)
    | Num(num: int)
    | Bln(bln: bool)
    | Add(left: Exp, right: Exp)
    | And(left: Exp, right: Exp)
    | Lth(left: Exp, right: Exp)
    | Let(identifier: string, expDef: Exp, expBody: Exp)
    | IfThenElse(cond: Exp, e0: Exp, e1: Exp)
    | Fn(formal: string, body: Exp)
    | Fun(name: string, formal: string, body: Exp)
    | App(func: Exp, actual: Exp)

  /** Python's ints and bools, `Function` objects and `RecFunction` objects. */
  datatype Value =
    | IntV(i: int)
    | BoolV(b: bool)
    | Function(formal: string, body: Exp, env: map<string, Value>)
    | RecFunction(name: string, formal: string, body: Exp, env: map<string, Value>)

  type Env = map<string, Value>

  /** The two evaluators: one raises exceptions, the other calls `sys.exit`. */
  datatype Dialect = Raising | Exiting

  function UnboundError(d: Dialect, x: string): Exc {
    match d
    case Raising => ValueError("Variable not found " + x)
    case Exiting => SystemExit("Variavel inexistente " + x)
  }

  function NotFunctionError(d: Dialect): Exc {
    match d
    case Raising => TypeError("Type error: exp.function is not a Function object.")
    case Exiting => SystemExit("Type error")
  }

  predicate IsFunction(v: Value) {
    v.Function? || v.RecFunction?
  }

  /** The Python class name of a value, as built-in error messages print it. */
  function ClassName(v: Value): string {
    match v
    case IntV(_) => "int"
    case BoolV(_) => "bool"
    case Function(_, _, _) => "Function"
    case RecFunction(_, _, _, _) => "RecFunction"
  }

  /** The integer an int or bool stands for. */
  function AsInt(v: Value): int
    requires !IsFunction(v)
  {
    if v.IntV? then v.i else if v.b then 1 else 0
  }

  /** `bool(v)`: zero and False are falsy, every function object is truthy. */
  predicate Truthy(v: Value) {
    IsFunction(v) || AsInt(v) != 0
  }

  /** `a + b`: ints and bools add as ints; a function operand is a TypeError. */
  function PyAdd(a: Value, b: Value): (r: Result<Value>)
    ensures r.Ok? <==> !IsFunction(a) && !IsFunction(b)
    ensures r.Ok? ==> r.value == IntV(AsInt(a) + AsInt(b))
    ensures r.Err? ==> r.error.TypeError?
  {
    if IsFunction(a) || IsFunction(b) then
      Err(TypeError("unsupported operand type(s) for +: '" + ClassName(a) + "' and '" + ClassName(b) + "'"))
    else Ok(IntV(AsInt(a) + AsInt(b)))
  }

  /** `a < b`: ints and bools compare as ints; a function operand is a TypeError. */
  function PyLt(a: Value, b: Value): (r: Result<Value>)
    ensures r.Ok? <==> !IsFunction(a) && !IsFunction(b)
    ensures r.Ok? ==> r.value == BoolV(AsInt(a) < AsInt(b))
    ensures r.Err? ==> r.error.TypeError?
  {
    if IsFunction(a) || IsFunction(b) then
      Err(TypeError("'<' not supported between instances of '" + ClassName(a) + "' and '" + ClassName(b) + "'"))
    else Ok(BoolV(AsInt(a) < AsInt(b)))
  }

  /**
   * The environment a call evaluates the body in: a copy of the closure's
   * own environment with the formal bound to the argument and, for a
   * recursive function, its name bound to the function itself.
   */
  function CallEnv(f: Value, arg: Value): (env: Env)
    requires IsFunction(f)
    ensures f.formal in env
    ensures !(f.RecFunction? && f.name == f.formal) ==> env[f.formal] == arg
    ensures f.RecFunction? ==> f.name in env && env[f.name] == f
    ensures forall x :: x in env <==> x in f.env || x == f.formal || (f.RecFunction? && x == f.name)
  {
    if f.RecFunction? then f.env[f.formal := arg][f.name := f] else f.env[f.formal := arg]
  }

  /**
   * `VisitorEval`, with at most `fuel` nested calls: a call made with no
   * fuel left gives `FuelExhausted`. The function position of an application
   * is evaluated first, then tested, then the argument; `let` and calls
   * evaluate in extended copies, so no environment is ever changed.
   */
  function Eval(d: Dialect, e: Exp, env: Env, fuel: nat): (r: Result<Value>)
    decreases fuel, e
  {
    match e
    case Var(x) => if x in env then Ok(env[x]) else Err(UnboundError(d, x))
    case Num(n) => Ok(IntV(n))
    case Bln(b) => Ok(BoolV(b))
    case Add(l, r) =>
      var v0 :- Eval(d, l, env, fuel);
      var v1 :- Eval(d, r, env, fuel);
      PyAdd(v0, v1)
    case And(l, r) =>
      var v0 :- Eval(d, l, env, fuel);
      if Truthy(v0) then Eval(d, r, env, fuel) else Ok(BoolV(false))
    case Lth(l, r) =>
      var v0 :- Eval(d, l, env, fuel);
      var v1 :- Eval(d, r, env, fuel);
      PyLt(v0, v1)
    case IfThenElse(c, e0, e1) =>
      var cv :- Eval(d, c, env, fuel);
      if Truthy(cv) then Eval(d, e0, env, fuel) else Eval(d, e1, env, fuel)
    case Let(x, def, body) =>
      var v :- Eval(d, def, env, fuel);
      Eval(d, body, env[x := v], fuel)
    case Fn(formal, body) => Ok(Function(formal, body, env))
    case Fun(name, formal, body) => Ok(RecFunction(name, formal, body, env))
    case App(f, a) =>
      var fv :- Eval(d, f, env, fuel);
      if !IsFunction(fv) then Err(NotFunctionError(d))
      else
        var pv :- Eval(d, a, env, fuel);
        if fuel == 0 then Err(FuelExhausted) else Eval(d, fv.body, CallEnv(fv, pv), fuel - 1)
  }

  /**
   * The errors a run may end with: a TypeError, the dialect's own error for an
   * unbound variable (a ValueError when raising, an exit when exiting), or the
   * call bound running out.
   */
  predicate DialectError(d: Dialect, x: Exc) {
    x == FuelExhausted || x.TypeError? || (d == Raising && x.ValueError?) || (d == Exiting && x.SystemExit?)
  }

  /** Evaluation fails only with one of the dialect's errors. */
  lemma {:induction false} EvalErrorKinds(d: Dialect, e: Exp, env: Env, fuel: nat)
    ensures Eval(d, e, env, fuel).Err? ==> DialectError(d, Eval(d, e, env, fuel).error)
    decreases fuel, e
  {
    match e
    case Var(_) =>
    case Num(_) =>
    case Bln(_) =>
    case Fn(_, _) =>
    case Fun(_, _, _) =>
    case Add(l, r) =>
      EvalErrorKinds(d, l, env, fuel);
      EvalErrorKinds(d, r, env, fuel);
    case Lth(l, r) =>
      EvalErrorKinds(d, l, env, fuel);
      EvalErrorKinds(d, r, env, fuel);
    case And(l, r) =>
      EvalErrorKinds(d, l, env, fuel);
      EvalErrorKinds(d, r, env, fuel);
    case IfThenElse(c, e0, e1) =>
      EvalErrorKinds(d, c, env, fuel);
      EvalErrorKinds(d, e0, env, fuel);
      EvalErrorKinds(d, e1, env, fuel);
    case Let(x, def, body) =>
      EvalErrorKinds(d, def, env, fuel);
      var v := Eval(d, def, env, fuel);
      if v.Ok? {
        EvalErrorKinds(d, body, env[x := v.value], fuel);
      }
    case App(f, a) =>
      EvalErrorKinds(d, f, env, fuel);
      var fv := Eval(d, f, env, fuel);
      if fv.Ok? && IsFunction(fv.value) {
        EvalErrorKinds(d, a, env, fuel);
        var pv := Eval(d, a, env, fuel);
        if pv.Ok? && fuel > 0 {
          EvalErrorKinds(d, fv.value.body, CallEnv(fv.value, pv.value), fuel - 1);
        }
      }
  }

  /**
   * Fuel only bounds the run: once an evaluation finishes (with a value or a
   * genuine error), any larger allowance gives the same outcome.
   */
  lemma {:induction false} FuelMonotone(d: Dialect, e: Exp, env: Env, fuel: nat, more: nat)
    requires Eval(d, e, env, fuel) != Err(FuelExhausted)
    requires fuel <= more
    ensures Eval(d, e, env, more) == Eval(d, e, env, fuel)
    decreases fuel, e, 1
  {
    match e
    case Var(_) =>
    case Num(_) =>
    case Bln(_) =>
    case Fn(_, _) =>
    case Fun(_, _, _) =>
    case Add(l, r) =>
      FuelMonotone(d, l, env, fuel, more);
      if Eval(d, l, env, fuel).Ok? {
        FuelMonotone(d, r, env, fuel, more);
      }
    case Lth(l, r) =>
      FuelMonotone(d, l, env, fuel, more);
      if Eval(d, l, env, fuel).Ok? {
        FuelMonotone(d, r, env, fuel, more);
      }
    case And(l, r) =>
      FuelMonotone(d, l, env, fuel, more);
      if Eval(d, l, env, fuel).Ok? && Truthy(Eval(d, l, env, fuel).value) {
        FuelMonotone(d, r, env, fuel, more);
      }
    case IfThenElse(c, e0, e1) =>
      FuelMonotone(d, c, env, fuel, more);
      if Eval(d, c, env, fuel).Ok? {
        if Truthy(Eval(d, c, env, fuel).value) {
          FuelMonotone(d, e0, env, fuel, more);
        } else {
          FuelMonotone(d, e1, env, fuel, more);
        }
      }
    case Let(x, def, body) =>
      FuelMonotone(d, def, env, fuel, more);
      if Eval(d, def, env, fuel).Ok? {
        FuelMonotone(d, body, env[x := Eval(d, def, env, fuel).value], fuel, more);
      }
    case App(f, a) =>
      FuelMonotoneApp(d, f, a, env, fuel, more);
  }

  /** The application case of `FuelMonotone`. */
  lemma {:induction false} FuelMonotoneApp(d: Dialect, f: Exp, a: Exp, env: Env, fuel: nat, more: nat)
    requires Eval(d, App(f, a), env, fuel) != Err(FuelExhausted)
    requires fuel <= more
    ensures Eval(d, App(f, a), env, more) == Eval(d, App(f, a), env, fuel)
    decreases fuel, App(f, a), 0
  {
    FuelMonotone(d, f, env, fuel, more);
    var fr := Eval(d, f, env, fuel);
    if fr.Ok? && IsFunction(fr.value) {
      FuelMonotone(d, a, env, fuel, more);
      var ar := Eval(d, a, env, fuel);
      if ar.Ok? {
        assert fuel > 0;
        FuelMonotone(d, fr.value.body, CallEnv(fr.value, ar.value), fuel - 1, more - 1);
      }
    }
    AppSame(d, f, a, env, fuel, more);
  }

  /** An application gives the same outcome under two call bounds when its function, argument and call do. */
  lemma AppSame(d: Dialect, f: Exp, a: Exp, env: Env, fuel: nat, more: nat)
    requires Eval(d, App(f, a), env, fuel) != Err(FuelExhausted)
    requires fuel <= more
    requires Eval(d, f, env, more) == Eval(d, f, env, fuel)
    requires var fr := Eval(d, f, env, fuel);
      fr.Ok? && IsFunction(fr.value) ==> Eval(d, a, env, more) == Eval(d, a, env, fuel)
    requires var fr := Eval(d, f, env, fuel); var ar := Eval(d, a, env, fuel);
      fr.Ok? && IsFunction(fr.value) && ar.Ok? && fuel > 0 ==>
        Eval(d, fr.value.body, CallEnv(fr.value, ar.value), more - 1) ==
        Eval(d, fr.value.body, CallEnv(fr.value, ar.value), fuel - 1)
    ensures Eval(d, App(f, a), env, more) == Eval(d, App(f, a), env, fuel)
  {
  }

  /**
   * The raising and the exiting evaluator compute the same values and fail
   * on the same programs; only the exception that ends a failing run differs.
   */
  lemma {:induction false} DialectsAgree(e: Exp, env: Env, fuel: nat)
    ensures Eval(Raising, e, env, fuel).Ok? <==> Eval(Exiting, e, env, fuel).Ok?
    ensures Eval(Raising, e, env, fuel).Ok? ==> Eval(Raising, e, env, fuel) == Eval(Exiting, e, env, fuel)
    decreases fuel, e, 1
  {
    match e
    case Var(_) =>
    case Num(_) =>
    case Bln(_) =>
    case Fn(_, _) =>
    case Fun(_, _, _) =>
    case Add(l, r) =>
      DialectsAgree(l, env, fuel);
      DialectsAgree(r, env, fuel);
    case Lth(l, r) =>
      DialectsAgree(l, env, fuel);
      DialectsAgree(r, env, fuel);
    case And(l, r) =>
      DialectsAgree(l, env, fuel);
      DialectsAgree(r, env, fuel);
    case IfThenElse(c, e0, e1) =>
      DialectsAgree(c, env, fuel);
      DialectsAgree(e0, env, fuel);
      DialectsAgree(e1, env, fuel);
    case Let(x, def, body) =>
      DialectsAgree(def, env, fuel);
      if Eval(Raising, def, env, fuel).Ok? {
        DialectsAgree(body, env[x := Eval(Raising, def, env, fuel).value], fuel);
      }
    case App(f, a) =>
      DialectsAgree(f, env, fuel);
      DialectsAgree(a, env, fuel);
      var fr := Eval(Raising, f, env, fuel);
      var ar := Eval(Raising, a, env, fuel);
      if fr.Ok? && IsFunction(fr.value) && ar.Ok? && fuel > 0 {
        DialectsAgree(fr.value.body, CallEnv(fr.value, ar.value), fuel - 1);
      }
  }

  /**
   * Static scoping: what a call computes depends on the closure and the
   * argument, not on the environment at the call site.
   */
  lemma CallIgnoresCallSite(d: Dialect, f: Value, arg: Value, env1: Env, env2: Env, fuel: nat)
    requires IsFunction(f)
    ensures Eval(d, App(Var("f"), Var("x")), env1 + map["f" := f, "x" := arg], fuel)
         == Eval(d, App(Var("f"), Var("x")), env2 + map["f" := f, "x" := arg], fuel)
    ensures Eval(d, App(Var("f"), Var("x")), env1 + map["f" := f, "x" := arg], fuel)
         == if fuel == 0 then Err(FuelExhausted) else Eval(d, f.body, CallEnv(f, arg), fuel - 1)
  {
    assert "f" != "x" by { assert "f"[0] != "x"[0]; }
  }
}
