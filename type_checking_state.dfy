/**
 * A type checker whose environment is a field of the checker object rather
 * than an argument. Types are plain strings ('int', 'bool', or whatever a
 * `let` declares). `let` saves a copy of the field, extends the field, checks
 * the body and restores the copy, but only when the body type-checks: a
 * TypeError raised inside the body leaves the extended environment behind.
 */
module TypeCheckingState {
  import opened Wrappers
  import TC = TypeChecking

  datatype Exp =
    | Var(identifier: string)
    | Num(num: int)
    | Bln(bln: bool)
    | Bin(op: TC.BinOp, left: Exp, right: Exp)
    | Let(identifier: string, tpVar: string, expDef: Exp, expBody: Exp)
    | IfThenElse(cond: Exp, e0: Exp, e1: Exp)

  type TypeEnv = map<string, string>

  function OperandType(op: TC.BinOp): string {
    if op == TC.AndOp then "bool" else "int"
  }

  function ResultType(op: TC.BinOp): string {
    if op == TC.AndOp || op == TC.LthOp then "bool" else "int"
  }

  function BinError(op: TC.BinOp, lt: string, rt: string): Exc {
    TypeError("Type error: " + lt + " " + TC.Symbol(op) + " " + rt)
  }

  function LetError(tp: string, dt: string): Exc {
    TypeError("Type error in let: expected " + tp + " but got " + dt)
  }

  function CondError(ct: string): Exc {
    TypeError("Type error: expected bool but got " + ct)
  }

  function BranchError(tt: string, et: string): Exc {
    TypeError("Type error: then branch is " + tt + ", else branch is " + et)
  }

  /**
   * The typing rules as a function of an unchanging environment, `let`
   * extending a copy: the reference the stateful checker is measured against.
   */
  function TypeOf(e: Exp, env: TypeEnv): (r: Result<string>)
    ensures r.Err? ==> r.error.TypeError?
    ensures e.Num? ==> r == Ok("int")
    ensures e.Bln? ==> r == Ok("bool")
    ensures e.Var? ==> (r.Ok? <==> e.identifier in env)
    ensures e.Bin? && r.Ok? ==>
              r.value == ResultType(e.op) && TypeOf(e.left, env) == TypeOf(e.right, env) == Ok(OperandType(e.op))
    ensures e.IfThenElse? && r.Ok? ==>
              TypeOf(e.cond, env) == Ok("bool") && TypeOf(e.e0, env) == r == TypeOf(e.e1, env)
  {
    match e
    case Var(x) =>
      if x in env then Ok(env[x]) else Err(TypeError("Variable " + x + " is not defined"))
    case Num(_) => Ok("int")
    case Bln(_) => Ok("bool")
    case Bin(op, l, r) =>
      var lt :- TypeOf(l, env);
      var rt :- TypeOf(r, env);
      if lt == OperandType(op) && rt == OperandType(op) then Ok(ResultType(op)) else Err(BinError(op, lt, rt))
    case Let(x, tp, d, b) =>
      var dt :- TypeOf(d, env);
      if dt == tp then TypeOf(b, env[x := tp]) else Err(LetError(tp, dt))
    case IfThenElse(c, e0, e1) =>
      var ct :- TypeOf(c, env);
      if ct != "bool" then Err(CondError(ct))
      else
        var tt :- TypeOf(e0, env);
        var et :- TypeOf(e1, env);
        if tt == et then Ok(tt) else Err(BranchError(tt, et))
  }

  /**
   * What the checker object does: the result of checking `e` starting with
   * `env` in the field, paired with what the field holds afterwards.
   */
  function CheckFrom(e: Exp, env: TypeEnv): (r: (Result<string>, TypeEnv))
    ensures r.0.Err? ==> r.0.error.TypeError?
    ensures r.0.Ok? ==> r.1 == env
  {
    match e
    case Var(x) =>
      (if x in env then Ok(env[x]) else Err(TypeError("Variable " + x + " is not defined")), env)
    case Num(_) => (Ok("int"), env)
    case Bln(_) => (Ok("bool"), env)
    case Bin(op, l, r) =>
      var (lt, env1) := CheckFrom(l, env);
      if lt.Err? then (Err(lt.error), env1)
      else
        var (rt, env2) := CheckFrom(r, env1);
        if rt.Err? then (Err(rt.error), env2)
        else if lt.value == OperandType(op) && rt.value == OperandType(op) then (Ok(ResultType(op)), env2)
        else (Err(BinError(op, lt.value, rt.value)), env2)
    case Let(x, tp, d, b) =>
      var (dt, env1) := CheckFrom(d, env);
      if dt.Err? then (Err(dt.error), env1)
      else if dt.value == tp then
        var (bt, env2) := CheckFrom(b, env1[x := tp]);
        if bt.Err? then (bt, env2) else (bt, env1)
      else (Err(LetError(tp, dt.value)), env1)
    case IfThenElse(c, e0, e1) =>
      var (ct, env1) := CheckFrom(c, env);
      if ct.Err? then (Err(ct.error), env1)
      else if ct.value != "bool" then (Err(CondError(ct.value)), env1)
      else
        var (tt, env2) := CheckFrom(e0, env1);
        if tt.Err? then (Err(tt.error), env2)
        else
          var (et, env3) := CheckFrom(e1, env2);
          if et.Err? then (Err(et.error), env3)
          else if tt.value == et.value then (Ok(tt.value), env3)
          else (Err(BranchError(tt.value, et.value)), env3)
  }

  /**
   * The stateful checker computes the same result as the copying one, and a
   * successful check leaves the field as it found it.
   */
  lemma {:induction false} CheckFromMatchesTypeOf(e: Exp, env: TypeEnv)
    ensures CheckFrom(e, env).0 == TypeOf(e, env)
    ensures CheckFrom(e, env).0.Ok? ==> CheckFrom(e, env).1 == env
  {
    match e
    case Var(_) =>
    case Num(_) =>
    case Bln(_) =>
    case Bin(op, l, r) =>
      CheckFromMatchesTypeOf(l, env);
      if TypeOf(l, env).Ok? {
        CheckFromMatchesTypeOf(r, env);
      }
    case Let(x, tp, d, b) =>
      CheckFromMatchesTypeOf(d, env);
      if TypeOf(d, env).Ok? && TypeOf(d, env).value == tp {
        CheckFromMatchesTypeOf(b, env[x := tp]);
      }
    case IfThenElse(c, e0, e1) =>
      CheckFromMatchesTypeOf(c, env);
      if TypeOf(c, env) == Ok("bool") {
        CheckFromMatchesTypeOf(e0, env);
        if TypeOf(e0, env).Ok? {
          CheckFromMatchesTypeOf(e1, env);
        }
      }
  }

  /** A failing `let` body is not undone: the binding stays in the field. */
  lemma LetErrorLeaksBinding()
    ensures CheckFrom(Let("z", "int", Num(3), Var("q")), map[])
         == (Err(TypeError("Variable q is not defined")), map["z" := "int"])
  {
    assert "q" != "z" by { assert "q"[0] != "z"[0]; }
    assert "q" !in map["z" := "int"];
    assert "Variable " + "q" + " is not defined" == "Variable q is not defined";
    assert CheckFrom(Num(3), map[]) == (Ok("int"), map[]);
    assert CheckFrom(Var("q"), map["z" := "int"]) == (Err(TypeError("Variable q is not defined")), map["z" := "int"]);
  }

  class TypeChecker {
    /** The variables in scope and their types. */
    var env: TypeEnv

    constructor()
      ensures env == map[]
    {
      env := map[];
    }

    /** `e.accept(checker, arg)`: the visit methods, which ignore `arg`. */
    method Check(e: Exp) returns (r: Result<string>)
      modifies this
      ensures (r, env) == CheckFrom(e, old(env))
      decreases e
    {
      match e
      case Var(x) =>
        if x in env {
          r := Ok(env[x]);
        } else {
          r := Err(TypeError("Variable " + x + " is not defined"));
        }
      case Num(_) =>
        r := Ok("int");
      case Bln(_) =>
        r := Ok("bool");
      case Bin(op, left, right) =>
        var lt := Check(left);
        if lt.Err? {
          return Err(lt.error);
        }
        var rt := Check(right);
        if rt.Err? {
          return Err(rt.error);
        }
        if lt.value == OperandType(op) && rt.value == OperandType(op) {
          r := Ok(ResultType(op));
        } else {
          r := Err(BinError(op, lt.value, rt.value));
        }
      case Let(x, tp, d, b) =>
        var dt := Check(d);
        if dt.Err? {
          return Err(dt.error);
        }
        if dt.value == tp {
          var oldEnv := env;
          env := env[x := tp];
          var bt := Check(b);
          if bt.Err? {
            return bt;
          }
          env := oldEnv;
          r := bt;
        } else {
          r := Err(LetError(tp, dt.value));
        }
      case IfThenElse(c, e0, e1) =>
        var ct := Check(c);
        if ct.Err? {
          return Err(ct.error);
        }
        if ct.value != "bool" {
          return Err(CondError(ct.value));
        }
        var tt := Check(e0);
        if tt.Err? {
          return Err(tt.error);
        }
        var et := Check(e1);
        if et.Err? {
          return Err(et.error);
        }
        if tt.value == et.value {
          r := Ok(tt.value);
        } else {
          r := Err(BranchError(tt.value, et.value));
        }
    }
  }

  /** The checker the object implements is the copying one, and it leaves no trace on success. */
  method CheckWithFreshChecker(e: Exp, env: TypeEnv) returns (r: Result<string>)
    ensures r == TypeOf(e, env)
  {
    var checker := new TypeChecker();
    checker.env := env;
    r := checker.Check(e);
    CheckFromMatchesTypeOf(e, env);
  }
}
