/**
 * The language with anonymous functions under dynamic scoping: a function
 * value is only its formal parameter and its body, and a call evaluates the
 * body in the caller's environment extended with the parameter. Recursion
 * through a `let`-bound name works; closures do not.
 */
module RecFunDynamic {
  import opened Wrappers

  datatype Exp =
    | Var(identifier: string)
    | Num(num: int)
    | Bln(bln: bool)
    | Add(left: Exp, right: Exp)
    | And(left: Exp, right: Exp)
    | Lth(left: Exp, right: Exp)
    | Let(identifier: string, expDef: Exp, expBody: Exp)
    | IfThenElse(cond: Exp, e0: Exp, e1: Exp)
    | Fn(formal: string, body: Exp)
    | App(func: Exp, actual: Exp)

  /** Python's ints and bools, and `Function` objects, which hold no environment. */
  datatype Value =
    | IntV(i: int)
    | BoolV(b: bool)
    | Function(formal: string, body: Exp)

  type Env = map<string, Value>

  function AsInt(v: Value): int
    requires !v.Function?
  {
    if v.IntV? then v.i else if v.b then 1 else 0
  }

  /** `bool(v)`: zero and False are falsy, every function object is truthy. */
  predicate Truthy(v: Value) {
    v.Function? || AsInt(v) != 0
  }

  function ClassName(v: Value): string {
    match v
    case IntV(_) => "int"
    case BoolV(_) => "bool"
    case Function(_, _) => "Function"
  }

  /** `a + b`: ints and bools add as ints; a function operand is a TypeError. */
  function PyAdd(a: Value, b: Value): (r: Result<Value>)
    ensures r.Ok? <==> !a.Function? && !b.Function?
    ensures r.Ok? ==> r.value == IntV(AsInt(a) + AsInt(b))
    ensures r.Err? ==> r.error.TypeError?
  {
    if a.Function? || b.Function? then
      Err(TypeError("unsupported operand type(s) for +: '" + ClassName(a) + "' and '" + ClassName(b) + "'"))
    else Ok(IntV(AsInt(a) + AsInt(b)))
  }

  /** `a < b`: ints and bools compare as ints; a function operand is a TypeError. */
  function PyLt(a: Value, b: Value): (r: Result<Value>)
    ensures r.Ok? <==> !a.Function? && !b.Function?
    ensures r.Ok? ==> r.value == BoolV(AsInt(a) < AsInt(b))
    ensures r.Err? ==> r.error.TypeError?
  {
    if a.Function? || b.Function? then
      Err(TypeError("'<' not supported between instances of '" + ClassName(a) + "' and '" + ClassName(b) + "'"))
    else Ok(BoolV(AsInt(a) < AsInt(b)))
  }

  /**
   * `VisitorEval`, with at most `fuel` nested calls. An unbound name and a
   * call of a non-function exit the program; a call evaluates the body in
   * a copy of the caller's environment with the formal bound.
   */
  function Eval(e: Exp, env: Env, fuel: nat): (r: Result<Value>)
    ensures r.Err? ==> r.error == FuelExhausted || r.error.TypeError? || r.error.SystemExit?
    decreases fuel, e
  {
    match e
    case Var(x) => if x in env then Ok(env[x]) else Err(SystemExit("Variavel inexistente " + x))
    case Num(n) => Ok(IntV(n))
    case Bln(b) => Ok(BoolV(b))
    case Add(l, r) =>
      var v0 :- Eval(l, env, fuel);
      var v1 :- Eval(r, env, fuel);
      PyAdd(v0, v1)
    case And(l, r) =>
      var v0 :- Eval(l, env, fuel);
      if Truthy(v0) then Eval(r, env, fuel) else Ok(BoolV(false))
    case Lth(l, r) =>
      var v0 :- Eval(l, env, fuel);
      var v1 :- Eval(r, env, fuel);
      PyLt(v0, v1)
    case IfThenElse(c, e0, e1) =>
      var cv :- Eval(c, env, fuel);
      if Truthy(cv) then Eval(e0, env, fuel) else Eval(e1, env, fuel)
    case Let(x, def, body) =>
      var v :- Eval(def, env, fuel);
      Eval(body, env[x := v], fuel)
    case Fn(formal, body) => Ok(Function(formal, body))
    case App(f, a) =>
      var fv :- Eval(f, env, fuel);
      if !fv.Function? then Err(SystemExit("Type error"))
      else
        var pv :- Eval(a, env, fuel);
        if fuel == 0 then Err(FuelExhausted) else Eval(fv.body, env[fv.formal := pv], fuel - 1)
  }

  /** An application whose function and argument have been evaluated. */
  lemma Call(f: Exp, x: Exp, env: Env, fuel: nat, fv: Value, xv: Value)
    requires Eval(f, env, fuel) == Ok(fv) && fv.Function?
    requires Eval(x, env, fuel) == Ok(xv)
    ensures Eval(App(f, x), env, fuel)
         == if fuel == 0 then Err(FuelExhausted) else Eval(fv.body, env[fv.formal := xv], fuel - 1)
  {
  }

  /**
   * Dynamic scoping: a call evaluates the body in the caller's whole
   * environment, extended only with the parameter.
   */
  lemma CallSeesCallSite(formal: string, body: Exp, env: Env, fuel: nat)
    ensures Eval(App(Var("f"), Num(0)), env["f" := Function(formal, body)], fuel + 1)
         == Eval(body, env["f" := Function(formal, body)][formal := IntV(0)], fuel)
  {
  }

  // `create_loop`: let loop = fn x => if 0 < x then x + loop (x - 1) else 0 in loop value end.

  function LoopBody(): Exp {
    IfThenElse(Lth(Num(0), Var("x")), Add(Var("x"), App(Var("loop"), Add(Var("x"), Num(-1)))), Num(0))
  }

  function CreateLoop(value: int): Exp {
    Let("loop", Fn("x", LoopBody()), App(Var("loop"), Num(value)))
  }

  /** 0 + 1 + ... + n, and 0 for a negative n. */
  function Triangle(n: int): int
    decreases n
  {
    if 0 < n then n + Triangle(n - 1) else 0
  }

  lemma {:induction false} TriangleClosedForm(n: nat)
    ensures 2 * Triangle(n) == n * (n + 1)
  {
    if n > 0 {
      TriangleClosedForm(n - 1);
    }
  }

  function LoopEnv(x: int): Env {
    map["loop" := Function("x", LoopBody()), "x" := IntV(x)]
  }

  lemma LoopLookups(x: int)
    ensures "x" in LoopEnv(x) && LoopEnv(x)["x"] == IntV(x)
    ensures "loop" in LoopEnv(x) && LoopEnv(x)["loop"] == Function("x", LoopBody())
  {
    assert "x" != "loop" by { assert "x"[0] != "loop"[0]; }
  }

  /** One turn: `x + loop (x - 1)` finds `loop` in the caller's environment. */
  lemma LoopTurn(x: int, fuel: nat)
    requires 0 < x
    ensures Eval(LoopBody(), LoopEnv(x), fuel)
         == if fuel == 0 then Err(FuelExhausted)
            else var r := Eval(LoopBody(), LoopEnv(x - 1), fuel - 1);
                 if r.Ok? then PyAdd(IntV(x), r.value) else r
  {
    var env := LoopEnv(x);
    LoopLookups(x);
    assert Eval(Lth(Num(0), Var("x")), env, fuel) == Ok(BoolV(true));
    assert Eval(Add(Var("x"), Num(-1)), env, fuel) == Ok(IntV(x - 1));
    Call(Var("loop"), Add(Var("x"), Num(-1)), env, fuel, Function("x", LoopBody()), IntV(x - 1));
    assert env["x" := IntV(x - 1)] == LoopEnv(x - 1);
  }

  /** The body of `loop` adds up 0..x, one call per positive number. */
  lemma {:induction false} LoopBodySums(x: int, fuel: nat)
    ensures Eval(LoopBody(), LoopEnv(x), fuel) == if fuel >= x then Ok(IntV(Triangle(x))) else Err(FuelExhausted)
    decreases if x < 0 then 0 else x
  {
    if 0 < x {
      LoopTurn(x, fuel);
      if fuel > 0 {
        LoopBodySums(x - 1, fuel - 1);
      }
    } else {
      LoopLookups(x);
      assert Eval(Lth(Num(0), Var("x")), LoopEnv(x), fuel) == Ok(BoolV(false));
    }
  }

  /** `create_loop(n)` evaluates to 0 + 1 + ... + n, given one call per number and one to start. */
  lemma CreateLoopSums(n: int, fuel: nat)
    ensures Eval(CreateLoop(n), map[], fuel)
         == if fuel >= 1 && fuel - 1 >= n then Ok(IntV(Triangle(n))) else Err(FuelExhausted)
  {
    var env := map["loop" := Function("x", LoopBody())];
    Call(Var("loop"), Num(n), env, fuel, Function("x", LoopBody()), IntV(n));
    assert env["x" := IntV(n)] == LoopEnv(n);
    if fuel >= 1 {
      LoopBodySums(n, fuel - 1);
    }
  }

  lemma CreateLoopExample()
    ensures Eval(CreateLoop(5), map[], 6) == Ok(IntV(15))
  {
    CreateLoopSums(5, 6);
    TriangleClosedForm(5);
  }

  // `create_closure`: let f = fn x => fn y => x + y in f v0 v1 end.

  function CreateClosure(v0: int, v1: int): Exp {
    Let("f", Fn("x", Fn("y", Add(Var("x"), Var("y")))), App(App(Var("f"), Num(v0)), Num(v1)))
  }

  /**
   * `f v0` returns `fn y => x + y` without the binding of x, and the second
   * call runs in the `let`'s environment, where x is unbound: every
   * `create_closure` program exits, whatever the fuel.
   */
  lemma ClosureLosesBinding(v0: int, v1: int, fuel: nat)
    ensures Eval(CreateClosure(v0, v1), map[], fuel)
         == if fuel == 0 then Err(FuelExhausted) else Err(SystemExit("Variavel inexistente x"))
  {
    var f := Function("x", Fn("y", Add(Var("x"), Var("y"))));
    var env := map["f" := f];
    Call(Var("f"), Num(v0), env, fuel, f, IntV(v0));
    if fuel > 0 {
      var g := Function("y", Add(Var("x"), Var("y")));
      assert Eval(App(Var("f"), Num(v0)), env, fuel) == Ok(g);
      Call(App(Var("f"), Num(v0)), Num(v1), env, fuel, g, IntV(v1));
      assert "x" != "f" && "x" != "y" by { assert "x"[0] != "f"[0] && "x"[0] != "y"[0]; }
      var benv := env["y" := IntV(v1)];
      assert "x" !in benv;
      assert "Variavel inexistente " + "x" == "Variavel inexistente x";
      assert Eval(Var("x"), benv, fuel - 1) == Err(SystemExit("Variavel inexistente x"));
    }
  }

  // `create_arithmetic_sum`: let range = fn n0 => fn n1 => if n0 < n1 then
  // n0 + range (n0 + 1) n1 else 0 in range init end end.

  function RangeBody(): Exp {
    IfThenElse(Lth(Var("n0"), Var("n1")),
      Add(Var("n0"), App(App(Var("range"), Add(Var("n0"), Num(1))), Var("n1"))),
      Num(0))
  }

  function ArithmeticSum(initValue: int, endValue: int): Exp {
    Let("range", Fn("n0", Fn("n1", RangeBody())), App(App(Var("range"), Num(initValue)), Num(endValue)))
  }

  /**
   * A curried recursive function cannot work without closures: the inner
   * function runs where n0 is no longer bound, so every `create_arithmetic_sum`
   * program exits, whatever its range and fuel.
   */
  lemma ArithmeticSumLosesBinding(a: int, b: int, fuel: nat)
    ensures Eval(ArithmeticSum(a, b), map[], fuel)
         == if fuel == 0 then Err(FuelExhausted) else Err(SystemExit("Variavel inexistente n0"))
  {
    var range := Function("n0", Fn("n1", RangeBody()));
    var env := map["range" := range];
    Call(Var("range"), Num(a), env, fuel, range, IntV(a));
    if fuel > 0 {
      var inner := Function("n1", RangeBody());
      assert Eval(App(Var("range"), Num(a)), env, fuel) == Ok(inner);
      Call(App(Var("range"), Num(a)), Num(b), env, fuel, inner, IntV(b));
      assert "n0" != "n1" && "n0" != "range" by { assert "n0"[1] != "n1"[1] && "n0"[0] != "range"[0]; }
      var benv := env["n1" := IntV(b)];
      assert "n0" !in benv;
      assert "Variavel inexistente " + "n0" == "Variavel inexistente n0";
      assert Eval(Var("n0"), benv, fuel - 1) == Err(SystemExit("Variavel inexistente n0"));
      assert Eval(Lth(Var("n0"), Var("n1")), benv, fuel - 1) == Err(SystemExit("Variavel inexistente n0"));
    }
  }

  /**
   * Dynamic scoping: the function reads the w of its call site (3), where
   * static scoping reads the w of its definition (2).
   */
  lemma DynamicScopeExample()
    ensures Eval(Let("w", Num(2), Let("f", Fn("v", Add(Var("v"), Var("w"))), Let("w", Num(3), App(Var("f"), Num(1))))), map[], 1)
         == Ok(IntV(4))
  {
    assert "v" != "w" by { assert "v"[0] != "w"[0]; }
    assert "f" != "w" by { assert "f"[0] != "w"[0]; }
    var fv := Function("v", Add(Var("v"), Var("w")));
    var env3 := map["w" := IntV(2)]["f" := fv]["w" := IntV(3)];
    assert Eval(Var("f"), env3, 1) == Ok(fv);
    Call(Var("f"), Num(1), env3, 1, fv, IntV(1));
    assert Eval(Var("v"), env3["v" := IntV(1)], 0) == Ok(IntV(1));
    assert Eval(Var("w"), env3["v" := IntV(1)], 0) == Ok(IntV(3));
    assert Eval(App(Var("f"), Num(1)), env3, 1) == Ok(IntV(4));
  }
}
