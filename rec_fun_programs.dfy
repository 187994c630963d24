/**
 * The programs the static-scope language is demonstrated with: a recursive
 * arithmetic sum and a higher-order loop, each built from its parameters,
 * together with what they compute for every parameter and every amount of
 * fuel.
 */
module RecFunPrograms {
  import opened Wrappers
  import opened RecFun

  lemma Names()
    ensures "n0" != "n1" && "n0" != "range" && "n1" != "range"
    ensures "n" != "loop" && "n" != "f" && "n" != "a" && "loop" != "f" && "loop" != "a" && "f" != "a"
  {
    assert "n0"[1] != "n1"[1];
    assert "n0"[0] != "range"[0] && "n1"[0] != "range"[0];
    assert "n"[0] != "loop"[0] && "n"[0] != "f"[0] && "n"[0] != "a"[0];
    assert "loop"[0] != "f"[0] && "loop"[0] != "a"[0] && "f"[0] != "a"[0];
  }

  /** The outcome a run that has used up its fuel, or not, reports. */
  function Finished(r: Option<int>): Result<Value> {
    match r
    case Some(v) => Ok(IntV(v))
    case None => Err(FuelExhausted)
  }

  // `create_arithmetic_sum`: let fun range n0 = fn n1 => if n0 < n1 then
  // n0 + range (n0 + 1) n1 else 0 in range init end.

  function RangeBody(): Exp {
    IfThenElse(Lth(Var("n0"), Var("n1")),
      Add(Var("n0"), App(App(Var("range"), Add(Var("n0"), Num(1))), Var("n1"))),
      Num(0))
  }

  function ArithmeticSum(initValue: int, endValue: int): Exp {
    Let("range", Fun("range", "n0", Fn("n1", RangeBody())),
      App(App(Var("range"), Num(initValue)), Num(endValue)))
  }

  /** The sum init + (init + 1) + ... + (end - 1), zero when the range is empty. */
  function SumRange(a: int, b: int): int
    decreases b - a
  {
    if a < b then a + SumRange(a + 1, b) else 0
  }

  lemma {:induction false} SumRangeClosedForm(a: int, b: int)
    requires a <= b
    ensures 2 * SumRange(a, b) == (b - a) * (a + b - 1)
    decreases b - a
  {
    if a < b {
      SumRangeClosedForm(a + 1, b);
    }
  }

  function RangeClosure(): Value {
    RecFunction("range", "n0", Fn("n1", RangeBody()), map[])
  }

  /** The environment the body of `range` runs in for the call `range a b`. */
  function RangeEnv(a: int, b: int): Env {
    CallEnv(Function("n1", RangeBody(), CallEnv(RangeClosure(), IntV(a))), IntV(b))
  }

  /** An application whose function and argument have been evaluated. */
  lemma Call(d: Dialect, f: Exp, x: Exp, env: Env, fuel: nat, fv: Value, xv: Value)
    requires Eval(d, f, env, fuel) == Ok(fv) && IsFunction(fv)
    requires Eval(d, x, env, fuel) == Ok(xv)
    ensures Eval(d, App(f, x), env, fuel)
         == if fuel == 0 then Err(FuelExhausted) else Eval(d, fv.body, CallEnv(fv, xv), fuel - 1)
  {
  }

  /** An addition whose left operand has been evaluated. */
  lemma Sum(d: Dialect, l: Exp, r: Exp, env: Env, fuel: nat, lv: Value)
    requires Eval(d, l, env, fuel) == Ok(lv)
    ensures Eval(d, Add(l, r), env, fuel)
         == var rv := Eval(d, r, env, fuel); if rv.Ok? then PyAdd(lv, rv.value) else rv
  {
  }

  /** A conditional whose condition has been evaluated. */
  lemma Branch(d: Dialect, c: Exp, e0: Exp, e1: Exp, env: Env, fuel: nat, cv: Value)
    requires Eval(d, c, env, fuel) == Ok(cv)
    ensures Eval(d, IfThenElse(c, e0, e1), env, fuel)
         == if Truthy(cv) then Eval(d, e0, env, fuel) else Eval(d, e1, env, fuel)
  {
  }

  lemma RangeLookups(a: int, b: int)
    ensures "n0" in RangeEnv(a, b) && RangeEnv(a, b)["n0"] == IntV(a)
    ensures "n1" in RangeEnv(a, b) && RangeEnv(a, b)["n1"] == IntV(b)
    ensures "range" in RangeEnv(a, b) && RangeEnv(a, b)["range"] == RangeClosure()
  {
    Names();
  }

  /** The recursive call `range (n0 + 1) n1` runs the body for the rest of the range. */
  lemma RangeRecursiveCall(d: Dialect, a: int, b: int, fuel: nat)
    ensures Eval(d, App(App(Var("range"), Add(Var("n0"), Num(1))), Var("n1")), RangeEnv(a, b), fuel)
         == if fuel == 0 then Err(FuelExhausted) else Eval(d, RangeBody(), RangeEnv(a + 1, b), fuel - 1)
  {
    var env := RangeEnv(a, b);
    RangeLookups(a, b);
    assert Eval(d, Add(Var("n0"), Num(1)), env, fuel) == Ok(IntV(a + 1));
    Call(d, Var("range"), Add(Var("n0"), Num(1)), env, fuel, RangeClosure(), IntV(a + 1));
    if fuel > 0 {
      var inner := CallEnv(RangeClosure(), IntV(a + 1));
      assert Eval(d, App(Var("range"), Add(Var("n0"), Num(1))), env, fuel) == Ok(Function("n1", RangeBody(), inner));
      Call(d, App(Var("range"), Add(Var("n0"), Num(1))), Var("n1"), env, fuel, Function("n1", RangeBody(), inner), IntV(b));
    }
  }

  /** An empty range: the body returns 0 without a call. */
  lemma RangeBodyEmpty(d: Dialect, a: int, b: int, fuel: nat)
    requires b <= a
    ensures Eval(d, RangeBody(), RangeEnv(a, b), fuel) == Ok(IntV(0))
  {
    RangeLookups(a, b);
    assert Eval(d, Lth(Var("n0"), Var("n1")), RangeEnv(a, b), fuel) == Ok(BoolV(false));
  }

  /** A non-empty range: the body adds `a` to the call for the rest of the range. */
  lemma RangeBodyStep(d: Dialect, a: int, b: int, fuel: nat)
    requires a < b
    ensures Eval(d, RangeBody(), RangeEnv(a, b), fuel)
         == if fuel == 0 then Err(FuelExhausted)
            else var r := Eval(d, RangeBody(), RangeEnv(a + 1, b), fuel - 1);
                 if r.Ok? then PyAdd(IntV(a), r.value) else r
  {
    var env := RangeEnv(a, b);
    RangeLookups(a, b);
    var rec := App(App(Var("range"), Add(Var("n0"), Num(1))), Var("n1"));
    assert Eval(d, Lth(Var("n0"), Var("n1")), env, fuel) == Ok(BoolV(true));
    Branch(d, Lth(Var("n0"), Var("n1")), Add(Var("n0"), rec), Num(0), env, fuel, BoolV(true));
    Sum(d, Var("n0"), rec, env, fuel, IntV(a));
    RangeRecursiveCall(d, a, b, fuel);
  }

  /** One step of the sum: adding `a` to the result for the rest of the range. */
  lemma RangeSumStep(a: int, b: int, fuel: nat, r: Result<Value>)
    requires a < b && fuel > 0
    requires r == if fuel - 1 >= b - (a + 1) then Ok(IntV(SumRange(a + 1, b))) else Err(FuelExhausted)
    ensures (if r.Ok? then PyAdd(IntV(a), r.value) else r)
         == if fuel >= b - a then Ok(IntV(SumRange(a, b))) else Err(FuelExhausted)
  {
  }

  /**
   * The body of `range` adds up the range [a, b) using one call per element;
   * with less fuel than that it runs out.
   */
  lemma {:induction false} RangeBodySums(d: Dialect, a: int, b: int, fuel: nat)
    ensures Eval(d, RangeBody(), RangeEnv(a, b), fuel)
         == if fuel >= b - a then Ok(IntV(SumRange(a, b))) else Err(FuelExhausted)
    decreases b - a
  {
    if a < b {
      RangeBodyStep(d, a, b, fuel);
      if fuel > 0 {
        RangeBodySums(d, a + 1, b, fuel - 1);
        RangeSumStep(a, b, fuel, Eval(d, RangeBody(), RangeEnv(a + 1, b), fuel - 1));
      }
    } else {
      RangeBodyEmpty(d, a, b, fuel);
    }
  }

  /** `create_arithmetic_sum(a, b)` evaluates to the sum of [a, b), given enough fuel. */
  lemma ArithmeticSumResult(d: Dialect, a: int, b: int, fuel: nat)
    ensures Eval(d, ArithmeticSum(a, b), map[], fuel)
         == if fuel >= 1 && fuel - 1 >= b - a then Ok(IntV(SumRange(a, b))) else Err(FuelExhausted)
  {
    var env := map["range" := RangeClosure()];
    assert Eval(d, Fun("range", "n0", Fn("n1", RangeBody())), map[], fuel) == Ok(RangeClosure());
    var call := App(Var("range"), Num(a));
    RangeFirstCall(d, a, fuel);
    if fuel >= 1 {
      var inner := CallEnv(RangeClosure(), IntV(a));
      Call(d, call, Num(b), env, fuel, Function("n1", RangeBody(), inner), IntV(b));
      RangeBodySums(d, a, b, fuel - 1);
    }
  }

  /** `range a`: the closure waiting for the upper bound. */
  lemma RangeFirstCall(d: Dialect, a: int, fuel: nat)
    ensures Eval(d, App(Var("range"), Num(a)), map["range" := RangeClosure()], fuel)
         == if fuel == 0 then Err(FuelExhausted) else Ok(Function("n1", RangeBody(), CallEnv(RangeClosure(), IntV(a))))
  {
    Call(d, Var("range"), Num(a), map["range" := RangeClosure()], fuel, RangeClosure(), IntV(a));
  }

  lemma ArithmeticSumExamples()
    ensures Eval(Raising, ArithmeticSum(2, 7), map[], 6) == Ok(IntV(20))
    ensures Eval(Raising, ArithmeticSum(1, 8), map[], 8) == Ok(IntV(28))
  {
    ArithmeticSumResult(Raising, 2, 7, 6);
    SumRangeClosedForm(2, 7);
    ArithmeticSumResult(Raising, 1, 8, 8);
    SumRangeClosedForm(1, 8);
  }

  // `create_loop` and `create_for_loop`: let fun loop n = fn f => fn a =>
  // if <stop> then a else loop (n - 1) f (f a) in loop end f begin end.

  /** When the loop stops: at n < 2, or (in the later version of `create_for_loop`) at n < a. */
  datatype Guard = BelowTwo | BelowAccumulator

  function GuardExp(g: Guard): Exp {
    match g
    case BelowTwo => Lth(Var("n"), Num(2))
    case BelowAccumulator => Lth(Var("n"), Var("a"))
  }

  predicate Stops(g: Guard, n: int, a: int) {
    match g
    case BelowTwo => n < 2
    case BelowAccumulator => n < a
  }

  function LoopBody(g: Guard): Exp {
    IfThenElse(GuardExp(g), Var("a"),
      App(App(App(Var("loop"), Add(Var("n"), Num(-1))), Var("f")), App(Var("f"), Var("a"))))
  }

  function LoopProgram(g: Guard, end: int, f: Exp, begin: int): Exp {
    Let("loop", Fun("loop", "n", Fn("f", Fn("a", LoopBody(g)))),
      App(App(App(Var("loop"), Num(end)), f), Num(begin)))
  }

  /** The loop bodies the programs pass in: fn x => x + 1 and fn x => x + x. */
  datatype Step = Increment | Double

  function StepBody(s: Step): Exp {
    match s
    case Increment => Add(Var("x"), Num(1))
    case Double => Add(Var("x"), Var("x"))
  }

  function StepOf(s: Step, x: int): int {
    match s
    case Increment => x + 1
    case Double => x + x
  }

  /** `create_loop(n)`: loop n (fn x => x + 1) 2, stopping below two. */
  function CreateLoop(numIterations: int): Exp {
    LoopProgram(BelowTwo, numIterations, Fn("x", StepBody(Increment)), 2)
  }

  /** `create_for_loop(begin, end, f)`, in the version that stops below two or below the accumulator. */
  function CreateForLoop(g: Guard, begin: int, end: int, s: Step): Exp {
    LoopProgram(g, end, Fn("x", StepBody(s)), begin)
  }

  /**
   * The loop as arithmetic: the accumulator after the loop stops, or None if
   * it has not stopped within `steps` iterations.
   */
  function Loop(g: Guard, s: Step, n: int, a: int, steps: nat): Option<int>
    decreases steps
  {
    if Stops(g, n, a) then Some(a)
    else if steps == 0 then None
    else Loop(g, s, n - 1, StepOf(s, a), steps - 1)
  }

  function LoopClosure(g: Guard): Value {
    RecFunction("loop", "n", Fn("f", Fn("a", LoopBody(g))), map[])
  }

  /** The environment the body of `loop` runs in for the call `loop n f a`. */
  function LoopEnv(g: Guard, n: int, f: Value, a: int): Env {
    CallEnv(Function("a", LoopBody(g), CallEnv(Function("f", Fn("a", LoopBody(g)), CallEnv(LoopClosure(g), IntV(n))), f)), IntV(a))
  }

  lemma LoopLookups(g: Guard, n: int, f: Value, a: int)
    ensures "n" in LoopEnv(g, n, f, a) && LoopEnv(g, n, f, a)["n"] == IntV(n)
    ensures "a" in LoopEnv(g, n, f, a) && LoopEnv(g, n, f, a)["a"] == IntV(a)
    ensures "f" in LoopEnv(g, n, f, a) && LoopEnv(g, n, f, a)["f"] == f
    ensures "loop" in LoopEnv(g, n, f, a) && LoopEnv(g, n, f, a)["loop"] == LoopClosure(g)
  {
    Names();
  }

  /** Calling a step function on an int gives the step's value, whatever its closure holds. */
  lemma StepCall(d: Dialect, s: Step, fenv: Env, x: int, fuel: nat)
    ensures Eval(d, StepBody(s), CallEnv(Function("x", StepBody(s), fenv), IntV(x)), fuel) == Ok(IntV(StepOf(s, x)))
  {
    var env := CallEnv(Function("x", StepBody(s), fenv), IntV(x));
    assert Eval(d, Var("x"), env, fuel) == Ok(IntV(x));
  }

  /** The guard of the loop tests what `Stops` says. */
  lemma LoopGuard(d: Dialect, g: Guard, fv: Value, n: int, a: int, fuel: nat)
    ensures Eval(d, GuardExp(g), LoopEnv(g, n, fv, a), fuel) == Ok(BoolV(Stops(g, n, a)))
  {
    LoopLookups(g, n, fv, a);
  }

  /** `loop (n - 1) f`: the closure waiting for the accumulator. */
  lemma LoopPartialCall(d: Dialect, g: Guard, fv: Value, n: int, a: int, fuel: nat)
    requires fv.Function?
    ensures Eval(d, App(App(Var("loop"), Add(Var("n"), Num(-1))), Var("f")), LoopEnv(g, n, fv, a), fuel)
         == if fuel == 0 then Err(FuelExhausted)
            else Ok(Function("a", LoopBody(g), CallEnv(Function("f", Fn("a", LoopBody(g)), CallEnv(LoopClosure(g), IntV(n - 1))), fv)))
  {
    var env := LoopEnv(g, n, fv, a);
    var call1 := App(Var("loop"), Add(Var("n"), Num(-1)));
    LoopCountdownCall(d, g, fv, n, a, fuel);
    if fuel > 0 {
      LoopLookups(g, n, fv, a);
      var f1 := Function("f", Fn("a", LoopBody(g)), CallEnv(LoopClosure(g), IntV(n - 1)));
      Call(d, call1, Var("f"), env, fuel, f1, fv);
    }
  }

  /** `loop (n - 1)`: the closure waiting for the step function. */
  lemma LoopCountdownCall(d: Dialect, g: Guard, fv: Value, n: int, a: int, fuel: nat)
    requires fv.Function?
    ensures Eval(d, App(Var("loop"), Add(Var("n"), Num(-1))), LoopEnv(g, n, fv, a), fuel)
         == if fuel == 0 then Err(FuelExhausted)
            else Ok(Function("f", Fn("a", LoopBody(g)), CallEnv(LoopClosure(g), IntV(n - 1))))
  {
    var env := LoopEnv(g, n, fv, a);
    LoopLookups(g, n, fv, a);
    assert Eval(d, Add(Var("n"), Num(-1)), env, fuel) == Ok(IntV(n - 1));
    Call(d, Var("loop"), Add(Var("n"), Num(-1)), env, fuel, LoopClosure(g), IntV(n - 1));
  }

  /** `loop (n - 1) f (f a)`: the next turn, with one unit of fuel less. */
  lemma LoopRecursiveCall(d: Dialect, g: Guard, s: Step, fenv: Env, n: int, a: int, fuel: nat)
    ensures Eval(d, App(App(App(Var("loop"), Add(Var("n"), Num(-1))), Var("f")), App(Var("f"), Var("a"))),
                 LoopEnv(g, n, Function("x", StepBody(s), fenv), a), fuel)
         == if fuel == 0 then Err(FuelExhausted)
            else Eval(d, LoopBody(g), LoopEnv(g, n - 1, Function("x", StepBody(s), fenv), StepOf(s, a)), fuel - 1)
  {
    var fv := Function("x", StepBody(s), fenv);
    var env := LoopEnv(g, n, fv, a);
    var call2 := App(App(Var("loop"), Add(Var("n"), Num(-1))), Var("f"));
    var arg := App(Var("f"), Var("a"));
    LoopPartialCall(d, g, fv, n, a, fuel);
    if fuel > 0 {
      LoopLookups(g, n, fv, a);
      var f1 := Function("f", Fn("a", LoopBody(g)), CallEnv(LoopClosure(g), IntV(n - 1)));
      var f2 := Function("a", LoopBody(g), CallEnv(f1, fv));
      Call(d, Var("f"), Var("a"), env, fuel, fv, IntV(a));
      StepCall(d, s, fenv, a, fuel - 1);
      assert Eval(d, arg, env, fuel) == Ok(IntV(StepOf(s, a)));
      Call(d, call2, arg, env, fuel, f2, IntV(StepOf(s, a)));
    }
  }

  /** One turn of the body of `loop`: the accumulator if the guard holds, else the next call. */
  lemma LoopTurn(d: Dialect, g: Guard, s: Step, fenv: Env, n: int, a: int, fuel: nat)
    ensures Stops(g, n, a) ==>
      Eval(d, LoopBody(g), LoopEnv(g, n, Function("x", StepBody(s), fenv), a), fuel) == Ok(IntV(a))
    ensures !Stops(g, n, a) ==>
      Eval(d, LoopBody(g), LoopEnv(g, n, Function("x", StepBody(s), fenv), a), fuel)
      == if fuel == 0 then Err(FuelExhausted)
         else Eval(d, LoopBody(g), LoopEnv(g, n - 1, Function("x", StepBody(s), fenv), StepOf(s, a)), fuel - 1)
  {
    var fv := Function("x", StepBody(s), fenv);
    var env := LoopEnv(g, n, fv, a);
    var rec := App(App(App(Var("loop"), Add(Var("n"), Num(-1))), Var("f")), App(Var("f"), Var("a")));
    LoopGuard(d, g, fv, n, a, fuel);
    Branch(d, GuardExp(g), Var("a"), rec, env, fuel, BoolV(Stops(g, n, a)));
    if Stops(g, n, a) {
      LoopLookups(g, n, fv, a);
    } else {
      LoopRecursiveCall(d, g, s, fenv, n, a, fuel);
    }
  }

  /** The body of `loop` computes `Loop`, one iteration per unit of fuel. */
  lemma {:induction false} LoopBodyComputes(d: Dialect, g: Guard, s: Step, fenv: Env, n: int, a: int, fuel: nat)
    ensures Eval(d, LoopBody(g), LoopEnv(g, n, Function("x", StepBody(s), fenv), a), fuel)
         == Finished(Loop(g, s, n, a, fuel))
    decreases fuel
  {
    LoopTurn(d, g, s, fenv, n, a, fuel);
    if !Stops(g, n, a) && fuel > 0 {
      LoopBodyComputes(d, g, s, fenv, n - 1, StepOf(s, a), fuel - 1);
    }
  }

  /** `loop end f begin`, in the environment the program's `let` builds. */
  lemma LoopStart(d: Dialect, g: Guard, s: Step, end: int, begin: int, fuel: nat)
    ensures Eval(d, App(App(App(Var("loop"), Num(end)), Fn("x", StepBody(s))), Num(begin)), map["loop" := LoopClosure(g)], fuel)
         == if fuel == 0 then Err(FuelExhausted)
            else Eval(d, LoopBody(g), LoopEnv(g, end, Function("x", StepBody(s), map["loop" := LoopClosure(g)]), begin), fuel - 1)
  {
    var env := map["loop" := LoopClosure(g)];
    var call1 := App(Var("loop"), Num(end));
    var call2 := App(call1, Fn("x", StepBody(s)));
    var fv := Function("x", StepBody(s), env);
    Call(d, Var("loop"), Num(end), env, fuel, LoopClosure(g), IntV(end));
    if fuel > 0 {
      var f1 := Function("f", Fn("a", LoopBody(g)), CallEnv(LoopClosure(g), IntV(end)));
      assert Eval(d, call1, env, fuel) == Ok(f1);
      Call(d, call1, Fn("x", StepBody(s)), env, fuel, f1, fv);
      var f2 := Function("a", LoopBody(g), CallEnv(f1, fv));
      assert Eval(d, call2, env, fuel) == Ok(f2);
      Call(d, call2, Num(begin), env, fuel, f2, IntV(begin));
    }
  }

  /** A loop program computes `Loop` on its end, its step and its begin, after the three calls that start it. */
  lemma LoopProgramComputes(d: Dialect, g: Guard, s: Step, end: int, begin: int, fuel: nat)
    ensures Eval(d, LoopProgram(g, end, Fn("x", StepBody(s)), begin), map[], fuel)
         == if fuel == 0 then Err(FuelExhausted) else Finished(Loop(g, s, end, begin, fuel - 1))
  {
    var env := map["loop" := LoopClosure(g)];
    assert Eval(d, Fun("loop", "n", Fn("f", Fn("a", LoopBody(g)))), map[], fuel) == Ok(LoopClosure(g));
    LoopStart(d, g, s, end, begin, fuel);
    if fuel > 0 {
      LoopBodyComputes(d, g, s, env, end, begin, fuel - 1);
    }
  }

  /** The step applied k times. */
  function Iterate(s: Step, k: nat, a: int): int {
    if k == 0 then a else Iterate(s, k - 1, StepOf(s, a))
  }

  function Pow2(k: nat): nat {
    if k == 0 then 1 else 2 * Pow2(k - 1)
  }

  lemma {:induction false} IterateClosedForm(s: Step, k: nat, a: int)
    ensures s == Increment ==> Iterate(s, k, a) == a + k
    ensures s == Double ==> Iterate(s, k, a) == a * Pow2(k)
  {
    if k > 0 {
      IterateClosedForm(s, k - 1, StepOf(s, a));
    }
  }

  /** Stopping below two, `loop n f a` applies f exactly n - 1 times, and needs n - 1 turns to do so. */
  lemma {:induction false} LoopBelowTwo(s: Step, n: int, a: int, steps: nat)
    ensures Loop(BelowTwo, s, n, a, steps)
         == if n < 2 then Some(a) else if steps >= n - 1 then Some(Iterate(s, n - 1, a)) else None
    decreases steps
  {
    if n >= 2 && steps > 0 {
      LoopBelowTwo(s, n - 1, StepOf(s, a), steps - 1);
    }
  }

  /**
   * Stopping below the accumulator with the increment, n and a approach
   * each other by two per turn: the loop ends after (n - a) / 2 + 1 turns.
   */
  lemma {:induction false} LoopBelowAccumulatorIncrement(n: int, a: int, steps: nat)
    ensures var turns := if n < a then 0 else (n - a) / 2 + 1;
            Loop(BelowAccumulator, Increment, n, a, steps) == if steps >= turns then Some(a + turns) else None
    decreases steps
  {
    if a <= n && steps > 0 {
      LoopBelowAccumulatorIncrement(n - 1, a + 1, steps - 1);
    }
  }

  /**
   * Stopping below the accumulator with doubling never ends from a negative
   * accumulator that is not above n: the accumulator falls faster than n.
   */
  lemma {:induction false} LoopBelowAccumulatorDoubleDiverges(n: int, a: int, steps: nat)
    requires a <= -1 && a <= n
    ensures Loop(BelowAccumulator, Double, n, a, steps) == None
    decreases steps
  {
    if steps > 0 {
      LoopBelowAccumulatorDoubleDiverges(n - 1, a + a, steps - 1);
    }
  }

  /** `create_for_loop(-1, 10, fn x => x + x)` in the version that stops below the accumulator runs out of any fuel. */
  lemma ForLoopDiverges(d: Dialect, fuel: nat)
    ensures Eval(d, CreateForLoop(BelowAccumulator, -1, 10, Double), map[], fuel) == Err(FuelExhausted)
  {
    LoopProgramComputes(d, BelowAccumulator, Double, 10, -1, fuel);
    if fuel > 0 {
      LoopBelowAccumulatorDoubleDiverges(10, -1, fuel - 1);
    }
  }

  // The documented runs of `create_loop` and `create_for_loop`.

  lemma CreateLoopExample()
    ensures Eval(Raising, CreateLoop(10), map[], 10) == Ok(IntV(11))
  {
    LoopProgramComputes(Raising, BelowTwo, Increment, 10, 2, 10);
    LoopBelowTwo(Increment, 10, 2, 9);
    IterateClosedForm(Increment, 9, 2);
  }

  lemma ForLoopBelowTwoExamples()
    ensures Eval(Exiting, CreateForLoop(BelowTwo, 2, 10, Increment), map[], 10) == Ok(IntV(11))
    ensures Eval(Exiting, CreateForLoop(BelowTwo, 2, 10, Double), map[], 10) == Ok(IntV(1024))
  {
    LoopProgramComputes(Exiting, BelowTwo, Increment, 10, 2, 10);
    LoopBelowTwo(Increment, 10, 2, 9);
    IterateClosedForm(Increment, 9, 2);
    LoopProgramComputes(Exiting, BelowTwo, Double, 10, 2, 10);
    LoopBelowTwo(Double, 10, 2, 9);
    IterateClosedForm(Double, 9, 2);
  }

  lemma ForLoopBelowAccumulatorExamples()
    ensures Eval(Raising, CreateForLoop(BelowAccumulator, 4, 10, Increment), map[], 5) == Ok(IntV(8))
    ensures Eval(Raising, CreateForLoop(BelowAccumulator, 2, 10, Increment), map[], 6) == Ok(IntV(7))
    ensures Eval(Raising, CreateForLoop(BelowAccumulator, 2, 10, Double), map[], 4) == Ok(IntV(16))
  {
    LoopProgramComputes(Raising, BelowAccumulator, Increment, 10, 4, 5);
    LoopBelowAccumulatorIncrement(10, 4, 4);
    LoopProgramComputes(Raising, BelowAccumulator, Increment, 10, 2, 6);
    LoopBelowAccumulatorIncrement(10, 2, 5);
    LoopProgramComputes(Raising, BelowAccumulator, Double, 10, 2, 4);
    assert Loop(BelowAccumulator, Double, 10, 2, 3) == Some(16);
  }

  // The documented runs of `App` and `visit_app`.

  lemma ApplyAnonymousExample()
    ensures Eval(Raising, App(Fn("v", Add(Var("v"), Var("v"))), Add(Num(40), Num(2))), map[], 1) == Ok(IntV(84))
  {
    var fv := Function("v", Add(Var("v"), Var("v")), map[]);
    Call(Raising, Fn("v", Add(Var("v"), Var("v"))), Add(Num(40), Num(2)), map[], 1, fv, IntV(42));
    assert Eval(Raising, Var("v"), CallEnv(fv, IntV(42)), 0) == Ok(IntV(42));
  }

  lemma ClosureSeesLetExample()
    ensures Eval(Raising, Let("w", Num(3), App(Fn("v", Add(Var("v"), Var("w"))), Num(2))), map[], 1) == Ok(IntV(5))
  {
    var env := map["w" := IntV(3)];
    var fv := Function("v", Add(Var("v"), Var("w")), env);
    Call(Raising, Fn("v", Add(Var("v"), Var("w"))), Num(2), env, 1, fv, IntV(2));
    assert "v" != "w" by { assert "v"[0] != "w"[0]; }
    assert Eval(Raising, Var("v"), CallEnv(fv, IntV(2)), 0) == Ok(IntV(2));
    assert Eval(Raising, Var("w"), CallEnv(fv, IntV(2)), 0) == Ok(IntV(3));
  }

  lemma NamedAnonymousExample()
    ensures Eval(Raising, Let("f", Fn("x", Add(Var("x"), Num(1))), App(Var("f"), Num(1))), map[], 1) == Ok(IntV(2))
  {
    var fv := Function("x", Add(Var("x"), Num(1)), map[]);
    var env := map["f" := fv];
    Call(Raising, Var("f"), Num(1), env, 1, fv, IntV(1));
    assert Eval(Raising, Var("x"), CallEnv(fv, IntV(1)), 0) == Ok(IntV(1));
  }

  /**
   * Static scoping: the function sees the w of its definition (2), not the
   * w of its call site (3).
   */
  lemma StaticScopeExample()
    ensures Eval(Raising, Let("w", Num(2), Let("f", Fn("v", Add(Var("v"), Var("w"))), Let("w", Num(3), App(Var("f"), Num(1))))), map[], 1)
         == Ok(IntV(3))
  {
    assert "v" != "w" by { assert "v"[0] != "w"[0]; }
    assert "f" != "w" by { assert "f"[0] != "w"[0]; }
    var env1 := map["w" := IntV(2)];
    var fv := Function("v", Add(Var("v"), Var("w")), env1);
    var env3 := env1["f" := fv]["w" := IntV(3)];
    assert Eval(Raising, Var("f"), env3, 1) == Ok(fv);
    Call(Raising, Var("f"), Num(1), env3, 1, fv, IntV(1));
    assert Eval(Raising, Var("v"), CallEnv(fv, IntV(1)), 0) == Ok(IntV(1));
    assert Eval(Raising, Var("w"), CallEnv(fv, IntV(1)), 0) == Ok(IntV(2));
    assert Eval(Raising, App(Var("f"), Num(1)), env3, 1) == Ok(IntV(3));
  }

  /** A variable evaluates to its binding. */
  lemma Bound(d: Dialect, x: string, env: Env, fuel: nat, v: Value)
    requires x in env && env[x] == v
    ensures Eval(d, Var(x), env, fuel) == Ok(v)
  {
  }

  /** A recursive function named `f` doubling its argument, applied to 2. */
  lemma NamedDoubleExample()
    ensures Eval(Exiting, Let("f", Fun("f", "v", Add(Var("v"), Var("v"))), App(Var("f"), Num(2))), map[], 1) == Ok(IntV(4))
  {
    assert "v" != "f" by { assert "v"[0] != "f"[0]; }
    var f0 := RecFunction("f", "v", Add(Var("v"), Var("v")), map[]);
    var env := map["f" := f0];
    Bound(Exiting, "f", env, 1, f0);
    Call(Exiting, Var("f"), Num(2), env, 1, f0, IntV(2));
    Bound(Exiting, "v", CallEnv(f0, IntV(2)), 0, IntV(2));
  }

  /** A recursive function named `f` incrementing its argument, applied to 2. */
  lemma NamedIncrementExample()
    ensures Eval(Raising, Let("f", Fun("f", "v", Add(Var("v"), Num(1))), App(Var("f"), Num(2))), map[], 1) == Ok(IntV(3))
  {
    assert "v" != "f" by { assert "v"[0] != "f"[0]; }
    var f1 := RecFunction("f", "v", Add(Var("v"), Num(1)), map[]);
    var env := map["f" := f1];
    Bound(Raising, "f", env, 1, f1);
    Call(Raising, Var("f"), Num(2), env, 1, f1, IntV(2));
    Bound(Raising, "v", CallEnv(f1, IntV(2)), 0, IntV(2));
  }

  /** The function part of the curried example: a `let` returning the recursive function it binds. */
  lemma CurriedDefinition()
    ensures Eval(Raising, Let("g", Fun("f", "x", Fn("y", Add(Var("y"), Var("x")))), Var("g")), map[], 1)
         == Ok(RecFunction("f", "x", Fn("y", Add(Var("y"), Var("x"))), map[]))
  {
    var g := RecFunction("f", "x", Fn("y", Add(Var("y"), Var("x"))), map[]);
    Bound(Raising, "g", map["g" := g], 1, g);
  }

  /** The innermost body of the curried example: y + x with y = 4 and x = 3. */
  lemma CurriedBody(h: Value)
    requires h == Function("y", Add(Var("y"), Var("x")), CallEnv(RecFunction("f", "x", Fn("y", Add(Var("y"), Var("x"))), map[]), IntV(3)))
    ensures Eval(Raising, h.body, CallEnv(h, IntV(4)), 0) == Ok(IntV(7))
  {
    assert "x" != "y" by { assert "x"[0] != "y"[0]; }
    Bound(Raising, "y", CallEnv(h, IntV(4)), 0, IntV(4));
    Bound(Raising, "x", CallEnv(h, IntV(4)), 0, IntV(3));
  }

  /** A curried recursive function returned from a `let`: (let g = fun f x => fn y => y + x in g) 3 4. */
  lemma CurriedExample()
    ensures Eval(Raising, App(App(Let("g", Fun("f", "x", Fn("y", Add(Var("y"), Var("x")))), Var("g")), Num(3)), Num(4)), map[], 1)
         == Ok(IntV(7))
  {
    var g := RecFunction("f", "x", Fn("y", Add(Var("y"), Var("x"))), map[]);
    var defn := Let("g", Fun("f", "x", Fn("y", Add(Var("y"), Var("x")))), Var("g"));
    CurriedDefinition();
    Call(Raising, defn, Num(3), map[], 1, g, IntV(3));
    var h := Function("y", Add(Var("y"), Var("x")), CallEnv(g, IntV(3)));
    assert Eval(Raising, App(defn, Num(3)), map[], 1) == Ok(h);
    Call(Raising, App(defn, Num(3)), Num(4), map[], 1, h, IntV(4));
    CurriedBody(h);
  }
}
