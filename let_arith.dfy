/**
 * A `let` language of integer arithmetic, as several exercises define it:
 * names, numbers, `+ - * /` (floor division) and `let v = d in b end`. Its
 * evaluator, printer and size function; environments may hold any Python
 * int or bool, which arithmetic treats as 0 and 1.
 */
module LetArith {
  import opened Wrappers
  import opened PyValue
  import Decimal
  import Arith

  datatype Exp =
    | Var(identifier: string)
    | Num(num: int)
    | Bin(op: Arith.Op, left: Exp, right: Exp)
    | Let(identifier: string, expDef: Exp, expBody: Exp)

  /** `str(e)`: binary nodes fully parenthesised, `let v = d in b end`. */
  function Str(e: Exp): string {
    match e
    case Var(x) => x
    case Num(n) => Decimal.IntToString(n)
    case Bin(op, l, r) => "(" + Str(l) + " " + Arith.Symbol(op) + " " + Str(r) + ")"
    case Let(x, d, b) => "let " + x + " = " + Str(d) + " in " + Str(b) + " end"
  }

  /**
   * `to_str(e)`: the same printer written as one function over the node
   * classes, except that a `let` prints its body with `str`.
   */
  function ToStr(e: Exp): string {
    match e
    case Var(x) => x
    case Num(n) => Decimal.IntToString(n)
    case Bin(op, l, r) => "(" + ToStr(l) + " " + Arith.Symbol(op) + " " + ToStr(r) + ")"
    case Let(x, d, b) => "let " + x + " = " + ToStr(d) + " in " + Str(b) + " end"
  }

  /** `to_str(e) == str(e)` on every tree. */
  lemma {:induction false} ToStrIsStr(e: Exp)
    ensures ToStr(e) == Str(e)
  {
    match e
    case Var(_) =>
    case Num(_) =>
    case Bin(_, l, r) =>
      ToStrIsStr(l);
      ToStrIsStr(r);
    case Let(_, d, _) =>
      ToStrIsStr(d);
  }

  /** `e.size()`: one per name, number and operator, two per `let`. */
  function Size(e: Exp): nat {
    match e
    case Var(_) => 1
    case Num(_) => 1
    case Bin(_, l, r) => 1 + Size(l) + Size(r)
    case Let(_, d, b) => 2 + Size(d) + Size(b)
  }

  /** The names and numbers of `e`, left to right. */
  function Leaves(e: Exp): seq<Exp> {
    match e
    case Var(_) => [e]
    case Num(_) => [e]
    case Bin(_, l, r) => Leaves(l) + Leaves(r)
    case Let(_, d, b) => Leaves(d) + Leaves(b)
  }

  function LetCount(e: Exp): nat {
    match e
    case Var(_) => 0
    case Num(_) => 0
    case Bin(_, l, r) => LetCount(l) + LetCount(r)
    case Let(_, d, b) => 1 + LetCount(d) + LetCount(b)
  }

  /**
   * Every operator and `let` joins two subtrees, so a tree with k leaves has
   * k - 1 of them: the size is 2k - 1 plus one more per `let`.
   */
  lemma {:induction false} SizeFromLeaves(e: Exp)
    ensures Size(e) == 2 * |Leaves(e)| - 1 + LetCount(e)
  {
    match e
    case Var(_) =>
    case Num(_) =>
    case Bin(_, l, r) =>
      SizeFromLeaves(l);
      SizeFromLeaves(r);
    case Let(_, d, b) =>
      SizeFromLeaves(d);
      SizeFromLeaves(b);
  }

  /**
   * `e.eval(env)`: a name reads the environment and exits when unbound;
   * `let` evaluates its body in an extended copy of the environment.
   */
  function Eval(e: Exp, env: map<string, Value>): (r: Result<Value>)
    ensures r.Err? ==> r.error == ZeroDivisionError || r.error.SystemExit?
  {
    match e
    case Var(x) => if x in env then Ok(env[x]) else Err(SystemExit("Variavel inexistente " + x))
    case Num(n) => Ok(IntV(n))
    case Bin(op, l, r) =>
      var a :- Eval(l, env);
      var b :- Eval(r, env);
      var n :- Arith.Apply(op, AsInt(a), AsInt(b));
      Ok(IntV(n))
    case Let(x, d, b) =>
      var v :- Eval(d, env);
      Eval(b, env[x := v])
  }

  /** Arithmetic is Python's: the operators agree with `+ - * //` on ints and bools. */
  lemma EvalBinIsPython(op: Arith.Op, a: Value, b: Value)
    ensures var r := Eval(Bin(op, Var("a"), Var("b")), map["a" := a, "b" := b]);
      && (op == Arith.AddOp ==> r == Ok(PyAdd(a, b)))
      && (op == Arith.SubOp ==> r == Ok(PySub(a, b)))
      && (op == Arith.MulOp ==> r == Ok(PyMul(a, b)))
      && (op == Arith.DivOp ==> r == PyFloorDiv(a, b))
  {
    assert "a" != "b" by { assert "a"[0] != "b"[0]; }
  }

  /** Only a name can produce a bool: a number, an operation or a `let` of those gives an int. */
  lemma {:induction false} EvalIntsStayInts(e: Exp, env: map<string, Value>)
    requires forall x :: x in env ==> env[x].IntV?
    ensures Eval(e, env).Ok? ==> Eval(e, env).value.IntV?
  {
    match e
    case Var(_) =>
    case Num(_) =>
    case Bin(_, _, _) =>
    case Let(x, d, b) =>
      EvalIntsStayInts(d, env);
      if Eval(d, env).Ok? {
        EvalIntsStayInts(b, env[x := Eval(d, env).value]);
      }
  }

  /** The names `e` reads before binding them. */
  function FreeVars(e: Exp): set<string> {
    match e
    case Var(x) => {x}
    case Num(_) => {}
    case Bin(_, l, r) => FreeVars(l) + FreeVars(r)
    case Let(x, d, b) => FreeVars(d) + (FreeVars(b) - {x})
  }

  /**
   * A `let` extends a copy of the environment, so evaluation depends on
   * nothing but the values of the free names: two environments that agree
   * on them give the same outcome, errors included, and what the caller's
   * environment holds for other names, or for a name a `let` rebinds,
   * cannot matter.
   */
  lemma {:induction false} EvalReadsOnlyFreeVars(e: Exp, env1: map<string, Value>, env2: map<string, Value>)
    requires forall x :: x in FreeVars(e) ==> (x in env1 <==> x in env2)
    requires forall x :: x in FreeVars(e) && x in env1 ==> env1[x] == env2[x]
    ensures Eval(e, env1) == Eval(e, env2)
  {
    match e
    case Var(_) =>
    case Num(_) =>
    case Bin(_, l, r) =>
      EvalReadsOnlyFreeVars(l, env1, env2);
      EvalReadsOnlyFreeVars(r, env1, env2);
    case Let(x, d, b) =>
      EvalReadsOnlyFreeVars(d, env1, env2);
      if Eval(d, env1).Ok? {
        var v := Eval(d, env1).value;
        EvalReadsOnlyFreeVars(b, env1[x := v], env2[x := v]);
      }
  }

  // The documented runs.

  /** The decimal text of the small numbers the examples print. */
  lemma ExampleNumerals()
    ensures Decimal.IntToString(2) == "2" && Decimal.IntToString(40) == "40" && Decimal.IntToString(42) == "42"
  {
    Decimal.SmallNatToString(2);
    Decimal.SmallNatToString(40);
    Decimal.SmallNatToString(42);
  }

  lemma StrLetExample()
    ensures Str(Let("v", Num(42), Var("v"))) == "let v = 42 in v end"
  {
    ExampleNumerals();
  }

  /** `str` of a node, from the texts of its children. */
  lemma StrNode(op: Arith.Op, x: string, l: Exp, r: Exp, ls: string, rs: string)
    requires Str(l) == ls && Str(r) == rs
    ensures Str(Bin(op, l, r)) == "(" + ls + " " + Arith.Symbol(op) + " " + rs + ")"
    ensures Str(Let(x, l, r)) == "let " + x + " = " + ls + " in " + rs + " end"
  {
  }

  lemma StrInnerLetExample()
    ensures Str(Let("w", Num(2), Bin(Arith.AddOp, Var("v"), Var("w")))) == "let w = 2 in (v + w) end"
  {
    ExampleNumerals();
    StrNode(Arith.AddOp, "w", Var("v"), Var("w"), "v", "w");
    StrNode(Arith.AddOp, "w", Num(2), Bin(Arith.AddOp, Var("v"), Var("w")), "2", "(" + "v" + " " + "+" + " " + "w" + ")");
    InnerLetText();
  }

  lemma StrNestedLetExample()
    ensures Str(Let("v", Num(40), Let("w", Num(2), Bin(Arith.AddOp, Var("v"), Var("w")))))
         == "let v = 40 in let w = 2 in (v + w) end end"
  {
    ExampleNumerals();
    StrInnerLetExample();
    StrNode(Arith.AddOp, "v", Num(40), Let("w", Num(2), Bin(Arith.AddOp, Var("v"), Var("w"))), "40", "let w = 2 in (v + w) end");
    NestedLetText();
  }

  lemma StrSquareExample()
    ensures Str(Let("v", Bin(Arith.AddOp, Num(40), Num(2)), Bin(Arith.MulOp, Var("v"), Var("v"))))
         == "let v = (40 + 2) in (v * v) end"
  {
    ExampleNumerals();
    StrNode(Arith.AddOp, "v", Num(40), Num(2), "40", "2");
    StrNode(Arith.MulOp, "v", Var("v"), Var("v"), "v", "v");
    StrNode(Arith.AddOp, "v", Bin(Arith.AddOp, Num(40), Num(2)), Bin(Arith.MulOp, Var("v"), Var("v")), "(40 + 2)", "(v * v)");
    SumText();
    SquareText();
    SquareLetText();
  }

  // The documented texts, put together from their parts.

  lemma InnerLetText()
    ensures "let " + "w" + " = " + "2" + " in " + ("(" + "v" + " " + "+" + " " + "w" + ")") + " end" == "let w = 2 in (v + w) end"
  {
  }

  lemma NestedLetText()
    ensures "let " + "v" + " = " + "40" + " in " + "let w = 2 in (v + w) end" + " end" == "let v = 40 in let w = 2 in (v + w) end end"
  {
  }

  lemma SumText()
    ensures "(" + "40" + " " + "+" + " " + "2" + ")" == "(40 + 2)"
  {
  }

  lemma SquareText()
    ensures "(" + "v" + " " + "*" + " " + "v" + ")" == "(v * v)"
  {
  }

  lemma SquareLetText()
    ensures "let " + "v" + " = " + "(40 + 2)" + " in " + "(v * v)" + " end" == "let v = (40 + 2) in (v * v) end"
  {
  }

  lemma SizeExamples()
    ensures Size(Var("var")) == 1 && Size(Num(3)) == 1 && Size(Bin(Arith.AddOp, Var("x"), Num(2))) == 3
    ensures Size(Let("v", Num(42), Var("v"))) == 4
    ensures Size(Let("v", Num(40), Let("w", Num(2), Bin(Arith.AddOp, Var("v"), Var("w"))))) == 9
    ensures Size(Let("v", Bin(Arith.AddOp, Num(40), Num(2)), Bin(Arith.MulOp, Var("v"), Var("v")))) == 8
  {
  }

  lemma EvalOperatorExamples()
    ensures Eval(Var("var"), map["var" := IntV(42)]) == Ok(IntV(42))
    ensures Eval(Var("v42"), map["v42" := BoolV(true), "v31" := IntV(5)]) == Ok(BoolV(true))
    ensures Eval(Bin(Arith.AddOp, Num(3), Num(4)), map[]) == Ok(IntV(7))
    ensures Eval(Bin(Arith.SubOp, Num(3), Num(4)), map[]) == Ok(IntV(-1))
    ensures Eval(Bin(Arith.MulOp, Num(3), Num(4)), map[]) == Ok(IntV(12))
    ensures Eval(Bin(Arith.DivOp, Num(28), Num(4)), map[]) == Ok(IntV(7))
    ensures Eval(Bin(Arith.DivOp, Num(22), Num(4)), map[]) == Ok(IntV(5))
  {
    assert "v42" != "v31" by { assert "v42"[1] != "v31"[1]; }
  }

  lemma EvalLetExamples()
    ensures Eval(Let("v", Num(42), Var("v")), map[]) == Ok(IntV(42))
    ensures Eval(Let("v", Num(40), Let("w", Num(2), Bin(Arith.AddOp, Var("v"), Var("w")))), map[]) == Ok(IntV(42))
    ensures Eval(Let("v", Bin(Arith.AddOp, Num(40), Num(2)), Bin(Arith.MulOp, Var("v"), Var("v"))), map[]) == Ok(IntV(1764))
  {
    assert "v" != "w" by { assert "v"[0] != "w"[0]; }
    assert Eval(Bin(Arith.AddOp, Var("v"), Var("w")), map["v" := IntV(40), "w" := IntV(2)]) == Ok(IntV(42));
    assert Eval(Bin(Arith.MulOp, Var("v"), Var("v")), map["v" := IntV(42)]) == Ok(IntV(1764));
  }

  /** The runs of the environment-based evaluator that read names. */
  lemma EvalEnvExamples()
    ensures Eval(Bin(Arith.AddOp, Var("some_var"), Bin(Arith.AddOp, Num(3), Num(4))), map["some_var" := IntV(5)]) == Ok(IntV(12))
    ensures Eval(Bin(Arith.SubOp, Var("x"), Var("y")), map["x" := IntV(23), "y" := IntV(13)]) == Ok(IntV(10))
    ensures Eval(Bin(Arith.MulOp, Var("y"), Bin(Arith.AddOp, Num(2), Var("x"))), map["x" := IntV(5), "y" := IntV(7)]) == Ok(IntV(49))
    ensures Eval(Bin(Arith.DivOp, Bin(Arith.SubOp, Var("x"), Num(10)), Bin(Arith.SubOp, Var("x"), Var("y"))),
                 map["x" := IntV(0), "y" := IntV(5)]) == Ok(IntV(2))
  {
    assert "x" != "y" by { assert "x"[0] != "y"[0]; }
  }

  lemma StrOperatorExamples()
    ensures Str(Var("var")) == "var" && Str(Num(3)) == "3"
    ensures Str(Bin(Arith.AddOp, Num(3), Num(4))) == "(3 + 4)"
    ensures Str(Bin(Arith.SubOp, Num(3), Num(4))) == "(3 - 4)"
    ensures Str(Bin(Arith.MulOp, Num(3), Num(4))) == "(3 * 4)"
    ensures Str(Bin(Arith.DivOp, Num(28), Num(4))) == "(28 / 4)"
  {
    Decimal.SmallNatToString(28);
  }
}
