/**
 * Variable binding with comparisons and unary operators: numbers, booleans,
 * names, `==`, `<=`, `<`, the four arithmetic operators, negation, `not` and
 * `let`. Values are Python's, so a comparison or an arithmetic operation
 * accepts booleans as the integers 1 and 0.
 */
module VarBinding {
  import opened Wrappers
  import opened PyValue
  import Arith
  import LetArith

  datatype Cmp = EqlOp | LeqOp | LthOp

  datatype Exp =
    | Var(identifier: string)
    | Bln(bln: bool)
    | Num(num: int)
    | Compare(cmp: Cmp, left: Exp, right: Exp)
    | Bin(op: Arith.Op, left: Exp, right: Exp)
    | Neg(exp: Exp)
    | Not(exp: Exp)
    | Let(identifier: string, expDef: Exp, expBody: Exp)

  /** `a == b`, `a <= b`, `a < b` on Python ints and bools. */
  function Comparison(cmp: Cmp, a: Value, b: Value): (r: bool)
    ensures cmp == EqlOp ==> (r <==> AsInt(a) == AsInt(b))
    ensures cmp == LeqOp ==> (r <==> AsInt(a) <= AsInt(b))
    ensures cmp == LthOp ==> (r <==> AsInt(a) < AsInt(b))
  {
    match cmp
    case EqlOp => AsInt(a) == AsInt(b)
    case LeqOp => AsInt(a) <= AsInt(b)
    case LthOp => AsInt(a) < AsInt(b)
  }

  /**
   * `e.eval(env)`: both operands are evaluated left to right; a name missing
   * from the environment exits; `let` evaluates its body in an extended copy.
   */
  function Eval(e: Exp, env: map<string, Value>): (r: Result<Value>)
    ensures r.Err? ==> r.error == ZeroDivisionError || r.error.SystemExit?
  {
    match e
    case Var(x) => if x in env then Ok(env[x]) else Err(SystemExit("Variavel inexistente " + x))
    case Bln(b) => Ok(BoolV(b))
    case Num(n) => Ok(IntV(n))
    case Compare(cmp, l, r) =>
      var a :- Eval(l, env);
      var b :- Eval(r, env);
      Ok(BoolV(Comparison(cmp, a, b)))
    case Bin(op, l, r) =>
      var a :- Eval(l, env);
      var b :- Eval(r, env);
      var n :- Arith.Apply(op, AsInt(a), AsInt(b));
      Ok(IntV(n))
    case Neg(x) =>
      var v :- Eval(x, env);
      Ok(IntV(-AsInt(v)))
    case Not(x) =>
      var v :- Eval(x, env);
      Ok(BoolV(!Truthy(v)))
    case Let(x, d, b) =>
      var v :- Eval(d, env);
      Eval(b, env[x := v])
  }

  /**
   * The comparisons are consistent with each other: `a <= b` holds exactly
   * when `a < b` or `a == b` does, and `a < b` excludes `a == b`.
   */
  lemma ComparisonsAgree(l: Exp, r: Exp, env: map<string, Value>)
    ensures Eval(Compare(LeqOp, l, r), env).Ok? <==> Eval(Compare(LthOp, l, r), env).Ok?
    ensures Eval(Compare(LeqOp, l, r), env).Ok? ==>
      (Eval(Compare(LeqOp, l, r), env).value.b <==>
         Eval(Compare(LthOp, l, r), env).value.b || Eval(Compare(EqlOp, l, r), env).value.b)
    ensures Eval(Compare(LthOp, l, r), env).Ok? && Eval(Compare(LthOp, l, r), env).value.b ==>
      !Eval(Compare(EqlOp, l, r), env).value.b
  {
  }

  /** Negating twice gives back the integer value; `not` twice gives back the truth value. */
  lemma DoubleNegation(e: Exp, env: map<string, Value>)
    ensures Eval(Neg(Neg(e)), env).Ok? <==> Eval(e, env).Ok?
    ensures Eval(e, env).Ok? ==> Eval(Neg(Neg(e)), env) == Ok(IntV(AsInt(Eval(e, env).value)))
    ensures Eval(e, env).Ok? ==> Eval(Not(Not(e)), env) == Ok(BoolV(Truthy(Eval(e, env).value)))
  {
    var r := Eval(e, env);
    if r.Ok? {
      assert Eval(Neg(e), env) == Ok(IntV(-AsInt(r.value)));
      assert Eval(Not(e), env) == Ok(BoolV(!Truthy(r.value)));
    } else {
      assert Eval(Neg(e), env) == Err(r.error);
    }
  }

  /** The arithmetic `let` language, as a part of this one. */
  function Embed(e: LetArith.Exp): (r: Exp)
    ensures e.Var? <==> r.Var?
    ensures e.Let? <==> r.Let?
  {
    match e
    case Var(x) => Var(x)
    case Num(n) => Num(n)
    case Bin(op, l, r) => Bin(op, Embed(l), Embed(r))
    case Let(x, d, b) => Let(x, Embed(d), Embed(b))
  }

  /**
   * On the arithmetic `let` programs both evaluators agree, in every
   * environment and on every outcome: the comparisons and unary operators
   * extend the language without changing what it already had.
   */
  lemma {:induction false} EmbedAgrees(e: LetArith.Exp, env: map<string, Value>)
    ensures Eval(Embed(e), env) == LetArith.Eval(e, env)
  {
    match e
    case Var(_) =>
    case Num(_) =>
    case Bin(_, l, r) =>
      EmbedAgrees(l, env);
      EmbedAgrees(r, env);
    case Let(x, d, b) =>
      EmbedAgrees(d, env);
      if LetArith.Eval(d, env).Ok? {
        EmbedAgrees(b, env[x := LetArith.Eval(d, env).value]);
      }
  }

  // The documented runs.

  lemma CompareExamples()
    ensures Eval(Compare(EqlOp, Num(3), Num(4)), map[]) == Ok(BoolV(false))
    ensures Eval(Compare(EqlOp, Num(3), Num(3)), map[]) == Ok(BoolV(true))
    ensures Eval(Compare(LeqOp, Num(3), Num(4)), map[]) == Ok(BoolV(true))
    ensures Eval(Compare(LeqOp, Num(3), Num(3)), map[]) == Ok(BoolV(true))
    ensures Eval(Compare(LeqOp, Num(4), Num(3)), map[]) == Ok(BoolV(false))
    ensures Eval(Compare(LthOp, Num(3), Num(4)), map[]) == Ok(BoolV(true))
    ensures Eval(Compare(LthOp, Num(3), Num(3)), map[]) == Ok(BoolV(false))
    ensures Eval(Compare(LthOp, Num(4), Num(3)), map[]) == Ok(BoolV(false))
  {
  }

  lemma OperatorExamples()
    ensures Eval(Var("var"), map["var" := IntV(42)]) == Ok(IntV(42))
    ensures Eval(Bln(true), map[]) == Ok(BoolV(true))
    ensures Eval(Bin(Arith.AddOp, Num(3), Num(4)), map[]) == Ok(IntV(7))
    ensures Eval(Bin(Arith.SubOp, Num(3), Num(4)), map[]) == Ok(IntV(-1))
    ensures Eval(Bin(Arith.MulOp, Num(3), Num(4)), map[]) == Ok(IntV(12))
    ensures Eval(Bin(Arith.DivOp, Num(28), Num(4)), map[]) == Ok(IntV(7))
    ensures Eval(Bin(Arith.DivOp, Num(22), Num(4)), map[]) == Ok(IntV(5))
    ensures Eval(Neg(Num(3)), map[]) == Ok(IntV(-3))
    ensures Eval(Neg(Num(0)), map[]) == Ok(IntV(0))
    ensures Eval(Not(Bln(true)), map[]) == Ok(BoolV(false))
    ensures Eval(Not(Bln(false)), map[]) == Ok(BoolV(true))
  {
  }

  lemma LetExamples()
    ensures Eval(Let("v", Num(42), Var("v")), map[]) == Ok(IntV(42))
    ensures Eval(Let("v", Num(40), Let("w", Num(2), Bin(Arith.AddOp, Var("v"), Var("w")))), map[]) == Ok(IntV(42))
    ensures Eval(Let("v", Bin(Arith.AddOp, Num(40), Num(2)), Bin(Arith.MulOp, Var("v"), Var("v"))), map[]) == Ok(IntV(1764))
  {
    assert "v" != "w" by { assert "v"[0] != "w"[0]; }
    assert Eval(Bin(Arith.AddOp, Var("v"), Var("w")), map["v" := IntV(40), "w" := IntV(2)]) == Ok(IntV(42));
    assert Eval(Bin(Arith.MulOp, Var("v"), Var("v")), map["v" := IntV(42)]) == Ok(IntV(1764));
  }
}
