/**
 * The constant folder over the arithmetic `let` language: every operation
 * whose two optimised operands are numbers is replaced by the number it
 * computes.
 */
module VisitorsOptimize {
  import opened Wrappers
  import opened PyValue
  import Arith
  import opened LetArith

  /**
   * `VisitorOptimize`: both operands are optimised first; when both became
   * numbers the operation is folded, which raises ZeroDivisionError for a
   * division by zero. A `let` is rebuilt from its optimised parts.
   */
  function Optimize(e: Exp): (r: Result<Exp>)
    ensures r.Err? ==> r.error == ZeroDivisionError
  {
    match e
    case Var(_) => Ok(e)
    case Num(_) => Ok(e)
    case Bin(op, l, r) =>
      var l' :- Optimize(l);
      var r' :- Optimize(r);
      if l'.Num? && r'.Num? then
        var n :- Arith.Apply(op, l'.num, r'.num);
        Ok(Num(n))
      else Ok(Bin(op, l', r'))
    case Let(x, d, b) =>
      var d' :- Optimize(d);
      var b' :- Optimize(b);
      Ok(Let(x, d', b'))
  }

  /** Arithmetic on numbers alone: no names and no `let`. */
  predicate Constant(e: Exp) {
    match e
    case Var(_) => false
    case Num(_) => true
    case Bin(_, l, r) => Constant(l) && Constant(r)
    case Let(_, _, _) => false
  }

  /** No operation left with two number operands: nothing more to fold. */
  predicate Folded(e: Exp) {
    match e
    case Var(_) => true
    case Num(_) => true
    case Bin(_, l, r) => Folded(l) && Folded(r) && !(l.Num? && r.Num?)
    case Let(_, d, b) => Folded(d) && Folded(b)
  }

  /**
   * A constant expression optimises to the number it evaluates to, in any
   * environment, or raises the same ZeroDivisionError evaluation raises.
   */
  lemma {:induction false} ConstantsFold(e: Exp, env: map<string, Value>)
    requires Constant(e)
    ensures Eval(e, env).Ok? ==> Eval(e, env).value.IntV? && Optimize(e) == Ok(Num(Eval(e, env).value.i))
    ensures Eval(e, env).Err? ==> Optimize(e) == Err(ZeroDivisionError) && Eval(e, env) == Err(ZeroDivisionError)
  {
    match e
    case Num(_) =>
    case Bin(op, l, r) =>
      ConstantsFold(l, env);
      ConstantsFold(r, env);
  }

  /**
   * Optimisation preserves meaning: whenever the optimiser returns a tree,
   * that tree evaluates exactly as the original does in every environment,
   * errors included.
   */
  lemma {:induction false} OptimizeSound(e: Exp, env: map<string, Value>)
    requires Optimize(e).Ok?
    ensures Eval(Optimize(e).value, env) == Eval(e, env)
  {
    match e
    case Var(_) =>
    case Num(_) =>
    case Bin(op, l, r) =>
      OptimizeSound(l, env);
      OptimizeSound(r, env);
    case Let(x, d, b) =>
      OptimizeSound(d, env);
      var v := Eval(d, env);
      if v.Ok? {
        OptimizeSound(b, env[x := v.value]);
      }
  }

  /**
   * The optimiser raises only on programs whose evaluation fails anyway, in
   * every environment: every part of a program is evaluated, so the folded
   * division by zero is reached unless an earlier error stops evaluation.
   */
  lemma {:induction false} OptimizeFailsOnlyOnFailingPrograms(e: Exp, env: map<string, Value>)
    requires Optimize(e).Err?
    ensures Optimize(e).error == ZeroDivisionError
    ensures Eval(e, env).Err?
  {
    match e
    case Var(_) =>
    case Num(_) =>
    case Bin(op, l, r) =>
      if Optimize(l).Err? {
        OptimizeFailsOnlyOnFailingPrograms(l, env);
      } else if Optimize(r).Err? {
        OptimizeFailsOnlyOnFailingPrograms(r, env);
        OptimizeSound(l, env);
      } else {
        OptimizeSound(l, env);
        OptimizeSound(r, env);
      }
    case Let(x, d, b) =>
      if Optimize(d).Err? {
        OptimizeFailsOnlyOnFailingPrograms(d, env);
      } else {
        var v := Eval(d, env);
        if v.Ok? {
          OptimizeFailsOnlyOnFailingPrograms(b, env[x := v.value]);
        } else {
          OptimizeFailsOnlyOnFailingPrograms(b, env);
        }
      }
  }

  /** The optimiser's output has nothing left to fold, so optimising again changes nothing. */
  lemma {:induction false} OptimizeIdempotent(e: Exp)
    requires Optimize(e).Ok?
    ensures Folded(Optimize(e).value)
    ensures Optimize(Optimize(e).value) == Optimize(e)
  {
    match e
    case Var(_) =>
    case Num(_) =>
    case Bin(op, l, r) =>
      OptimizeIdempotent(l);
      OptimizeIdempotent(r);
      FoldedIsFixpoint(Optimize(e).value);
    case Let(x, d, b) =>
      OptimizeIdempotent(d);
      OptimizeIdempotent(b);
  }

  /** A tree with nothing to fold is returned unchanged. */
  lemma {:induction false} FoldedIsFixpoint(e: Exp)
    requires Folded(e)
    ensures Optimize(e) == Ok(e)
  {
    match e
    case Var(_) =>
    case Num(_) =>
    case Bin(op, l, r) =>
      FoldedIsFixpoint(l);
      FoldedIsFixpoint(r);
    case Let(x, d, b) =>
      FoldedIsFixpoint(d);
      FoldedIsFixpoint(b);
  }

  // The documented runs.

  /** The folded examples print as documented. */
  lemma StrOptimizedExamples()
    ensures Str(Num(42)) == "42"
    ensures Str(Let("v", Num(2), Bin(Arith.AddOp, Num(40), Var("v")))) == "let v = 2 in (40 + v) end"
  {
    ExampleNumerals();
    assert Str(Bin(Arith.AddOp, Num(40), Var("v"))) == "(40 + v)";
  }

  lemma OptimizeExamples()
    ensures Optimize(Bin(Arith.AddOp, Num(40), Num(2))) == Ok(Num(42))
    ensures Optimize(Let("v", Bin(Arith.AddOp, Num(1), Num(1)), Bin(Arith.AddOp, Num(40), Var("v"))))
         == Ok(Let("v", Num(2), Bin(Arith.AddOp, Num(40), Var("v"))))
    ensures Optimize(Bin(Arith.DivOp, Var("x"), Bin(Arith.DivOp, Num(1), Num(0)))) == Err(ZeroDivisionError)
  {
  }
}
