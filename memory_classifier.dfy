/**
 * The classifier of `let`-bound names that can live in static storage: the
 * names a `let` binds outside every function body. A name bound inside a
 * function body may exist once per call and is not reported.
 */
module MemoryClassifier {
  datatype Exp =
    | Var(identifier: string)
    | Num(num: int)
    | Let(identifier: string, expDef: Exp, expBody: Exp)
    | Fn(formal: string, body: Exp)
    | App(func: Exp, actual: Exp)

  /** `VisitorLocClassifier`: `let` names, found without entering function bodies. */
  function Globals(e: Exp): set<string> {
    match e
    case Var(_) => {}
    case Num(_) => {}
    case Let(x, d, b) => {x} + Globals(d) + Globals(b)
    case Fn(_, _) => {}
    case App(f, a) => Globals(f) + Globals(a)
  }

  /** The sub-expressions of `e` (itself included) that lie outside every function body. */
  function OutsideFunctions(e: Exp): set<Exp> {
    {e} +
    match e
    case Var(_) => {}
    case Num(_) => {}
    case Let(_, d, b) => OutsideFunctions(d) + OutsideFunctions(b)
    case Fn(_, _) => {}
    case App(f, a) => OutsideFunctions(f) + OutsideFunctions(a)
  }

  /** Every name any `let` in `e` binds, function bodies included. */
  function LetNames(e: Exp): set<string> {
    match e
    case Var(_) => {}
    case Num(_) => {}
    case Let(x, d, b) => {x} + LetNames(d) + LetNames(b)
    case Fn(_, b) => LetNames(b)
    case App(f, a) => LetNames(f) + LetNames(a)
  }

  predicate FunctionFree(e: Exp) {
    match e
    case Var(_) => true
    case Num(_) => true
    case Let(_, d, b) => FunctionFree(d) && FunctionFree(b)
    case Fn(_, _) => false
    case App(f, a) => FunctionFree(f) && FunctionFree(a)
  }

  /**
   * The classifier reports exactly the names of the `let` nodes that lie
   * outside every function body: a name is reported iff such a `let` binds it.
   */
  lemma {:induction false} GlobalsAreOutsideLets(e: Exp, x: string)
    ensures x in Globals(e) <==> exists s :: s in OutsideFunctions(e) && s.Let? && s.identifier == x
  {
    match e
    case Var(_) =>
    case Num(_) =>
    case Fn(_, _) =>
    case Let(y, d, b) =>
      GlobalsAreOutsideLets(d, x);
      GlobalsAreOutsideLets(b, x);
      if x == y {
        assert e in OutsideFunctions(e);
      }
    case App(f, a) =>
      GlobalsAreOutsideLets(f, x);
      GlobalsAreOutsideLets(a, x);
  }

  /** Reported names are `let` names, and with no function in the program every `let` name is reported. */
  lemma {:induction false} GlobalsAreLetNames(e: Exp)
    ensures Globals(e) <= LetNames(e)
    ensures FunctionFree(e) ==> Globals(e) == LetNames(e)
  {
    match e
    case Var(_) =>
    case Num(_) =>
    case Fn(_, b) =>
    case Let(_, d, b) =>
      GlobalsAreLetNames(d);
      GlobalsAreLetNames(b);
    case App(f, a) =>
      GlobalsAreLetNames(f);
      GlobalsAreLetNames(a);
  }

  // The documented runs of `VisitorLocClassifier`.

  lemma ClassifierExamples()
    ensures Globals(Var("v0")) == {} && Globals(Num(0)) == {} && Globals(Fn("v0", Var("v0"))) == {}
    ensures Globals(Let("v", Num(0), Var("v"))) == {"v"}
    ensures Globals(Let("v", Fn("w", Var("w")), Fn("w", Var("w")))) == {"v"}
    ensures Globals(App(Fn("w", Var("w")), Var("x"))) == {}
    ensures Globals(App(Let("v", Fn("w", Var("w")), Var("v")), Num(0))) == {"v"}
    ensures Globals(App(Let("v", Fn("w", Var("w")), Var("v")), Let("x", Num(0), Var("x")))) == {"v", "x"}
  {
  }
}
