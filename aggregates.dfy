/**
 * A language with addresses: `let` gives each binding a fresh memory
 * location, `&x` is the location of x, `!e` reads a location and `t := v`
 * writes one. The evaluator is an object whose fields are the variable
 * context, the store and the next free location, all updated in place.
 */
module Aggregates {
  import opened Wrappers
  import Decimal

  datatype Exp =
    | Var(name: string)
    | Num(num: int)
    | Let(name: string, expDef: Exp, expBody: Exp)
    | Assign(expTarget: Exp, expValue: Exp)
    | AddressOf(name: string)
    | Dereference(exp: Exp)
    | Add(expLeft: Exp, expRight: Exp)

  /** The evaluator's fields: names to locations, locations to values, and the next location. */
  datatype State = State(context: map<string, int>, store: map<int, int>, nextLocation: int)

  /**
   * Every bound name has a location below the next fresh one, and that
   * location holds a value.
   */
  predicate WellFormed(s: State) {
    forall x :: x in s.context ==> s.context[x] < s.nextLocation && s.context[x] in s.store
  }

  /** The fields once a `let` has bound `x` to a fresh location holding `v`. */
  function Bind(s: State, x: string, v: int): State {
    State(s.context[x := s.nextLocation], s.store[s.nextLocation := v], s.nextLocation + 1)
  }

  /**
   * What one visit does: the result and the fields afterwards. Sub-expressions
   * run left to right, each in the state the previous one left; an exception
   * leaves the fields as they were when it was raised.
   */
  function EvalFrom(e: Exp, s: State): (r: (Result<int>, State))
    ensures s.nextLocation <= r.1.nextLocation
    ensures s.context.Keys <= r.1.context.Keys && s.store.Keys <= r.1.store.Keys
  {
    match e
    case Var(x) =>
      if x !in s.context then (Err(ValueError("Variable '" + x + "' not found")), s)
      else if s.context[x] !in s.store then (Err(KeyError(Decimal.IntToString(s.context[x]))), s)
      else (Ok(s.store[s.context[x]]), s)
    case Num(n) => (Ok(n), s)
    case Let(x, d, b) =>
      var (v, s1) := EvalFrom(d, s);
      if v.Err? then (v, s1)
      else
        EvalFrom(b, Bind(s1, x, v.value))
    case Assign(t, v) =>
      var (loc, s1) := EvalFrom(t, s);
      if loc.Err? then (loc, s1)
      else
        var (value, s2) := EvalFrom(v, s1);
        if value.Err? then (value, s2)
        else (value, s2.(store := s2.store[loc.value := value.value]))
    case AddressOf(x) =>
      if x in s.context then (Ok(s.context[x]), s) else (Err(KeyError(x)), s)
    case Dereference(p) =>
      var (loc, s1) := EvalFrom(p, s);
      if loc.Err? then (loc, s1)
      else if loc.value in s1.store then (Ok(s1.store[loc.value]), s1)
      else (Err(ValueError("Location " + Decimal.IntToString(loc.value) + " not initialized")), s1)
    case Add(l, r) =>
      var (lv, s1) := EvalFrom(l, s);
      if lv.Err? then (lv, s1)
      else
        var (rv, s2) := EvalFrom(r, s1);
        if rv.Err? then (rv, s2) else (Ok(lv.value + rv.value), s2)
  }

  /**
   * Locations are never reused: the counter only grows, and a well-formed
   * state stays well-formed, so every bound name keeps a location that holds
   * a value.
   */
  lemma {:induction false} EvalKeepsWellFormed(e: Exp, s: State)
    requires WellFormed(s)
    ensures WellFormed(EvalFrom(e, s).1)
    ensures EvalFrom(e, s).1.nextLocation >= s.nextLocation
  {
    match e
    case Var(_) =>
    case Num(_) =>
    case AddressOf(_) =>
    case Let(x, d, b) =>
      EvalKeepsWellFormed(d, s);
      var (v, s1) := EvalFrom(d, s);
      if v.Ok? {
        EvalKeepsWellFormed(b, Bind(s1, x, v.value));
      }
    case Assign(t, v) =>
      EvalKeepsWellFormed(t, s);
      var s1 := EvalFrom(t, s).1;
      EvalKeepsWellFormed(v, s1);
    case Dereference(p) =>
      EvalKeepsWellFormed(p, s);
    case Add(l, r) =>
      EvalKeepsWellFormed(l, s);
      EvalKeepsWellFormed(r, EvalFrom(l, s).1);
  }

  /** In a well-formed state a bound name is always readable: `x` fails only when x is unbound. */
  lemma BoundNamesReadable(x: string, s: State)
    requires WellFormed(s)
    ensures EvalFrom(Var(x), s).0.Ok? <==> x in s.context
    ensures x in s.context ==> EvalFrom(Dereference(AddressOf(x)), s) == EvalFrom(Var(x), s)
  {
  }

  /** A `let` binds its name to the next location, different from every location already bound. */
  lemma LetTakesFreshLocation(x: string, n: int, b: Exp, s: State)
    requires WellFormed(s)
    ensures EvalFrom(Let(x, Num(n), b), s) == EvalFrom(b, Bind(s, x, n))
    ensures Bind(s, x, n).context[x] == s.nextLocation && Bind(s, x, n).store[s.nextLocation] == n
    ensures forall y :: y in s.context ==> s.context[y] != s.nextLocation
  {
    assert EvalFrom(Num(n), s) == (Ok(n), s);
  }

  /**
   * The binding a `let` makes is not undone when the `let` ends: its name
   * stays bound to the new location.
   */
  lemma LetLeavesBinding(x: string, n: int, m: int, s: State)
    ensures EvalFrom(Let(x, Num(n), Num(m)), s) == (Ok(m), Bind(s, x, n))
    ensures Bind(s, x, n).context[x] == s.nextLocation && Bind(s, x, n).store[s.nextLocation] == n
  {
    assert EvalFrom(Num(n), s) == (Ok(n), s);
  }

  /** An assignment to a constant location writes that location and nothing else. */
  lemma AssignWritesOnlyTarget(loc: int, n: int, s: State)
    ensures EvalFrom(Assign(Num(loc), Num(n)), s) == (Ok(n), s.(store := s.store[loc := n]))
    ensures forall l :: l in s.store && l != loc ==> EvalFrom(Assign(Num(loc), Num(n)), s).1.store[l] == s.store[l]
  {
  }

  /** Reading a location nothing has written raises ValueError. */
  lemma DereferenceUninitialised(loc: int, s: State)
    requires loc !in s.store
    ensures EvalFrom(Dereference(Num(loc)), s) == (Err(ValueError("Location " + Decimal.IntToString(loc) + " not initialized")), s)
  {
  }

  class EvalVisitor {
    /** The variable context: names to locations. */
    var context: map<string, int>
    /** The memory store: locations to values. */
    var store: map<int, int>
    /** The next fresh location. */
    var nextLocation: int

    constructor()
      ensures context == map[] && store == map[] && nextLocation == 0
      ensures WellFormed(Fields())
    {
      context := map[];
      store := map[];
      nextLocation := 0;
    }

    function Fields(): State
      reads this
    {
      State(context, store, nextLocation)
    }

    /** `fresh_location`: the current counter, which is then incremented. */
    method FreshLocation() returns (loc: int)
      modifies this
      ensures loc == old(nextLocation) && nextLocation == loc + 1
      ensures context == old(context) && store == old(store)
    {
      loc := nextLocation;
      nextLocation := nextLocation + 1;
    }

    /** `e.accept(visitor, arg)`: evaluates `e`, updating the fields as it goes. */
    method Accept(e: Exp) returns (r: Result<int>)
      modifies this
      ensures (r, Fields()) == EvalFrom(e, old(Fields()))
      decreases e
    {
      match e
      case Var(x) =>
        if x !in context {
          return Err(ValueError("Variable '" + x + "' not found"));
        }
        var loc := context[x];
        if loc !in store {
          return Err(KeyError(Decimal.IntToString(loc)));
        }
        r := Ok(store[loc]);
      case Num(n) =>
        r := Ok(n);
      case Let(x, d, b) =>
        var value := Accept(d);
        if value.Err? {
          return value;
        }
        var loc := FreshLocation();
        context := context[x := loc];
        store := store[loc := value.value];
        r := Accept(b);
      case Assign(t, v) =>
        var loc := Accept(t);
        if loc.Err? {
          return loc;
        }
        var value := Accept(v);
        if value.Err? {
          return value;
        }
        store := store[loc.value := value.value];
        r := value;
      case AddressOf(x) =>
        if x in context {
          r := Ok(context[x]);
        } else {
          r := Err(KeyError(x));
        }
      case Dereference(p) =>
        var loc := Accept(p);
        if loc.Err? {
          return loc;
        }
        if loc.value in store {
          r := Ok(store[loc.value]);
        } else {
          r := Err(ValueError("Location " + Decimal.IntToString(loc.value) + " not initialized"));
        }
      case Add(l, rt) =>
        var lv := Accept(l);
        if lv.Err? {
          return lv;
        }
        var rv := Accept(rt);
        if rv.Err? {
          return rv;
        }
        r := Ok(lv.value + rv.value);
    }
  }

  /** A fresh evaluator on `e`: the result `EvalFrom` gives from empty fields. */
  method Evaluate(e: Exp) returns (r: Result<int>)
    ensures r == EvalFrom(e, State(map[], map[], 0)).0
  {
    var v := new EvalVisitor();
    r := v.Accept(e);
  }

  // The documented runs of `EvalVisitor`, from a fresh visitor.

  function Fresh(): State {
    State(map[], map[], 0)
  }

  lemma LetExamples()
    ensures EvalFrom(Let("x", Num(10), Var("x")), Fresh()).0 == Ok(10)
    ensures EvalFrom(Let("x", Num(42), AddressOf("x")), Fresh()).0 == Ok(0)
    ensures EvalFrom(Dereference(Let("x", Num(42), AddressOf("x"))), Fresh()).0 == Ok(42)
    ensures EvalFrom(Let("x", Num(1), Assign(Var("x"), Num(2))), Fresh()).0 == Ok(2)
  {
  }

  /** let x = 1 in let y = 2 in &x := y end + x end: the assignment through &x changes x. */
  lemma AssignThroughAddressExample()
    ensures EvalFrom(Let("x", Num(1), Add(Let("y", Num(2), Assign(AddressOf("x"), Var("y"))), Var("x"))), Fresh()).0 == Ok(4)
  {
    assert "x" != "y" by { assert "x"[0] != "y"[0]; }
    var s1 := State(map["x" := 0], map[0 := 1], 1);
    var s2 := State(map["x" := 0, "y" := 1], map[0 := 1, 1 := 2], 2);
    assert EvalFrom(AddressOf("x"), s2) == (Ok(0), s2);
    assert EvalFrom(Var("y"), s2) == (Ok(2), s2);
    assert s2.store[0 := 2] == map[0 := 2, 1 := 2];
    assert EvalFrom(Assign(AddressOf("x"), Var("y")), s2) == (Ok(2), s2.(store := map[0 := 2, 1 := 2]));
    assert EvalFrom(Let("y", Num(2), Assign(AddressOf("x"), Var("y"))), s1).0 == Ok(2);
  }

  /**
   * let x = 1 in let y = 2 in 0 := y end + x end: x got location 0, so
   * writing to the number 0 changes x too.
   */
  lemma AssignThroughNumberExample()
    ensures EvalFrom(Let("x", Num(1), Add(Let("y", Num(2), Assign(Num(0), Var("y"))), Var("x"))), Fresh()).0 == Ok(4)
  {
    assert "x" != "y" by { assert "x"[0] != "y"[0]; }
    var s1 := State(map["x" := 0], map[0 := 1], 1);
    var s2 := State(map["x" := 0, "y" := 1], map[0 := 1, 1 := 2], 2);
    assert EvalFrom(Num(0), s2) == (Ok(0), s2);
    assert EvalFrom(Var("y"), s2) == (Ok(2), s2);
    assert s2.store[0 := 2] == map[0 := 2, 1 := 2];
    assert EvalFrom(Assign(Num(0), Var("y")), s2) == (Ok(2), s2.(store := map[0 := 2, 1 := 2]));
    assert EvalFrom(Let("y", Num(2), Assign(Num(0), Var("y"))), s1).0 == Ok(2);
  }
}
