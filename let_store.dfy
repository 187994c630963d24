/**
 * A `let` language with assignment over a store: the environment maps
 * names to locations and a `Store` object maps locations to values. `let`
 * allocates a fresh location for its definition and evaluates its body in
 * an extended copy of the environment; assignment updates the location a
 * name is bound to. The store is shared and updated in place.
 */
module LetStore {
  import opened Wrappers
  import Decimal
  import Arith

  datatype Exp =
    | Var(identifier: string)
    | Assign(name: string, exp: Exp)
    | Num(num: int)
    | Bin(op: Arith.Op, left: Exp, right: Exp)
    | Let(identifier: string, expDef: Exp, expBody: Exp)

  /** A store's fields: locations to values, and the next location to allocate. */
  datatype Memory = Memory(cells: map<int, int>, nextLoc: int)

  /** `allocate`: the new location and the store after writing `value` there. */
  function Alloc(m: Memory, value: int): (int, Memory) {
    (m.nextLoc, Memory(m.cells[m.nextLoc := value], m.nextLoc + 1))
  }

  /** `update`: only a location already in the store can be written. */
  function Upd(m: Memory, loc: int, value: int): Result<Memory> {
    if loc in m.cells then Ok(m.(cells := m.cells[loc := value]))
    else Err(KeyError("Location " + Decimal.IntToString(loc) + " not found in store."))
  }

  /** `lookup`: the value at `loc`; a missing location raises KeyError. */
  function Look(m: Memory, loc: int): Result<int> {
    if loc in m.cells then Ok(m.cells[loc]) else Err(KeyError(Decimal.IntToString(loc)))
  }

  /** Every allocated location lies below the allocation counter. */
  predicate Sane(m: Memory) {
    forall l :: l in m.cells ==> l < m.nextLoc
  }

  /** Every name in `env` is bound to a location the store holds. */
  predicate EnvIn(env: map<string, int>, m: Memory) {
    forall x :: x in env ==> env[x] in m.cells
  }

  /**
   * `allocate` returns a location that was not in use, stores the value
   * there, and leaves every other location as it was.
   */
  lemma AllocFresh(m: Memory, value: int)
    requires Sane(m)
    ensures Alloc(m, value).0 !in m.cells
    ensures Look(Alloc(m, value).1, Alloc(m, value).0) == Ok(value)
    ensures Sane(Alloc(m, value).1)
    ensures forall l :: l in m.cells ==> Look(Alloc(m, value).1, l) == Look(m, l)
  {
  }

  /**
   * `update` succeeds exactly on a location in the store; it then changes
   * that location alone, and a lookup there reads the new value back.
   */
  lemma UpdChangesOnlyTarget(m: Memory, loc: int, value: int)
    ensures Upd(m, loc, value).Ok? <==> Look(m, loc).Ok?
    ensures Upd(m, loc, value).Ok? ==> Look(Upd(m, loc, value).value, loc) == Ok(value)
    ensures Upd(m, loc, value).Ok? ==>
      Upd(m, loc, value).value.cells.Keys == m.cells.Keys &&
      Upd(m, loc, value).value.nextLoc == m.nextLoc &&
      forall l :: l != loc ==> Look(Upd(m, loc, value).value, l) == Look(m, l)
  {
  }

  /**
   * `e.eval(env, store)`: the result, and the store afterwards. Operands run
   * left to right against the same store; an exception leaves the store as
   * it was when it was raised.
   */
  function EvalIn(e: Exp, env: map<string, int>, m: Memory): (Result<int>, Memory) {
    match e
    case Var(x) =>
      if x in env then (Look(m, env[x]), m) else (Err(SystemExit("Variavel inexistente " + x)), m)
    case Assign(x, v) =>
      if x !in env then (Err(SystemExit("Undefined variable " + x)), m)
      else
        var (r, m1) := EvalIn(v, env, m);
        if r.Err? then (r, m1)
        else
          var u := Upd(m1, env[x], r.value);
          if u.Err? then (Err(u.error), m1) else (r, u.value)
    case Num(n) => (Ok(n), m)
    case Bin(op, l, r) =>
      var (a, m1) := EvalIn(l, env, m);
      if a.Err? then (a, m1)
      else
        var (b, m2) := EvalIn(r, env, m1);
        if b.Err? then (b, m2) else (Arith.Apply(op, a.value, b.value), m2)
    case Let(x, d, b) =>
      var (v, m1) := EvalIn(d, env, m);
      if v.Err? then (v, m1)
      else
        var (loc, m2) := Alloc(m1, v.value);
        EvalIn(b, env[x := loc], m2)
  }

  /**
   * When every bound name has a location in a sane store, evaluation keeps
   * the store sane, never drops a location, never moves the counter back,
   * and never raises KeyError: lookups and updates always find their location.
   */
  lemma {:induction false} EvalNeverMissesLocation(e: Exp, env: map<string, int>, m: Memory)
    requires Sane(m) && EnvIn(env, m)
    ensures Sane(EvalIn(e, env, m).1)
    ensures m.cells.Keys <= EvalIn(e, env, m).1.cells.Keys
    ensures m.nextLoc <= EvalIn(e, env, m).1.nextLoc
    ensures EvalIn(e, env, m).0.Err? ==> !EvalIn(e, env, m).0.error.KeyError?
  {
    match e
    case Var(_) =>
    case Num(_) =>
    case Assign(x, v) =>
      if x in env {
        EvalNeverMissesLocation(v, env, m);
      }
    case Bin(op, l, r) =>
      EvalNeverMissesLocation(l, env, m);
      var m1 := EvalIn(l, env, m).1;
      if EvalIn(l, env, m).0.Ok? {
        EvalNeverMissesLocation(r, env, m1);
      }
    case Let(x, d, b) =>
      EvalNeverMissesLocation(d, env, m);
      var (v, m1) := EvalIn(d, env, m);
      if v.Ok? {
        var (loc, m2) := Alloc(m1, v.value);
        EvalNeverMissesLocation(b, env[x := loc], m2);
      }
  }

  class Store {
    /** Locations to values. */
    var cells: map<int, int>
    /** The next location to allocate. */
    var nextLoc: int

    constructor()
      ensures cells == map[] && nextLoc == 0
      ensures Sane(Contents())
    {
      cells := map[];
      nextLoc := 0;
    }

    function Contents(): Memory
      reads this
    {
      Memory(cells, nextLoc)
    }

    /** `allocate(value)`. */
    method Allocate(value: int) returns (loc: int)
      modifies this
      ensures (loc, Contents()) == Alloc(old(Contents()), value)
    {
      loc := nextLoc;
      cells := cells[loc := value];
      nextLoc := nextLoc + 1;
    }

    /** `update(loc, value)`: on a missing location, raises and changes nothing. */
    method Update(loc: int, value: int) returns (r: Result<()>)
      modifies this
      ensures r.Ok? <==> Upd(old(Contents()), loc, value).Ok?
      ensures r.Ok? ==> Contents() == Upd(old(Contents()), loc, value).value
      ensures r.Err? ==> r.error == Upd(old(Contents()), loc, value).error && Contents() == old(Contents())
    {
      if loc in cells {
        cells := cells[loc := value];
        r := Ok(());
      } else {
        r := Err(KeyError("Location " + Decimal.IntToString(loc) + " not found in store."));
      }
    }

    /** `lookup(loc)`. */
    method Lookup(loc: int) returns (r: Result<int>)
      ensures r == Look(Contents(), loc)
    {
      if loc in cells {
        r := Ok(cells[loc]);
      } else {
        r := Err(KeyError(Decimal.IntToString(loc)));
      }
    }
  }

  /** `e.eval(env, store)`, updating the shared store in place. */
  method Eval(e: Exp, env: map<string, int>, store: Store) returns (r: Result<int>)
    modifies store
    ensures (r, store.Contents()) == EvalIn(e, env, old(store.Contents()))
    decreases e
  {
    match e
    case Var(x) =>
      if x !in env {
        return Err(SystemExit("Variavel inexistente " + x));
      }
      r := store.Lookup(env[x]);
    case Assign(x, v) =>
      if x !in env {
        return Err(SystemExit("Undefined variable " + x));
      }
      r := Eval(v, env, store);
      if r.Err? {
        return;
      }
      var u := store.Update(env[x], r.value);
      if u.Err? {
        r := Err(u.error);
      }
    case Num(n) =>
      r := Ok(n);
    case Bin(op, left, right) =>
      var a := Eval(left, env, store);
      if a.Err? {
        return a;
      }
      var b := Eval(right, env, store);
      if b.Err? {
        return b;
      }
      r := Arith.Apply(op, a.value, b.value);
    case Let(x, d, b) =>
      var v := Eval(d, env, store);
      if v.Err? {
        return v;
      }
      var loc := store.Allocate(v.value);
      r := Eval(b, env[x := loc], store);
  }

  // The documented runs, each from an empty environment and a new store.

  function Empty(): Memory {
    Memory(map[], 0)
  }

  lemma LetExamples()
    ensures EvalIn(Let("v", Num(42), Var("v")), map[], Empty()).0 == Ok(42)
    ensures EvalIn(Let("v", Num(40), Let("w", Num(2), Bin(Arith.AddOp, Var("v"), Var("w")))), map[], Empty()).0 == Ok(42)
    ensures EvalIn(Let("v", Bin(Arith.AddOp, Num(40), Num(2)), Bin(Arith.MulOp, Var("v"), Var("v"))), map[], Empty()).0 == Ok(1764)
  {
    assert "v" != "w" by { assert "v"[0] != "w"[0]; }
    var m2 := Memory(map[0 := 40, 1 := 2], 2);
    assert EvalIn(Bin(Arith.AddOp, Var("v"), Var("w")), map["v" := 0, "w" := 1], m2).0 == Ok(42);
    assert EvalIn(Let("w", Num(2), Bin(Arith.AddOp, Var("v"), Var("w"))), map["v" := 0], Memory(map[0 := 40], 1)).0 == Ok(42);
    assert EvalIn(Bin(Arith.AddOp, Num(40), Num(2)), map[], Empty()) == (Ok(42), Empty());
    var m := Memory(map[0 := 42], 1);
    assert EvalIn(Var("v"), map["v" := 0], m) == (Ok(42), m);
    assert EvalIn(Bin(Arith.MulOp, Var("v"), Var("v")), map["v" := 0], m).0 == Ok(1764);
  }

  /** let x = 5 in x := 10: the store ends as {0: 10}. */
  lemma AssignExample()
    ensures EvalIn(Let("x", Num(5), Assign("x", Num(10))), map[], Empty()) == (Ok(10), Memory(map[0 := 10], 1))
  {
    assert map[0 := 5][0 := 10] == map[0 := 10];
  }
}
