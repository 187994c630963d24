/**
 * Reaching-definitions analysis of 23_DataFlow/dataflow.py: one equation per
 * program point, evaluated over an environment that maps the names
 * `IN_<id>` / `OUT_<id>` to sets of `(variable, defining instruction)` facts,
 * and solved by round-robin iteration until a whole pass changes nothing.
 */
module DataFlow {
  import opened Wrappers
  import opened Decimal
  import L = DataFlowLang

  /** `(v, p)`: the definition of `v` made by instruction `p` may reach this point. */
  type Fact = (string, nat)

  /** The data-flow environment: equation names to sets of facts. */
  type FactEnv = map<string, set<Fact>>

  /** `name_in(ID)`: the key of the IN set of instruction `ID`. */
  function NameIn(id: nat): string
  {
    "IN_" + NatToString(id)
  }

  /** `name_out(ID)`: the key of the OUT set of instruction `ID`. */
  function NameOut(id: nat): string
  {
    "OUT_" + NatToString(id)
  }

  /** IN and OUT keys never collide, and distinct IDs give distinct keys. */
  lemma NamesDistinct(a: nat, b: nat)
    ensures NameIn(a) != NameOut(b)
    ensures NameIn(a) == NameIn(b) <==> a == b
    ensures NameOut(a) == NameOut(b) <==> a == b
  {
    assert NameIn(a)[0] == 'I' && NameOut(b)[0] == 'O';
    if NameIn(a) == NameIn(b) {
      assert NameIn(a)[3..] == NatToString(a) && NameIn(b)[3..] == NatToString(b);
      PrintInjective(a, b);
    }
    if NameOut(a) == NameOut(b) {
      assert NameOut(a)[4..] == NatToString(a) && NameOut(b)[4..] == NatToString(b);
      PrintInjective(a, b);
    }
  }

  /** The doctests of `name_in` and `name_out`. */
  lemma NameExamples()
    ensures NameIn(0) == "IN_0" && NameOut(0) == "OUT_0"
  {
  }

  /**
   * A reaching-definitions equation, holding the fields of its instruction
   * that its evaluation reads:
   *   BinOut(p, v):   OUT[p] = (v, p) + (IN[p] - (v, _))
   *   BtOut(p):       OUT[p] = IN[p]
   *   InEq(p, preds): IN[p]  = Union(OUT[q] for q in preds)
   */
  datatype Eq = BinOut(id: nat, dst: string) | BtOut(id: nat) | InEq(id: nat, preds: seq<nat>)

  /** `name()`: the key an equation writes. */
  function Name(eq: Eq): string
  {
    if eq.InEq? then NameIn(eq.id) else NameOut(eq.id)
  }

  /** The keys an equation's evaluation reads. */
  function Reads(eq: Eq): set<string>
  {
    match eq
    case BinOut(id, _) => {NameIn(id)}
    case BtOut(id) => {NameIn(id)}
    case InEq(_, preds) => set p | p in preds :: NameOut(p)
  }

  /** `data_flow_env[key]`: a KeyError when the key is absent. */
  function Lookup(env: FactEnv, key: string): (r: Result<set<Fact>>)
    ensures r.Ok? <==> key in env
    ensures r.Ok? ==> r.value == env[key]
    ensures r.Err? ==> r.error == KeyError(key)
  {
    if key in env then Ok(env[key]) else Err(KeyError(key))
  }

  /**
   * The union of the OUT sets of `preds`, taken in list order, so that the
   * KeyError reported is the one of the first predecessor whose OUT key is
   * absent.
   */
  function UnionOuts(preds: seq<nat>, env: FactEnv): (r: Result<set<Fact>>)
    ensures r.Err? ==> r.error.KeyError?
    ensures r.Ok? ==> forall i :: 0 <= i < |preds| ==> NameOut(preds[i]) in env && env[NameOut(preds[i])] <= r.value
  {
    if |preds| == 0 then Ok({})
    else
      match UnionOuts(preds[..|preds| - 1], env)
      case Err(e) => Err(e)
      case Ok(s) =>
        match Lookup(env, NameOut(preds[|preds| - 1]))
        case Err(e) => Err(e)
        case Ok(o) => Ok(s + o)
  }

  /** The facts of `s` that do not define `dst`. */
  function Kill(s: set<Fact>, dst: string): set<Fact>
  {
    set f | f in s && f.0 != dst
  }

  /** `eval_aux`: the value of the right-hand side of an equation in `env`. */
  function EvalAux(eq: Eq, env: FactEnv): Result<set<Fact>>
  {
    match eq
    case BinOut(id, dst) =>
      (match Lookup(env, NameIn(id))
       case Err(e) => Err(e)
       case Ok(s) => Ok(Kill(s, dst) + {(dst, id)}))
    case BtOut(id) => Lookup(env, NameIn(id))
    case InEq(_, preds) => UnionOuts(preds, env)
  }

  /**
   * The union over the predecessors succeeds exactly when every OUT key is
   * present, and otherwise names the first absent key.
   */
  lemma {:induction false} UnionOutsDefined(preds: seq<nat>, env: FactEnv)
    ensures UnionOuts(preds, env).Ok? <==> forall p :: p in preds ==> NameOut(p) in env
    ensures UnionOuts(preds, env).Err? ==>
              exists i :: 0 <= i < |preds| && NameOut(preds[i]) !in env &&
                          UnionOuts(preds, env).error == KeyError(NameOut(preds[i])) &&
                          forall j :: 0 <= j < i ==> NameOut(preds[j]) in env
    decreases |preds|
  {
    if |preds| > 0 {
      var init := preds[..|preds| - 1];
      var last := preds[|preds| - 1];
      UnionOutsDefined(init, env);
      assert preds == init + [last];
      assert forall p :: p in preds <==> p in init || p == last;
      if UnionOuts(init, env).Err? {
        var i :| 0 <= i < |init| && NameOut(init[i]) !in env &&
                 UnionOuts(init, env).error == KeyError(NameOut(init[i])) &&
                 forall j :: 0 <= j < i ==> NameOut(init[j]) in env;
        assert preds[i] == init[i];
      } else if NameOut(last) !in env {
        assert forall j :: 0 <= j < |init| ==> init[j] in init && preds[j] == init[j];
      }
    }
  }

  /** A successful union holds exactly the facts of some predecessor's OUT set. */
  lemma {:induction false} UnionOutsContents(preds: seq<nat>, env: FactEnv)
    requires forall p :: p in preds ==> NameOut(p) in env
    ensures UnionOuts(preds, env).Ok?
    ensures forall f :: f in UnionOuts(preds, env).value <==> exists p :: p in preds && f in env[NameOut(p)]
    decreases |preds|
  {
    UnionOutsDefined(preds, env);
    if |preds| > 0 {
      var init := preds[..|preds| - 1];
      var last := preds[|preds| - 1];
      assert preds == init + [last];
      assert forall p :: p in preds <==> p in init || p == last;
      UnionOutsContents(init, env);
      var r := UnionOuts(preds, env);
      forall f ensures f in r.value <==> exists p :: p in preds && f in env[NameOut(p)] {
        if f in r.value && f !in UnionOuts(init, env).value {
          assert last in preds && f in env[NameOut(last)];
        }
      }
    }
  }

  /**
   * The union over the predecessors succeeds exactly when every OUT key is
   * present; it then holds exactly the facts of some predecessor's OUT set,
   * and otherwise names the first absent key.
   */
  lemma UnionOutsMeaning(preds: seq<nat>, env: FactEnv)
    ensures UnionOuts(preds, env).Ok? <==> forall p :: p in preds ==> NameOut(p) in env
    ensures UnionOuts(preds, env).Ok? ==>
              forall f :: f in UnionOuts(preds, env).value <==> exists p :: p in preds && f in env[NameOut(p)]
    ensures UnionOuts(preds, env).Err? ==>
              exists i :: 0 <= i < |preds| && NameOut(preds[i]) !in env &&
                          UnionOuts(preds, env).error == KeyError(NameOut(preds[i])) &&
                          forall j :: 0 <= j < i ==> NameOut(preds[j]) in env
  {
    UnionOutsDefined(preds, env);
    if UnionOuts(preds, env).Ok? {
      UnionOutsContents(preds, env);
    }
  }

  /** Once the union fails on a prefix of the predecessors, it fails with the same error on the whole list. */
  lemma {:induction false} UnionOutsErrorSticks(preds: seq<nat>, k: nat, env: FactEnv)
    requires k <= |preds| && UnionOuts(preds[..k], env).Err?
    ensures UnionOuts(preds, env) == UnionOuts(preds[..k], env)
    decreases |preds| - k
  {
    if k < |preds| {
      assert preds[..|preds| - 1][..k] == preds[..k];
      UnionOutsErrorSticks(preds[..|preds| - 1], k, env);
    } else {
      assert preds[..k] == preds;
    }
  }

  /** `eval_aux` fails exactly when a key it reads is absent. */
  lemma EvalAuxDefined(eq: Eq, env: FactEnv)
    ensures EvalAux(eq, env).Ok? <==> Reads(eq) <= env.Keys
    ensures EvalAux(eq, env).Err? ==> EvalAux(eq, env).error.KeyError? && EvalAux(eq, env).error.key in Reads(eq) - env.Keys
  {
    if eq.InEq? {
      UnionOutsMeaning(eq.preds, env);
      if EvalAux(eq, env).Err? {
        var i :| 0 <= i < |eq.preds| && NameOut(eq.preds[i]) !in env &&
                 UnionOuts(eq.preds, env).error == KeyError(NameOut(eq.preds[i]));
        assert eq.preds[i] in eq.preds;
      }
    }
  }

  /**
   * The binary OUT rule: the instruction's own definition is the only fact
   * about `dst` that leaves it, and the facts about every other variable
   * pass through from IN unchanged.
   */
  lemma BinOutGenKill(id: nat, dst: string, env: FactEnv)
    requires NameIn(id) in env
    ensures EvalAux(BinOut(id, dst), env).Ok?
    ensures forall f: Fact :: f in EvalAux(BinOut(id, dst), env).value && f.0 == dst ==> f == (dst, id)
    ensures (dst, id) in EvalAux(BinOut(id, dst), env).value
    ensures forall f: Fact :: f.0 != dst ==> (f in EvalAux(BinOut(id, dst), env).value <==> f in env[NameIn(id)])
  {
  }

  /** The doctest of the binary OUT rule: {('x', 1), ('y', 2)} becomes {('x', 0), ('y', 2)}. */
  lemma BinOutExample()
    ensures EvalAux(BinOut(0, "x"), map["IN_0" := {("x", 1), ("y", 2)}]) == Ok({("x", 0), ("y", 2)})
  {
    var env := map["IN_0" := {("x", 1), ("y", 2)}];
    NameExamples();
    assert Lookup(env, NameIn(0)) == Ok({("x", 1), ("y", 2)});
    assert "y" != "x" by { assert "y"[0] != "x"[0]; }
    assert ("y", 2) in Kill(env["IN_0"], "x");
    assert ("x", 1) !in Kill(env["IN_0"], "x");
    assert Kill(env["IN_0"], "x") == {("y", 2)};
    assert {("y", 2)} + {("x", 0)} == {("x", 0), ("y", 2)};
  }

  /** The branch OUT rule is the identity on IN. */
  lemma BtOutIdentity(id: nat, env: FactEnv)
    requires NameIn(id) in env
    ensures EvalAux(BtOut(id), env) == Ok(env[NameIn(id)])
  {
  }

  /** The doctest of the IN rule: the OUT sets of instructions 0 and 1 are joined at instruction 2. */
  lemma InEqExample()
    ensures EvalAux(InEq(2, [0, 1]), map["OUT_0" := {("x", 0)}, "OUT_1" := {("x", 1)}]) == Ok({("x", 0), ("x", 1)})
  {
    var env := map["OUT_0" := {("x", 0)}, "OUT_1" := {("x", 1)}];
    assert NameOut(0) == "OUT_0" && NameOut(1) == "OUT_1";
    assert "OUT_0" != "OUT_1" by { assert "OUT_0"[4] != "OUT_1"[4]; }
    assert Lookup(env, NameOut(0)) == Ok({("x", 0)}) && Lookup(env, NameOut(1)) == Ok({("x", 1)});
    var ps: seq<nat> := [0, 1];
    assert ps[..1] == [0] && ps[..1][..0] == [];
    assert UnionOuts(ps[..1][..0], env) == Ok({});
    assert ps[..1][|ps[..1]| - 1] == 0;
    assert {} + {("x", 0)} == {("x", 0)};
    assert UnionOuts(ps[..1], env) == Ok({("x", 0)});
    assert UnionOuts(ps, env) == Ok({("x", 0)} + {("x", 1)});
    assert EvalAux(InEq(2, ps), env) == UnionOuts(ps, env);
    assert {("x", 0)} + {("x", 1)} == {("x", 0), ("x", 1)};
  }

  /** An instruction without predecessors has an empty IN set. */
  lemma InEqNoPreds(id: nat, env: FactEnv)
    ensures EvalAux(InEq(id, []), env) == Ok({})
  {
  }

  /** `a` is below `b`: every key of `a` is in `b` with a set at least as large. */
  predicate Below(a: FactEnv, b: FactEnv)
  {
    forall k :: k in a ==> k in b && a[k] <= b[k]
  }

  lemma {:induction false} UnionOutsMonotone(preds: seq<nat>, a: FactEnv, b: FactEnv)
    requires Below(a, b) && UnionOuts(preds, a).Ok?
    ensures UnionOuts(preds, b).Ok? && UnionOuts(preds, a).value <= UnionOuts(preds, b).value
    decreases |preds|
  {
    if |preds| > 0 {
      UnionOutsMonotone(preds[..|preds| - 1], a, b);
    }
  }

  /** Every rule is monotone: a larger environment gives a larger (and still defined) right-hand side. */
  lemma EvalAuxMonotone(eq: Eq, a: FactEnv, b: FactEnv)
    requires Below(a, b) && EvalAux(eq, a).Ok?
    ensures EvalAux(eq, b).Ok? && EvalAux(eq, a).value <= EvalAux(eq, b).value
  {
    if eq.InEq? {
      UnionOutsMonotone(eq.preds, a, b);
    }
  }

  /** The facts any equation can produce: `(dst, ID)` for the binary OUT equations. */
  function Universe(eqs: seq<Eq>): set<Fact>
  {
    set eq | eq in eqs && eq.BinOut? :: (eq.dst, eq.id)
  }

  /** Every set in the environment is drawn from `u`. */
  predicate Bounded(env: FactEnv, u: set<Fact>)
  {
    forall k :: k in env ==> env[k] <= u
  }

  /** Every fact an equation produces from a bounded environment lies in the finite universe. */
  lemma EvalAuxInUniverse(eqs: seq<Eq>, eq: Eq, env: FactEnv)
    requires eq in eqs && Bounded(env, Universe(eqs)) && EvalAux(eq, env).Ok?
    ensures EvalAux(eq, env).value <= Universe(eqs)
  {
    if eq.InEq? {
      UnionOutsMeaning(eq.preds, env);
    }
  }

  /**
   * `DataFlowEq.eval`: read the old set under `name()` (a KeyError when it is
   * absent), store `eval_aux(env)` there and report whether it differs.
   */
  function EvalEq(eq: Eq, env: FactEnv): (r: Result<(FactEnv, bool)>)
    ensures r.Err? ==> r.error.KeyError?
    ensures r.Ok? ==> r.value.0.Keys == env.Keys
  {
    match Lookup(env, Name(eq))
    case Err(e) => Err(e)
    case Ok(old_) =>
      match EvalAux(eq, env)
      case Err(e) => Err(e)
      case Ok(s) => Ok((env[Name(eq) := s], s != old_))
  }

  /** `eval` writes only `name()`, stores the rule's value there, and reports a change exactly when the set differs. */
  lemma EvalEqWritesName(eq: Eq, env: FactEnv)
    requires Name(eq) in env && EvalAux(eq, env).Ok?
    ensures EvalEq(eq, env).Ok?
    ensures var (env', changed) := EvalEq(eq, env).value;
            env'.Keys == env.Keys && env'[Name(eq)] == EvalAux(eq, env).value &&
            (forall k :: k in env && k != Name(eq) ==> env'[k] == env[k]) &&
            (changed <==> env'[Name(eq)] != env[Name(eq)])
  {
  }

  /** `eval` fails exactly when its own key or a key it reads is absent. */
  lemma EvalEqDefined(eq: Eq, env: FactEnv)
    ensures EvalEq(eq, env).Ok? <==> Name(eq) in env && Reads(eq) <= env.Keys
  {
    EvalAuxDefined(eq, env);
  }

  /** The keys the equations write. */
  function Names(eqs: seq<Eq>): set<string>
  {
    set eq | eq in eqs :: Name(eq)
  }

  /** Equations that write the same key are the same equation, as when each instruction has its own ID. */
  predicate Consistent(eqs: seq<Eq>)
  {
    forall e1, e2 :: e1 in eqs && e2 in eqs && Name(e1) == Name(e2) ==> e1 == e2
  }

  /** Every key some equation reads is written by some equation. */
  predicate WellKeyed(eqs: seq<Eq>)
  {
    forall eq :: eq in eqs ==> Reads(eq) <= Names(eqs)
  }

  /** `m` solves the system: it has exactly the equations' keys and every equation holds in it. */
  predicate IsSolution(eqs: seq<Eq>, m: FactEnv)
  {
    m.Keys == Names(eqs) && forall eq :: eq in eqs ==> EvalAux(eq, m) == Ok(m[Name(eq)])
  }

  /** Every key holds no more than its equation's right-hand side. */
  predicate PostFixed(eqs: seq<Eq>, env: FactEnv)
  {
    env.Keys == Names(eqs) &&
    forall eq :: eq in eqs && EvalAux(eq, env).Ok? ==> env[Name(eq)] <= EvalAux(eq, env).value
  }

  /** The starting environment of `abstract_interp`: every key bound to the empty set. */
  function InitEnv(eqs: seq<Eq>): (env: FactEnv)
    ensures env.Keys == Names(eqs)
  {
    map k | k in Names(eqs) :: {}
  }

  /** The empty start lies below every solution, within the universe, and below its own right-hand sides. */
  lemma InitEnvInvariants(eqs: seq<Eq>)
    ensures PostFixed(eqs, InitEnv(eqs)) && Bounded(InitEnv(eqs), Universe(eqs))
    ensures forall m :: IsSolution(eqs, m) ==> Below(InitEnv(eqs), m)
  {
  }

  /**
   * Storing an equation's value into a post-fixed environment only grows it,
   * keeps it post-fixed, within the universe and below every solution.
   */
  lemma StoreKeepsInvariants(eqs: seq<Eq>, eq: Eq, env: FactEnv)
    requires Consistent(eqs) && eq in eqs && PostFixed(eqs, env) && Bounded(env, Universe(eqs))
    requires forall m :: IsSolution(eqs, m) ==> Below(env, m)
    requires EvalAux(eq, env).Ok?
    ensures var env' := env[Name(eq) := EvalAux(eq, env).value];
            Below(env, env') && env'.Keys == env.Keys && PostFixed(eqs, env') && Bounded(env', Universe(eqs)) &&
            forall m :: IsSolution(eqs, m) ==> Below(env', m)
  {
    var s := EvalAux(eq, env).value;
    var env' := env[Name(eq) := s];
    assert Below(env, env');
    EvalAuxInUniverse(eqs, eq, env);
    forall e | e in eqs && EvalAux(e, env').Ok? ensures env'[Name(e)] <= EvalAux(e, env').value {
      EvalAuxDefined(e, env);
      EvalAuxDefined(e, env');
      EvalAuxMonotone(e, env, env');
      if Name(e) == Name(eq) {
        assert e == eq;
      }
    }
    forall m | IsSolution(eqs, m) ensures Below(env', m) {
      EvalAuxMonotone(eq, env, m);
    }
  }

  /** The (key, fact) pairs that the environment does not hold yet; the solver's measure of progress. */
  function Missing(env: FactEnv, u: set<Fact>): set<(string, Fact)>
  {
    set k, f | k in env && f in u && f !in env[k] :: (k, f)
  }

  /** Growing the environment within the universe never adds missing pairs, and a key that grows removes one. */
  lemma MissingShrinks(a: FactEnv, b: FactEnv, u: set<Fact>)
    requires Below(a, b) && a.Keys == b.Keys && Bounded(b, u)
    ensures Missing(b, u) <= Missing(a, u)
    ensures a != b ==> Missing(b, u) < Missing(a, u)
  {
    if a != b {
      var k :| k in a && a[k] != b[k];
      var f :| f in b[k] && f !in a[k];
      assert (k, f) in Missing(a, u) - Missing(b, u);
    }
  }

  /**
   * `eval` on one equation, with the IN rule's union computed by the loop of
   * `ReachingDefs_IN_Eq.eval_aux`.
   */
  method EvalEqMethod(eq: Eq, env: FactEnv) returns (r: Result<(FactEnv, bool)>)
    ensures r == EvalEq(eq, env)
  {
    if Name(eq) !in env {
      return Err(KeyError(Name(eq)));
    }
    var old_ := env[Name(eq)];
    var s: set<Fact>;
    match eq {
      case BinOut(id, dst) =>
        if NameIn(id) !in env {
          return Err(KeyError(NameIn(id)));
        }
        s := (set f | f in env[NameIn(id)] && f.0 != dst) + {(dst, id)};
      case BtOut(id) =>
        if NameIn(id) !in env {
          return Err(KeyError(NameIn(id)));
        }
        s := env[NameIn(id)];
      case InEq(_, preds) =>
        s := {};
        for i := 0 to |preds|
          invariant UnionOuts(preds[..i], env) == Ok(s)
        {
          assert preds[..i + 1][..i] == preds[..i];
          if NameOut(preds[i]) !in env {
            UnionOutsErrorSticks(preds, i + 1, env);
            return Err(KeyError(NameOut(preds[i])));
          }
          s := s + env[NameOut(preds[i])];
        }
        assert preds[..|preds|] == preds;
    }
    return Ok((env[Name(eq) := s], s != old_));
  }

  /** What holds of the environment between two evaluations of the solver. */
  ghost predicate SolverInv(eqs: seq<Eq>, env: FactEnv)
  {
    env.Keys == Names(eqs) && PostFixed(eqs, env) && Bounded(env, Universe(eqs)) &&
    forall m :: IsSolution(eqs, m) ==> Below(env, m)
  }

  lemma AllReadsKnown(eqs: seq<Eq>)
    requires forall j :: 0 <= j < |eqs| ==> Reads(eqs[j]) <= Names(eqs)
    ensures WellKeyed(eqs)
  {
    forall eq | eq in eqs ensures Reads(eq) <= Names(eqs) {
      var j :| 0 <= j < |eqs| && eqs[j] == eq;
    }
  }

  lemma AllEquationsHold(eqs: seq<Eq>, env: FactEnv)
    requires env.Keys == Names(eqs)
    requires forall j :: 0 <= j < |eqs| ==> EvalAux(eqs[j], env) == Ok(env[Name(eqs[j])])
    ensures IsSolution(eqs, env)
  {
    forall eq | eq in eqs ensures EvalAux(eq, env) == Ok(env[Name(eq)]) {
      var j :| 0 <= j < |eqs| && eqs[j] == eq;
    }
  }

  /** What holds after the first `i` equations of a pass that started from `env0`. */
  ghost predicate PassInv(eqs: seq<Eq>, env0: FactEnv, env: FactEnv, changed: bool, i: nat)
    requires i <= |eqs|
  {
    SolverInv(eqs, env) && Below(env0, env) && env0.Keys == env.Keys &&
    (changed ==> Missing(env, Universe(eqs)) < Missing(env0, Universe(eqs))) &&
    (!changed ==> env == env0 && forall j :: 0 <= j < i ==> EvalAux(eqs[j], env) == Ok(env[Name(eqs[j])])) &&
    forall j :: 0 <= j < i ==> Reads(eqs[j]) <= Names(eqs)
  }

  /** Evaluating equation `i` keeps the pass invariant for one more equation. */
  lemma StoreKeepsPassInv(eqs: seq<Eq>, env0: FactEnv, env: FactEnv, changed: bool, i: nat)
    requires Consistent(eqs) && i < |eqs| && PassInv(eqs, env0, env, changed, i)
    requires EvalEq(eqs[i], env).Ok?
    ensures var (env', ch) := EvalEq(eqs[i], env).value;
            PassInv(eqs, env0, env', ch || changed, i + 1)
  {
    var eq := eqs[i];
    EvalAuxDefined(eq, env);
    StoreKeepsInvariants(eqs, eq, env);
    var env' := env[Name(eq) := EvalAux(eq, env).value];
    MissingShrinks(env, env', Universe(eqs));
    MissingShrinks(env0, env', Universe(eqs));
  }

  /** A pass that ran through every equation read only known keys, and ends at a solution if it changed nothing. */
  lemma PassEnd(eqs: seq<Eq>, env0: FactEnv, env: FactEnv, changed: bool)
    requires PassInv(eqs, env0, env, changed, |eqs|)
    ensures WellKeyed(eqs)
    ensures !changed ==> IsSolution(eqs, env)
  {
    forall eq | eq in eqs ensures Reads(eq) <= Names(eqs) {
      var j :| 0 <= j < |eqs| && eqs[j] == eq;
    }
    if !changed {
      forall eq | eq in eqs ensures EvalAux(eq, env) == Ok(env[Name(eq)]) {
        var j :| 0 <= j < |eqs| && eqs[j] == eq;
      }
    }
  }

  /**
   * One pass of `abstract_interp`: `reduce(lambda acc, eq: eq.eval(env) or acc, equations, False)`
   * evaluates every equation in order (`eq.eval(env)` comes before `or acc`),
   * and reports whether any of them changed its key. A pass that changes
   * nothing ends at a solution; one that changes something strictly shrinks
   * the set of missing pairs.
   */
  method Pass(eqs: seq<Eq>, env0: FactEnv) returns (r: Result<(FactEnv, bool)>)
    requires Consistent(eqs) && SolverInv(eqs, env0)
    ensures r.Err? <==> !WellKeyed(eqs)
    ensures r.Err? ==> r.error.KeyError? && r.error.key !in Names(eqs)
    ensures r.Ok? ==> SolverInv(eqs, r.value.0) && Below(env0, r.value.0)
    ensures r.Ok? && r.value.1 ==> Missing(r.value.0, Universe(eqs)) < Missing(env0, Universe(eqs))
    ensures r.Ok? && !r.value.1 ==> r.value.0 == env0 && IsSolution(eqs, env0)
  {
    var env := env0;
    var changed := false;
    for i := 0 to |eqs|
      invariant PassInv(eqs, env0, env, changed, i)
    {
      var res := EvalEqMethod(eqs[i], env);
      if res.Err? {
        EvalEqDefined(eqs[i], env);
        EvalAuxDefined(eqs[i], env);
        assert eqs[i] in eqs;
        return Err(res.error);
      }
      StoreKeepsPassInv(eqs, env0, env, changed, i);
      env, changed := res.value.0, res.value.1 || changed;
    }
    PassEnd(eqs, env0, env, changed);
    return Ok((env, changed));
  }

  /**
   * `abstract_interp`: start every key at the empty set and run passes until
   * one changes nothing. A KeyError stops the solver; it happens exactly when
   * some equation reads a key no equation writes, and then already in the
   * first pass. Otherwise the result solves every equation, only holds facts
   * `(dst, ID)` of binary instructions, and is below every other solution:
   * it is the least one.
   */
  method AbstractInterp(eqs: seq<Eq>) returns (r: Result<FactEnv>)
    requires Consistent(eqs)
    ensures r.Err? <==> !WellKeyed(eqs)
    ensures r.Err? ==> r.error.KeyError? && r.error.key !in Names(eqs)
    ensures r.Ok? ==> IsSolution(eqs, r.value) && Bounded(r.value, Universe(eqs))
    ensures r.Ok? ==> forall m :: IsSolution(eqs, m) ==> Below(r.value, m)
  {
    var env := InitEnv(eqs);
    InitEnvInvariants(eqs);
    var changed := true;
    while changed
      invariant SolverInv(eqs, env)
      invariant !changed ==> IsSolution(eqs, env) && WellKeyed(eqs)
      decreases Missing(env, Universe(eqs)), changed
    {
      var res := Pass(eqs, env);
      if res.Err? {
        return Err(res.error);
      }
      env, changed := res.value.0, res.value.1;
    }
    return Ok(env);
  }

  /** The binary OUT equations, one per binary operation, in input order. */
  function BinOutEqs(insts: seq<(nat, L.Inst)>): (r: seq<Eq>)
    ensures forall eq :: eq in r ==> eq.BinOut?
  {
    if |insts| == 0 then []
    else (if insts[0].1.BinOp? then [BinOut(insts[0].0, insts[0].1.dst)] else []) + BinOutEqs(insts[1..])
  }

  /** The branch OUT equations, one per branch, in input order. */
  function BtOutEqs(insts: seq<(nat, L.Inst)>): (r: seq<Eq>)
    ensures forall eq :: eq in r ==> eq.BtOut?
  {
    if |insts| == 0 then []
    else (if insts[0].1.Bt? then [BtOut(insts[0].0)] else []) + BtOutEqs(insts[1..])
  }

  /** The IN equations, one per instruction, in input order. */
  function InEqs(insts: seq<(nat, L.Inst)>): seq<Eq>
  {
    seq(|insts|, i requires 0 <= i < |insts| => InEq(insts[i].0, insts[i].1.preds))
  }

  /** `reaching_defs_constraint_gen(insts)`, for instructions given with their IDs. */
  function Generate(insts: seq<(nat, L.Inst)>): (r: seq<Eq>)
    ensures |r| == 2 * |insts|
  {
    OutEqsMembers(insts);
    BinOutEqs(insts) + BtOutEqs(insts) + InEqs(insts)
  }

  /** The OUT equations are exactly one per instruction, of the kind of that instruction. */
  lemma {:induction false} OutEqsMembers(insts: seq<(nat, L.Inst)>)
    ensures |BinOutEqs(insts)| + |BtOutEqs(insts)| == |insts|
    ensures forall eq :: eq in BinOutEqs(insts) <==> exists x :: x in insts && x.1.BinOp? && eq == BinOut(x.0, x.1.dst)
    ensures forall eq :: eq in BtOutEqs(insts) <==> exists x :: x in insts && x.1.Bt? && eq == BtOut(x.0)
  {
    if |insts| > 0 {
      OutEqsMembers(insts[1..]);
      assert forall x :: x in insts <==> x == insts[0] || x in insts[1..];
    }
  }

  /**
   * The generator lists the OUT equations first (binary ones, then branches)
   * and one IN equation per instruction last, in input order, twice as many
   * equations as instructions.
   */
  lemma GenerateOrder(insts: seq<(nat, L.Inst)>)
    ensures |Generate(insts)| == 2 * |insts|
    ensures forall j :: 0 <= j < |insts| ==> !Generate(insts)[j].InEq?
    ensures forall i :: 0 <= i < |insts| ==> Generate(insts)[|insts| + i] == InEq(insts[i].0, insts[i].1.preds)
    ensures Generate(insts)[..|insts|] == BinOutEqs(insts) + BtOutEqs(insts)
  {
    OutEqsMembers(insts);
    var outs := BinOutEqs(insts) + BtOutEqs(insts);
    assert Generate(insts) == outs + InEqs(insts);
    assert Generate(insts)[..|insts|] == outs;
    forall j | 0 <= j < |insts| ensures !Generate(insts)[j].InEq? {
      assert Generate(insts)[j] == outs[j];
      if j < |BinOutEqs(insts)| {
        assert outs[j] in BinOutEqs(insts);
      } else {
        assert outs[j] == BtOutEqs(insts)[j - |BinOutEqs(insts)|];
        assert outs[j] in BtOutEqs(insts);
      }
    }
  }

  // Where each OUT equation sits: group by group, in input order.

  /** The group of OUT equations an instruction belongs to: binary operations (`binary`) or branches. */
  predicate InGroup(inst: L.Inst, binary: bool) {
    if binary then inst.BinOp? else inst.Bt?
  }

  /** The OUT equation of an instruction of that group. */
  function OutEqOf(x: (nat, L.Inst), binary: bool): Eq
    requires InGroup(x.1, binary)
  {
    if binary then BinOut(x.0, x.1.dst) else BtOut(x.0)
  }

  /** The OUT equations of one group, one per member, in input order. */
  function GroupEqs(insts: seq<(nat, L.Inst)>, binary: bool): seq<Eq> {
    if |insts| == 0 then []
    else (if InGroup(insts[0].1, binary) then [OutEqOf(insts[0], binary)] else []) + GroupEqs(insts[1..], binary)
  }

  /** The generator's two OUT lists are the two groups. */
  lemma {:induction false} GroupEqsAre(insts: seq<(nat, L.Inst)>, binary: bool)
    ensures GroupEqs(insts, binary) == if binary then BinOutEqs(insts) else BtOutEqs(insts)
    decreases |insts|
  {
    if |insts| > 0 {
      GroupEqsAre(insts[1..], binary);
    }
  }

  /** How many instructions of the group there are. */
  function Rank(insts: seq<(nat, L.Inst)>, binary: bool): nat {
    if |insts| == 0 then 0 else (if InGroup(insts[0].1, binary) then 1 else 0) + Rank(insts[1..], binary)
  }

  lemma {:induction false} RankAppend(a: seq<(nat, L.Inst)>, b: seq<(nat, L.Inst)>, binary: bool)
    ensures Rank(a + b, binary) == Rank(a, binary) + Rank(b, binary)
    decreases |a|
  {
    if |a| > 0 {
      assert (a + b)[0] == a[0] && (a + b)[1..] == a[1..] + b;
      RankAppend(a[1..], b, binary);
    } else {
      assert a + b == b;
    }
  }

  /** Among the instructions of a group, a later one has a higher rank. */
  lemma RankGrows(insts: seq<(nat, L.Inst)>, i: nat, j: nat, binary: bool)
    requires i < j <= |insts| && InGroup(insts[i].1, binary)
    ensures Rank(insts[..i], binary) < Rank(insts[..j], binary)
  {
    assert insts[..j] == insts[..i] + ([insts[i]] + insts[i + 1..j]);
    RankAppend(insts[..i], [insts[i]] + insts[i + 1..j], binary);
    assert ([insts[i]] + insts[i + 1..j])[1..] == insts[i + 1..j];
  }

  /** In its group's list, the member with `k` members before it has the `k`-th equation. */
  lemma {:induction false} GroupPlaced(insts: seq<(nat, L.Inst)>, i: nat, binary: bool)
    requires i < |insts| && InGroup(insts[i].1, binary)
    ensures Rank(insts[..i], binary) < |GroupEqs(insts, binary)|
    ensures GroupEqs(insts, binary)[Rank(insts[..i], binary)] == OutEqOf(insts[i], binary)
    decreases i
  {
    var head := if InGroup(insts[0].1, binary) then [OutEqOf(insts[0], binary)] else [];
    var rest := GroupEqs(insts[1..], binary);
    assert GroupEqs(insts, binary) == head + rest;
    if i == 0 {
      assert insts[..0] == [];
    } else {
      GroupPlaced(insts[1..], i - 1, binary);
      assert insts[..i][0] == insts[0] && insts[..i][1..] == insts[1..][..i - 1];
      var r := Rank(insts[1..][..i - 1], binary);
      assert Rank(insts[..i], binary) == |head| + r;
      assert (head + rest)[|head| + r] == rest[r];
    }
  }

  /** A group lists one equation per member. */
  lemma {:induction false} GroupSize(insts: seq<(nat, L.Inst)>, binary: bool)
    ensures |GroupEqs(insts, binary)| == Rank(insts, binary)
    decreases |insts|
  {
    if |insts| > 0 {
      GroupSize(insts[1..], binary);
    }
  }

  /**
   * In the generator's output the binary OUT equations come first, in the
   * order of their instructions, then the branch OUT equations, in the order
   * of theirs: the equation of the instruction at `i` sits after as many
   * equations as there are instructions of its group before it (and, for a
   * branch, after all the binary ones).
   */
  lemma GenerateOutPlaced(insts: seq<(nat, L.Inst)>, i: nat, binary: bool)
    requires i < |insts| && InGroup(insts[i].1, binary)
    ensures var k := (if binary then 0 else Rank(insts, true)) + Rank(insts[..i], binary);
      k < |insts| && Generate(insts)[k] == OutEqOf(insts[i], binary)
    ensures binary ==> Rank(insts[..i], binary) < Rank(insts, true)
  {
    OutEqsMembers(insts);
    GroupPlaced(insts, i, binary);
    GroupEqsAre(insts, binary);
    GroupEqsAre(insts, true);
    GroupSize(insts, true);
    var k := (if binary then 0 else Rank(insts, true)) + Rank(insts[..i], binary);
    assert Generate(insts) == BinOutEqs(insts) + BtOutEqs(insts) + InEqs(insts);
    if binary {
      assert Generate(insts)[k] == BinOutEqs(insts)[k];
    } else {
      assert Generate(insts)[k] == BtOutEqs(insts)[k - |BinOutEqs(insts)|];
    }
  }

  /** Every equation of the generator belongs to one input instruction and has that instruction's kind. */
  lemma GenerateMembers(insts: seq<(nat, L.Inst)>)
    ensures forall eq :: eq in Generate(insts) <==>
              exists x :: x in insts &&
                (eq == InEq(x.0, x.1.preds) ||
                 (x.1.BinOp? && eq == BinOut(x.0, x.1.dst)) ||
                 (x.1.Bt? && eq == BtOut(x.0)))
  {
    OutEqsMembers(insts);
    forall eq ensures eq in InEqs(insts) <==> exists x :: x in insts && eq == InEq(x.0, x.1.preds) {
      if eq in InEqs(insts) {
        var i :| 0 <= i < |insts| && InEqs(insts)[i] == eq;
        assert insts[i] in insts;
      }
      if exists x :: x in insts && eq == InEq(x.0, x.1.preds) {
        var x :| x in insts && eq == InEq(x.0, x.1.preds);
        var i :| 0 <= i < |insts| && insts[i] == x;
        assert InEqs(insts)[i] == eq;
      }
    }
  }

  /** The generator's keys: the IN and the OUT key of every instruction. */
  lemma GenerateNames(insts: seq<(nat, L.Inst)>)
    ensures Names(Generate(insts)) == (set x | x in insts :: NameIn(x.0)) + (set x | x in insts :: NameOut(x.0))
  {
    GenerateMembers(insts);
    var lhs := Names(Generate(insts));
    var rhs := (set x | x in insts :: NameIn(x.0)) + (set x | x in insts :: NameOut(x.0));
    forall k | k in rhs ensures k in lhs {
      if k in (set x | x in insts :: NameIn(x.0)) {
        var x :| x in insts && k == NameIn(x.0);
        assert InEq(x.0, x.1.preds) in Generate(insts);
      } else {
        var x :| x in insts && k == NameOut(x.0);
        if x.1.BinOp? {
          assert BinOut(x.0, x.1.dst) in Generate(insts);
        } else {
          assert BtOut(x.0) in Generate(insts);
        }
      }
    }
  }

  /** The instruction an equation of the generator comes from. */
  predicate EquationOf(x: (nat, L.Inst), eq: Eq)
  {
    eq == InEq(x.0, x.1.preds) || (x.1.BinOp? && eq == BinOut(x.0, x.1.dst)) || (x.1.Bt? && eq == BtOut(x.0))
  }

  lemma SourceOf(insts: seq<(nat, L.Inst)>, eq: Eq) returns (x: (nat, L.Inst))
    requires eq in Generate(insts)
    ensures x in insts && EquationOf(x, eq)
  {
    GenerateMembers(insts);
    x :| x in insts && EquationOf(x, eq);
  }

  /** Two equations of one instruction with the same key are the same equation. */
  lemma SameKeySameEquation(x1: (nat, L.Inst), x2: (nat, L.Inst), e1: Eq, e2: Eq)
    requires EquationOf(x1, e1) && EquationOf(x2, e2)
    requires x1.0 == x2.0 ==> x1 == x2
    requires Name(e1) == Name(e2)
    ensures e1 == e2
  {
    NamesDistinct(x1.0, x2.0);
    NamesDistinct(x2.0, x1.0);
  }

  /** Instructions with distinct IDs give equations that never share a key unless they are the same. */
  lemma GenerateConsistent(insts: seq<(nat, L.Inst)>)
    requires forall x, y :: x in insts && y in insts && x.0 == y.0 ==> x == y
    ensures Consistent(Generate(insts))
  {
    forall e1, e2 | e1 in Generate(insts) && e2 in Generate(insts) && Name(e1) == Name(e2) ensures e1 == e2 {
      var x1 := SourceOf(insts, e1);
      var x2 := SourceOf(insts, e2);
      SameKeySameEquation(x1, x2, e1, e2);
    }
  }

  /**
   * The generator's equations read only keys they write exactly when every
   * predecessor of every instruction is itself among the instructions.
   */
  lemma GenerateWellKeyed(insts: seq<(nat, L.Inst)>)
    ensures WellKeyed(Generate(insts)) <==>
            forall x, p :: x in insts && p in x.1.preds ==> exists y :: y in insts && y.0 == p
  {
    var eqs := Generate(insts);
    GenerateMembers(insts);
    GenerateNames(insts);
    if WellKeyed(eqs) {
      forall x, p | x in insts && p in x.1.preds ensures exists y :: y in insts && y.0 == p {
        assert InEq(x.0, x.1.preds) in eqs;
        assert NameOut(p) in Reads(InEq(x.0, x.1.preds));
        var y :| y in insts && (NameOut(p) == NameIn(y.0) || NameOut(p) == NameOut(y.0));
        NamesDistinct(y.0, p);
      }
    }
    if forall x, p :: x in insts && p in x.1.preds ==> exists y :: y in insts && y.0 == p {
      forall eq | eq in eqs ensures Reads(eq) <= Names(eqs) {
        var x :| x in insts && (eq == InEq(x.0, x.1.preds) || (x.1.BinOp? && eq == BinOut(x.0, x.1.dst)) || (x.1.Bt? && eq == BtOut(x.0)));
        if eq.InEq? {
          forall k | k in Reads(eq) ensures k in Names(eqs) {
            var p :| p in eq.preds && k == NameOut(p);
            var y :| y in insts && y.0 == p;
          }
        }
      }
    }
  }

  /**
   * The generator's doctest: Add c a b (0) and Mul d c a (1) both flow into
   * Lth e c d (2); the first equation is OUT_0's and the last is IN_2's.
   */
  lemma GenerateExample()
    ensures var i0 := L.BinOp(L.AddOp, "c", "a", "b", [2], []);
            var i1 := L.BinOp(L.MulOp, "d", "c", "a", [2], []);
            var i2 := L.BinOp(L.LthOp, "e", "c", "d", [], [0, 1]);
            var sol := Generate([(0, i0), (1, i1), (2, i2)]);
            |sol| == 6 && sol[0] == BinOut(0, "c") && sol[|sol| - 1] == InEq(2, [0, 1])
  {
    var i0 := L.BinOp(L.AddOp, "c", "a", "b", [2], []);
    var i1 := L.BinOp(L.MulOp, "d", "c", "a", [2], []);
    var i2 := L.BinOp(L.LthOp, "e", "c", "d", [], [0, 1]);
    var insts := [(0, i0), (1, i1), (2, i2)];
    GenerateOrder(insts);
    assert insts[1..] == [(1, i1), (2, i2)];
  }

  /** The equations of the `abstract_interp` doctest: Add c a b (0) flows into Mul d c a (1). */
  function ExampleEqs(): seq<Eq>
  {
    [BinOut(0, "c"), BinOut(1, "d"), InEq(0, []), InEq(1, [0])]
  }

  function ExampleSolution(): FactEnv
  {
    map["IN_0" := {}, "OUT_0" := {("c", 0)}, "IN_1" := {("c", 0)}, "OUT_1" := {("c", 0), ("d", 1)}]
  }

  lemma ExampleNames()
    ensures Names(ExampleEqs()) == {"OUT_0", "OUT_1", "IN_0", "IN_1"}
  {
    var eqs := ExampleEqs();
    assert NameIn(0) == "IN_0" && NameOut(0) == "OUT_0" && NameIn(1) == "IN_1" && NameOut(1) == "OUT_1";
    assert Name(eqs[0]) == "OUT_0" && Name(eqs[1]) == "OUT_1" && Name(eqs[2]) == "IN_0" && Name(eqs[3]) == "IN_1";
    assert eqs[0] in eqs && eqs[1] in eqs && eqs[2] in eqs && eqs[3] in eqs;
    forall k | k in Names(eqs) ensures k in {"OUT_0", "OUT_1", "IN_0", "IN_1"} {
      var eq :| eq in eqs && k == Name(eq);
      var j :| 0 <= j < 4 && eqs[j] == eq;
    }
  }

  /** The four keys of the doctest's system, all different. */
  lemma ExampleKeys()
    ensures NameIn(0) == "IN_0" && NameOut(0) == "OUT_0" && NameIn(1) == "IN_1" && NameOut(1) == "OUT_1"
    ensures "IN_0" != "IN_1" && "OUT_0" != "OUT_1"
    ensures "IN_0" != "OUT_0" && "IN_0" != "OUT_1" && "IN_1" != "OUT_0" && "IN_1" != "OUT_1"
  {
    NamesDistinct(0, 1);
    NamesDistinct(1, 0);
    NamesDistinct(0, 0);
    NamesDistinct(1, 1);
  }

  /** The OUT equations of the doctest's system hold for the expected sets. */
  lemma ExampleOutsHold()
    ensures EvalAux(BinOut(0, "c"), ExampleSolution()) == Ok({("c", 0)})
    ensures EvalAux(BinOut(1, "d"), ExampleSolution()) == Ok({("c", 0), ("d", 1)})
  {
    ExampleKeys();
    var m := ExampleSolution();
    assert "d" != "c" by { assert "d"[0] != "c"[0]; }
    assert Lookup(m, NameIn(0)) == Ok({}) && Lookup(m, NameIn(1)) == Ok({("c", 0)});
    assert Kill({}, "c") == {};
    assert Kill({("c", 0)}, "d") == {("c", 0)};
    assert {} + {("c", 0)} == {("c", 0)};
    assert {("c", 0)} + {("d", 1)} == {("c", 0), ("d", 1)};
  }

  /** The IN equations of the doctest's system hold for the expected sets. */
  lemma ExampleInsHold()
    ensures EvalAux(InEq(0, []), ExampleSolution()) == Ok({})
    ensures EvalAux(InEq(1, [0]), ExampleSolution()) == Ok({("c", 0)})
  {
    ExampleKeys();
    var m := ExampleSolution();
    var ps: seq<nat> := [0];
    assert ps[..0] == [];
    assert UnionOuts(ps[..0], m) == Ok({});
    assert Lookup(m, NameOut(0)) == Ok({("c", 0)});
    assert {} + {("c", 0)} == {("c", 0)};
  }

  /** The doctest's expected sets solve its system. */
  lemma ExampleSolutionSolves()
    ensures IsSolution(ExampleEqs(), ExampleSolution())
  {
    var eqs := ExampleEqs();
    var m := ExampleSolution();
    ExampleNames();
    ExampleKeys();
    ExampleOutsHold();
    ExampleInsHold();
    assert Name(eqs[0]) == "OUT_0" && Name(eqs[1]) == "OUT_1" && Name(eqs[2]) == "IN_0" && Name(eqs[3]) == "IN_1";
    assert m["IN_0"] == {} && m["OUT_0"] == {("c", 0)} && m["IN_1"] == {("c", 0)} && m["OUT_1"] == {("c", 0), ("d", 1)};
    forall eq | eq in eqs ensures EvalAux(eq, m) == Ok(m[Name(eq)]) {
      var j :| 0 <= j < 4 && eqs[j] == eq;
    }
  }

  /** Each key of a solution of the doctest's system holds the expected set. */
  lemma ExampleSolutionValues(m: FactEnv)
    requires IsSolution(ExampleEqs(), m)
    ensures m.Keys == {"OUT_0", "OUT_1", "IN_0", "IN_1"}
    ensures m["IN_0"] == {} && m["OUT_0"] == {("c", 0)}
    ensures m["IN_1"] == {("c", 0)} && m["OUT_1"] == {("c", 0), ("d", 1)}
  {
    var eqs := ExampleEqs();
    ExampleNames();
    ExampleKeys();
    assert "d" != "c" by { assert "d"[0] != "c"[0]; }
    var ps: seq<nat> := [0];
    assert ps[..0] == [];
    assert eqs[0] in eqs && eqs[1] in eqs && eqs[2] in eqs && eqs[3] in eqs;
    assert m["IN_0"] == {};
    assert Kill({}, "c") == {};
    assert m["OUT_0"] == {("c", 0)};
    assert InEq(1, ps) == eqs[3];
    assert m["IN_1"] == {("c", 0)};
    assert Kill({("c", 0)}, "d") == {("c", 0)};
  }

  /** Any solution of the doctest's system is the expected one. */
  lemma ExampleSolutionOnly(m: FactEnv)
    requires IsSolution(ExampleEqs(), m)
    ensures m == ExampleSolution()
    ensures m["IN_0"] == {} && m["OUT_0"] == {("c", 0)}
  {
    ExampleNames();
    ExampleSolutionValues(m);
    var e := ExampleSolution();
    assert m.Keys == e.Keys;
    forall k | k in m.Keys ensures m[k] == e[k] {
    }
  }

  /** The two instructions of the `abstract_interp` doctest generate its system. */
  lemma ExampleEquations(insts: seq<(nat, L.Inst)>)
    requires insts == [(0, L.BinOp(L.AddOp, "c", "a", "b", [1], [])), (1, L.BinOp(L.MulOp, "d", "c", "a", [], [0]))]
    ensures Generate(insts) == ExampleEqs()
  {
    assert insts[1..] == [insts[1]] && insts[1..][1..] == [];
    assert BinOutEqs(insts[1..][1..]) == [] && BtOutEqs(insts[1..][1..]) == [];
    assert BinOutEqs(insts[1..]) == [BinOut(1, "d")] && BtOutEqs(insts[1..]) == [];
    assert BinOutEqs(insts) == [BinOut(0, "c"), BinOut(1, "d")];
    assert BtOutEqs(insts) == [];
    assert InEqs(insts) == [InEq(0, []), InEq(1, [0])];
  }

  /** The doctest's system, generated from its instructions, is one the solver accepts. */
  lemma ExampleGenerates(insts: seq<(nat, L.Inst)>)
    requires insts == [(0, L.BinOp(L.AddOp, "c", "a", "b", [1], [])), (1, L.BinOp(L.MulOp, "d", "c", "a", [], [0]))]
    ensures Generate(insts) == ExampleEqs() && Consistent(ExampleEqs()) && WellKeyed(ExampleEqs())
  {
    ExampleEquations(insts);
    GenerateConsistent(insts);
    assert insts[0] in insts;
    assert forall x, p :: x in insts && p in x.1.preds ==> x == insts[1] && p == 0;
    GenerateWellKeyed(insts);
  }

  /**
   * The `abstract_interp` doctest, built as the source builds it: two
   * instructions created in a fresh arena, linked by `add_next`, turned into
   * equations and solved. IN_0 is empty and OUT_0 is {('c', 0)}.
   */
  method AbstractInterpExample() returns (in0: set<Fact>, out0: set<Fact>)
    ensures in0 == {} && out0 == {("c", 0)}
  {
    var g := new L.Graph();
    var i0 := g.NewBinOp(L.AddOp, "c", "a", "b");
    var i1 := g.NewBinOp(L.MulOp, "d", "c", "a");
    ghost var n := g.nodes;
    assert n == map[0 := L.BinOp(L.AddOp, "c", "a", "b", [], []), 1 := L.BinOp(L.MulOp, "d", "c", "a", [], [])];
    g.AddNext(i0, i1);
    ghost var n1 := n[0 := L.WithNext(n[0], 1)];
    assert n1[0] == L.BinOp(L.AddOp, "c", "a", "b", [1], []) && n1[1] == n[1];
    assert g.nodes == n1[1 := L.WithPred(n1[1], 0)];
    assert g.nodes[0] == L.BinOp(L.AddOp, "c", "a", "b", [1], []);
    assert g.nodes[1] == L.BinOp(L.MulOp, "d", "c", "a", [], [0]);
    var insts: seq<(nat, L.Inst)> := [(i0, g.nodes[i0]), (i1, g.nodes[i1])];
    ExampleGenerates(insts);
    var r := AbstractInterp(Generate(insts));
    assert r.Ok?;
    ExampleSolutionOnly(r.value);
    in0, out0 := r.value["IN_0"], r.value["OUT_0"];
  }
}
