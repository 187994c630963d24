/**
 * The three-address language of 23_DataFlow/lang.py: instructions linked
 * into a control-flow graph, a stack-shaped environment and an interpreter.
 *
 * Instructions live in an arena (`Graph.nodes`, keyed by their ID) instead of
 * referring to each other as objects; the class-wide `Inst.next_index`
 * counter is the arena's `nextIndex` field.
 */
module DataFlowLang {
  import opened Wrappers

  /** The Python values the programs store: ints, bools (a subtype of int) and None. */
  datatype Value = IntV(i: int) | BoolV(b: bool) | NoneV

  /** The int a value stands for in arithmetic: True is 1 and False is 0. */
  function AsInt(v: Value): int
    requires !v.NoneV?
  {
    match v
    case IntV(i) => i
    case BoolV(b) => if b then 1 else 0
  }

  /** Python truthiness: non-zero ints and True. */
  predicate Truthy(v: Value)
    requires !v.NoneV?
  {
    match v
    case IntV(i) => i != 0
    case BoolV(b) => b
  }

  datatype Op = AddOp | MulOp | LthOp | GeqOp

  /** `src0 op src1` on the operand values, as the `eval` of Add, Mul, Lth and Geq computes it. */
  function Apply(op: Op, a: Value, b: Value): Value
    requires !a.NoneV? && !b.NoneV?
  {
    match op
    case AddOp => IntV(AsInt(a) + AsInt(b))
    case MulOp => IntV(AsInt(a) * AsInt(b))
    case LthOp => BoolV(AsInt(a) < AsInt(b))
    case GeqOp => BoolV(AsInt(a) >= AsInt(b))
  }

  /**
   * An instruction: a binary operation `dst = src0 op src1` with its list of
   * successors, or a branch `bt cond` with a true and a false successor
   * (either may be missing) and the slot chosen by its last evaluation.
   * `preds` lists the instructions that registered this one as a successor.
   */
  datatype Inst =
    | BinOp(op: Op, dst: string, src0: string, src1: string, nexts: seq<nat>, preds: seq<nat>)
    | Bt(cond: string, trueDst: Option<nat>, falseDst: Option<nat>, preds: seq<nat>, nextIter: Option<nat>)

  /** The variables an instruction defines. */
  function Definition(i: Inst): set<string>
  {
    if i.BinOp? then {i.dst} else {}
  }

  /** The variables an instruction reads. */
  function Uses(i: Inst): set<string>
  {
    if i.BinOp? then {i.src0, i.src1} else {i.cond}
  }

  /** The IDs an instruction may continue with. */
  function Targets(i: Inst): set<nat>
  {
    match i
    case BinOp(_, _, _, _, nexts, _) => set t | t in nexts
    case Bt(_, t, f, _, _) =>
      (if t.Some? then {t.value} else {}) + (if f.Some? then {f.value} else {})
  }

  function PredSet(i: Inst): set<nat>
  {
    set p | p in i.preds
  }

  /** `p` appended to the predecessors of `i`. */
  function WithPred(i: Inst, p: nat): (r: Inst)
    ensures r.preds == i.preds + [p] && PredSet(r) == PredSet(i) + {p}
    ensures Targets(r) == Targets(i) && Definition(r) == Definition(i) && Uses(r) == Uses(i)
  {
    i.(preds := i.preds + [p])
  }

  /**
   * `add_next` on `i`: a binary operation appends `t` to its successors; a
   * branch overrides it and sets its false slot (slot 1).
   */
  function WithNext(i: Inst, t: nat): (r: Inst)
    ensures r.preds == i.preds && PredSet(r) == PredSet(i)
    ensures i.BinOp? ==> r.BinOp? && r.nexts == i.nexts + [t]
    ensures i.Bt? ==> r == i.(falseDst := Some(t))
    ensures t in Targets(r) && Targets(r) <= Targets(i) + {t}
  {
    match i
    case BinOp(_, _, _, _, nexts, _) => i.(nexts := nexts + [t])
    case Bt(_, _, _, _, _) => i.(falseDst := Some(t))
  }

  /** `add_true_next` on a branch: slot 0 becomes `t`. */
  function WithTrueNext(i: Inst, t: nat): (r: Inst)
    requires i.Bt?
    ensures r.preds == i.preds && PredSet(r) == PredSet(i)
    ensures t in Targets(r) && Targets(r) <= Targets(i) + {t}
  {
    i.(trueDst := Some(t))
  }

  /** Every target and every predecessor of every instruction is in the arena. */
  predicate Closed(nodes: map<nat, Inst>)
  {
    forall id :: id in nodes ==> Targets(nodes[id]) <= nodes.Keys && PredSet(nodes[id]) <= nodes.Keys
  }

  /** Every edge `s -> t` of the arena, except those in `e`, is registered among the predecessors of `t`. */
  predicate RegisteredBut(nodes: map<nat, Inst>, e: set<(nat, nat)>)
  {
    forall s, t :: s in nodes && t in nodes && t in Targets(nodes[s]) && (s, t) !in e ==> s in PredSet(nodes[t])
  }

  /** Whenever `s` continues with `t`, `s` is registered among the predecessors of `t`. */
  predicate PredsInverse(nodes: map<nat, Inst>)
  {
    RegisteredBut(nodes, {})
  }

  /** The arena of instructions and the ID counter. */
  class Graph {
    var nodes: map<nat, Inst>
    var nextIndex: nat

    ghost predicate Valid()
      reads this
    {
      (forall id :: id in nodes ==> id < nextIndex) && Closed(nodes) && PredsInverse(nodes)
    }

    /** An empty arena with the counter at 0, as the doctests reset `Inst.next_index = 0`. */
    constructor ()
      ensures Valid() && nodes == map[] && nextIndex == 0
    {
      nodes := map[];
      nextIndex := 0;
    }

    /** `BinOp.__init__`: the new instruction takes the counter as its ID, then the counter grows. */
    method NewBinOp(op: Op, dst: string, src0: string, src1: string) returns (id: nat)
      requires Valid()
      modifies this
      ensures Valid()
      ensures id == old(nextIndex) && id !in old(nodes) && nextIndex == id + 1
      ensures nodes == old(nodes)[id := BinOp(op, dst, src0, src1, [], [])]
    {
      id := nextIndex;
      nextIndex := nextIndex + 1;
      nodes := nodes[id := BinOp(op, dst, src0, src1, [], [])];
    }

    /** `Bt.__init__`: a branch with both slots set, registered in the predecessors of each present target. */
    method NewBt(cond: string, t: Option<nat>, f: Option<nat>) returns (id: nat)
      requires Valid()
      requires t.Some? ==> t.value in nodes
      requires f.Some? ==> f.value in nodes
      modifies this
      ensures Valid()
      ensures id == old(nextIndex) && id !in old(nodes) && nextIndex == id + 1
      ensures nodes == AddPred(AddPred(old(nodes)[id := Bt(cond, t, f, [], None)], t, id), f, id)
      ensures t.Some? ==> id in PredSet(nodes[t.value])
      ensures f.Some? ==> id in PredSet(nodes[f.value])
    {
      id := nextIndex;
      nextIndex := nextIndex + 1;
      NewBtKeepsValid(nodes, id, Bt(cond, t, f, [], None));
      nodes := AddPred(AddPred(nodes[id := Bt(cond, t, f, [], None)], t, id), f, id);
    }

    /**
     * `add_next(src, dst)`: the edge is appended to the successors of `src`
     * (or, for a branch, replaces its false slot) and `src` is appended to
     * the predecessors of `dst`. Duplicate edges and self-loops are kept.
     */
    method AddNext(src: nat, dst: nat)
      requires Valid() && src in nodes && dst in nodes
      modifies this
      ensures Valid() && nextIndex == old(nextIndex)
      ensures nodes == AddPred(old(nodes)[src := WithNext(old(nodes)[src], dst)], Some(dst), src)
      ensures dst in Targets(nodes[src]) && src in PredSet(nodes[dst])
    {
      LinkKeepsValid(nodes, src, dst, WithNext(nodes[src], dst));
      nodes := AddPred(nodes[src := WithNext(nodes[src], dst)], Some(dst), src);
    }

    /** `Bt.add_true_next(src, dst)`: slot 0 of the branch becomes `dst`; the old target keeps its stale entry. */
    method AddTrueNext(src: nat, dst: nat)
      requires Valid() && src in nodes && dst in nodes && nodes[src].Bt?
      modifies this
      ensures Valid() && nextIndex == old(nextIndex)
      ensures nodes == AddPred(old(nodes)[src := WithTrueNext(old(nodes)[src], dst)], Some(dst), src)
      ensures dst in Targets(nodes[src]) && src in PredSet(nodes[dst])
    {
      LinkKeepsValid(nodes, src, dst, WithTrueNext(nodes[src], dst));
      nodes := AddPred(nodes[src := WithTrueNext(nodes[src], dst)], Some(dst), src);
    }

    /** `inst.eval(env)` for the instruction `id`: a branch records the slot it takes. */
    method Eval(id: nat, env: Env) returns (r: Result<()>)
      requires id in nodes
      modifies this, env
      ensures nextIndex == old(nextIndex)
      ensures match ExecInst(old(nodes[id]), old(env.stack))
              case Ok(res) => r.Ok? && nodes == old(nodes)[id := res.0] && env.stack == res.1
              case Err(e) => r == Err(e) && nodes == old(nodes) && env.stack == old(env.stack)
    {
      var inst := nodes[id];
      match inst {
        case BinOp(op, dst, src0, src1, _, _) =>
          var a := env.Get(src0);
          if a.Err? { return Err(a.error); }
          var b := env.Get(src1);
          if b.Err? { return Err(b.error); }
          env.Set(dst, Apply(op, a.value, b.value));
          return Ok(());
        case Bt(cond, _, _, _, _) =>
          var c := env.Get(cond);
          if c.Err? { return Err(c.error); }
          nodes := nodes[id := inst.(nextIter := Some(if Truthy(c.value) then 0 else 1))];
          return Ok(());
      }
    }
  }

  /** `target.preds.append(p)` when a target is present. */
  function AddPred(nodes: map<nat, Inst>, target: Option<nat>, p: nat): (r: map<nat, Inst>)
    requires target.Some? ==> target.value in nodes
    ensures r.Keys == nodes.Keys
    ensures forall k :: k in r ==> Targets(r[k]) == Targets(nodes[k])
    ensures forall k :: k in r ==> PredSet(r[k]) == PredSet(nodes[k]) + (if target == Some(k) then {p} else {})
  {
    if target.Some? then nodes[target.value := WithPred(nodes[target.value], p)] else nodes
  }

  lemma AddPredKeepsClosed(n: map<nat, Inst>, target: Option<nat>, p: nat)
    requires Closed(n) && p in n && (target.Some? ==> target.value in n)
    ensures Closed(AddPred(n, target, p))
  {
    var r := AddPred(n, target, p);
    forall k | k in r ensures Targets(r[k]) <= r.Keys && PredSet(r[k]) <= r.Keys {
      assert Targets(r[k]) == Targets(n[k]);
    }
  }

  /** Registering `p` with `target` settles the edge `p -> target` and keeps every registration. */
  lemma AddPredRegisters(n: map<nat, Inst>, target: Option<nat>, p: nat, e: set<(nat, nat)>)
    requires (target.Some? ==> target.value in n) && RegisteredBut(n, e)
    ensures RegisteredBut(AddPred(n, target, p), if target.Some? then e - {(p, target.value)} else e)
  {
    var r := AddPred(n, target, p);
    var e' := if target.Some? then e - {(p, target.value)} else e;
    forall s, t | s in r && t in r && t in Targets(r[s]) && (s, t) !in e' ensures s in PredSet(r[t]) {
      assert Targets(r[s]) == Targets(n[s]);
      assert PredSet(n[t]) <= PredSet(r[t]);
    }
  }

  /** Creating a branch keeps the arena closed and every edge registered. */
  lemma NewBtKeepsValid(n0: map<nat, Inst>, id: nat, b: Inst)
    requires Closed(n0) && PredsInverse(n0) && id !in n0 && b.Bt?
    requires b.trueDst.Some? ==> b.trueDst.value in n0
    requires b.falseDst.Some? ==> b.falseDst.value in n0
    requires b.preds == []
    ensures var n3 := AddPred(AddPred(n0[id := b], b.trueDst, id), b.falseDst, id);
            Closed(n3) && PredsInverse(n3)
  {
    var n1 := n0[id := b];
    assert PredSet(b) == {};
    assert Closed(n1) by {
      forall k | k in n1 ensures Targets(n1[k]) <= n1.Keys && PredSet(n1[k]) <= n1.Keys {
        if k != id {
          assert n1[k] == n0[k];
        }
      }
    }
    var e1 := (if b.trueDst.Some? then {(id, b.trueDst.value)} else {}) + (if b.falseDst.Some? then {(id, b.falseDst.value)} else {});
    assert RegisteredBut(n1, e1) by {
      forall s, t | s in n1 && t in n1 && t in Targets(n1[s]) && (s, t) !in e1 ensures s in PredSet(n1[t]) {
        if s == id {
          assert false;
        } else {
          assert n1[s] == n0[s];
          assert t != id;
          assert n1[t] == n0[t];
        }
      }
    }
    var n2 := AddPred(n1, b.trueDst, id);
    AddPredKeepsClosed(n1, b.trueDst, id);
    AddPredRegisters(n1, b.trueDst, id, e1);
    var e2 := if b.trueDst.Some? then e1 - {(id, b.trueDst.value)} else e1;
    AddPredKeepsClosed(n2, b.falseDst, id);
    AddPredRegisters(n2, b.falseDst, id, e2);
    var e3 := if b.falseDst.Some? then e2 - {(id, b.falseDst.value)} else e2;
    assert e3 == {};
  }

  /** Linking `src` to `dst` keeps the arena closed and every edge registered in its target's predecessors. */
  lemma LinkKeepsValid(n0: map<nat, Inst>, src: nat, dst: nat, b: Inst)
    requires Closed(n0) && PredsInverse(n0) && src in n0 && dst in n0
    requires PredSet(b) == PredSet(n0[src])
    requires dst in Targets(b) && Targets(b) <= Targets(n0[src]) + {dst}
    ensures var n2 := AddPred(n0[src := b], Some(dst), src);
            Closed(n2) && PredsInverse(n2) && dst in Targets(n2[src]) && src in PredSet(n2[dst])
  {
    var n1 := n0[src := b];
    assert Closed(n1) by {
      forall k | k in n1 ensures Targets(n1[k]) <= n1.Keys && PredSet(n1[k]) <= n1.Keys {
        if k != src {
          assert n1[k] == n0[k];
        }
      }
    }
    assert RegisteredBut(n1, {(src, dst)}) by {
      forall s, t | s in n1 && t in n1 && t in Targets(n1[s]) && (s, t) !in {(src, dst)} ensures s in PredSet(n1[t]) {
        assert t in Targets(n0[s]);
        assert s in PredSet(n0[t]);
        assert PredSet(n1[t]) == PredSet(n0[t]);
      }
    }
    AddPredKeepsClosed(n1, Some(dst), src);
    AddPredRegisters(n1, Some(dst), src, {(src, dst)});
    assert {(src, dst)} - {(src, dst)} == {};
  }

  /** The first binding of `x` in the stack, if any. */
  function FirstBinding(stack: seq<(string, Value)>, x: string): Option<Value>
  {
    if |stack| == 0 then None
    else if stack[0].0 == x then Some(stack[0].1)
    else FirstBinding(stack[1..], x)
  }

  /** `FirstBinding` finds the binding of `x` nearest the top, and finds one whenever `x` is bound at all. */
  lemma {:induction false} FirstBindingIsNearest(stack: seq<(string, Value)>, x: string)
    ensures FirstBinding(stack, x).Some? <==> exists i :: 0 <= i < |stack| && stack[i].0 == x
    ensures FirstBinding(stack, x).Some? ==>
              exists i :: 0 <= i < |stack| && stack[i] == (x, FirstBinding(stack, x).value) &&
                          forall j :: 0 <= j < i ==> stack[j].0 != x
  {
    if |stack| > 0 && stack[0].0 != x {
      var tl := stack[1..];
      FirstBindingIsNearest(tl, x);
      assert forall i :: 1 <= i < |stack| ==> tl[i - 1] == stack[i];
      if FirstBinding(tl, x).Some? {
        var i :| 0 <= i < |tl| && tl[i] == (x, FirstBinding(tl, x).value) && forall j :: 0 <= j < i ==> tl[j].0 != x;
        assert stack[i + 1] == tl[i];
      }
    }
  }

  /** `Env.get` on a binding stack: the most recent binding, which must exist and must not be None. */
  function GetIn(stack: seq<(string, Value)>, x: string): (r: Result<Value>)
    ensures r.Ok? ==> !r.value.NoneV?
  {
    var v := FirstBinding(stack, x);
    if v.Some? && !v.value.NoneV? then Ok(v.value) else Err(LookupError("Absent key " + x))
  }

  /** A pushed binding shadows older bindings of the same name and leaves other names alone. */
  lemma {:induction false} GetAfterSet(stack: seq<(string, Value)>, x: string, v: Value, y: string)
    ensures GetIn([(x, v)] + stack, y) ==
            if y != x then GetIn(stack, y)
            else if v.NoneV? then Err(LookupError("Absent key " + x)) else Ok(v)
  {
    var s := [(x, v)] + stack;
    assert s[1..] == stack;
  }

  /** The stack-shaped environment: `stack[0]` is the most recent binding (the left end of the deque). */
  class Env {
    var stack: seq<(string, Value)>

    /** `Env(initial_args)`: each initial pair is pushed in order, so the last one ends up on top. */
    constructor (initial: seq<(string, Value)>)
      ensures stack == Reversed(initial)
    {
      var s := [];
      var k := 0;
      while k < |initial|
        invariant 0 <= k <= |initial|
        invariant s == Reversed(initial[..k])
      {
        assert initial[..k + 1][..k] == initial[..k];
        s := [initial[k]] + s;
        k := k + 1;
      }
      assert initial[..k] == initial;
      stack := s;
    }

    /** `Env.get(var)`. */
    function Get(x: string): Result<Value>
      reads this
    {
      GetIn(stack, x)
    }

    /** `Env.set(var, value)`: push a binding; older bindings stay below it. */
    method Set(x: string, v: Value)
      modifies this
      ensures stack == [(x, v)] + old(stack)
    {
      stack := [(x, v)] + stack;
    }
  }

  function Reversed<T>(s: seq<T>): (r: seq<T>)
    ensures |r| == |s|
  {
    if |s| == 0 then [] else [s[|s| - 1]] + Reversed(s[..|s| - 1])
  }

  /**
   * `inst.eval(env)` as a function of the instruction and the binding stack:
   * a binary operation reads src0, then src1, and pushes dst; a branch reads
   * cond and records slot 0 when it is truthy, slot 1 otherwise.
   */
  function ExecInst(inst: Inst, stack: seq<(string, Value)>): (r: Result<(Inst, seq<(string, Value)>)>)
    ensures r.Ok? <==> forall x :: x in Uses(inst) ==> GetIn(stack, x).Ok?
    ensures r.Err? ==> r.error.LookupError?
  {
    match inst
    case BinOp(op, dst, src0, src1, _, _) =>
      var a := GetIn(stack, src0);
      if a.Err? then Err(a.error)
      else
        var b := GetIn(stack, src1);
        if b.Err? then Err(b.error)
        else Ok((inst, [(dst, Apply(op, a.value, b.value))] + stack))
    case Bt(cond, _, _, _, _) =>
      var c := GetIn(stack, cond);
      if c.Err? then Err(c.error)
      else Ok((inst.(nextIter := Some(if Truthy(c.value) then 0 else 1)), stack))
  }

  /**
   * Evaluation writes only what `definition()` names and keeps everything
   * else: a binary operation pushes one binding of dst; a branch changes no
   * binding and only its chosen slot; the edges stay as they were.
   */
  lemma ExecWritesDefinition(inst: Inst, stack: seq<(string, Value)>)
    requires ExecInst(inst, stack).Ok?
    ensures var (i2, s2) := ExecInst(inst, stack).value;
            Targets(i2) == Targets(inst) && i2.preds == inst.preds &&
            (inst.BinOp? ==> i2 == inst && |s2| == |stack| + 1 && s2[1..] == stack && s2[0].0 in Definition(inst)) &&
            (inst.Bt? ==> s2 == stack && i2.nextIter.Some? && i2.nextIter.value in {0, 1})
  {
  }

  /** Evaluation reads only what `uses()` names: stacks that agree on those variables give the same outcome. */
  lemma ExecReadsUses(inst: Inst, s1: seq<(string, Value)>, s2: seq<(string, Value)>)
    requires forall x :: x in Uses(inst) ==> GetIn(s1, x) == GetIn(s2, x)
    ensures ExecInst(inst, s1).Ok? <==> ExecInst(inst, s2).Ok?
    ensures ExecInst(inst, s1).Ok? ==> ExecInst(inst, s1).value.0 == ExecInst(inst, s2).value.0
    ensures ExecInst(inst, s1).Ok? && inst.BinOp? ==> ExecInst(inst, s1).value.1[0] == ExecInst(inst, s2).value.1[0]
  {
  }

  /**
   * `get_next()`: a binary operation continues with its first successor, or
   * nowhere; a branch continues with the slot its evaluation chose, and has
   * no `next_iter` attribute before its first evaluation.
   */
  function NextOf(inst: Inst): (r: Result<Option<nat>>)
    ensures r.Ok? && r.value.Some? ==> r.value.value in Targets(inst)
    ensures inst.BinOp? ==> r.Ok? && (r.value.None? <==> |inst.nexts| == 0)
    ensures inst.Bt? ==> (r.Ok? <==> inst.nextIter.Some?)
  {
    match inst
    case BinOp(_, _, _, _, nexts, _) =>
      if |nexts| > 0 then Ok(Some(nexts[0])) else Ok(None)
    case Bt(_, t, f, _, it) =>
      if it.None? then Err(AttributeError("next_iter"))
      else if it.value == 0 then Ok(t) else Ok(f)
  }

  datatype Outcome = Finished | Raised(error: Exc) | OutOfFuel

  /** After a successful evaluation `get_next()` never fails: a branch has just recorded its slot. */
  lemma NextAfterExec(inst: Inst, stack: seq<(string, Value)>)
    requires ExecInst(inst, stack).Ok?
    ensures NextOf(ExecInst(inst, stack).value.0).Ok?
    ensures PredSet(ExecInst(inst, stack).value.0) == PredSet(inst)
    ensures Targets(ExecInst(inst, stack).value.0) == Targets(inst)
  {
  }

  /**
   * `interp(instruction, env)`: evaluate the current instruction, then go on
   * with its `get_next()` until there is none. The recursion is bounded by
   * `fuel` calls; running out is reported as `OutOfFuel`.
   */
  function Run(nodes: map<nat, Inst>, stack: seq<(string, Value)>, cur: Option<nat>, fuel: nat)
    : (r: (map<nat, Inst>, seq<(string, Value)>, Outcome))
    requires Closed(nodes) && (cur.Some? ==> cur.value in nodes)
    ensures Closed(r.0) && r.0.Keys == nodes.Keys
    decreases fuel
  {
    if cur.None? then (nodes, stack, Finished)
    else if fuel == 0 then (nodes, stack, OutOfFuel)
    else
      var inst := nodes[cur.value];
      match ExecInst(inst, stack)
      case Err(e) => (nodes, stack, Raised(e))
      case Ok(res) =>
        NextAfterExec(inst, stack);
        Run(nodes[cur.value := res.0], res.1, NextOf(res.0).value, fuel - 1)
  }

  /** Running a program only pushes bindings: the initial stack stays at the bottom. */
  lemma {:induction false} RunKeepsOldBindings(nodes: map<nat, Inst>, stack: seq<(string, Value)>, cur: Option<nat>, fuel: nat)
    requires Closed(nodes) && (cur.Some? ==> cur.value in nodes)
    ensures var s := Run(nodes, stack, cur, fuel).1;
            |s| >= |stack| && s[|s| - |stack|..] == stack
    decreases fuel
  {
    if cur.Some? && fuel > 0 {
      var inst := nodes[cur.value];
      var ex := ExecInst(inst, stack);
      if ex.Ok? {
        NextAfterExec(inst, stack);
        var s1 := ex.value.1;
        var nodes' := nodes[cur.value := ex.value.0];
        RunKeepsOldBindings(nodes', s1, NextOf(ex.value.0).value, fuel - 1);
        var s := Run(nodes', s1, NextOf(ex.value.0).value, fuel - 1).1;
        ExecWritesDefinition(inst, stack);
        assert s1[|s1| - |stack|..] == stack;
        SuffixOfSuffix(s, s1, stack);
      }
    }
  }

  lemma SuffixOfSuffix<T>(s: seq<T>, s1: seq<T>, s0: seq<T>)
    requires |s| >= |s1| >= |s0|
    requires s[|s| - |s1|..] == s1 && s1[|s1| - |s0|..] == s0
    ensures s[|s| - |s0|..] == s0
  {
    assert s[|s| - |s0|..] == s[|s| - |s1|..][|s1| - |s0|..];
  }

  /** Running a program changes no edge: every instruction keeps its targets and predecessors. */
  lemma {:induction false} RunKeepsEdges(nodes: map<nat, Inst>, stack: seq<(string, Value)>, cur: Option<nat>, fuel: nat)
    requires Closed(nodes) && (cur.Some? ==> cur.value in nodes)
    ensures var n := Run(nodes, stack, cur, fuel).0;
            forall id :: id in nodes ==> Targets(n[id]) == Targets(nodes[id]) && n[id].preds == nodes[id].preds
    decreases fuel
  {
    if cur.Some? && fuel > 0 {
      var inst := nodes[cur.value];
      var ex := ExecInst(inst, stack);
      if ex.Ok? {
        NextAfterExec(inst, stack);
        ExecWritesDefinition(inst, stack);
        var nodes' := nodes[cur.value := ex.value.0];
        RunKeepsEdges(nodes', ex.value.1, NextOf(ex.value.0).value, fuel - 1);
        var n := Run(nodes', ex.value.1, NextOf(ex.value.0).value, fuel - 1).0;
        assert Run(nodes, stack, cur, fuel).0 == n;
        forall id | id in nodes
          ensures Targets(n[id]) == Targets(nodes[id]) && n[id].preds == nodes[id].preds
        {
          assert id in nodes';
        }
      }
    }
  }

  /** `interp(instruction, env)`, evaluating and recursing along `get_next()` until it gives None. */
  method Interp(g: Graph, cur: Option<nat>, env: Env, fuel: nat) returns (outcome: Outcome)
    requires Closed(g.nodes) && (cur.Some? ==> cur.value in g.nodes)
    modifies g, env
    ensures (g.nodes, env.stack, outcome) == Run(old(g.nodes), old(env.stack), cur, fuel)
    ensures g.nextIndex == old(g.nextIndex)
    decreases fuel
  {
    if cur.None? {
      return Finished;
    }
    if fuel == 0 {
      return OutOfFuel;
    }
    ghost var inst := g.nodes[cur.value];
    var r := g.Eval(cur.value, env);
    if r.Err? {
      return Raised(r.error);
    }
    NextAfterExec(inst, old(env.stack));
    var next := NextOf(g.nodes[cur.value]);
    outcome := Interp(g, next.value, env, fuel - 1);
  }

  /** One step of `interp`: an instruction that runs without error hands over to its successor. */
  lemma RunStep(nodes: map<nat, Inst>, stack: seq<(string, Value)>, c: nat, fuel: nat,
                inst': Inst, stack': seq<(string, Value)>, next: Option<nat>)
    requires Closed(nodes) && c in nodes && fuel > 0
    requires ExecInst(nodes[c], stack) == Ok((inst', stack')) && NextOf(inst') == Ok(next)
    ensures Closed(nodes[c := inst']) && (next.Some? ==> next.value in nodes)
    ensures Run(nodes, stack, Some(c), fuel) == Run(nodes[c := inst'], stack', next, fuel - 1)
  {
    NextAfterExec(nodes[c], stack);
  }

  /** The instructions of the `interp` doctest, each run once on the stack it meets. */
  lemma InterpExampleSteps(start: seq<(string, Value)>, s1: seq<(string, Value)>, s2: seq<(string, Value)>)
    requires start == [("zero", IntV(0)), ("n", IntV(2)), ("m", IntV(3))]
    requires s1 == [("p", BoolV(true))] + start && s2 == [("answer", IntV(2))] + s1
    ensures ExecInst(BinOp(LthOp, "p", "n", "m", [3], []), start) == Ok((BinOp(LthOp, "p", "n", "m", [3], []), s1))
    ensures ExecInst(Bt("p", Some(1), Some(0), [2], None), s1) == Ok((Bt("p", Some(1), Some(0), [2], Some(0)), s1))
    ensures ExecInst(BinOp(AddOp, "answer", "n", "zero", [], [3]), s1) == Ok((BinOp(AddOp, "answer", "n", "zero", [], [3]), s2))
    ensures GetIn(s2, "answer") == Ok(IntV(2))
  {
    var tail := [("m", IntV(3))];
    GetAfterSet([], "m", IntV(3), "m");
    assert [("m", IntV(3))] + [] == tail;
    GetAfterSet(tail, "n", IntV(2), "m");
    GetAfterSet(tail, "n", IntV(2), "n");
    assert [("n", IntV(2))] + tail == start[1..];
    GetAfterSet(start[1..], "zero", IntV(0), "m");
    GetAfterSet(start[1..], "zero", IntV(0), "n");
    GetAfterSet(start[1..], "zero", IntV(0), "zero");
    assert [("zero", IntV(0))] + start[1..] == start;
    assert GetIn(start, "n") == Ok(IntV(2)) && GetIn(start, "m") == Ok(IntV(3));
    assert GetIn(s1, "p") == Ok(BoolV(true));
    assert GetIn(start, "zero") == Ok(IntV(0));
    assert GetIn(s1, "n") == Ok(IntV(2)) && GetIn(s1, "zero") == Ok(IntV(0)) by {
      assert s1[1..] == start;
    }
  }

  /**
   * The `interp` doctest: `Env({"m": 3, "n": 2, "zero": 0})` pushes m, n and
   * zero in that order; `p = n < m` is true, so the branch takes
   * `answer = n + zero` and answer is 2.
   */
  lemma InterpExample()
    ensures var p := BinOp(LthOp, "p", "n", "m", [3], []);
            var nMin := BinOp(AddOp, "answer", "n", "zero", [], [3]);
            var mMin := BinOp(AddOp, "answer", "m", "zero", [], [3]);
            var b := Bt("p", Some(1), Some(0), [2], None);
            var nodes := map[0 := mMin, 1 := nMin, 2 := p, 3 := b];
            Closed(nodes) &&
            var r := Run(nodes, [("zero", IntV(0)), ("n", IntV(2)), ("m", IntV(3))], Some(2), 3);
            r.2 == Finished && GetIn(r.1, "answer") == Ok(IntV(2))
  {
    var p := BinOp(LthOp, "p", "n", "m", [3], []);
    var nMin := BinOp(AddOp, "answer", "n", "zero", [], [3]);
    var mMin := BinOp(AddOp, "answer", "m", "zero", [], [3]);
    var b := Bt("p", Some(1), Some(0), [2], None);
    var nodes := map[0 := mMin, 1 := nMin, 2 := p, 3 := b];
    var start := [("zero", IntV(0)), ("n", IntV(2)), ("m", IntV(3))];
    assert Targets(p) == {3} && Targets(nMin) == {} && Targets(mMin) == {};
    assert Closed(nodes);
    var s1 := [("p", BoolV(true))] + start;
    var s2 := [("answer", IntV(2))] + s1;
    var b2 := b.(nextIter := Some(0));
    InterpExampleSteps(start, s1, s2);
    assert NextOf(p) == Ok(Some(3)) && NextOf(b2) == Ok(Some(1)) && NextOf(nMin) == Ok(None);
    assert nodes[2 := p] == nodes;
    RunStep(nodes, start, 2, 3, p, s1, Some(3));
    var nodes2 := nodes[3 := b2];
    RunStep(nodes, s1, 3, 2, b2, s1, Some(1));
    RunStep(nodes2, s1, 1, 1, nMin, s2, None);
    assert Run(nodes2[1 := nMin], s2, None, 0) == (nodes2[1 := nMin], s2, Finished);
  }
}
