/**
 * Arithmetic expressions as bare binary trees: a node holds a value (a
 * number, or an operator's text) and up to two children. A node with no
 * children is an operand; `None` stands for a missing child. Also the
 * class-based trees' `print_infix`, whose recursive case is never reached.
 */
module ArithRepresentation {
  import opened Wrappers
  import Decimal
  import ArithPrinters
  import Arith

  /** What a node holds: an int, or a string such as "+" or "23". */
  datatype Label = LInt(n: int) | LStr(s: string)

  /** A tree, with `Nil` for Python's `None`. */
  datatype Tree = Nil | Node(value: Label, left: Tree, right: Tree)

  predicate IsLeaf(t: Tree) {
    t.Node? && t.left.Nil? && t.right.Nil?
  }

  /** `str(value)`. */
  function LabelText(v: Label): string {
    match v
    case LInt(n) => Decimal.IntToString(n)
    case LStr(s) => s
  }

  /** `int(value)`: an int is itself; a string is read as a decimal numeral. */
  function IntOf(v: Label): (r: Result<int>)
    ensures v.LInt? ==> r == Ok(v.n)
    ensures v.LStr? && |v.s| > 0 && Decimal.AllDigits(v.s) ==> r == Ok(Decimal.DigitsToNat(v.s))
    ensures r.Err? ==> v.LStr? && r.error.ValueError?
  {
    match v
    case LInt(n) => Ok(n)
    case LStr(s) =>
      Decimal.ParseDigits(s);
      Decimal.ParseInt(s)
  }

  /** An operand's printed text reads back as the operand: `int(str(value)) == int(value)`. */
  lemma IntOfLabelText(v: Label)
    ensures IntOf(LStr(LabelText(v))) == IntOf(v)
  {
    if v.LInt? {
      Decimal.ParseIntToString(v.n);
    }
  }

  /** Python's name for the class of an evaluation result. */
  function TypeName(v: Option<int>): string {
    if v.None? then "NoneType" else "int"
  }

  /** `a op b` on results that may be None: None takes part in no arithmetic. */
  function Combine(op: string, a: Option<int>, b: Option<int>): (r: Result<Option<int>>)
    requires op in {"+", "-", "*"}
    ensures r.Ok? <==> a.Some? && b.Some?
    ensures r.Ok? ==> r.value.Some?
    ensures r.Err? ==> r.error.TypeError?
  {
    if a.None? || b.None? then
      Err(TypeError("unsupported operand type(s) for " + op + ": '" + TypeName(a) + "' and '" + TypeName(b) + "'"))
    else if op == "+" then Ok(Some(a.value + b.value))
    else if op == "-" then Ok(Some(a.value - b.value))
    else Ok(Some(a.value * b.value))
  }

  /** No inner node holds "/", whose true division yields a float. */
  predicate NoTrueDivision(t: Tree) {
    match t
    case Nil => true
    case Node(v, l, r) => (IsLeaf(t) || v != LStr("/")) && NoTrueDivision(l) && NoTrueDivision(r)
  }

  /**
   * `evaluate(node)`: None is 0 and an operand is `int(value)`. An inner node
   * evaluates both children, then applies "+", "-" or "*"; any other value
   * falls off the end of the function and gives None.
   */
  function Evaluate(t: Tree): (r: Result<Option<int>>)
    requires NoTrueDivision(t)
    ensures t.Nil? ==> r == Ok(Some(0))
    ensures r.Ok? && r.value.None? ==> t.Node? && !IsLeaf(t) && t.value !in {LStr("+"), LStr("-"), LStr("*")}
  {
    match t
    case Nil => Ok(Some(0))
    case Node(v, l, r) =>
      if l.Nil? && r.Nil? then
        var n :- IntOf(v);
        Ok(Some(n))
      else
        var a :- Evaluate(l);
        var b :- Evaluate(r);
        if v == LStr("+") then Combine("+", a, b)
        else if v == LStr("-") then Combine("-", a, b)
        else if v == LStr("*") then Combine("*", a, b)
        else Ok(None)
  }

  /** `print_infix(node)`: "" for None, the value of an operand, else "(l v r)" with no spaces. */
  function Infix(t: Tree): string {
    match t
    case Nil => ""
    case Node(v, l, r) =>
      if l.Nil? && r.Nil? then LabelText(v)
      else "(" + Infix(l) + LabelText(v) + Infix(r) + ")"
  }

  /** `print_postfix(node)`: "" for None, else both children and then the value, each followed by one space. */
  function Postfix(t: Tree): string {
    match t
    case Nil => ""
    case Node(v, l, r) => Postfix(l) + Postfix(r) + LabelText(v) + " "
  }

  // Postfix text is the post-order walk, and that walk evaluates on a stack.

  /** The values of a tree in post-order: both children, then the node. */
  function PostOrder(t: Tree): seq<Label> {
    match t
    case Nil => []
    case Node(v, l, r) => PostOrder(l) + PostOrder(r) + [v]
  }

  /** Each value's text followed by a space. */
  function Spaced(vs: seq<Label>): string {
    if |vs| == 0 then "" else Spaced(vs[..|vs| - 1]) + LabelText(vs[|vs| - 1]) + " "
  }

  lemma {:induction false} SpacedAppend(a: seq<Label>, b: seq<Label>)
    ensures Spaced(a + b) == Spaced(a) + Spaced(b)
    decreases |b|
  {
    if |b| == 0 {
      assert a + b == a;
    } else {
      var b' := b[..|b| - 1];
      assert (a + b)[..|a + b| - 1] == a + b';
      assert (a + b)[|a + b| - 1] == b[|b| - 1];
      SpacedAppend(a, b');
    }
  }

  /** Spacing a walk made of two spaced parts and one more value. */
  lemma SpacedNode(pl: seq<Label>, pr: seq<Label>, v: Label, sl: string, sr: string)
    requires Spaced(pl) == sl && Spaced(pr) == sr
    ensures Spaced(pl + pr + [v]) == sl + sr + LabelText(v) + " "
  {
    SpacedAppend(pl, pr);
    SpacedAppend(pl + pr, [v]);
    assert Spaced([v]) == LabelText(v) + " " by {
      assert [v][..0] == [];
    }
  }

  /** The postfix text lists the post-order walk, one value per space-terminated field. */
  lemma {:induction false} PostfixIsPostOrder(t: Tree)
    ensures Postfix(t) == Spaced(PostOrder(t))
  {
    match t
    case Nil =>
    case Node(v, l, r) =>
      PostfixIsPostOrder(l);
      PostfixIsPostOrder(r);
      SpacedNode(PostOrder(l), PostOrder(r), v, Postfix(l), Postfix(r));
  }

  /**
   * A reverse Polish machine over the walk: a number is pushed; "+", "-" or
   * "*" pops two numbers and pushes the result; anything else, or an
   * operator with fewer than two numbers below it, stops the machine.
   */
  function RunStack(vs: seq<Label>, stack: seq<int>): Option<seq<int>>
    decreases |vs|
  {
    if |vs| == 0 then Some(stack)
    else
      match vs[0]
      case LInt(n) => RunStack(vs[1..], stack + [n])
      case LStr(s) =>
        if s in {"+", "-", "*"} && |stack| >= 2 then
          var a := stack[|stack| - 2];
          var b := stack[|stack| - 1];
          var c := if s == "+" then a + b else if s == "-" then a - b else a * b;
          RunStack(vs[1..], stack[..|stack| - 2] + [c])
        else None
  }

  /** A complete expression: int operands, and "+", "-" or "*" over two complete children. */
  predicate Complete(t: Tree) {
    match t
    case Nil => false
    case Node(v, l, r) =>
      if l.Nil? && r.Nil? then v.LInt?
      else v in {LStr("+"), LStr("-"), LStr("*")} && Complete(l) && Complete(r)
  }

  /** The value of a complete expression, read as ordinary arithmetic. */
  function ValueOf(t: Tree): int
    requires Complete(t)
  {
    if t.left.Nil? && t.right.Nil? then t.value.n
    else if t.value == LStr("+") then ValueOf(t.left) + ValueOf(t.right)
    else if t.value == LStr("-") then ValueOf(t.left) - ValueOf(t.right)
    else ValueOf(t.left) * ValueOf(t.right)
  }

  /** `evaluate` computes the arithmetic value of every complete expression, without error. */
  lemma {:induction false} CompleteEvaluates(t: Tree)
    requires Complete(t)
    ensures NoTrueDivision(t) && Evaluate(t) == Ok(Some(ValueOf(t)))
  {
    match t
    case Node(v, l, r) =>
      if !(l.Nil? && r.Nil?) {
        CompleteEvaluates(l);
        CompleteEvaluates(r);
      }
  }

  /**
   * Postfix order is stack order: running the post-order walk of a complete
   * expression pushes exactly its value, whatever lies below and whatever
   * follows.
   */
  lemma {:induction false} PostOrderRunsOnStack(t: Tree, rest: seq<Label>, stack: seq<int>)
    requires Complete(t)
    ensures RunStack(PostOrder(t) + rest, stack) == RunStack(rest, stack + [ValueOf(t)])
  {
    match t
    case Node(v, l, r) =>
      if l.Nil? && r.Nil? {
        assert PostOrder(t) + rest == [v] + rest;
        assert ([v] + rest)[1..] == rest;
      } else {
        var a := ValueOf(l);
        var b := ValueOf(r);
        assert PostOrder(t) + rest == PostOrder(l) + (PostOrder(r) + ([v] + rest));
        PostOrderRunsOnStack(l, PostOrder(r) + ([v] + rest), stack);
        PostOrderRunsOnStack(r, [v] + rest, stack + [a]);
        var st := stack + [a] + [b];
        assert st[|st| - 2] == a && st[|st| - 1] == b && st[..|st| - 2] == stack;
        assert ([v] + rest)[0] == v && ([v] + rest)[1..] == rest;
      }
  }

  /**
   * The postfix text of a complete expression lists its post-order walk, and
   * that walk run on an empty stack leaves exactly the value `evaluate` gives.
   */
  lemma PostfixEvaluates(t: Tree)
    requires Complete(t)
    ensures Postfix(t) == Spaced(PostOrder(t))
    ensures NoTrueDivision(t) && Evaluate(t) == Ok(Some(ValueOf(t)))
    ensures RunStack(PostOrder(t), []) == Some([ValueOf(t)])
  {
    PostfixIsPostOrder(t);
    CompleteEvaluates(t);
    PostOrderRunsOnStack(t, [], []);
    assert PostOrder(t) + [] == PostOrder(t);
    assert [] + [ValueOf(t)] == [ValueOf(t)];
  }

  // Infix text: one pair of parentheses per inner node.

  function Count(s: string, c: char): nat {
    if |s| == 0 then 0 else Count(s[..|s| - 1], c) + (if s[|s| - 1] == c then 1 else 0)
  }

  lemma {:induction false} CountAppend(a: string, b: string, c: char)
    ensures Count(a + b, c) == Count(a, c) + Count(b, c)
    decreases |b|
  {
    if |b| == 0 {
      assert a + b == a;
    } else {
      assert (a + b)[..|a + b| - 1] == a + b[..|b| - 1];
      CountAppend(a, b[..|b| - 1], c);
    }
  }

  function InnerNodes(t: Tree): nat {
    match t
    case Nil => 0
    case Node(_, l, r) => (if l.Nil? && r.Nil? then 0 else 1) + InnerNodes(l) + InnerNodes(r)
  }

  /** No value's text holds a parenthesis. */
  predicate PlainLabels(t: Tree) {
    match t
    case Nil => true
    case Node(v, l, r) => '(' !in LabelText(v) && ')' !in LabelText(v) && PlainLabels(l) && PlainLabels(r)
  }

  lemma {:induction false} CountAbsent(s: string, c: char)
    requires c !in s
    ensures Count(s, c) == 0
    decreases |s|
  {
    if |s| > 0 {
      assert s[..|s| - 1] + [s[|s| - 1]] == s;
      CountAbsent(s[..|s| - 1], c);
    }
  }

  /** Every inner node contributes exactly one "(" and one ")", and nothing else does. */
  lemma {:induction false} InfixParenthesisesInnerNodes(t: Tree)
    requires PlainLabels(t)
    ensures Count(Infix(t), '(') == InnerNodes(t) && Count(Infix(t), ')') == InnerNodes(t)
  {
    match t
    case Nil =>
    case Node(v, l, r) =>
      CountAbsent(LabelText(v), '(');
      CountAbsent(LabelText(v), ')');
      if !(l.Nil? && r.Nil?) {
        InfixParenthesisesInnerNodes(l);
        InfixParenthesisesInnerNodes(r);
        forall c: char | c == '(' || c == ')'
          ensures Count(Infix(t), c) == Count(Infix(l), c) + Count(Infix(r), c) + 1
        {
          CountAppend("(" + Infix(l) + LabelText(v) + Infix(r), ")", c);
          CountAppend("(" + Infix(l) + LabelText(v), Infix(r), c);
          CountAppend("(" + Infix(l), LabelText(v), c);
          CountAppend("(", Infix(l), c);
          assert Count("(", c) == (if c == '(' then 1 else 0) by { assert "("[..0] == ""; }
          assert Count(")", c) == (if c == ')' then 1 else 0) by { assert ")"[..0] == ""; }
        }
      }
  }

  // The class-based trees' `print_infix`.

  /**
   * `print_infix(exp)` as written: `s = str(exp)` is a string, so the test
   * `isinstance(s, BinaryExpression)` is always false and the function
   * returns `str(exp)`, the bare operator symbol of an operation.
   */
  function PrintInfixAsWritten(e: ArithPrinters.Exp): (s: string)
    ensures e.Bin? ==> s == Arith.Symbol(e.op)
    ensures e.Num? ==> s == ArithPrinters.Infix(e)
  {
    ArithPrinters.Str(e)
  }

  /**
   * The operands never appear: an operation prints as one character, while
   * the recursive printer the function was evidently meant to be prints
   * both operands in parentheses.
   */
  lemma PrintInfixDropsOperands(op: Arith.Op, l: ArithPrinters.Exp, r: ArithPrinters.Exp)
    ensures |PrintInfixAsWritten(ArithPrinters.Bin(op, l, r))| == 1
    ensures |ArithPrinters.Infix(ArithPrinters.Bin(op, l, r))| >= 9
  {
    InfixAtLeastOne(l);
    InfixAtLeastOne(r);
  }

  lemma {:induction false} InfixAtLeastOne(e: ArithPrinters.Exp)
    ensures |ArithPrinters.Infix(e)| >= 1
  {
    match e
    case Num(n) =>
    case Bin(_, l, r) =>
  }

  /** The documented call: a product of a quotient and 5 prints as "*", not as its infix text. */
  lemma PrintInfixExample()
    ensures PrintInfixAsWritten(ArithPrinters.SmallTree()) == "*"
    ensures ArithPrinters.Infix(ArithPrinters.SmallTree()) == "((28) / (4)) * (5)"
  {
    ArithPrinters.SmallTreeExamples();
  }

  // The documented runs.

  function Sum(): Tree {
    Node(LStr("+"), Node(LInt(23), Nil, Nil), Node(LInt(19), Nil, Nil))
  }

  function Difference(): Tree {
    Node(LStr("-"), Node(LInt(20), Nil, Nil), Node(LStr("-"), Node(LInt(23), Nil, Nil), Node(LInt(19), Nil, Nil)))
  }

  lemma Numerals()
    ensures LabelText(LInt(23)) == "23" && LabelText(LInt(19)) == "19" && LabelText(LInt(20)) == "20"
  {
    Decimal.SmallNatToString(23);
    Decimal.SmallNatToString(19);
    Decimal.SmallNatToString(20);
  }

  lemma EvaluateExamples()
    ensures NoTrueDivision(Sum()) && Evaluate(Sum()) == Ok(Some(42))
    ensures NoTrueDivision(Difference()) && Evaluate(Difference()) == Ok(Some(16))
  {
  }

  lemma InfixExamples()
    ensures Infix(Sum()) == "(23+19)"
    ensures Infix(Difference()) == "(20-(23-19))"
  {
    Numerals();
    assert Infix(Node(LStr("-"), Node(LInt(23), Nil, Nil), Node(LInt(19), Nil, Nil))) == "(23-19)";
  }

  lemma PostfixExamples()
    ensures Postfix(Sum()) == "23 19 + "
    ensures Postfix(Difference()) == "20 23 19 - - "
  {
    Numerals();
    assert Postfix(Node(LStr("-"), Node(LInt(23), Nil, Nil), Node(LInt(19), Nil, Nil))) == "23 19 - ";
  }
}
