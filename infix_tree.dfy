/**
 * What the three recursive-descent parsers for infix arithmetic share: the
 * tree they build, in which a factor that is neither a number nor a
 * parenthesised expression leaves a hole (Python's None); their `eat`; and
 * the token lists of fully parenthesised expressions and of operator chains
 * that the lemmas about them are stated over. The parsers read the tokens of
 * the parenthesis lexer; the expression classes they build are not part of
 * this model, and their `eval` is taken to be the usual recursive one with
 * floor division.
 */
module InfixTree {
  import opened Wrappers
  import opened Tokens
  import Decimal
  import Arith
  import ParenLexer
  import opened ParseState
  import ArithLexer1

  /** An expression tree; `Missing` is the None a parser returns for a factor it cannot read. */
  datatype Tree = Missing | Num(n: int) | Bin(op: Arith.Op, left: Tree, right: Tree)

  /** `e.eval()`; calling `eval` on None raises AttributeError. */
  function Eval(t: Tree): (r: Result<int>)
    ensures r.Err? ==> r.error == ZeroDivisionError || r.error == AttributeError("eval")
    ensures Complete(t) && r.Err? ==> r.error == ZeroDivisionError
  {
    match t
    case Missing => Err(AttributeError("eval"))
    case Num(n) => Ok(n)
    case Bin(op, l, r) =>
      var a :- Eval(l);
      var b :- Eval(r);
      Arith.Apply(op, a, b)
  }

  /** A tree with no hole in it. */
  predicate Complete(t: Tree) {
    match t
    case Missing => false
    case Num(_) => true
    case Bin(_, l, r) => Complete(l) && Complete(r)
  }

  /** `eat(kind)`: the next token if the current one has the kind, otherwise ValueError naming the current kind. */
  function AfterEat(st: State, k: Kind): (r: Result<State>)
    ensures r.Ok? ==> st.cur.kind == k
    ensures st.cur.kind != k ==> r == Err(ValueError("Unexpected token: " + KindName(st.cur.kind)))
    ensures r.Ok? && k != EOF ==> Rank(r.value) < Rank(st)
  {
    if st.cur.kind == k then Advance(st)
    else Err(ValueError("Unexpected token: " + KindName(st.cur.kind)))
  }

  /** Eating the first of a list of well-formed tokens moves on to the rest. */
  lemma EatStateOf(t: Token, w: seq<Token>)
    ensures AfterEat(StateOf([t] + w), t.kind) == Ok(StateOf(w))
  {
    AdvanceStateOf([t] + w);
    assert ([t] + w)[1..] == w;
  }

  // Printed trees and chains.

  const LeftParen := Token("(", LPR)
  const RightParen := Token(")", RPR)

  /** A tree without holes whose numbers the lexer can print: they are not negative. */
  predicate Printable(t: Tree) {
    match t
    case Missing => false
    case Num(n) => n >= 0
    case Bin(_, l, r) => Printable(l) && Printable(r)
  }

  /** The tokens of the fully parenthesised printout: a number, or '(' l op r ')'. */
  function AtomTokens(t: Tree): (ts: seq<Token>)
    requires Printable(t)
    ensures |ts| > 0
    ensures ts[0].kind == NUM || ts[0] == LeftParen
    ensures t.Num? ==> ts == [ArithLexer1.NumToken(t.n)]
  {
    match t
    case Num(n) => [ArithLexer1.NumToken(n)]
    case Bin(op, l, r) => [LeftParen] + AtomTokens(l) + [ArithLexer1.OpToken(op)] + AtomTokens(r) + [RightParen]
  }

  /** A number is read back from its token. */
  lemma NumTokenValue(n: nat)
    ensures Decimal.ParseInt(ArithLexer1.NumToken(n).text) == Ok(n)
  {
    Decimal.ParseIntToString(n);
  }

  /** One step of a chain: an operator and the atom after it. */
  datatype Link = Link(op: Arith.Op, operand: Tree)

  predicate PrintableLinks(links: seq<Link>) {
    forall i :: 0 <= i < |links| ==> Printable(links[i].operand)
  }

  /** The tokens of `op1 a1 op2 a2 ...`. */
  function ChainTokens(links: seq<Link>): seq<Token>
    requires PrintableLinks(links)
  {
    if |links| == 0 then []
    else [ArithLexer1.OpToken(links[0].op)] + AtomTokens(links[0].operand) + ChainTokens(links[1..])
  }

  /** `((acc op1 a1) op2 a2) ...`: the chain grouped to the left. */
  function LeftFold(acc: Tree, links: seq<Link>): Tree
    decreases |links|
  {
    if |links| == 0 then acc else LeftFold(Bin(links[0].op, acc, links[0].operand), links[1..])
  }

  /** `first op1 (a1 op2 (a2 ...))`: the chain grouped to the right. */
  function RightFold(first: Tree, links: seq<Link>): Tree
    decreases |links|
  {
    if |links| == 0 then first else Bin(links[0].op, first, RightFold(links[0].operand, links[1..]))
  }

  predicate IsAdditive(op: Arith.Op) {
    op == Arith.AddOp || op == Arith.SubOp
  }

  /** Every operator of the chain is `+` or `-`. */
  predicate Additive(links: seq<Link>) {
    forall i :: 0 <= i < |links| ==> IsAdditive(links[i].op)
  }

  /** Every operator of the chain is `*` or `/`. */
  predicate Multiplicative(links: seq<Link>) {
    forall i :: 0 <= i < |links| ==> !IsAdditive(links[i].op)
  }

  /** The kind of the first token, EOF for none. */
  function Head(w: seq<Token>): Kind {
    if |w| == 0 then EOF else w[0].kind
  }

  lemma OpTokenKind(op: Arith.Op)
    ensures ArithLexer1.OpToken(op).kind == KindOf(op)
    ensures OpOf(KindOf(op)) == op
    ensures IsOperator(KindOf(op))
    ensures KindOf(op) == ADD || KindOf(op) == SUB <==> IsAdditive(op)
  {
  }

  /** Regrouping a concatenation of four lists. */
  lemma Assoc4<T>(a: seq<T>, b: seq<T>, c: seq<T>, d: seq<T>)
    ensures a + b + c + d == a + (b + (c + d))
  {
  }

  /** A chain followed by more tokens: its first link, then the rest of the chain and the tokens after it. */
  lemma ChainSplit(links: seq<Link>, rest: seq<Token>)
    requires PrintableLinks(links) && |links| > 0
    ensures ChainTokens(links) + rest ==
      [ArithLexer1.OpToken(links[0].op)] + (AtomTokens(links[0].operand) + (ChainTokens(links[1..]) + rest))
  {
    Assoc4([ArithLexer1.OpToken(links[0].op)], AtomTokens(links[0].operand), ChainTokens(links[1..]), rest);
  }

  /** The printout of an operator node, split after its left operand. */
  lemma AtomSplit(op: Arith.Op, l: Tree, r: Tree, rest: seq<Token>)
    requires Printable(l) && Printable(r)
    ensures AtomTokens(Bin(op, l, r)) + rest ==
      [LeftParen] + (AtomTokens(l) + ([ArithLexer1.OpToken(op)] + (AtomTokens(r) + ([RightParen] + rest))))
  {
    var o, a, b := [ArithLexer1.OpToken(op)], AtomTokens(l), AtomTokens(r);
    Assoc4([LeftParen] + a + o, b, [RightParen], rest);
    Assoc4([LeftParen], a, o, b + ([RightParen] + rest));
  }

  /** The state on a chain followed by more tokens looks at the chain's first operator, or past the chain. */
  lemma ChainHead(links: seq<Link>, rest: seq<Token>)
    requires PrintableLinks(links)
    ensures StateOf(ChainTokens(links) + rest).cur.kind ==
      if |links| == 0 then Head(rest) else KindOf(links[0].op)
  {
    if |links| > 0 {
      ChainSplit(links, rest);
    }
  }

  /** The state on a printed tree followed by more tokens looks at a number or at '('. */
  lemma AtomHead(t: Tree, rest: seq<Token>)
    requires Printable(t)
    ensures var k := StateOf(AtomTokens(t) + rest).cur.kind; k == NUM || k == LPR
  {
    assert (AtomTokens(t) + rest)[0] == AtomTokens(t)[0];
  }

  /** The tokens of a two-link chain are those of its links one after the other. */
  lemma ChainPair(x: Link, y: Link)
    requires Printable(x.operand) && Printable(y.operand)
    ensures ChainTokens([x, y]) == ChainTokens([x]) + ChainTokens([y])
    ensures ChainTokens([y]) == [ArithLexer1.OpToken(y.op)] + AtomTokens(y.operand)
  {
    assert [x, y][1..] == [y];
    assert [y][1..] == [];
    assert [x][1..] == [];
  }

  /** The tokens of a two-link chain, spelled out operator by operand. */
  lemma ChainTwo(links: seq<Link>)
    requires PrintableLinks(links) && |links| == 2
    ensures ChainTokens(links) == [ArithLexer1.OpToken(links[0].op)] + (AtomTokens(links[0].operand) +
      ([ArithLexer1.OpToken(links[1].op)] + AtomTokens(links[1].operand)))
  {
    var o0, a0 := [ArithLexer1.OpToken(links[0].op)], AtomTokens(links[0].operand);
    var o1, a1 := [ArithLexer1.OpToken(links[1].op)], AtomTokens(links[1].operand);
    var tail := links[1..];
    assert tail[0] == links[1];
    var end := tail[1..];
    assert |end| == 0;
    assert ChainTokens(end) == [];
    assert ChainTokens(tail) == o1 + a1 + ChainTokens(end);
    Assoc4(o0, a0, o1, a1);
  }

  /** A two-link chain grouped either way. */
  lemma FoldsTwo(first: Tree, links: seq<Link>)
    requires |links| == 2
    ensures RightFold(first, links) == Bin(links[0].op, first, Bin(links[1].op, links[0].operand, links[1].operand))
    ensures LeftFold(first, links) == Bin(links[1].op, Bin(links[0].op, first, links[0].operand), links[1].operand)
  {
    var tail := links[1..];
    assert tail[0] == links[1];
    var end := tail[1..];
    assert |end| == 0;
    var x := Bin(links[0].op, first, links[0].operand);
    assert LeftFold(first, links) == LeftFold(x, tail);
    assert LeftFold(x, tail) == LeftFold(Bin(links[1].op, x, links[1].operand), end);
    assert RightFold(links[0].operand, tail) == Bin(links[1].op, links[0].operand, RightFold(links[1].operand, end));
  }

  /** What holds of every link holds of the links after the first. */
  lemma LinksRest(links: seq<Link>)
    requires |links| > 0
    ensures PrintableLinks(links) ==> PrintableLinks(links[1..])
    ensures Additive(links) ==> Additive(links[1..])
    ensures Multiplicative(links) ==> Multiplicative(links[1..])
  {
    forall i | 0 <= i < |links| - 1
      ensures links[1..][i] == links[i + 1]
    {
    }
  }
}
