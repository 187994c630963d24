/**
 * The recursive-descent parser with a single precedence level:
 *
 *   E ::= num F | '(' E ')' F
 *   F ::= ('+' | '-' | '*' | '/') E F | empty
 *
 * E reads an operand and hands it to F; F takes an operator, reads a whole E
 * to its right and continues with the node built. All four operators bind
 * alike and a chain groups to the right, so `2 * 3 + 4` is read as
 * `2 * (3 + 4)`. E returns None, with nothing read and F not called, on a
 * token that is neither a number nor '('.
 */
module OneLevelParser {
  import opened Wrappers
  import opened Tokens
  import Arith
  import Decimal
  import ParenLexer
  import opened ParseState
  import opened InfixTree
  import ArithLexer1
  import InfixExamples

  /** `E()`: an operand, then F on it. */
  function ReadE(st: State): (r: Result<(Tree, State)>)
    ensures r.Ok? ==> Rank(r.value.1) <= Rank(st)
    ensures st.cur.kind != NUM && st.cur.kind != LPR ==> r == Ok((Missing, st))
    decreases Rank(st), 1
  {
    if st.cur.kind == NUM then
      var s1 :- AfterEat(st, NUM);
      var n :- Decimal.ParseInt(st.cur.text);
      ReadF(Num(n), s1)
    else if st.cur.kind == LPR then
      var s1 :- AfterEat(st, LPR);
      var p :- ReadE(s1);
      var s2 :- AfterEat(p.1, RPR);
      ReadF(p.0, s2)
    else Ok((Missing, st))
  }

  /** `F(left)`: an operator and a whole E to its right extend `left`, and F goes on from the node. */
  function ReadF(left: Tree, st: State): (r: Result<(Tree, State)>)
    ensures r.Ok? ==> Rank(r.value.1) <= Rank(st)
    ensures !IsOperator(st.cur.kind) ==> r == Ok((left, st))
    decreases Rank(st), 0
  {
    if IsOperator(st.cur.kind) then
      var s1 :- AfterEat(st, st.cur.kind);
      var q :- ReadE(s1);
      ReadF(Bin(OpOf(st.cur.kind), left, q.0), q.1)
    else Ok((left, st))
  }

  /** `Parser(Lexer(s)).E()`. */
  function Parse(s: string): Result<Tree> {
    var st :- Start(ParenLexer.LexAll(s, 0));
    var p :- ReadE(st);
    Ok(p.0)
  }

  class Parser {
    const lexer: ParenLexer.Lexer
    var current: Token

    predicate Valid()
      reads this, lexer
    {
      lexer.Valid()
    }

    /** The current token and what the lexer has yet to hand out. */
    function Config(): State
      reads this, lexer
      requires Valid()
    {
      State(current, lexer.Remaining())
    }

    constructor Init(l: ParenLexer.Lexer, first: Token)
      ensures lexer == l && current == first
    {
      lexer := l;
      current := first;
    }

    /** `Parser(lexer)`: reads the first token, which may raise. */
    static method Create(l: ParenLexer.Lexer) returns (r: Result<Parser>)
      requires l.Valid()
      modifies l
      ensures r.Ok? ==> fresh(r.value) && r.value.lexer == l && r.value.Valid()
      ensures match Start(old(l.Remaining()))
        case Ok(st) => r.Ok? && r.value.Config() == st
        case Err(e) => r == Err(e)
    {
      ParenLexer.NextValidReadsStream(l.input, l.position);
      var t := l.NextValidToken();
      if t.Err? {
        return Err(t.error);
      }
      var p := new Parser.Init(l, t.value);
      return Ok(p);
    }

    method Eat(k: Kind) returns (r: Result<()>)
      requires Valid()
      modifies this, lexer
      ensures Valid()
      ensures Settled(r, AfterEat(old(Config()), k), Config())
    {
      if current.kind == k {
        ParenLexer.NextValidReadsStream(lexer.input, lexer.position);
        var t := lexer.NextValidToken();
        if t.Err? {
          return Err(t.error);
        }
        current := t.value;
        return Ok(());
      }
      return Err(ValueError("Unexpected token: " + KindName(current.kind)));
    }

    method E() returns (r: Result<Tree>)
      requires Valid()
      modifies this, lexer
      ensures Valid()
      ensures Built(r, ReadE(old(Config())), Config())
      decreases Rank(Config()), 1
    {
      var token := current;
      if token.kind == NUM {
        var e := Eat(NUM);
        if e.Err? {
          return Err(e.error);
        }
        var n := Decimal.ParseInt(token.text);
        if n.Err? {
          return Err(n.error);
        }
        r := F(Num(n.value));
      } else if token.kind == LPR {
        var e := Eat(LPR);
        if e.Err? {
          return Err(e.error);
        }
        var node := E();
        if node.Err? {
          return node;
        }
        e := Eat(RPR);
        if e.Err? {
          return Err(e.error);
        }
        r := F(node.value);
      } else {
        r := Ok(Missing);
      }
    }

    method F(left: Tree) returns (r: Result<Tree>)
      requires Valid()
      modifies this, lexer
      ensures Valid()
      ensures Built(r, ReadF(left, old(Config())), Config())
      decreases Rank(Config()), 0
    {
      var token := current;
      if IsOperator(token.kind) {
        var e := Eat(token.kind);
        if e.Err? {
          return Err(e.error);
        }
        var right := E();
        if right.Err? {
          return right;
        }
        r := F(Bin(OpOf(token.kind), left, right.value));
      } else {
        r := Ok(left);
      }
    }
  }

  // What the parser builds from printed trees and operator chains.

  /** A measure of a printed tree that shrinks from a node to its operands read as a one-link chain. */
  function TreeSize(t: Tree): nat {
    match t
    case Bin(_, l, r) => TreeSize(l) + TreeSize(r) + 2
    case _ => 1
  }

  function LinksSize(links: seq<Link>): nat
    decreases |links|
  {
    if |links| == 0 then 0 else TreeSize(links[0].operand) + 1 + LinksSize(links[1..])
  }

  /** F on an operator, the E after it and the F that goes on from the node. */
  lemma FStep(left: Tree, op: Arith.Op, s0: State, s1: State, right: Tree, s2: State, x: Result<(Tree, State)>)
    requires s0.cur.kind == KindOf(op)
    requires AfterEat(s0, KindOf(op)) == Ok(s1)
    requires ReadE(s1) == Ok((right, s2))
    requires ReadF(Bin(op, left, right), s2) == x
    ensures ReadF(left, s0) == x
  {
    OpTokenKind(op);
  }

  /** E on '(' E ')' and the F that goes on from the group. */
  lemma ParenStep(s0: State, s1: State, t: Tree, s2: State, s3: State, x: Result<(Tree, State)>)
    requires s0.cur.kind == LPR && AfterEat(s0, LPR) == Ok(s1)
    requires ReadE(s1) == Ok((t, s2))
    requires AfterEat(s2, RPR) == Ok(s3)
    requires ReadF(t, s3) == x
    ensures ReadE(s0) == x
  {
  }

  /** A one-link chain: its tokens and its tree. */
  lemma OneLink(l: Tree, op: Arith.Op, r: Tree, tail: seq<Token>)
    requires Printable(r)
    ensures PrintableLinks([Link(op, r)])
    ensures ChainTokens([Link(op, r)]) + tail == [ArithLexer1.OpToken(op)] + (AtomTokens(r) + tail)
    ensures RightFold(l, [Link(op, r)]) == Bin(op, l, r)
    ensures LinksSize([Link(op, r)]) == TreeSize(r) + 1
  {
    ChainPair(Link(op, r), Link(op, r));
    assert [Link(op, r)][1..] == [];
  }

  /** E reads a printed tree and hands it to F, whatever follows it. */
  lemma {:induction false} AtomThenF(e: Tree, w: seq<Token>)
    requires Printable(e)
    ensures ReadE(StateOf(AtomTokens(e) + w)) == ReadF(e, StateOf(w))
    decreases TreeSize(e), 1
  {
    match e
    case Num(n) =>
      NumThenF(n, w);
    case Bin(op, l, r) =>
      var tail := [RightParen] + w;
      OneLink(l, op, r, tail);
      EReadsChain(l, [Link(op, r)], tail);
      ParensThenF(op, l, r, w);
  }

  /** E reads a number token and hands it to F. */
  lemma NumThenF(n: nat, w: seq<Token>)
    ensures ReadE(StateOf([ArithLexer1.NumToken(n)] + w)) == ReadF(Num(n), StateOf(w))
  {
    EatStateOf(ArithLexer1.NumToken(n), w);
    NumTokenValue(n);
  }

  /** E reads '(' l op r ')' as the node E reads inside the parentheses, and hands it to F. */
  lemma ParensThenF(op: Arith.Op, l: Tree, r: Tree, w: seq<Token>)
    requires Printable(l) && Printable(r)
    requires ReadE(StateOf(AtomTokens(l) + ([ArithLexer1.OpToken(op)] + (AtomTokens(r) + ([RightParen] + w)))))
      == Ok((Bin(op, l, r), StateOf([RightParen] + w)))
    ensures ReadE(StateOf(AtomTokens(Bin(op, l, r)) + w)) == ReadF(Bin(op, l, r), StateOf(w))
  {
    var tail := [RightParen] + w;
    var inner := AtomTokens(l) + ([ArithLexer1.OpToken(op)] + (AtomTokens(r) + tail));
    AtomSplit(op, l, r, w);
    EatStateOf(LeftParen, inner);
    EatStateOf(RightParen, w);
    ParenStep(StateOf([LeftParen] + inner), StateOf(inner), Bin(op, l, r), StateOf(tail), StateOf(w), ReadF(Bin(op, l, r), StateOf(w)));
  }

  /**
   * E reads a printed tree followed by a chain as the chain grouped to the
   * right, whatever its operators, and stops at the first token that is not
   * an operator.
   */
  lemma {:induction false} EReadsChain(first: Tree, links: seq<Link>, rest: seq<Token>)
    requires Printable(first) && PrintableLinks(links)
    requires !IsOperator(Head(rest))
    ensures ReadE(StateOf(AtomTokens(first) + (ChainTokens(links) + rest))) == Ok((RightFold(first, links), StateOf(rest)))
    decreases TreeSize(first) + LinksSize(links), 2
  {
    AtomThenF(first, ChainTokens(links) + rest);
    FReadsChain(first, links, rest);
  }

  /** F extends `left` by a chain, grouped to the right. */
  lemma {:induction false} FReadsChain(left: Tree, links: seq<Link>, rest: seq<Token>)
    requires PrintableLinks(links)
    requires !IsOperator(Head(rest))
    ensures ReadF(left, StateOf(ChainTokens(links) + rest)) == Ok((RightFold(left, links), StateOf(rest)))
    decreases LinksSize(links), 0
  {
    if |links| == 0 {
      assert ChainTokens(links) + rest == rest;
    } else {
      var op, next := links[0].op, links[0].operand;
      var o := ArithLexer1.OpToken(op);
      var more := AtomTokens(next) + (ChainTokens(links[1..]) + rest);
      var right := RightFold(next, links[1..]);
      ChainSplit(links, rest);
      OpTokenKind(op);
      EatStateOf(o, more);
      EReadsChain(next, links[1..], rest);
      assert ReadF(Bin(op, left, right), StateOf(rest)) == Ok((Bin(op, left, right), StateOf(rest)));
      FStep(left, op, StateOf(ChainTokens(links) + rest), StateOf(more), right, StateOf(rest), Ok((Bin(op, left, right), StateOf(rest))));
    }
  }

  /** A chain of any operators is read grouped to the right. */
  lemma RightChains(first: Tree, links: seq<Link>)
    requires Printable(first) && PrintableLinks(links)
    ensures ReadE(StateOf(AtomTokens(first) + ChainTokens(links))) == Ok((RightFold(first, links), StateOf([])))
  {
    assert ChainTokens(links) + [] == ChainTokens(links);
    EReadsChain(first, links, []);
  }

  /** The round trip: the parser reads the fully parenthesised printout of a tree back as that tree. */
  lemma ParsesPrinted(e: Tree)
    requires Printable(e)
    ensures ReadE(StateOf(AtomTokens(e))) == Ok((e, StateOf([])))
  {
    RightChains(e, []);
    assert ChainTokens([]) == [];
    assert AtomTokens(e) + [] == AtomTokens(e);
  }

  // The documented runs.

  /** What `Parser(Lexer(s)).E()` builds when the lexer reads `s` as the tokens `w`. */
  lemma ParseOfTokens(s: string, w: seq<Token>, t: Tree)
    requires ParenLexer.LexAll(s, 0) == ParenLexer.Stream(w, None)
    requires ReadE(StateOf(w)) == Ok((t, StateOf([])))
    ensures Parse(s) == Ok(t)
  {
    StartStateOf(w);
  }

  /** A text the lexer reads as a chain of operators is parsed as that chain grouped to the right. */
  lemma ParsesChain(s: string, first: Tree, links: seq<Link>)
    requires Printable(first) && PrintableLinks(links)
    requires ParenLexer.LexAll(s, 0) == ParenLexer.Stream(AtomTokens(first) + ChainTokens(links), None)
    ensures Parse(s) == Ok(RightFold(first, links))
  {
    RightChains(first, links);
    ParseOfTokens(s, AtomTokens(first) + ChainTokens(links), RightFold(first, links));
  }

  /** `2 + 3 + 4` is read as `2 + (3 + 4)`, which is 9. */
  lemma SumExample()
    ensures Parse(InfixExamples.SumText) == Ok(Bin(Arith.AddOp, Num(2), Bin(Arith.AddOp, Num(3), Num(4))))
    ensures Eval(Parse(InfixExamples.SumText).value) == Ok(9)
  {
    InfixExamples.SumLexes();
    ParsesChain(InfixExamples.SumText, InfixExamples.SumFirst, InfixExamples.SumLinks);
    FoldsTwo(InfixExamples.SumFirst, InfixExamples.SumLinks);
  }

  /** `2 * 3 * 4` is read as `2 * (3 * 4)`, which is 24. */
  lemma ProductExample()
    ensures Parse(InfixExamples.ProductText) == Ok(Bin(Arith.MulOp, Num(2), Bin(Arith.MulOp, Num(3), Num(4))))
    ensures Eval(Parse(InfixExamples.ProductText).value) == Ok(24)
  {
    ProductParses();
  }

  lemma ProductParses()
    ensures Parse(InfixExamples.ProductText) == Ok(Bin(Arith.MulOp, Num(2), Bin(Arith.MulOp, Num(3), Num(4))))
  {
    InfixExamples.ProductLexes();
    ParsesChain(InfixExamples.ProductText, InfixExamples.ProductFirst, InfixExamples.ProductLinks);
    FoldsTwo(InfixExamples.ProductFirst, InfixExamples.ProductLinks);
  }

  /** With one precedence level `2 * 3 + 4` is read as `2 * (3 + 4)`, which is 14. */
  lemma MixedExample()
    ensures Parse(InfixExamples.MixedText) == Ok(Bin(Arith.MulOp, Num(2), Bin(Arith.AddOp, Num(3), Num(4))))
    ensures Eval(Parse(InfixExamples.MixedText).value) == Ok(14)
  {
    MixedParses();
  }

  lemma MixedParses()
    ensures Parse(InfixExamples.MixedText) == Ok(Bin(Arith.MulOp, Num(2), Bin(Arith.AddOp, Num(3), Num(4))))
  {
    InfixExamples.MixedLexes();
    ParsesChain(InfixExamples.MixedText, InfixExamples.MixedFirst, InfixExamples.MixedLinks);
    FoldsTwo(InfixExamples.MixedFirst, InfixExamples.MixedLinks);
  }

  /** The tokens of `(2 + 3) * 4` are read as `(2 + 3) * 4`, which is 20. */
  lemma GroupTimesExample()
    ensures ReadE(StateOf(AtomTokens(InfixExamples.GroupTimesFirst) + ChainTokens(InfixExamples.GroupTimesLinks)))
      == Ok((Bin(Arith.MulOp, Bin(Arith.AddOp, Num(2), Num(3)), Num(4)), StateOf([])))
    ensures Eval(Bin(Arith.MulOp, Bin(Arith.AddOp, Num(2), Num(3)), Num(4))) == Ok(20)
  {
    RightChains(InfixExamples.GroupTimesFirst, InfixExamples.GroupTimesLinks);
  }

  /** The tokens of `4 * (2 + 3)` are read as `4 * (2 + 3)`, which is 20. */
  lemma TimesGroupExample()
    ensures ReadE(StateOf(AtomTokens(InfixExamples.TimesGroupFirst) + ChainTokens(InfixExamples.TimesGroupLinks)))
      == Ok((Bin(Arith.MulOp, Num(4), Bin(Arith.AddOp, Num(2), Num(3))), StateOf([])))
    ensures Eval(Bin(Arith.MulOp, Num(4), Bin(Arith.AddOp, Num(2), Num(3)))) == Ok(20)
  {
    RightChains(InfixExamples.TimesGroupFirst, InfixExamples.TimesGroupLinks);
  }

  /** The tokens of `(2 * 3) + 4` are read as `(2 * 3) + 4`, which is 10. */
  lemma GroupPlusExample()
    ensures ReadE(StateOf(AtomTokens(InfixExamples.GroupPlusFirst) + ChainTokens(InfixExamples.GroupPlusLinks)))
      == Ok((Bin(Arith.AddOp, Bin(Arith.MulOp, Num(2), Num(3)), Num(4)), StateOf([])))
    ensures Eval(Bin(Arith.AddOp, Bin(Arith.MulOp, Num(2), Num(3)), Num(4))) == Ok(10)
  {
    RightChains(InfixExamples.GroupPlusFirst, InfixExamples.GroupPlusLinks);
  }

  /** The tokens of `(2 - 3) - (4 - 10)` are read as that tree, which is 5. */
  lemma GroupsExample()
    ensures ReadE(StateOf(AtomTokens(InfixExamples.GroupsFirst) + ChainTokens(InfixExamples.GroupsLinks)))
      == Ok((Bin(Arith.SubOp, Bin(Arith.SubOp, Num(2), Num(3)), Bin(Arith.SubOp, Num(4), Num(10))), StateOf([])))
    ensures Eval(Bin(Arith.SubOp, Bin(Arith.SubOp, Num(2), Num(3)), Bin(Arith.SubOp, Num(4), Num(10)))) == Ok(5)
  {
    RightChains(InfixExamples.GroupsFirst, InfixExamples.GroupsLinks);
  }
}
