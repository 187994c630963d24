/**
 * The recursive-descent parser with two precedence levels whose operators
 * recurse to the right:
 *
 *   E ::= T ('+' E | '-' E | empty)
 *   T ::= F ('*' T | '/' T | empty)
 *   F ::= num | '(' E ')'
 *
 * `*` and `/` bind tighter than `+` and `-`, but the operand to the right of
 * an operator is a whole E (or T), so a chain of operators of one level
 * groups to the right: `2 - 3 - 4` is read as `2 - (3 - 4)`. F returns None
 * on any other token, and E stops at the first token it cannot use.
 */
module RightAssocParser {
  import opened Wrappers
  import opened Tokens
  import Arith
  import Decimal
  import ParenLexer
  import opened ParseState
  import opened InfixTree
  import ArithLexer1
  import InfixExamples

  /** `E()`: a term, then '+' or '-' and a whole expression to its right. */
  function ReadE(st: State): (r: Result<(Tree, State)>)
    ensures r.Ok? ==> Rank(r.value.1) <= Rank(st)
    decreases Rank(st), 2
  {
    var p :- ReadT(st);
    var k := p.1.cur.kind;
    if k == ADD || k == SUB then
      var s1 :- AfterEat(p.1, k);
      var q :- ReadE(s1);
      Ok((Bin(OpOf(k), p.0, q.0), q.1))
    else Ok(p)
  }

  /** `T()`: a factor, then '*' or '/' and a whole term to its right. */
  function ReadT(st: State): (r: Result<(Tree, State)>)
    ensures r.Ok? ==> Rank(r.value.1) <= Rank(st)
    decreases Rank(st), 1
  {
    var p :- ReadF(st);
    var k := p.1.cur.kind;
    if k == MUL || k == DIV then
      var s1 :- AfterEat(p.1, k);
      var q :- ReadT(s1);
      Ok((Bin(OpOf(k), p.0, q.0), q.1))
    else Ok(p)
  }

  /** `F()`: a number, or a parenthesised expression; None, with nothing read, on any other token. */
  function ReadF(st: State): (r: Result<(Tree, State)>)
    ensures r.Ok? ==> Rank(r.value.1) <= Rank(st)
    ensures st.cur.kind != NUM && st.cur.kind != LPR ==> r == Ok((Missing, st))
    decreases Rank(st), 0
  {
    if st.cur.kind == NUM then
      var s1 :- AfterEat(st, NUM);
      var n :- Decimal.ParseInt(st.cur.text);
      Ok((Num(n), s1))
    else if st.cur.kind == LPR then
      var s1 :- AfterEat(st, LPR);
      var p :- ReadE(s1);
      var s2 :- AfterEat(p.1, RPR);
      Ok((p.0, s2))
    else Ok((Missing, st))
  }

  /** `Parser(Lexer(s)).E()`. */
  function Parse(s: string): Result<Tree> {
    var st :- Start(ParenLexer.LexAll(s, 0));
    var p :- ReadE(st);
    Ok(p.0)
  }

  class Parser {
    const lexer: ParenLexer.Lexer
    var current: Token

    predicate Valid()
      reads this, lexer
    {
      lexer.Valid()
    }

    /** The current token and what the lexer has yet to hand out. */
    function Config(): State
      reads this, lexer
      requires Valid()
    {
      State(current, lexer.Remaining())
    }

    constructor Init(l: ParenLexer.Lexer, first: Token)
      ensures lexer == l && current == first
    {
      lexer := l;
      current := first;
    }

    /** `Parser(lexer)`: reads the first token, which may raise. */
    static method Create(l: ParenLexer.Lexer) returns (r: Result<Parser>)
      requires l.Valid()
      modifies l
      ensures r.Ok? ==> fresh(r.value) && r.value.lexer == l && r.value.Valid()
      ensures match Start(old(l.Remaining()))
        case Ok(st) => r.Ok? && r.value.Config() == st
        case Err(e) => r == Err(e)
    {
      ParenLexer.NextValidReadsStream(l.input, l.position);
      var t := l.NextValidToken();
      if t.Err? {
        return Err(t.error);
      }
      var p := new Parser.Init(l, t.value);
      return Ok(p);
    }

    method Eat(k: Kind) returns (r: Result<()>)
      requires Valid()
      modifies this, lexer
      ensures Valid()
      ensures Settled(r, AfterEat(old(Config()), k), Config())
    {
      if current.kind == k {
        ParenLexer.NextValidReadsStream(lexer.input, lexer.position);
        var t := lexer.NextValidToken();
        if t.Err? {
          return Err(t.error);
        }
        current := t.value;
        return Ok(());
      }
      return Err(ValueError("Unexpected token: " + KindName(current.kind)));
    }

    method E() returns (r: Result<Tree>)
      requires Valid()
      modifies this, lexer
      ensures Valid()
      ensures Built(r, ReadE(old(Config())), Config())
      decreases Rank(Config()), 2
    {
      var exp := T();
      if exp.Err? {
        return exp;
      }
      var token := current;
      if token.kind == ADD || token.kind == SUB {
        var e := Eat(token.kind);
        if e.Err? {
          return Err(e.error);
        }
        var right := E();
        if right.Err? {
          return right;
        }
        return Ok(Bin(OpOf(token.kind), exp.value, right.value));
      }
      return exp;
    }

    method T() returns (r: Result<Tree>)
      requires Valid()
      modifies this, lexer
      ensures Valid()
      ensures Built(r, ReadT(old(Config())), Config())
      decreases Rank(Config()), 1
    {
      var exp := F();
      if exp.Err? {
        return exp;
      }
      var token := current;
      if token.kind == MUL || token.kind == DIV {
        var e := Eat(token.kind);
        if e.Err? {
          return Err(e.error);
        }
        var right := T();
        if right.Err? {
          return right;
        }
        return Ok(Bin(OpOf(token.kind), exp.value, right.value));
      }
      return exp;
    }

    method F() returns (r: Result<Tree>)
      requires Valid()
      modifies this, lexer
      ensures Valid()
      ensures Built(r, ReadF(old(Config())), Config())
      decreases Rank(Config()), 0
    {
      var token := current;
      if token.kind == NUM {
        var e := Eat(NUM);
        if e.Err? {
          return Err(e.error);
        }
        var n := Decimal.ParseInt(token.text);
        if n.Err? {
          return Err(n.error);
        }
        return Ok(Num(n.value));
      } else if token.kind == LPR {
        var e := Eat(LPR);
        if e.Err? {
          return Err(e.error);
        }
        var node := E();
        if node.Err? {
          return node;
        }
        e := Eat(RPR);
        if e.Err? {
          return Err(e.error);
        }
        return node;
      }
      return Ok(Missing);
    }
  }

  // Steps between states.

  /** E on `l + r`: T stops before the operator and E reads the right operand. */
  lemma SumStep(op: Arith.Op, l: Tree, r: Tree, s0: State, s1: State, s2: State, s3: State)
    requires IsAdditive(op) && s1.cur.kind == KindOf(op)
    requires ReadT(s0) == Ok((l, s1))
    requires AfterEat(s1, KindOf(op)) == Ok(s2)
    requires ReadE(s2) == Ok((r, s3))
    ensures ReadE(s0) == Ok((Bin(op, l, r), s3))
  {
    OpTokenKind(op);
  }

  /** T on `l * r`: F reads the left operand and T the right one. */
  lemma ProductStep(op: Arith.Op, l: Tree, r: Tree, s0: State, s1: State, s2: State, s3: State)
    requires !IsAdditive(op) && s1.cur.kind == KindOf(op)
    requires ReadF(s0) == Ok((l, s1))
    requires AfterEat(s1, KindOf(op)) == Ok(s2)
    requires ReadT(s2) == Ok((r, s3))
    ensures ReadT(s0) == Ok((Bin(op, l, r), s3))
  {
    OpTokenKind(op);
  }

  /** A term with no '+' or '-' after it is the whole expression. */
  lemma TermOnly(s0: State, t: Tree, s1: State)
    requires ReadT(s0) == Ok((t, s1)) && s1.cur.kind != ADD && s1.cur.kind != SUB
    ensures ReadE(s0) == Ok((t, s1))
  {
  }

  /** A factor with no '*' or '/' after it is the whole term. */
  lemma FactorOnly(s0: State, f: Tree, s1: State)
    requires ReadF(s0) == Ok((f, s1)) && s1.cur.kind != MUL && s1.cur.kind != DIV
    ensures ReadT(s0) == Ok((f, s1))
  {
  }

  // What the parser builds from printed trees and operator chains.

  /** F reads a fully parenthesised printout back as the tree it prints, whatever follows. */
  lemma {:induction false} FReadsAtom(e: Tree, rest: seq<Token>)
    requires Printable(e)
    ensures ReadF(StateOf(AtomTokens(e) + rest)) == Ok((e, StateOf(rest)))
    decreases e, 2
  {
    match e
    case Num(n) =>
      FReadsNum(n, rest);
    case Bin(op, l, r) =>
      EReadsBin(op, l, r, [RightParen] + rest);
      FReadsParens(op, l, r, rest);
  }

  /** F reads a number token as that number. */
  lemma FReadsNum(n: nat, rest: seq<Token>)
    ensures ReadF(StateOf([ArithLexer1.NumToken(n)] + rest)) == Ok((Num(n), StateOf(rest)))
  {
    EatStateOf(ArithLexer1.NumToken(n), rest);
    NumTokenValue(n);
  }

  /** F reads '(' l op r ')' as the node E reads inside the parentheses. */
  lemma FReadsParens(op: Arith.Op, l: Tree, r: Tree, rest: seq<Token>)
    requires Printable(l) && Printable(r)
    requires ReadE(StateOf(AtomTokens(l) + ([ArithLexer1.OpToken(op)] + (AtomTokens(r) + ([RightParen] + rest)))))
      == Ok((Bin(op, l, r), StateOf([RightParen] + rest)))
    ensures ReadF(StateOf(AtomTokens(Bin(op, l, r)) + rest)) == Ok((Bin(op, l, r), StateOf(rest)))
  {
    AtomSplit(op, l, r, rest);
    var tail := [RightParen] + rest;
    var inner := AtomTokens(l) + ([ArithLexer1.OpToken(op)] + (AtomTokens(r) + tail));
    EatStateOf(LeftParen, inner);
    EatStateOf(RightParen, rest);
    ParenStep(StateOf([LeftParen] + inner), StateOf(inner), Bin(op, l, r), StateOf(tail), StateOf(rest));
  }

  /** F on '(' E ')': the tree E reads inside, and the state after the ')'. */
  lemma ParenStep(s0: State, s1: State, t: Tree, s2: State, s3: State)
    requires s0.cur.kind == LPR && AfterEat(s0, LPR) == Ok(s1)
    requires ReadE(s1) == Ok((t, s2))
    requires AfterEat(s2, RPR) == Ok(s3)
    ensures ReadF(s0) == Ok((t, s3))
  {
  }

  /** T reads a printout back when no '*' or '/' follows it. */
  lemma {:induction false} TReadsAtom(e: Tree, rest: seq<Token>)
    requires Printable(e)
    requires Head(rest) != MUL && Head(rest) != DIV
    ensures ReadT(StateOf(AtomTokens(e) + rest)) == Ok((e, StateOf(rest)))
    decreases e, 3
  {
    FReadsAtom(e, rest);
    FactorOnly(StateOf(AtomTokens(e) + rest), e, StateOf(rest));
  }

  /** E reads a printout back when no operator follows it. */
  lemma {:induction false} EReadsAtom(e: Tree, rest: seq<Token>)
    requires Printable(e)
    requires !IsOperator(Head(rest))
    ensures ReadE(StateOf(AtomTokens(e) + rest)) == Ok((e, StateOf(rest)))
    decreases e, 4
  {
    TReadsAtom(e, rest);
    TermOnly(StateOf(AtomTokens(e) + rest), e, StateOf(rest));
  }

  /** E reads the two operands of a printed operator node and the operator between them as that node. */
  lemma {:induction false} EReadsBin(op: Arith.Op, l: Tree, r: Tree, rest: seq<Token>)
    requires Printable(l) && Printable(r)
    requires !IsOperator(Head(rest))
    ensures ReadE(StateOf(AtomTokens(l) + ([ArithLexer1.OpToken(op)] + (AtomTokens(r) + rest))))
      == Ok((Bin(op, l, r), StateOf(rest)))
    decreases Bin(op, l, r), 1
  {
    var o := ArithLexer1.OpToken(op);
    var after := [o] + (AtomTokens(r) + rest);
    var s0, s1, s2, s3 := StateOf(AtomTokens(l) + after), StateOf(after), StateOf(AtomTokens(r) + rest), StateOf(rest);
    OpTokenKind(op);
    FReadsAtom(l, after);
    EatStateOf(o, AtomTokens(r) + rest);
    if IsAdditive(op) {
      FactorOnly(s0, l, s1);
      EReadsAtom(r, rest);
      SumStep(op, l, r, s0, s1, s2, s3);
    } else {
      TReadsAtom(r, rest);
      ProductStep(op, l, r, s0, s1, s2, s3);
      TermOnly(s0, Bin(op, l, r), s3);
    }
  }

  /** The round trip: the parser reads the fully parenthesised printout of a tree back as that tree. */
  lemma ParsesPrinted(e: Tree)
    requires Printable(e)
    ensures ReadE(StateOf(AtomTokens(e))) == Ok((e, StateOf([])))
  {
    EReadsAtom(e, []);
    assert AtomTokens(e) + [] == AtomTokens(e);
  }

  /** E groups a chain of '+' and '-' to the right. */
  lemma {:induction false} EChainFolds(first: Tree, links: seq<Link>, rest: seq<Token>)
    requires Printable(first) && PrintableLinks(links) && Additive(links)
    requires !IsOperator(Head(rest))
    ensures ReadE(StateOf(AtomTokens(first) + (ChainTokens(links) + rest))) == Ok((RightFold(first, links), StateOf(rest)))
    decreases |links|
  {
    if |links| == 0 {
      assert ChainTokens(links) + rest == rest;
      EReadsAtom(first, rest);
    } else {
      var op, next := links[0].op, links[0].operand;
      var o := ArithLexer1.OpToken(op);
      var more := AtomTokens(next) + (ChainTokens(links[1..]) + rest);
      var w := ChainTokens(links) + rest;
      ChainSplit(links, rest);
      OpTokenKind(op);
      FReadsAtom(first, w);
      FactorOnly(StateOf(AtomTokens(first) + w), first, StateOf(w));
      EatStateOf(o, more);
      EChainFolds(next, links[1..], rest);
      SumStep(op, first, RightFold(next, links[1..]), StateOf(AtomTokens(first) + w), StateOf(w), StateOf(more), StateOf(rest));
    }
  }

  /** T groups a chain of '*' and '/' to the right. */
  lemma {:induction false} TChainFolds(first: Tree, links: seq<Link>, rest: seq<Token>)
    requires Printable(first) && PrintableLinks(links) && Multiplicative(links)
    requires Head(rest) != MUL && Head(rest) != DIV
    ensures ReadT(StateOf(AtomTokens(first) + (ChainTokens(links) + rest))) == Ok((RightFold(first, links), StateOf(rest)))
    decreases |links|
  {
    if |links| == 0 {
      assert ChainTokens(links) + rest == rest;
      TReadsAtom(first, rest);
    } else {
      var op, next := links[0].op, links[0].operand;
      var o := ArithLexer1.OpToken(op);
      var more := AtomTokens(next) + (ChainTokens(links[1..]) + rest);
      var w := ChainTokens(links) + rest;
      ChainSplit(links, rest);
      OpTokenKind(op);
      FReadsAtom(first, w);
      EatStateOf(o, more);
      TChainFolds(next, links[1..], rest);
      ProductStep(op, first, RightFold(next, links[1..]), StateOf(AtomTokens(first) + w), StateOf(w), StateOf(more), StateOf(rest));
    }
  }

  /** A chain of operators of one precedence level groups to the right. */
  lemma RightChains(first: Tree, links: seq<Link>)
    requires Printable(first) && PrintableLinks(links)
    requires Additive(links) || Multiplicative(links)
    ensures ReadE(StateOf(AtomTokens(first) + ChainTokens(links))) == Ok((RightFold(first, links), StateOf([])))
  {
    var w := ChainTokens(links);
    assert w + [] == w;
    if Additive(links) {
      EChainFolds(first, links, []);
    } else {
      TChainFolds(first, links, []);
      TermOnly(StateOf(AtomTokens(first) + w), RightFold(first, links), StateOf([]));
    }
  }

  // Precedence: '*' and '/' bind tighter than '+' and '-', on either side.

  /** T reads `a * b` as one term when no '*' or '/' follows. */
  lemma ProductTermThen(a: Tree, m: Arith.Op, b: Tree, u: seq<Token>)
    requires Printable(a) && Printable(b) && !IsAdditive(m)
    requires Head(u) != MUL && Head(u) != DIV
    ensures ReadT(StateOf(AtomTokens(a) + ([ArithLexer1.OpToken(m)] + (AtomTokens(b) + u)))) == Ok((Bin(m, a, b), StateOf(u)))
  {
    var om := ArithLexer1.OpToken(m);
    var w2 := AtomTokens(b) + u;
    var w1 := [om] + w2;
    OpTokenKind(m);
    FReadsAtom(a, w1);
    EatStateOf(om, w2);
    TReadsAtom(b, u);
    ProductStep(m, a, b, StateOf(AtomTokens(a) + w1), StateOf(w1), StateOf(w2), StateOf(u));
  }

  /** `a * b + c` is read as `(a * b) + c`. */
  lemma ProductThenSum(a: Tree, m: Arith.Op, b: Tree, p: Arith.Op, c: Tree)
    requires Printable(a) && Printable(b) && Printable(c)
    requires !IsAdditive(m) && IsAdditive(p)
    ensures ReadE(StateOf(AtomTokens(a) + ChainTokens([Link(m, b), Link(p, c)])))
      == Ok((Bin(p, Bin(m, a, b), c), StateOf([])))
  {
    var links := [Link(m, b), Link(p, c)];
    var u := [ArithLexer1.OpToken(p)] + AtomTokens(c);
    var w := AtomTokens(a) + ([ArithLexer1.OpToken(m)] + (AtomTokens(b) + u));
    ChainTwo(links);
    assert AtomTokens(a) + ChainTokens(links) == w;
    OpTokenKind(p);
    ProductTermThen(a, m, b, u);
    TermThenSum(StateOf(w), Bin(m, a, b), p, c);
  }

  /** A term followed by '+' or '-' and a printed atom: one operator node. */
  lemma TermThenSum(s0: State, t: Tree, p: Arith.Op, c: Tree)
    requires Printable(c) && IsAdditive(p)
    requires ReadT(s0) == Ok((t, StateOf([ArithLexer1.OpToken(p)] + AtomTokens(c))))
    ensures ReadE(s0) == Ok((Bin(p, t, c), StateOf([])))
  {
    var op := ArithLexer1.OpToken(p);
    OpTokenKind(p);
    EatStateOf(op, AtomTokens(c));
    EReadsAtom(c, []);
    assert AtomTokens(c) + [] == AtomTokens(c);
    SumStep(p, t, c, s0, StateOf([op] + AtomTokens(c)), StateOf(AtomTokens(c)), StateOf([]));
  }

  /** `a + b * c` is read as `a + (b * c)`. */
  lemma SumThenProduct(a: Tree, p: Arith.Op, b: Tree, m: Arith.Op, c: Tree)
    requires Printable(a) && Printable(b) && Printable(c)
    requires IsAdditive(p) && !IsAdditive(m)
    ensures ReadE(StateOf(AtomTokens(a) + ([ArithLexer1.OpToken(p)] + (AtomTokens(b) + ([ArithLexer1.OpToken(m)] + AtomTokens(c))))))
      == Ok((Bin(p, a, Bin(m, b, c)), StateOf([])))
  {
    var op := ArithLexer1.OpToken(p);
    var w2 := AtomTokens(b) + ([ArithLexer1.OpToken(m)] + AtomTokens(c));
    var w1 := [op] + w2;
    var s0, s1, s2 := StateOf(AtomTokens(a) + w1), StateOf(w1), StateOf(w2);
    OpTokenKind(p);
    FReadsAtom(a, w1);
    FactorOnly(s0, a, s1);
    EatStateOf(op, w2);
    EReadsBin(m, b, c, []);
    assert AtomTokens(c) + [] == AtomTokens(c);
    SumStep(p, a, Bin(m, b, c), s0, s1, s2, StateOf([]));
  }

  // The documented runs.

  /** What `Parser(Lexer(s)).E()` builds when the lexer reads `s` as the tokens `w`. */
  lemma ParseOfTokens(s: string, w: seq<Token>, t: Tree)
    requires ParenLexer.LexAll(s, 0) == ParenLexer.Stream(w, None)
    requires ReadE(StateOf(w)) == Ok((t, StateOf([])))
    ensures Parse(s) == Ok(t)
  {
    StartStateOf(w);
  }

  /** A text the lexer reads as a chain of one precedence level is parsed as that chain grouped to the right. */
  lemma ParsesChain(s: string, first: Tree, links: seq<Link>)
    requires Printable(first) && PrintableLinks(links)
    requires Additive(links) || Multiplicative(links)
    requires ParenLexer.LexAll(s, 0) == ParenLexer.Stream(AtomTokens(first) + ChainTokens(links), None)
    ensures Parse(s) == Ok(RightFold(first, links))
  {
    RightChains(first, links);
    ParseOfTokens(s, AtomTokens(first) + ChainTokens(links), RightFold(first, links));
  }

  /** A text the lexer reads as `a * b + c` is parsed as `(a * b) + c`. */
  lemma ParsesProductThenSum(s: string, a: Tree, m: Arith.Op, b: Tree, p: Arith.Op, c: Tree)
    requires Printable(a) && Printable(b) && Printable(c)
    requires !IsAdditive(m) && IsAdditive(p)
    requires ParenLexer.LexAll(s, 0) == ParenLexer.Stream(AtomTokens(a) + ChainTokens([Link(m, b), Link(p, c)]), None)
    ensures Parse(s) == Ok(Bin(p, Bin(m, a, b), c))
  {
    ProductThenSum(a, m, b, p, c);
    ParseOfTokens(s, AtomTokens(a) + ChainTokens([Link(m, b), Link(p, c)]), Bin(p, Bin(m, a, b), c));
  }

  /** `2 + 3 + 4` is read as `2 + (3 + 4)`, which is 9. */
  lemma SumExample()
    ensures Parse(InfixExamples.SumText) == Ok(Bin(Arith.AddOp, Num(2), Bin(Arith.AddOp, Num(3), Num(4))))
    ensures Eval(Parse(InfixExamples.SumText).value) == Ok(9)
  {
    InfixExamples.SumLexes();
    ParsesChain(InfixExamples.SumText, InfixExamples.SumFirst, InfixExamples.SumLinks);
    FoldsTwo(InfixExamples.SumFirst, InfixExamples.SumLinks);
  }

  /** `2 * 3 * 4` is read as `2 * (3 * 4)`, which is 24. */
  lemma ProductExample()
    ensures Parse(InfixExamples.ProductText) == Ok(Bin(Arith.MulOp, Num(2), Bin(Arith.MulOp, Num(3), Num(4))))
    ensures Eval(Parse(InfixExamples.ProductText).value) == Ok(24)
  {
    InfixExamples.ProductLexes();
    ParsesChain(InfixExamples.ProductText, InfixExamples.ProductFirst, InfixExamples.ProductLinks);
    FoldsTwo(InfixExamples.ProductFirst, InfixExamples.ProductLinks);
  }

  /**
   * `2 - 3 - 4` is read as `2 - (3 - 4)`, which is 3, where the
   * documentation promises -5.
   */
  lemma DifferenceExample()
    ensures Parse(InfixExamples.DifferenceText) == Ok(Bin(Arith.SubOp, Num(2), Bin(Arith.SubOp, Num(3), Num(4))))
    ensures Eval(Parse(InfixExamples.DifferenceText).value) == Ok(3)
  {
    InfixExamples.DifferenceLexes();
    ParsesChain(InfixExamples.DifferenceText, InfixExamples.DifferenceFirst, InfixExamples.DifferenceLinks);
    FoldsTwo(InfixExamples.DifferenceFirst, InfixExamples.DifferenceLinks);
  }

  /** `2 * 3 + 4` is read as `(2 * 3) + 4`, which is 10. */
  lemma MixedExample()
    ensures Parse(InfixExamples.MixedText) == Ok(Bin(Arith.AddOp, Bin(Arith.MulOp, Num(2), Num(3)), Num(4)))
    ensures Eval(Parse(InfixExamples.MixedText).value) == Ok(10)
  {
    InfixExamples.MixedLexes();
    ParsesProductThenSum(InfixExamples.MixedText, Num(2), Arith.MulOp, Num(3), Arith.AddOp, Num(4));
  }

  /** The tokens of `(2 + 3) * 4` are read as `(2 + 3) * 4`, which is 20. */
  lemma GroupTimesExample()
    ensures ReadE(StateOf(AtomTokens(InfixExamples.GroupTimesFirst) + ChainTokens(InfixExamples.GroupTimesLinks)))
      == Ok((Bin(Arith.MulOp, Bin(Arith.AddOp, Num(2), Num(3)), Num(4)), StateOf([])))
    ensures Eval(Bin(Arith.MulOp, Bin(Arith.AddOp, Num(2), Num(3)), Num(4))) == Ok(20)
  {
    RightChains(InfixExamples.GroupTimesFirst, InfixExamples.GroupTimesLinks);
  }

  /** The tokens of `4 * (2 + 3)` are read as `4 * (2 + 3)`, which is 20. */
  lemma TimesGroupExample()
    ensures ReadE(StateOf(AtomTokens(InfixExamples.TimesGroupFirst) + ChainTokens(InfixExamples.TimesGroupLinks)))
      == Ok((Bin(Arith.MulOp, Num(4), Bin(Arith.AddOp, Num(2), Num(3))), StateOf([])))
    ensures Eval(Bin(Arith.MulOp, Num(4), Bin(Arith.AddOp, Num(2), Num(3)))) == Ok(20)
  {
    RightChains(InfixExamples.TimesGroupFirst, InfixExamples.TimesGroupLinks);
  }
}
