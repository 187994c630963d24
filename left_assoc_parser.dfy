/**
 * The recursive-descent parser with two precedence levels whose loops fold
 * to the left:
 *
 *   E ::= T EE      EE ::= ('+' | '-') T EE | empty
 *   T ::= F TT      TT ::= ('*' | '/') F TT | empty
 *   F ::= num | '(' E ')'
 *
 * EE and TT take the tree built so far and extend it on the right, so a
 * chain of operators of one level groups to the left, and `*` and `/` bind
 * tighter than `+` and `-`. F returns None on any other token, and E stops
 * at the first token it cannot use, without asking for EOF.
 */
module LeftAssocParser {
  import opened Wrappers
  import opened Tokens
  import Arith
  import Decimal
  import ParenLexer
  import opened ParseState
  import opened InfixTree
  import ArithLexer1
  import InfixExamples

  /** `E()` from a state: the tree and the state after it. */
  function ReadE(st: State): (r: Result<(Tree, State)>)
    ensures r.Ok? ==> Rank(r.value.1) <= Rank(st)
    decreases Rank(st), 3
  {
    var p :- ReadT(st);
    ReadEE(p.0, p.1)
  }

  /** `EE(left)`: each '+' or '-' and the term after it extend the tree so far. */
  function ReadEE(left: Tree, st: State): (r: Result<(Tree, State)>)
    ensures r.Ok? ==> Rank(r.value.1) <= Rank(st)
    ensures st.cur.kind != ADD && st.cur.kind != SUB ==> r == Ok((left, st))
    decreases Rank(st), 2
  {
    if st.cur.kind == ADD || st.cur.kind == SUB then
      var s1 :- AfterEat(st, st.cur.kind);
      var p :- ReadT(s1);
      ReadEE(Bin(OpOf(st.cur.kind), left, p.0), p.1)
    else Ok((left, st))
  }

  /** `T()`. */
  function ReadT(st: State): (r: Result<(Tree, State)>)
    ensures r.Ok? ==> Rank(r.value.1) <= Rank(st)
    decreases Rank(st), 1
  {
    var p :- ReadF(st);
    ReadTT(p.0, p.1)
  }

  /** `TT(left)`: each '*' or '/' and the factor after it extend the tree so far. */
  function ReadTT(left: Tree, st: State): (r: Result<(Tree, State)>)
    ensures r.Ok? ==> Rank(r.value.1) <= Rank(st)
    ensures st.cur.kind != MUL && st.cur.kind != DIV ==> r == Ok((left, st))
    decreases Rank(st), 0
  {
    if st.cur.kind == MUL || st.cur.kind == DIV then
      var s1 :- AfterEat(st, st.cur.kind);
      var p :- ReadF(s1);
      ReadTT(Bin(OpOf(st.cur.kind), left, p.0), p.1)
    else Ok((left, st))
  }

  /** `F()`: a number, or a parenthesised expression; None, with nothing read, on any other token. */
  function ReadF(st: State): (r: Result<(Tree, State)>)
    ensures r.Ok? ==> Rank(r.value.1) <= Rank(st)
    ensures st.cur.kind != NUM && st.cur.kind != LPR ==> r == Ok((Missing, st))
    decreases Rank(st), 0
  {
    if st.cur.kind == NUM then
      var s1 :- AfterEat(st, NUM);
      var n :- Decimal.ParseInt(st.cur.text);
      Ok((Num(n), s1))
    else if st.cur.kind == LPR then
      var s1 :- AfterEat(st, LPR);
      var p :- ReadE(s1);
      var s2 :- AfterEat(p.1, RPR);
      Ok((p.0, s2))
    else Ok((Missing, st))
  }

  /** `Parser(Lexer(s)).E()`. */
  function Parse(s: string): Result<Tree> {
    var st :- Start(ParenLexer.LexAll(s, 0));
    var p :- ReadE(st);
    Ok(p.0)
  }

  class Parser {
    const lexer: ParenLexer.Lexer
    var current: Token

    predicate Valid()
      reads this, lexer
    {
      lexer.Valid()
    }

    /** The current token and what the lexer has yet to hand out. */
    function Config(): State
      reads this, lexer
      requires Valid()
    {
      State(current, lexer.Remaining())
    }

    constructor Init(l: ParenLexer.Lexer, first: Token)
      ensures lexer == l && current == first
    {
      lexer := l;
      current := first;
    }

    /** `Parser(lexer)`: reads the first token, which may raise. */
    static method Create(l: ParenLexer.Lexer) returns (r: Result<Parser>)
      requires l.Valid()
      modifies l
      ensures r.Ok? ==> fresh(r.value) && r.value.lexer == l && r.value.Valid()
      ensures match Start(old(l.Remaining()))
        case Ok(st) => r.Ok? && r.value.Config() == st
        case Err(e) => r == Err(e)
    {
      ParenLexer.NextValidReadsStream(l.input, l.position);
      var t := l.NextValidToken();
      if t.Err? {
        return Err(t.error);
      }
      var p := new Parser.Init(l, t.value);
      return Ok(p);
    }

    method Eat(k: Kind) returns (r: Result<()>)
      requires Valid()
      modifies this, lexer
      ensures Valid()
      ensures Settled(r, AfterEat(old(Config()), k), Config())
    {
      if current.kind == k {
        ParenLexer.NextValidReadsStream(lexer.input, lexer.position);
        var t := lexer.NextValidToken();
        if t.Err? {
          return Err(t.error);
        }
        current := t.value;
        return Ok(());
      }
      return Err(ValueError("Unexpected token: " + KindName(current.kind)));
    }

    method E() returns (r: Result<Tree>)
      requires Valid()
      modifies this, lexer
      ensures Valid()
      ensures Built(r, ReadE(old(Config())), Config())
      decreases Rank(Config()), 3
    {
      var exp := T();
      if exp.Err? {
        return exp;
      }
      r := EE(exp.value);
    }

    method EE(left: Tree) returns (r: Result<Tree>)
      requires Valid()
      modifies this, lexer
      ensures Valid()
      ensures Built(r, ReadEE(left, old(Config())), Config())
      decreases Rank(Config()), 2
    {
      var token := current;
      if token.kind == ADD || token.kind == SUB {
        var e := Eat(token.kind);
        if e.Err? {
          return Err(e.error);
        }
        var right := T();
        if right.Err? {
          return right;
        }
        r := EE(Bin(OpOf(token.kind), left, right.value));
        return;
      }
      return Ok(left);
    }

    method T() returns (r: Result<Tree>)
      requires Valid()
      modifies this, lexer
      ensures Valid()
      ensures Built(r, ReadT(old(Config())), Config())
      decreases Rank(Config()), 1
    {
      var exp := F();
      if exp.Err? {
        return exp;
      }
      r := TT(exp.value);
    }

    method TT(left: Tree) returns (r: Result<Tree>)
      requires Valid()
      modifies this, lexer
      ensures Valid()
      ensures Built(r, ReadTT(left, old(Config())), Config())
      decreases Rank(Config()), 0
    {
      var token := current;
      if token.kind == MUL || token.kind == DIV {
        var e := Eat(token.kind);
        if e.Err? {
          return Err(e.error);
        }
        var right := F();
        if right.Err? {
          return right;
        }
        r := TT(Bin(OpOf(token.kind), left, right.value));
        return;
      }
      return Ok(left);
    }

    method F() returns (r: Result<Tree>)
      requires Valid()
      modifies this, lexer
      ensures Valid()
      ensures Built(r, ReadF(old(Config())), Config())
      decreases Rank(Config()), 0
    {
      var token := current;
      if token.kind == NUM {
        var e := Eat(NUM);
        if e.Err? {
          return Err(e.error);
        }
        var n := Decimal.ParseInt(token.text);
        if n.Err? {
          return Err(n.error);
        }
        return Ok(Num(n.value));
      } else if token.kind == LPR {
        var e := Eat(LPR);
        if e.Err? {
          return Err(e.error);
        }
        var node := E();
        if node.Err? {
          return node;
        }
        e := Eat(RPR);
        if e.Err? {
          return Err(e.error);
        }
        return node;
      }
      return Ok(Missing);
    }
  }

  // What the parser builds from printed trees and operator chains.

  /** F reads a fully parenthesised printout back as the tree it prints, whatever follows. */
  lemma {:induction false} FReadsAtom(e: Tree, rest: seq<Token>)
    requires Printable(e)
    ensures ReadF(StateOf(AtomTokens(e) + rest)) == Ok((e, StateOf(rest)))
    decreases e, 2
  {
    match e
    case Num(n) =>
      FReadsNum(n, rest);
    case Bin(op, l, r) =>
      EReadsBin(op, l, r, [RightParen] + rest);
      FReadsParens(op, l, r, rest);
  }

  /** F reads a number token as that number. */
  lemma FReadsNum(n: nat, rest: seq<Token>)
    ensures ReadF(StateOf([ArithLexer1.NumToken(n)] + rest)) == Ok((Num(n), StateOf(rest)))
  {
    EatStateOf(ArithLexer1.NumToken(n), rest);
    NumTokenValue(n);
  }

  /** F reads '(' l op r ')' as the node E reads inside the parentheses. */
  lemma FReadsParens(op: Arith.Op, l: Tree, r: Tree, rest: seq<Token>)
    requires Printable(l) && Printable(r)
    requires ReadE(StateOf(AtomTokens(l) + ([ArithLexer1.OpToken(op)] + (AtomTokens(r) + ([RightParen] + rest)))))
      == Ok((Bin(op, l, r), StateOf([RightParen] + rest)))
    ensures ReadF(StateOf(AtomTokens(Bin(op, l, r)) + rest)) == Ok((Bin(op, l, r), StateOf(rest)))
  {
    AtomSplit(op, l, r, rest);
    var tail := [RightParen] + rest;
    var inner := AtomTokens(l) + ([ArithLexer1.OpToken(op)] + (AtomTokens(r) + tail));
    EatStateOf(LeftParen, inner);
    EatStateOf(RightParen, rest);
    ParenStep(StateOf([LeftParen] + inner), StateOf(inner), Bin(op, l, r), StateOf(tail), StateOf(rest));
  }

  /** F on '(' E ')': the tree E reads inside, and the state after the ')'. */
  lemma ParenStep(s0: State, s1: State, t: Tree, s2: State, s3: State)
    requires s0.cur.kind == LPR && AfterEat(s0, LPR) == Ok(s1)
    requires ReadE(s1) == Ok((t, s2))
    requires AfterEat(s2, RPR) == Ok(s3)
    ensures ReadF(s0) == Ok((t, s3))
  {
  }

  /** T reads a printout back when no '*' or '/' follows it. */
  lemma {:induction false} TReadsAtom(e: Tree, rest: seq<Token>)
    requires Printable(e)
    requires Head(rest) != MUL && Head(rest) != DIV
    ensures ReadT(StateOf(AtomTokens(e) + rest)) == Ok((e, StateOf(rest)))
    decreases e, 3
  {
    FReadsAtom(e, rest);
  }

  /** E reads the two operands of a printed operator node and the operator between them as that node. */
  lemma {:induction false} EReadsBin(op: Arith.Op, l: Tree, r: Tree, rest: seq<Token>)
    requires Printable(l) && Printable(r)
    requires !IsOperator(Head(rest))
    ensures ReadE(StateOf(AtomTokens(l) + ([ArithLexer1.OpToken(op)] + (AtomTokens(r) + rest))))
      == Ok((Bin(op, l, r), StateOf(rest)))
    decreases Bin(op, l, r), 1
  {
    if IsAdditive(op) {
      EReadsSum(op, l, r, rest);
    } else {
      EReadsProduct(op, l, r, rest);
    }
  }

  /** `l + r`: T stops at the operator and EE takes it. */
  lemma {:induction false} EReadsSum(op: Arith.Op, l: Tree, r: Tree, rest: seq<Token>)
    requires Printable(l) && Printable(r) && IsAdditive(op)
    requires !IsOperator(Head(rest))
    ensures ReadE(StateOf(AtomTokens(l) + ([ArithLexer1.OpToken(op)] + (AtomTokens(r) + rest))))
      == Ok((Bin(op, l, r), StateOf(rest)))
    decreases Bin(op, l, r), 0
  {
    var o := ArithLexer1.OpToken(op);
    var after := [o] + (AtomTokens(r) + rest);
    OpTokenKind(op);
    FReadsAtom(l, after);
    EatStateOf(o, AtomTokens(r) + rest);
    TReadsAtom(r, rest);
    SumStep(op, l, r, StateOf(AtomTokens(l) + after), StateOf(after), StateOf(AtomTokens(r) + rest), StateOf(rest));
  }

  /** `l * r`: TT takes the operator inside T. */
  lemma {:induction false} EReadsProduct(op: Arith.Op, l: Tree, r: Tree, rest: seq<Token>)
    requires Printable(l) && Printable(r) && !IsAdditive(op)
    requires !IsOperator(Head(rest))
    ensures ReadE(StateOf(AtomTokens(l) + ([ArithLexer1.OpToken(op)] + (AtomTokens(r) + rest))))
      == Ok((Bin(op, l, r), StateOf(rest)))
    decreases Bin(op, l, r), 0
  {
    var o := ArithLexer1.OpToken(op);
    var after := [o] + (AtomTokens(r) + rest);
    OpTokenKind(op);
    FReadsAtom(l, after);
    EatStateOf(o, AtomTokens(r) + rest);
    FReadsAtom(r, rest);
    ProductStep(op, l, r, StateOf(AtomTokens(l) + after), StateOf(after), StateOf(AtomTokens(r) + rest), StateOf(rest));
  }

  /** E on `l + r` from the states between the pieces. */
  lemma SumStep(op: Arith.Op, l: Tree, r: Tree, s0: State, s1: State, s2: State, s3: State)
    requires IsAdditive(op) && s1.cur.kind == KindOf(op) && !IsOperator(s3.cur.kind)
    requires ReadF(s0) == Ok((l, s1))
    requires AfterEat(s1, KindOf(op)) == Ok(s2)
    requires ReadT(s2) == Ok((r, s3))
    ensures ReadE(s0) == Ok((Bin(op, l, r), s3))
  {
    assert ReadT(s0) == Ok((l, s1));
    assert ReadEE(l, s1) == ReadEE(Bin(op, l, r), s3);
  }

  /** E on `l * r` from the states between the pieces. */
  lemma ProductStep(op: Arith.Op, l: Tree, r: Tree, s0: State, s1: State, s2: State, s3: State)
    requires !IsAdditive(op) && s1.cur.kind == KindOf(op) && !IsOperator(s3.cur.kind)
    requires ReadF(s0) == Ok((l, s1))
    requires AfterEat(s1, KindOf(op)) == Ok(s2)
    requires ReadF(s2) == Ok((r, s3))
    ensures ReadT(s0) == Ok((Bin(op, l, r), s3))
    ensures ReadE(s0) == Ok((Bin(op, l, r), s3))
  {
    assert ReadTT(l, s1) == ReadTT(Bin(op, l, r), s3);
    assert ReadT(s0) == Ok((Bin(op, l, r), s3));
  }

  /** E reads a printout back when no operator follows it, and leaves what follows unread. */
  lemma EReadsAtom(e: Tree, rest: seq<Token>)
    requires Printable(e)
    requires !IsOperator(Head(rest))
    ensures ReadE(StateOf(AtomTokens(e) + rest)) == Ok((e, StateOf(rest)))
  {
    TReadsAtom(e, rest);
  }

  /** The round trip: the parser reads the fully parenthesised printout of a tree back as that tree. */
  lemma ParsesPrinted(e: Tree)
    requires Printable(e)
    ensures ReadE(StateOf(AtomTokens(e))) == Ok((e, StateOf([])))
  {
    EReadsAtom(e, []);
    assert AtomTokens(e) + [] == AtomTokens(e);
  }

  /** TT folds a chain of '*' and '/' to the left. */
  lemma {:induction false} TTFolds(acc: Tree, links: seq<Link>, rest: seq<Token>)
    requires PrintableLinks(links) && Multiplicative(links)
    requires Head(rest) != MUL && Head(rest) != DIV
    ensures ReadTT(acc, StateOf(ChainTokens(links) + rest)) == Ok((LeftFold(acc, links), StateOf(rest)))
    decreases |links|
  {
    if |links| == 0 {
      assert ChainTokens(links) + rest == rest;
    } else {
      var op, x := links[0].op, links[0].operand;
      var o := ArithLexer1.OpToken(op);
      var more := ChainTokens(links[1..]) + rest;
      var s1, s2, s3 := StateOf(ChainTokens(links) + rest), StateOf(AtomTokens(x) + more), StateOf(more);
      ChainSplit(links, rest);
      LinksRest(links);
      OpTokenKind(op);
      EatStateOf(o, AtomTokens(x) + more);
      FReadsAtom(x, more);
      TTFolds(Bin(op, acc, x), links[1..], rest);
      TTStep(acc, op, s1, s2, x, s3, Ok((LeftFold(acc, links), StateOf(rest))));
    }
  }

  /** EE folds a chain of '+' and '-' to the left. */
  lemma {:induction false} EEFolds(acc: Tree, links: seq<Link>, rest: seq<Token>)
    requires PrintableLinks(links) && Additive(links)
    requires !IsOperator(Head(rest))
    ensures ReadEE(acc, StateOf(ChainTokens(links) + rest)) == Ok((LeftFold(acc, links), StateOf(rest)))
    decreases |links|
  {
    if |links| == 0 {
      assert ChainTokens(links) + rest == rest;
    } else {
      var op, x := links[0].op, links[0].operand;
      var o := ArithLexer1.OpToken(op);
      var more := ChainTokens(links[1..]) + rest;
      var s1, s2, s3 := StateOf(ChainTokens(links) + rest), StateOf(AtomTokens(x) + more), StateOf(more);
      ChainSplit(links, rest);
      LinksRest(links);
      OpTokenKind(op);
      EatStateOf(o, AtomTokens(x) + more);
      ChainHead(links[1..], rest);
      if |links| > 1 {
        OpTokenKind(links[1].op);
      }
      TReadsAtom(x, more);
      EEFolds(Bin(op, acc, x), links[1..], rest);
      EEStep(acc, op, s1, s2, x, s3, Ok((LeftFold(acc, links), StateOf(rest))));
    }
  }

  /** A chain of operators of one precedence level groups to the left. */
  lemma LeftChains(first: Tree, links: seq<Link>)
    requires Printable(first) && PrintableLinks(links)
    requires Additive(links) || Multiplicative(links)
    ensures ReadE(StateOf(AtomTokens(first) + ChainTokens(links))) == Ok((LeftFold(first, links), StateOf([])))
  {
    var w := ChainTokens(links);
    var s0, s1 := StateOf(AtomTokens(first) + w), StateOf(w);
    assert w + [] == w;
    ChainHead(links, []);
    if |links| > 0 {
      OpTokenKind(links[0].op);
    }
    if Additive(links) {
      TReadsAtom(first, w);
      EEFolds(first, links, []);
      TermThenRest(s0, first, s1, ReadEE(first, s1));
    } else {
      FReadsAtom(first, w);
      TTFolds(first, links, []);
      FactorThenRest(s0, first, s1, LeftFold(first, links), StateOf([]));
    }
  }

  /** E is T followed by EE. */
  lemma TermThenRest(s0: State, t: Tree, s1: State, x: Result<(Tree, State)>)
    requires ReadT(s0) == Ok((t, s1)) && ReadEE(t, s1) == x
    ensures ReadE(s0) == x
  {
  }

  /** E on a term alone: F, then TT, and no '+' or '-' after it. */
  lemma FactorThenRest(s0: State, f: Tree, s1: State, t: Tree, s2: State)
    requires ReadF(s0) == Ok((f, s1)) && ReadTT(f, s1) == Ok((t, s2))
    requires s2.cur.kind != ADD && s2.cur.kind != SUB
    ensures ReadE(s0) == Ok((t, s2))
  {
    assert ReadT(s0) == Ok((t, s2));
  }

  /** EE on one '+' or '-' and the term after it, from the states between the pieces. */
  lemma EEStep(acc: Tree, op: Arith.Op, s1: State, s2: State, t: Tree, s3: State, x: Result<(Tree, State)>)
    requires IsAdditive(op) && s1.cur.kind == KindOf(op)
    requires AfterEat(s1, KindOf(op)) == Ok(s2)
    requires ReadT(s2) == Ok((t, s3))
    requires ReadEE(Bin(op, acc, t), s3) == x
    ensures ReadEE(acc, s1) == x
  {
    OpTokenKind(op);
  }

  /** TT on one '*' or '/' and the factor after it, from the states between the pieces. */
  lemma TTStep(acc: Tree, op: Arith.Op, s1: State, s2: State, f: Tree, s3: State, x: Result<(Tree, State)>)
    requires !IsAdditive(op) && s1.cur.kind == KindOf(op)
    requires AfterEat(s1, KindOf(op)) == Ok(s2)
    requires ReadF(s2) == Ok((f, s3))
    requires ReadTT(Bin(op, acc, f), s3) == x
    ensures ReadTT(acc, s1) == x
  {
    OpTokenKind(op);
  }

  // Precedence: '*' and '/' bind tighter than '+' and '-', on either side.

  /** `a * b + c` is read as `(a * b) + c`. */
  lemma ProductThenSum(a: Tree, m: Arith.Op, b: Tree, p: Arith.Op, c: Tree)
    requires Printable(a) && Printable(b) && Printable(c)
    requires !IsAdditive(m) && IsAdditive(p)
    ensures ReadE(StateOf(AtomTokens(a) + ChainTokens([Link(m, b), Link(p, c)])))
      == Ok((Bin(p, Bin(m, a, b), c), StateOf([])))
  {
    var links := [Link(m, b), Link(p, c)];
    var u := [ArithLexer1.OpToken(p)] + AtomTokens(c);
    var w := AtomTokens(a) + ([ArithLexer1.OpToken(m)] + (AtomTokens(b) + u));
    ChainTwo(links);
    assert AtomTokens(a) + ChainTokens(links) == w;
    OpTokenKind(p);
    ProductTermThen(a, m, b, u);
    TermThenSum(StateOf(w), Bin(m, a, b), p, c);
  }

  /** T reads `a * b` as one term when no '*' or '/' follows. */
  lemma ProductTermThen(a: Tree, m: Arith.Op, b: Tree, u: seq<Token>)
    requires Printable(a) && Printable(b) && !IsAdditive(m)
    requires Head(u) != MUL && Head(u) != DIV
    ensures ReadT(StateOf(AtomTokens(a) + ([ArithLexer1.OpToken(m)] + (AtomTokens(b) + u)))) == Ok((Bin(m, a, b), StateOf(u)))
  {
    var om := ArithLexer1.OpToken(m);
    var v := AtomTokens(b) + u;
    var s0, s1, s2, s3 := StateOf(AtomTokens(a) + ([om] + v)), StateOf([om] + v), StateOf(v), StateOf(u);
    OpTokenKind(m);
    FReadsAtom(a, [om] + v);
    EatStateOf(om, v);
    FReadsAtom(b, u);
    assert ReadTT(Bin(m, a, b), s3) == Ok((Bin(m, a, b), s3));
    TTStep(a, m, s1, s2, b, s3, Ok((Bin(m, a, b), s3)));
  }

  /** A term followed by '+' or '-' and a printed atom: one operator node. */
  lemma TermThenSum(s0: State, t: Tree, p: Arith.Op, c: Tree)
    requires Printable(c) && IsAdditive(p)
    requires ReadT(s0) == Ok((t, StateOf([ArithLexer1.OpToken(p)] + AtomTokens(c))))
    ensures ReadE(s0) == Ok((Bin(p, t, c), StateOf([])))
  {
    var op := ArithLexer1.OpToken(p);
    var s3, s4, s5 := StateOf([op] + AtomTokens(c)), StateOf(AtomTokens(c)), StateOf([]);
    OpTokenKind(p);
    EatStateOf(op, AtomTokens(c));
    TReadsAtom(c, []);
    assert AtomTokens(c) + [] == AtomTokens(c);
    EEStep(t, p, s3, s4, c, s5, Ok((Bin(p, t, c), s5)));
    TermThenRest(s0, t, s3, Ok((Bin(p, t, c), s5)));
  }

  /** T reads `b * c` as one term. */
  lemma ProductTerm(b: Tree, m: Arith.Op, c: Tree)
    requires Printable(b) && Printable(c) && !IsAdditive(m)
    ensures ReadT(StateOf(AtomTokens(b) + ([ArithLexer1.OpToken(m)] + AtomTokens(c)))) == Ok((Bin(m, b, c), StateOf([])))
  {
    var o := ArithLexer1.OpToken(m);
    var after := [o] + AtomTokens(c);
    OpTokenKind(m);
    FReadsAtom(b, after);
    EatStateOf(o, AtomTokens(c));
    FReadsAtom(c, []);
    assert AtomTokens(c) + [] == AtomTokens(c);
    ProductStep(m, b, c, StateOf(AtomTokens(b) + after), StateOf(after), StateOf(AtomTokens(c)), StateOf([]));
  }

  /** A printed atom, '+' or '-', and tokens that T reads whole: one operator node. */
  lemma SumThenTerm(a: Tree, p: Arith.Op, u: seq<Token>, t: Tree)
    requires Printable(a) && IsAdditive(p)
    requires ReadT(StateOf(u)) == Ok((t, StateOf([])))
    ensures ReadE(StateOf(AtomTokens(a) + ([ArithLexer1.OpToken(p)] + u))) == Ok((Bin(p, a, t), StateOf([])))
  {
    var w := [ArithLexer1.OpToken(p)] + u;
    OpTokenKind(p);
    FReadsAtom(a, w);
    EatStateOf(ArithLexer1.OpToken(p), u);
    SumStep(p, a, t, StateOf(AtomTokens(a) + w), StateOf(w), StateOf(u), StateOf([]));
  }

  /** `a + b * c` is read as `a + (b * c)`. */
  lemma SumThenProduct(a: Tree, p: Arith.Op, b: Tree, m: Arith.Op, c: Tree)
    requires Printable(a) && Printable(b) && Printable(c)
    requires IsAdditive(p) && !IsAdditive(m)
    ensures ReadE(StateOf(AtomTokens(a) + ([ArithLexer1.OpToken(p)] + (AtomTokens(b) + ([ArithLexer1.OpToken(m)] + AtomTokens(c))))))
      == Ok((Bin(p, a, Bin(m, b, c)), StateOf([])))
  {
    ProductTerm(b, m, c);
    SumThenTerm(a, p, AtomTokens(b) + ([ArithLexer1.OpToken(m)] + AtomTokens(c)), Bin(m, b, c));
  }

  // The documented runs.

  /** What `Parser(Lexer(s)).E()` builds when the lexer reads `s` as the tokens `w`. */
  lemma ParseOfTokens(s: string, w: seq<Token>, t: Tree)
    requires ParenLexer.LexAll(s, 0) == ParenLexer.Stream(w, None)
    requires ReadE(StateOf(w)) == Ok((t, StateOf([])))
    ensures Parse(s) == Ok(t)
  {
    StartStateOf(w);
  }

  /** A text the lexer reads as a chain of one precedence level is parsed as that chain grouped to the left. */
  lemma ParsesChain(s: string, first: Tree, links: seq<Link>)
    requires Printable(first) && PrintableLinks(links)
    requires Additive(links) || Multiplicative(links)
    requires ParenLexer.LexAll(s, 0) == ParenLexer.Stream(AtomTokens(first) + ChainTokens(links), None)
    ensures Parse(s) == Ok(LeftFold(first, links))
  {
    LeftChains(first, links);
    ParseOfTokens(s, AtomTokens(first) + ChainTokens(links), LeftFold(first, links));
  }

  /** A text the lexer reads as `a * b + c` is parsed as `(a * b) + c`. */
  lemma ParsesProductThenSum(s: string, a: Tree, m: Arith.Op, b: Tree, p: Arith.Op, c: Tree)
    requires Printable(a) && Printable(b) && Printable(c)
    requires !IsAdditive(m) && IsAdditive(p)
    requires ParenLexer.LexAll(s, 0) == ParenLexer.Stream(AtomTokens(a) + ChainTokens([Link(m, b), Link(p, c)]), None)
    ensures Parse(s) == Ok(Bin(p, Bin(m, a, b), c))
  {
    ProductThenSum(a, m, b, p, c);
    ParseOfTokens(s, AtomTokens(a) + ChainTokens([Link(m, b), Link(p, c)]), Bin(p, Bin(m, a, b), c));
  }

  /** `2 + 3 + 4` is read as `(2 + 3) + 4`, which is 9. */
  lemma SumExample()
    ensures Parse(InfixExamples.SumText) == Ok(Bin(Arith.AddOp, Bin(Arith.AddOp, Num(2), Num(3)), Num(4)))
    ensures Eval(Parse(InfixExamples.SumText).value) == Ok(9)
  {
    InfixExamples.SumLexes();
    ParsesChain(InfixExamples.SumText, InfixExamples.SumFirst, InfixExamples.SumLinks);
    FoldsTwo(InfixExamples.SumFirst, InfixExamples.SumLinks);
  }

  /** `2 * 3 * 4` is read as `(2 * 3) * 4`, which is 24. */
  lemma ProductExample()
    ensures Parse(InfixExamples.ProductText) == Ok(Bin(Arith.MulOp, Bin(Arith.MulOp, Num(2), Num(3)), Num(4)))
    ensures Eval(Parse(InfixExamples.ProductText).value) == Ok(24)
  {
    InfixExamples.ProductLexes();
    ParsesChain(InfixExamples.ProductText, InfixExamples.ProductFirst, InfixExamples.ProductLinks);
    FoldsTwo(InfixExamples.ProductFirst, InfixExamples.ProductLinks);
  }

  /** `2 - 3 - 4` is read as `(2 - 3) - 4`, which is -5. */
  lemma DifferenceExample()
    ensures Parse(InfixExamples.DifferenceText) == Ok(Bin(Arith.SubOp, Bin(Arith.SubOp, Num(2), Num(3)), Num(4)))
    ensures Eval(Parse(InfixExamples.DifferenceText).value) == Ok(-5)
  {
    InfixExamples.DifferenceLexes();
    ParsesChain(InfixExamples.DifferenceText, InfixExamples.DifferenceFirst, InfixExamples.DifferenceLinks);
    FoldsTwo(InfixExamples.DifferenceFirst, InfixExamples.DifferenceLinks);
  }

  /** `2 * 3 + 4` is read as `(2 * 3) + 4`, which is 10. */
  lemma MixedExample()
    ensures Parse(InfixExamples.MixedText) == Ok(Bin(Arith.AddOp, Bin(Arith.MulOp, Num(2), Num(3)), Num(4)))
    ensures Eval(Parse(InfixExamples.MixedText).value) == Ok(10)
  {
    InfixExamples.MixedLexes();
    ParsesProductThenSum(InfixExamples.MixedText, Num(2), Arith.MulOp, Num(3), Arith.AddOp, Num(4));
  }

  /** The tokens of `(2 + 3) * 4` are read as `(2 + 3) * 4`, which is 20. */
  lemma GroupTimesExample()
    ensures ReadE(StateOf(AtomTokens(InfixExamples.GroupTimesFirst) + ChainTokens(InfixExamples.GroupTimesLinks)))
      == Ok((Bin(Arith.MulOp, Bin(Arith.AddOp, Num(2), Num(3)), Num(4)), StateOf([])))
    ensures Eval(Bin(Arith.MulOp, Bin(Arith.AddOp, Num(2), Num(3)), Num(4))) == Ok(20)
  {
    LeftChains(InfixExamples.GroupTimesFirst, InfixExamples.GroupTimesLinks);
  }

  /** The tokens of `4 * (2 + 3)` are read as `4 * (2 + 3)`, which is 20. */
  lemma TimesGroupExample()
    ensures ReadE(StateOf(AtomTokens(InfixExamples.TimesGroupFirst) + ChainTokens(InfixExamples.TimesGroupLinks)))
      == Ok((Bin(Arith.MulOp, Num(4), Bin(Arith.AddOp, Num(2), Num(3))), StateOf([])))
    ensures Eval(Bin(Arith.MulOp, Num(4), Bin(Arith.AddOp, Num(2), Num(3)))) == Ok(20)
  {
    LeftChains(InfixExamples.TimesGroupFirst, InfixExamples.TimesGroupLinks);
  }

  /** After `2 +` the factor is missing: E still returns a tree, whose `eval` raises AttributeError. */
  lemma MissingOperandExample()
    ensures ReadE(StateOf([ArithLexer1.NumToken(2), ArithLexer1.OpToken(Arith.AddOp)]))
      == Ok((Bin(Arith.AddOp, Num(2), Missing), StateOf([])))
    ensures Eval(Bin(Arith.AddOp, Num(2), Missing)) == Err(AttributeError("eval"))
  {
    var o := ArithLexer1.OpToken(Arith.AddOp);
    var s0, s1 := StateOf([ArithLexer1.NumToken(2)] + [o]), StateOf([o]);
    OpTokenKind(Arith.AddOp);
    FReadsAtom(Num(2), [o]);
    assert ReadT(s0) == Ok((Num(2), s1));
    EatStateOf(o, []);
    assert ReadT(StateOf([])) == Ok((Missing, StateOf([])));
    EEStep(Num(2), Arith.AddOp, s1, StateOf([]), Missing, StateOf([]), Ok((Bin(Arith.AddOp, Num(2), Missing), StateOf([]))));
    TermThenRest(s0, Num(2), s1, ReadEE(Num(2), s1));
  }

  /** In `(2` the ')' is missing: eating it at EOF raises ValueError. */
  lemma UnclosedExample()
    ensures ReadE(StateOf([LeftParen, ArithLexer1.NumToken(2)]))
      == Err(ValueError("Unexpected token: " + KindName(EOF)))
  {
    var s0 := StateOf([LeftParen] + [ArithLexer1.NumToken(2)]);
    EatStateOf(LeftParen, [ArithLexer1.NumToken(2)]);
    ParsesPrinted(Num(2));
    assert ReadF(s0) == Err(ValueError("Unexpected token: " + KindName(EOF)));
  }
}
