/**
 * The recursive-descent recogniser for balanced parentheses,
 * S ::= '(' S ')' S | empty, reading from the parenthesis lexer. The same
 * parser appears twice in the repository, with and without its doc
 * comments; both are this module.
 */
module Dyck {
  import opened Wrappers
  import opened Tokens
  import ParenLexer
  import opened ParseState

  /** `S()`: takes the first alternative exactly when the current token is '('. */
  function AfterS(st: State): (r: Result<State>)
    ensures r.Ok? ==> Rank(r.value) <= Rank(st) && r.value.cur.kind != LPR
    ensures st.cur.kind != LPR ==> r == Ok(st)
    decreases Rank(st)
  {
    if st.cur.kind == LPR then
      var a :- AfterConsume(st, LPR);
      var b :- AfterS(a);
      var c :- AfterConsume(b, RPR);
      AfterS(c)
    else Ok(st)
  }

  /** `parse()`: S, and then nothing but EOF. */
  function AfterParse(st: State): (r: Result<State>)
    ensures r.Ok? ==> r.value.cur.kind == EOF
  {
    var a :- AfterS(st);
    if a.cur.kind != EOF then Err(ValueError("Unexpected token " + KindName(a.cur.kind))) else Ok(a)
  }

  /** `Parser(Lexer(s)).parse()`: building the parser reads the first token, then `parse` runs. */
  function Recognize(s: string): (r: Result<State>)
    ensures r.Ok? ==> r.value.cur.kind == EOF
  {
    var st :- Start(ParenLexer.LexAll(s, 0));
    AfterParse(st)
  }

  class Parser {
    const lexer: ParenLexer.Lexer
    var current: Token

    predicate Valid()
      reads this, lexer
    {
      lexer.Valid()
    }

    /** The current token and what the lexer has yet to hand out. */
    function Config(): State
      reads this, lexer
      requires Valid()
    {
      State(current, lexer.Remaining())
    }

    constructor Init(l: ParenLexer.Lexer, first: Token)
      ensures lexer == l && current == first
    {
      lexer := l;
      current := first;
    }

    /** `Parser(lexer)`: reads the first token, which may raise. */
    static method Create(l: ParenLexer.Lexer) returns (r: Result<Parser>)
      requires l.Valid()
      modifies l
      ensures r.Ok? ==> fresh(r.value) && r.value.lexer == l && r.value.Valid()
      ensures match Start(old(l.Remaining()))
        case Ok(st) => r.Ok? && r.value.Config() == st
        case Err(e) => r == Err(e)
    {
      ParenLexer.NextValidReadsStream(l.input, l.position);
      var t := l.NextValidToken();
      if t.Err? {
        return Err(t.error);
      }
      var p := new Parser.Init(l, t.value);
      return Ok(p);
    }

    method Consume(k: Kind) returns (r: Result<()>)
      requires Valid()
      modifies this, lexer
      ensures Valid()
      ensures Settled(r, AfterConsume(old(Config()), k), Config())
    {
      if current.kind == k {
        ParenLexer.NextValidReadsStream(lexer.input, lexer.position);
        var t := lexer.NextValidToken();
        if t.Err? {
          return Err(t.error);
        }
        current := t.value;
        return Ok(());
      }
      return Err(ValueError("Expected " + KindName(k) + ", got " + KindName(current.kind)));
    }

    method S() returns (r: Result<()>)
      requires Valid()
      modifies this, lexer
      ensures Valid()
      ensures Settled(r, AfterS(old(Config())), Config())
      decreases Rank(Config())
    {
      if current.kind == LPR {
        r := Consume(LPR);
        if r.Err? {
          return;
        }
        r := S();
        if r.Err? {
          return;
        }
        r := Consume(RPR);
        if r.Err? {
          return;
        }
        r := S();
      } else {
        r := Ok(());
      }
    }

    method Parse() returns (r: Result<()>)
      requires Valid()
      modifies this, lexer
      ensures Valid()
      ensures Settled(r, AfterParse(old(Config())), Config())
    {
      r := S();
      if r.Err? {
        return;
      }
      if current.kind != EOF {
        r := Err(ValueError("Unexpected token " + KindName(current.kind)));
      }
    }
  }

  // The language recognised.

  predicate AllParens(w: seq<Token>) {
    forall i :: 0 <= i < |w| ==> w[i].kind == LPR || w[i].kind == RPR
  }

  /** Reading parentheses with a depth counter: it drops below zero at a position, or it ends at a depth. */
  datatype Walk = Below(at: nat) | Ends(depth: nat)

  function Later(n: nat, r: Walk): Walk {
    match r
    case Below(k) => Below(k + n)
    case Ends(d) => Ends(d)
  }

  /** The walk over `w` from depth `d`. */
  function WalkFrom(w: seq<Token>, d: nat): (r: Walk)
    ensures r.Below? ==> r.at < |w|
    decreases |w|
  {
    if |w| == 0 then Ends(d)
    else if w[0].kind == LPR then Later(1, WalkFrom(w[1..], d + 1))
    else if d == 0 then Below(0)
    else Later(1, WalkFrom(w[1..], d - 1))
  }

  /** Balanced: the depth never drops below zero and ends at zero. */
  predicate Balanced(w: seq<Token>) {
    WalkFrom(w, 0) == Ends(0)
  }

  /** Starting deeper, a walk that dropped below zero at `k` has instead come back to depth `d` there. */
  lemma {:induction false} WalkBelowShift(x: seq<Token>, a: nat, d: nat, k: nat)
    requires WalkFrom(x, a) == Below(k)
    ensures WalkFrom(x, a + d + 1) == Later(k + 1, WalkFrom(x[k + 1..], d))
    decreases |x|
  {
    var y := x[1..];
    if x[0].kind == LPR {
      WalkBelowShift(y, a + 1, d, k - 1);
      assert y[k - 1 + 1..] == x[k + 1..];
      LaterLater(k, WalkFrom(x[k + 1..], d));
    } else if a > 0 {
      WalkBelowShift(y, a - 1, d, k - 1);
      assert y[k - 1 + 1..] == x[k + 1..];
      LaterLater(k, WalkFrom(x[k + 1..], d));
    }
  }

  lemma AllParensAfter(w: seq<Token>, i: nat)
    requires AllParens(w) && i <= |w|
    ensures AllParens(w[i..])
  {
    forall j | 0 <= j < |w| - i
      ensures w[i..][j].kind == LPR || w[i..][j].kind == RPR
    {
      assert w[i..][j] == w[i + j];
    }
  }

  lemma LaterLater(k: nat, r: Walk)
    ensures Later(1, Later(k, r)) == Later(k + 1, r)
  {
  }

  /** Starting deeper, a walk that ends ends deeper by as much. */
  lemma {:induction false} WalkEndsShift(x: seq<Token>, a: nat, d: nat, e: nat)
    requires WalkFrom(x, a) == Ends(e)
    ensures WalkFrom(x, a + d) == Ends(e + d)
    decreases |x|
  {
    if |x| > 0 {
      if x[0].kind == LPR {
        WalkEndsShift(x[1..], a + 1, d, e);
      } else {
        WalkEndsShift(x[1..], a - 1, d, e);
      }
    }
  }

  /** The error `consume(TokenType.RPR)` raises at the end of the input. */
  function MissingClose(): Exc {
    ValueError("Expected " + KindName(RPR) + ", got " + KindName(EOF))
  }

  /**
   * What S does with a sequence of parentheses, by its walk: it stops at
   * the first ')' that has no partner, or reads everything when the walk
   * ends at zero, or fails at EOF missing a ')'.
   */
  function SOutcome(w: seq<Token>): Result<State> {
    OutcomeOf(w, WalkFrom(w, 0))
  }

  /** The outcome for a given walk over `w`. */
  function OutcomeOf(w: seq<Token>, r: Walk): Result<State>
    requires r.Below? ==> r.at <= |w|
  {
    match r
    case Below(k) => Ok(StateOf(w[k..]))
    case Ends(d) => EndOutcome(d)
  }

  /** S reads everything: the input is finished when the walk ends at zero and misses a ')' otherwise. */
  function EndOutcome(d: nat): Result<State> {
    if d == 0 then Ok(StateOf([])) else Err(MissingClose())
  }

  /** After '(' S ')': the rest of the walk continues from where the inner S stopped. */
  lemma SAfterGroup(w: seq<Token>, j: nat)
    requires |w| > 0 && w[0].kind == LPR
    requires WalkFrom(w[1..], 0) == Below(j)
    ensures j + 2 <= |w|
    ensures WalkFrom(w, 0) == Later(j + 2, WalkFrom(w[j + 2..], 0))
  {
    var x := w[1..];
    assert WalkFrom(w, 0) == Later(1, WalkFrom(x, 1));
    WalkBelowShift(x, 0, 0, j);
    assert x[j + 1..] == w[j + 2..];
    LaterLater(j + 1, WalkFrom(w[j + 2..], 0));
  }

  lemma SOutcomeLater(w: seq<Token>, j: nat)
    requires j + 2 <= |w|
    requires WalkFrom(w, 0) == Later(j + 2, WalkFrom(w[j + 2..], 0))
    ensures SOutcome(w) == SOutcome(w[j + 2..])
  {
    OutcomeLater(w, j + 2, WalkFrom(w[j + 2..], 0));
  }

  /** A walk found `n` tokens later gives the outcome it gives on the tokens from there. */
  lemma OutcomeLater(w: seq<Token>, n: nat, r: Walk)
    requires n <= |w| && (r.Below? ==> r.at <= |w| - n)
    ensures OutcomeOf(w, Later(n, r)) == OutcomeOf(w[n..], r)
  {
    if r.Below? {
      assert w[n..][r.at..] == w[r.at + n..];
    }
  }

  /** One '(' S ')' S step of the parser on a sequence of parentheses. */
  lemma SOpen(w: seq<Token>)
    requires AllParens(w) && |w| > 0 && w[0].kind == LPR
    ensures AllParens(w[1..])
    ensures AfterS(StateOf(w)) ==
      var b :- AfterS(StateOf(w[1..]));
      var c :- AfterConsume(b, RPR);
      AfterS(c)
  {
    AdvanceStateOf(w);
  }

  /** S on '(' S ')' S, when the inner S stops at the ')' that closes the first '('. */
  lemma SGroupStep(w: seq<Token>, j: nat)
    requires AllParens(w) && |w| > 0 && w[0].kind == LPR
    requires WalkFrom(w[1..], 0) == Below(j)
    requires AfterS(StateOf(w[1..])) == SOutcome(w[1..])
    requires j + 2 <= |w|
    requires AfterS(StateOf(w[j + 2..])) == SOutcome(w[j + 2..])
    ensures AfterS(StateOf(w)) == SOutcome(w)
  {
    SOpen(w);
    var x := w[1..];
    assert x[j..][0].kind == RPR;
    AdvanceStateOf(x[j..]);
    assert x[j..][1..] == w[j + 2..];
    SAfterGroup(w, j);
    SOutcomeLater(w, j);
  }

  /** S on '(' S when the inner S reaches EOF: the ')' is missing. */
  lemma SOpenEnds(w: seq<Token>, d: nat)
    requires AllParens(w) && |w| > 0 && w[0].kind == LPR
    requires WalkFrom(w[1..], 0) == Ends(d)
    requires AfterS(StateOf(w[1..])) == SOutcome(w[1..])
    ensures AfterS(StateOf(w)) == SOutcome(w)
  {
    SOpen(w);
    WalkEndsShift(w[1..], 0, 1, d);
  }

  /** S on a sequence of parentheses does what its walk says. */
  lemma {:induction false} SOnWalk(w: seq<Token>)
    requires AllParens(w)
    ensures AfterS(StateOf(w)) == SOutcome(w)
    decreases |w|
  {
    if |w| > 0 && w[0].kind == LPR {
      var x := w[1..];
      AllParensAfter(w, 1);
      SOnWalk(x);
      match WalkFrom(x, 0)
      case Below(j) =>
        SAfterGroup(w, j);
        AllParensAfter(w, j + 2);
        SOnWalk(w[j + 2..]);
        SGroupStep(w, j);
      case Ends(d) =>
        SOpenEnds(w, d);
    }
  }

  /** `parse` on a sequence of parentheses succeeds exactly when it is balanced. */
  lemma ParseOnWalk(w: seq<Token>)
    requires AllParens(w)
    ensures AfterParse(StateOf(w)) ==
      if Balanced(w) then Ok(StateOf([]))
      else if WalkFrom(w, 0).Below? then Err(ValueError("Unexpected token " + KindName(RPR)))
      else Err(MissingClose())
  {
    SOnWalk(w);
  }

  /**
   * On a text of parentheses the parser accepts exactly the balanced ones.
   * An unmatched ')' is reported as an unexpected token, and a missing ')'
   * as a ')' expected at EOF.
   */
  lemma RecognizesBalanced(s: string)
    requires forall i :: 0 <= i < |s| ==> IsParenChar(s[i])
    ensures AllParens(ParenTokens(s))
    ensures Recognize(s).Ok? <==> Balanced(ParenTokens(s))
    ensures Recognize(s).Err? ==>
      Recognize(s).error == if WalkFrom(ParenTokens(s), 0).Below? then ValueError("Unexpected token " + KindName(RPR)) else MissingClose()
  {
    StartOnParens(s);
    ParseOnWalk(ParenTokens(s));
  }

  // The documented runs.

  const L := Token("(", LPR)
  const R := Token(")", RPR)

  /**
   * The depths a walk passes through over its first `n` tokens: `ds[i]`
   * before token `i`, one more after a '(' and one less after any other
   * token, never going below zero.
   */
  predicate Depths(w: seq<Token>, ds: seq<nat>, n: nat) {
    n <= |w| && |ds| == n + 1 &&
    forall i :: 0 <= i < n ==> DepthStep(w[i], ds[i], ds[i + 1])
  }

  /** Token `t` takes the walk from depth `a` to depth `b`. */
  predicate DepthStep(t: Token, a: nat, b: nat) {
    if t.kind == LPR then b == a + 1 else a > 0 && b == a - 1
  }

  /** Past its first token, a walk keeps to the rest of its depths. */
  lemma DepthsRest(w: seq<Token>, ds: seq<nat>, n: nat)
    requires Depths(w, ds, n) && n > 0
    ensures Depths(w[1..], ds[1..], n - 1)
  {
    forall i | 0 <= i < n - 1
      ensures DepthStep(w[1..][i], ds[1..][i], ds[1..][i + 1])
    {
      assert w[1..][i] == w[i + 1];
      assert ds[1..][i] == ds[i + 1] && ds[1..][i + 1] == ds[i + 2];
    }
  }

  /** A walk that keeps to its depths to the end ends at the last of them. */
  lemma {:induction false} WalkByDepths(w: seq<Token>, ds: seq<nat>)
    requires Depths(w, ds, |w|)
    ensures WalkFrom(w, ds[0]) == Ends(ds[|w|])
    decreases |w|
  {
    if |w| > 0 {
      DepthsRest(w, ds, |w|);
      WalkByDepths(w[1..], ds[1..]);
      assert ds[1..][0] == ds[1];
    }
  }

  /** A walk that keeps to its depths up to `k`, and meets a ')' at depth zero there, drops below zero at `k`. */
  lemma {:induction false} WalkBelowAt(w: seq<Token>, ds: seq<nat>, k: nat)
    requires k < |w| && w[k].kind != LPR
    requires Depths(w, ds, k) && ds[k] == 0
    ensures WalkFrom(w, ds[0]) == Below(k)
    decreases k
  {
    if k > 0 {
      DepthsRest(w, ds, k);
      WalkBelowAt(w[1..], ds[1..], k - 1);
      assert ds[1..][0] == ds[1];
    }
  }

  /** A balanced text of parentheses is accepted. */
  lemma AcceptsBalanced(s: string)
    requires forall i :: 0 <= i < |s| ==> IsParenChar(s[i])
    requires WalkFrom(ParenTokens(s), 0) == Ends(0)
    ensures Recognize(s).Ok?
  {
    RecognizesBalanced(s);
  }

  /** A text of parentheses that leaves a '(' open fails at EOF. */
  lemma RejectsMissingClose(s: string, d: nat)
    requires forall i :: 0 <= i < |s| ==> IsParenChar(s[i])
    requires d > 0 && WalkFrom(ParenTokens(s), 0) == Ends(d)
    ensures Recognize(s) == Err(MissingClose())
  {
    RecognizesBalanced(s);
  }

  /** A text of parentheses whose walk drops below zero fails at the extra ')'. */
  lemma RejectsExtraClose(s: string)
    requires forall i :: 0 <= i < |s| ==> IsParenChar(s[i])
    requires WalkFrom(ParenTokens(s), 0).Below?
    ensures Recognize(s) == Err(ValueError("Unexpected token " + KindName(RPR)))
  {
    RecognizesBalanced(s);
  }

  lemma PairText()
    ensures ParenTokens("()") == [L, R]
  {
    var w := ParenTokens("()");
    assert w[0] == L;
    assert w[1] == R;
  }

  lemma PairWalk()
    ensures WalkFrom([L, R], 0) == Ends(0)
  {
    WalkByDepths([L, R], [0, 1, 0]);
  }

  /** '()' is accepted. */
  lemma PairExample()
    ensures Recognize("()").Ok?
  {
    PairText();
    PairWalk();
    AcceptsBalanced("()");
  }

  lemma NestedText()
    ensures ParenTokens("((()))") == [L, L, L, R, R, R]
  {
    var w := ParenTokens("((()))");
    assert w[0] == L;
    assert w[1] == L;
    assert w[2] == L;
    assert w[3] == R;
    assert w[4] == R;
    assert w[5] == R;
  }

  lemma NestedWalk()
    ensures WalkFrom([L, L, L, R, R, R], 0) == Ends(0)
  {
    WalkByDepths([L, L, L, R, R, R], [0, 1, 2, 3, 2, 1, 0]);
  }

  /** '((()))' is accepted. */
  lemma NestedExample()
    ensures Recognize("((()))").Ok?
  {
    NestedText();
    NestedWalk();
    AcceptsBalanced("((()))");
  }

  lemma SequenceText()
    ensures ParenTokens("()()()") == [L, R, L, R, L, R]
  {
    var w := ParenTokens("()()()");
    assert w[0] == L;
    assert w[1] == R;
    assert w[2] == L;
    assert w[3] == R;
    assert w[4] == L;
    assert w[5] == R;
  }

  lemma SequenceWalk()
    ensures WalkFrom([L, R, L, R, L, R], 0) == Ends(0)
  {
    WalkByDepths([L, R, L, R, L, R], [0, 1, 0, 1, 0, 1, 0]);
  }

  /** '()()()' is accepted. */
  lemma SequenceExample()
    ensures Recognize("()()()").Ok?
  {
    SequenceText();
    SequenceWalk();
    AcceptsBalanced("()()()");
  }

  lemma MixedText()
    ensures ParenTokens("(()())") == [L, L, R, L, R, R]
  {
    var w := ParenTokens("(()())");
    assert w[0] == L;
    assert w[1] == L;
    assert w[2] == R;
    assert w[3] == L;
    assert w[4] == R;
    assert w[5] == R;
  }

  lemma MixedWalk()
    ensures WalkFrom([L, L, R, L, R, R], 0) == Ends(0)
  {
    WalkByDepths([L, L, R, L, R, R], [0, 1, 2, 1, 2, 1, 0]);
  }

  /** '(()())' is accepted. */
  lemma MixedExample()
    ensures Recognize("(()())").Ok?
  {
    MixedText();
    MixedWalk();
    AcceptsBalanced("(()())");
  }

  lemma ShortOpenText()
    ensures ParenTokens("(()") == [L, L, R]
  {
    var w := ParenTokens("(()");
    assert w[0] == L;
    assert w[1] == L;
    assert w[2] == R;
  }

  lemma ShortOpenWalk()
    ensures WalkFrom([L, L, R], 0) == Ends(1)
  {
    WalkByDepths([L, L, R], [0, 1, 2, 1]);
  }

  /** '(()' fails expecting ')' at EOF. */
  lemma ShortOpenExample()
    ensures Recognize("(()") == Err(MissingClose())
  {
    ShortOpenText();
    ShortOpenWalk();
    RejectsMissingClose("(()", 1);
  }

  lemma LongOpenText()
    ensures ParenTokens("((())") == [L, L, L, R, R]
  {
    var w := ParenTokens("((())");
    assert w[0] == L;
    assert w[1] == L;
    assert w[2] == L;
    assert w[3] == R;
    assert w[4] == R;
  }

  lemma LongOpenWalk()
    ensures WalkFrom([L, L, L, R, R], 0) == Ends(1)
  {
    WalkByDepths([L, L, L, R, R], [0, 1, 2, 3, 2, 1]);
  }

  /** '((())' fails expecting ')' at EOF. */
  lemma LongOpenExample()
    ensures Recognize("((())") == Err(MissingClose())
  {
    LongOpenText();
    LongOpenWalk();
    RejectsMissingClose("((())", 1);
  }

  lemma ExtraCloseText()
    ensures ParenTokens("(()))") == [L, L, R, R, R]
  {
    var w := ParenTokens("(()))");
    assert w[0] == L;
    assert w[1] == L;
    assert w[2] == R;
    assert w[3] == R;
    assert w[4] == R;
  }

  lemma ExtraCloseWalk()
    ensures WalkFrom([L, L, R, R, R], 0) == Below(4)
  {
    WalkBelowAt([L, L, R, R, R], [0, 1, 2, 1, 0], 4);
  }

  /** '(()))' fails with "Unexpected token TokenType.RPR": an unexpected ')'. */
  lemma ExtraCloseExample()
    ensures Recognize("(()))") == Err(ValueError("Unexpected token " + KindName(RPR)))
  {
    ExtraCloseText();
    ExtraCloseWalk();
    RejectsExtraClose("(()))");
  }

  /** The empty text is accepted. */
  lemma EmptyExample()
    ensures Recognize("").Ok?
  {
    AcceptsBalanced("");
  }

  /** `consume(LPR)` on '(' moves to EOF. */
  lemma ConsumeOpenExample()
    ensures Start(ParenLexer.LexAll("(", 0)) == Ok(StateOf([L]))
    ensures AfterConsume(StateOf([L]), LPR) == Ok(StateOf([]))
  {
    StartOnParens("(");
    assert ParenTokens("(")[0] == L;
    AdvanceStateOf([L]);
  }

  /** `consume(LPR)` on ')' fails naming both kinds. */
  lemma ConsumeCloseExample()
    ensures Start(ParenLexer.LexAll(")", 0)) == Ok(StateOf([R]))
    ensures AfterConsume(StateOf([R]), LPR) == Err(ValueError("Expected " + KindName(LPR) + ", got " + KindName(RPR)))
  {
    StartOnParens(")");
    assert ParenTokens(")")[0] == R;
  }
}
