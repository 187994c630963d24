/**
 * The recursive-descent attempt at the grammar S ::= '(' S | P,
 * P ::= '(' P ')' | empty. S consumes '(' for as long as it sees one, so by
 * the time P runs the current token is never '(' and P does nothing: the
 * parser accepts exactly the texts made of '(' alone.
 */
module LhplDescent {
  import opened Wrappers
  import opened Tokens
  import ParenLexer
  import opened ParseState

  /** `P()`: '(' P ')' when the current token is '(', otherwise nothing. */
  function AfterP(st: State): (r: Result<State>)
    ensures r.Ok? ==> Rank(r.value) <= Rank(st)
    ensures st.cur.kind != LPR ==> r == Ok(st)
    decreases Rank(st)
  {
    if st.cur.kind == LPR then
      var a :- AfterConsume(st, LPR);
      var b :- AfterP(a);
      AfterConsume(b, RPR)
    else Ok(st)
  }

  /** `S()`: '(' S when the current token is '(', and P in either case. */
  function AfterS(st: State): (r: Result<State>)
    ensures r.Ok? ==> Rank(r.value) <= Rank(st)
    decreases Rank(st)
  {
    if st.cur.kind == LPR then
      var a :- AfterConsume(st, LPR);
      var b :- AfterS(a);
      AfterP(b)
    else AfterP(st)
  }

  /** `parse()`: S, and then nothing but EOF. */
  function AfterParse(st: State): (r: Result<State>)
    ensures r.Ok? ==> r.value.cur.kind == EOF
  {
    var a :- AfterS(st);
    if a.cur.kind != EOF then Err(ValueError("Unexpected token " + KindName(a.cur.kind))) else Ok(a)
  }

  /** `Parser(Lexer(s)).parse()`. */
  function Recognize(s: string): Result<State> {
    var st :- Start(ParenLexer.LexAll(s, 0));
    AfterParse(st)
  }

  class Parser {
    const lexer: ParenLexer.Lexer
    var current: Token

    predicate Valid()
      reads this, lexer
    {
      lexer.Valid()
    }

    /** The current token and what the lexer has yet to hand out. */
    function Config(): State
      reads this, lexer
      requires Valid()
    {
      State(current, lexer.Remaining())
    }

    constructor Init(l: ParenLexer.Lexer, first: Token)
      ensures lexer == l && current == first
    {
      lexer := l;
      current := first;
    }

    /** `Parser(lexer)`: reads the first token, which may raise. */
    static method Create(l: ParenLexer.Lexer) returns (r: Result<Parser>)
      requires l.Valid()
      modifies l
      ensures r.Ok? ==> fresh(r.value) && r.value.lexer == l && r.value.Valid()
      ensures match Start(old(l.Remaining()))
        case Ok(st) => r.Ok? && r.value.Config() == st
        case Err(e) => r == Err(e)
    {
      ParenLexer.NextValidReadsStream(l.input, l.position);
      var t := l.NextValidToken();
      if t.Err? {
        return Err(t.error);
      }
      var p := new Parser.Init(l, t.value);
      return Ok(p);
    }

    method Consume(k: Kind) returns (r: Result<()>)
      requires Valid()
      modifies this, lexer
      ensures Valid()
      ensures Settled(r, AfterConsume(old(Config()), k), Config())
    {
      if current.kind == k {
        ParenLexer.NextValidReadsStream(lexer.input, lexer.position);
        var t := lexer.NextValidToken();
        if t.Err? {
          return Err(t.error);
        }
        current := t.value;
        return Ok(());
      }
      return Err(ValueError("Expected " + KindName(k) + ", got " + KindName(current.kind)));
    }

    method S() returns (r: Result<()>)
      requires Valid()
      modifies this, lexer
      ensures Valid()
      ensures Settled(r, AfterS(old(Config())), Config())
      decreases Rank(Config())
    {
      if current.kind == LPR {
        r := Consume(LPR);
        if r.Err? {
          return;
        }
        r := S();
        if r.Err? {
          return;
        }
      }
      r := P();
    }

    method P() returns (r: Result<()>)
      requires Valid()
      modifies this, lexer
      ensures Valid()
      ensures Settled(r, AfterP(old(Config())), Config())
      decreases Rank(Config())
    {
      if current.kind == LPR {
        r := Consume(LPR);
        if r.Err? {
          return;
        }
        r := P();
        if r.Err? {
          return;
        }
        r := Consume(RPR);
      } else {
        r := Ok(());
      }
    }

    method Parse() returns (r: Result<()>)
      requires Valid()
      modifies this, lexer
      ensures Valid()
      ensures Settled(r, AfterParse(old(Config())), Config())
    {
      r := S();
      if r.Err? {
        return;
      }
      if current.kind != EOF {
        r := Err(ValueError("Unexpected token " + KindName(current.kind)));
      }
    }
  }

  // What S and P read.

  /** S reads exactly the leading run of '(' and stops at the first other token. */
  lemma {:induction false} SReadsOpens(w: seq<Token>)
    ensures AfterS(StateOf(w)) == Ok(StateOf(w[LeadingOpens(w)..]))
    decreases |w|
  {
    if |w| > 0 && w[0].kind == LPR {
      AdvanceStateOf(w);
      SReadsOpens(w[1..]);
      assert w[1..][LeadingOpens(w[1..])..] == w[LeadingOpens(w)..];
    } else {
      assert w[0..] == w;
    }
  }

  /** The kind of the token at `i`, or EOF past the end. */
  function KindAt(u: seq<Token>, i: nat): Kind {
    if i < |u| then u[i].kind else EOF
  }

  /** Consuming ')' `m` times, as the calls of P unwind. */
  function CloseRun(st: State, m: nat): Result<State> {
    if m == 0 then Ok(st)
    else
      var b :- CloseRun(st, m - 1);
      AfterConsume(b, RPR)
  }

  /** The first of the `m` positions that does not hold ')', or `m` when they all do. */
  function CloseGap(u: seq<Token>, m: nat): (g: nat)
    ensures g <= m
    ensures forall i :: 0 <= i < g ==> KindAt(u, i) == RPR
    ensures g < m ==> KindAt(u, g) != RPR
    ensures g == m ==> m <= |u|
  {
    if m == 0 then 0
    else if CloseGap(u, m - 1) < m - 1 then CloseGap(u, m - 1)
    else if KindAt(u, m - 1) == RPR then m
    else m - 1
  }

  /** `m` consumes of ')' succeed exactly when the next `m` tokens are ')'; otherwise the first other kind is named. */
  lemma {:induction false} CloseRunOnTokens(u: seq<Token>, m: nat)
    ensures CloseRun(StateOf(u), m) ==
      if CloseGap(u, m) == m then Ok(StateOf(u[m..]))
      else Err(ValueError("Expected " + KindName(RPR) + ", got " + KindName(KindAt(u, CloseGap(u, m)))))
  {
    if m == 0 {
      assert u[0..] == u;
    } else {
      CloseRunOnTokens(u, m - 1);
      if CloseGap(u, m - 1) == m - 1 {
        var v := u[m - 1..];
        if |v| > 0 {
          AdvanceStateOf(v);
          assert v[1..] == u[m..];
        }
      }
    }
  }

  /** P reads the leading run of `n` '(' and then expects `n` ')'. */
  lemma {:induction false} PReadsNested(w: seq<Token>)
    ensures AfterP(StateOf(w)) == CloseRun(StateOf(w[LeadingOpens(w)..]), LeadingOpens(w))
    decreases |w|
  {
    if |w| > 0 && w[0].kind == LPR {
      AdvanceStateOf(w);
      PReadsNested(w[1..]);
      assert w[1..][LeadingOpens(w[1..])..] == w[LeadingOpens(w)..];
    } else {
      assert w[0..] == w;
    }
  }

  /** On its own, P accepts '('^n ')'^n and stops there, or names the token where a ')' was missing. */
  lemma PMatchesNested(w: seq<Token>)
    ensures var n := LeadingOpens(w);
      AfterP(StateOf(w)).Ok? <==> CloseGap(w[n..], n) == n
    ensures var n := LeadingOpens(w);
      AfterP(StateOf(w)).Ok? ==> 2 * n <= |w| && AfterP(StateOf(w)).value == StateOf(w[2 * n..])
  {
    var n := LeadingOpens(w);
    var u := w[n..];
    if n <= |u| {
      assert u[n..] == w[2 * n..];
    }
    PReadsNested(w);
    CloseRunOnTokens(u, n);
  }

  /**
   * On a text of parentheses the parser accepts exactly the texts with no
   * ')' at all, the empty text included, and otherwise reports the first ')'
   * as an unexpected token.
   */
  lemma RecognizesOpens(s: string)
    requires forall i :: 0 <= i < |s| ==> IsParenChar(s[i])
    ensures Recognize(s).Ok? <==> forall i :: 0 <= i < |s| ==> s[i] == '('
    ensures Recognize(s).Err? ==> Recognize(s).error == ValueError("Unexpected token " + KindName(RPR))
  {
    StartOnParens(s);
    var w := ParenTokens(s);
    SReadsOpens(w);
    var n := LeadingOpens(w);
    if n < |w| {
      assert s[n] != '(';
    }
  }

  // The documented runs.

  const L := Token("(", LPR)
  const R := Token(")", RPR)

  /** '(' and '((' are accepted. */
  lemma OpenExamples()
    ensures Recognize("(").Ok? && Recognize("((").Ok?
  {
    RecognizesOpens("(");
    RecognizesOpens("((");
  }

  /** '()', '(()', '(())' and '(()))' are all rejected at their first ')'. */
  lemma ClosedExamples()
    ensures Recognize("()") == Err(ValueError("Unexpected token " + KindName(RPR)))
    ensures Recognize("(()") == Err(ValueError("Unexpected token " + KindName(RPR)))
  {
    var a, b := "()", "(()";
    RecognizesOpens(a);
    assert a[1] != '(';
    RecognizesOpens(b);
    assert b[2] != '(';
  }

  lemma MoreClosedExamples()
    ensures Recognize("(())") == Err(ValueError("Unexpected token " + KindName(RPR)))
    ensures Recognize("(()))") == Err(ValueError("Unexpected token " + KindName(RPR)))
  {
    var a, b := "(())", "(()))";
    RecognizesOpens(a);
    assert a[2] != '(';
    RecognizesOpens(b);
    assert b[2] != '(';
  }

  /** P alone accepts '(())' and, on '(()', expects ')' at EOF. */
  lemma PExamples()
    ensures AfterP(StateOf([L, L, R, R])) == Ok(StateOf([]))
    ensures AfterP(StateOf([L, L, R])) == Err(ValueError("Expected " + KindName(RPR) + ", got " + KindName(EOF)))
  {
    PMatchesNested([L, L, R, R]);
    assert LeadingOpens([L, L, R, R]) == 2 by {
      assert [L, L, R, R][1..] == [L, R, R];
      assert [L, R, R][1..] == [R, R];
    }
    assert [L, L, R, R][2..] == [R, R];
    assert [R, R][..] == [R, R];
    assert CloseGap([R, R], 2) == 2;
    assert [L, L, R, R][4..] == [];
    PReadsNested([L, L, R]);
    assert LeadingOpens([L, L, R]) == 2 by {
      assert [L, L, R][1..] == [L, R];
      assert [L, R][1..] == [R];
    }
    assert [L, L, R][2..] == [R];
    CloseRunOnTokens([R], 2);
    assert CloseGap([R], 2) == 1;
  }
}
