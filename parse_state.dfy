/**
 * What a recursive-descent parser over the parenthesis lexer knows at any
 * moment: its current token and the stream of tokens the lexer has yet to
 * hand out. Every parser reads the first token when it is built and moves
 * on by replacing the current token with the next one.
 */
module ParseState {
  import opened Wrappers
  import opened Tokens
  import ParenLexer

  datatype State = State(cur: Token, rest: ParenLexer.Stream)

  /** A measure that every successful advance past a token other than EOF decreases. */
  function Rank(st: State): nat {
    2 * |st.rest.tokens| + (if st.cur.kind == EOF then 0 else 1)
  }

  /** `self.current_token = self.lexer.next_valid_token()`. */
  function Advance(st: State): (r: Result<State>)
    ensures r.Ok? && st.cur.kind != EOF ==> Rank(r.value) < Rank(st)
    ensures r.Ok? ==> |r.value.rest.tokens| <= |st.rest.tokens|
    ensures r.Err? <==> |st.rest.tokens| == 0 && st.rest.failure.Some?
  {
    var (t, rest) := ParenLexer.Read(st.rest);
    if t.Err? then Err(t.error) else Ok(State(t.value, rest))
  }

  /** `consume(expected)`: the next token if the current one has the expected kind, otherwise ValueError. */
  function AfterConsume(st: State, k: Kind): (r: Result<State>)
    ensures r.Ok? ==> st.cur.kind == k
    ensures st.cur.kind != k ==> r == Err(ValueError("Expected " + KindName(k) + ", got " + KindName(st.cur.kind)))
    ensures r.Ok? && k != EOF ==> Rank(r.value) < Rank(st)
  {
    if st.cur.kind == k then Advance(st)
    else Err(ValueError("Expected " + KindName(k) + ", got " + KindName(st.cur.kind)))
  }

  /** The state a parser starts in: the first token read from the lexer. */
  function Start(rest: ParenLexer.Stream): (r: Result<State>)
    ensures r.Err? <==> |rest.tokens| == 0 && rest.failure.Some?
  {
    var (t, more) := ParenLexer.Read(rest);
    if t.Err? then Err(t.error) else Ok(State(t.value, more))
  }

  /** The state whose current token and later tokens are `w`, with nothing wrong in the input. */
  function StateOf(w: seq<Token>): (st: State)
    ensures st.rest.failure.None? && Rank(st) <= 2 * |w|
  {
    if |w| == 0 then State(Token("", EOF), ParenLexer.Stream([], None))
    else State(w[0], ParenLexer.Stream(w[1..], None))
  }

  lemma AdvanceStateOf(w: seq<Token>)
    requires |w| > 0
    ensures Advance(StateOf(w)) == Ok(StateOf(w[1..]))
  {
    if |w| > 1 {
      assert w[1..][0] == w[1] && w[1..][1..] == w[2..];
    }
  }

  lemma StartStateOf(w: seq<Token>)
    ensures Start(ParenLexer.Stream(w, None)) == Ok(StateOf(w))
  {
  }

  /** A method that returns nothing did what `spec` says: the same error, or success in state `now`. */
  predicate Settled(r: Result<()>, spec: Result<State>, now: State) {
    match spec
    case Ok(st) => r.Ok? && now == st
    case Err(e) => r == Err(e)
  }

  /** A method that returns a value did what `spec` says: the same error, or the same value in state `now`. */
  predicate Built<T(==)>(r: Result<T>, spec: Result<(T, State)>, now: State) {
    match spec
    case Ok(vs) => r == Ok(vs.0) && now == vs.1
    case Err(e) => r == Err(e)
  }

  /** The number of '(' tokens `w` starts with. */
  function LeadingOpens(w: seq<Token>): (n: nat)
    ensures n <= |w|
    ensures forall i :: 0 <= i < n ==> w[i].kind == LPR
    ensures n < |w| ==> w[n].kind != LPR
  {
    if |w| > 0 && w[0].kind == LPR then 1 + LeadingOpens(w[1..]) else 0
  }

  /** The leading run of '(' is the run before the first token of another kind. */
  lemma {:induction false} LeadingOpensAt(w: seq<Token>, k: nat)
    requires k <= |w|
    requires forall i :: 0 <= i < k ==> w[i].kind == LPR
    requires k < |w| ==> w[k].kind != LPR
    ensures LeadingOpens(w) == k
  {
    if k > 0 {
      LeadingOpensAt(w[1..], k - 1);
    }
  }

  // Texts made of parentheses.

  predicate IsParenChar(c: char) {
    c == '(' || c == ')'
  }

  /** The token the lexer makes of one parenthesis. */
  function ParenToken(c: char): (t: Token)
    requires IsParenChar(c)
    ensures t.kind == LPR <==> c == '('
    ensures t.kind == LPR || t.kind == RPR
  {
    if c == '(' then Token("(", LPR) else Token(")", RPR)
  }

  /** The tokens of a text of parentheses, one per character. */
  function ParenTokens(s: string): (w: seq<Token>)
    requires forall i :: 0 <= i < |s| ==> IsParenChar(s[i])
    ensures |w| == |s|
    ensures forall i :: 0 <= i < |s| ==> w[i] == ParenToken(s[i])
  {
    if |s| == 0 then [] else [ParenToken(s[0])] + ParenTokens(s[1..])
  }

  /** A text of parentheses lexes, with no error, into one token per character. */
  lemma {:induction false} LexParens(s: string, pos: nat)
    requires pos <= |s|
    requires forall i :: 0 <= i < |s| ==> IsParenChar(s[i])
    ensures ParenLexer.LexAll(s, pos) == ParenLexer.Stream(ParenTokens(s[pos..]), None)
    decreases |s| - pos
  {
    ParenLexer.ScanStep(s, pos);
    if pos < |s| {
      LexParens(s, pos + 1);
      assert s[pos..][1..] == s[pos + 1..];
    }
  }

  /** A parser built over a lexer for a text of parentheses starts at the first of its tokens. */
  lemma StartOnParens(s: string)
    requires forall i :: 0 <= i < |s| ==> IsParenChar(s[i])
    ensures Start(ParenLexer.LexAll(s, 0)) == Ok(StateOf(ParenTokens(s)))
  {
    LexParens(s, 0);
    assert s[0..] == s;
    StartStateOf(ParenTokens(s));
  }
}
