/**
 * The tolerant arithmetic lexer: numbers, `+ - * /`, spaces and newlines.
 * Any other character is skipped without complaint, so reading a token
 * never fails. The reverse Polish and Polish evaluators read its tokens.
 */
module ArithLexer {
  import opened Wrappers
  import opened Tokens
  import Decimal
  import Arith
  import ArithPrinters
  import ArithLexer1

  /** The characters `getToken` makes a token of. */
  predicate Known(c: char) {
    Decimal.IsDigit(c) || c == '+' || c == '-' || c == '*' || c == '/' || c == ' ' || c == '\n'
  }

  /**
   * `getToken()`: the token at `pos` and the position after it. A space or
   * a newline is a token of its own unless it is the last character, in
   * which case EOF is returned; an unknown character is passed over.
   */
  function Scan(s: string, pos: nat): (r: (Token, nat))
    requires pos <= |s|
    ensures pos <= r.1 <= |s|
    ensures r.0.kind in {EOF, WSP, NLN, NUM, ADD, SUB, MUL, DIV}
    ensures r.0.kind == EOF ==> r.1 == |s|
    ensures r.0.kind != EOF ==> r.1 > pos
    ensures r.0.kind == NUM ==> |r.0.text| > 0 && Decimal.AllDigits(r.0.text)
    decreases |s| - pos
  {
    if pos >= |s| then (Token("", EOF), pos)
    else
      var c := s[pos];
      if c == ' ' || c == '\n' then
        if pos + 1 >= |s| then (Token("", EOF), pos + 1)
        else (Token([c], if c == ' ' then WSP else NLN), pos + 1)
      else if Decimal.IsDigit(c) then
        var e := DigitRunEnd(s, pos + 1);
        (Token(s[pos..e], NUM), e)
      else if IsOperator(OperatorChar(c)) then (Token([c], OperatorChar(c)), pos + 1)
      else Scan(s, pos + 1)
  }

  /** The first position at or after `pos` holding a character the lexer knows. */
  function SkipUnknown(s: string, pos: nat): (j: nat)
    requires pos <= |s|
    ensures pos <= j <= |s|
    ensures forall k :: pos <= k < j ==> !Known(s[k])
    ensures j == |s| || Known(s[j])
    decreases |s| - pos
  {
    if pos == |s| || Known(s[pos]) then pos else SkipUnknown(s, pos + 1)
  }

  /**
   * What `getToken` reads, stated from the first known character `j` on:
   * end of input gives EOF; a space or newline gives WSP or NLN and
   * advances one character, or EOF if it was the last one; a digit gives
   * the maximal run of digits; an operator gives its one-character token.
   */
  lemma {:induction false} ScanFromFirstKnown(s: string, pos: nat)
    requires pos <= |s|
    ensures var j, r := SkipUnknown(s, pos), Scan(s, pos);
      (j == |s| ==> r == (Token("", EOF), |s|)) &&
      (j < |s| && s[j] in " \n" ==>
        r.1 == j + 1 && (r.0.kind == EOF <==> j + 1 == |s|) &&
        (j + 1 < |s| ==> r.0 == Token([s[j]], if s[j] == ' ' then WSP else NLN))) &&
      (j < |s| && Decimal.IsDigit(s[j]) ==>
        r.0.kind == NUM && j < r.1 && r.0.text == s[j..r.1] &&
        (forall k :: j <= k < r.1 ==> Decimal.IsDigit(s[k])) &&
        (r.1 == |s| || !Decimal.IsDigit(s[r.1]))) &&
      (j < |s| && s[j] in "+-*/" ==> r == (Token([s[j]], OperatorChar(s[j])), j + 1))
    decreases |s| - pos
  {
    if pos < |s| && !Known(s[pos]) {
      ScanFromFirstKnown(s, pos + 1);
    }
  }

  /** `next_valid_token()`: the first token that is neither a space nor a newline. */
  function NextValid(s: string, pos: nat): (r: (Token, nat))
    requires pos <= |s|
    ensures pos <= r.1 <= |s|
    ensures r.0.kind in {EOF, NUM, ADD, SUB, MUL, DIV}
    ensures r.0.kind == EOF ==> r.1 == |s|
    ensures r.0.kind != EOF ==> r.1 > pos
    ensures r.0.kind == NUM ==> |r.0.text| > 0 && Decimal.AllDigits(r.0.text)
    decreases |s| - pos
  {
    var (t, p) := Scan(s, pos);
    if t.kind == WSP || t.kind == NLN then NextValid(s, p) else (t, p)
  }

  /** Tokens a lexer of this kind produces: digit runs and operators. */
  predicate Lexed(ts: seq<Token>) {
    forall i :: 0 <= i < |ts| ==>
      (ts[i].kind == NUM && Decimal.AllDigits(ts[i].text)) || IsOperator(ts[i].kind)
  }

  /** `list(tokens())` from `pos`: the valid tokens up to EOF. */
  function TokensFrom(s: string, pos: nat): (ts: seq<Token>)
    requires pos <= |s|
    ensures Lexed(ts)
    decreases |s| - pos
  {
    var (t, p) := NextValid(s, pos);
    if t.kind == EOF then [] else [t] + TokensFrom(s, p)
  }

  /** One token further: at EOF nothing is left; otherwise the list is that token and the tokens after it. */
  lemma TokensStep(s: string, pos: nat, t: Token, p: nat)
    requires pos <= |s| && (t, p) == NextValid(s, pos)
    ensures t.kind == EOF ==> TokensFrom(s, pos) == [] && p == |s|
    ensures t.kind != EOF ==> TokensFrom(s, pos) == [t] + TokensFrom(s, p)
  {
  }

  /**
   * `compute_postfix(lexer)` from `pos` with `stack` built so far: the
   * result and the lexer position where it stops. A number is pushed; an
   * operator pops b, then a, and pushes `a op b`.
   */
  function PostfixFrom(s: string, pos: nat, stack: seq<int>): (r: (Result<int>, nat))
    requires pos <= |s|
    ensures pos <= r.1 <= |s|
    ensures r.0.Ok? ==> r.1 == |s|
    decreases |s| - pos
  {
    var (t, p) := NextValid(s, pos);
    if t.kind == EOF then (ArithLexer1.Finish(stack), p)
    else if t.kind == NUM then PostfixFrom(s, p, stack + [NumValue(t.text)])
    else if |stack| < 2 then (Err(ValueError("Insufficient values in expression.")), p)
    else
      var c := Arith.Apply(OpOf(t.kind), stack[|stack| - 2], stack[|stack| - 1]);
      if c.Err? then (Err(c.error), p)
      else PostfixFrom(s, p, stack[..|stack| - 2] + [c.value])
  }

  /** Reverse Polish evaluation of a finished token list, with this evaluator's messages. */
  function RunPostfix(ts: seq<Token>, stack: seq<int>): Result<int>
    requires Lexed(ts)
    decreases |ts|
  {
    if |ts| == 0 then ArithLexer1.Finish(stack)
    else if ts[0].kind == NUM then RunPostfix(ts[1..], stack + [NumValue(ts[0].text)])
    else if |stack| < 2 then Err(ValueError("Insufficient values in expression."))
    else
      var c :- Arith.Apply(OpOf(ts[0].kind), stack[|stack| - 2], stack[|stack| - 1]);
      RunPostfix(ts[1..], stack[..|stack| - 2] + [c])
  }

  /** Evaluating while lexing gives what evaluating the listed tokens gives. */
  lemma {:induction false} PostfixFromIsRunOverTokens(s: string, pos: nat, stack: seq<int>)
    requires pos <= |s|
    ensures PostfixFrom(s, pos, stack).0 == RunPostfix(TokensFrom(s, pos), stack)
    decreases |s| - pos
  {
    var (t, p) := NextValid(s, pos);
    if t.kind != EOF {
      var ts := TokensFrom(s, pos);
      assert ts[0] == t && ts[1..] == TokensFrom(s, p);
      if t.kind == NUM {
        PostfixFromIsRunOverTokens(s, p, stack + [NumValue(t.text)]);
      } else if |stack| >= 2 {
        var c := Arith.Apply(OpOf(t.kind), stack[|stack| - 2], stack[|stack| - 1]);
        if c.Ok? {
          PostfixFromIsRunOverTokens(s, p, stack[..|stack| - 2] + [c.value]);
        }
      }
    }
  }

  /**
   * `compute_prefix(lexer)` from `pos`: a number is its value; an operator
   * reads two operands, left first; any other token is an error. The
   * result and the position after the expression.
   */
  function PrefixFrom(s: string, pos: nat): (r: (Result<int>, nat))
    requires pos <= |s|
    ensures pos <= r.1 <= |s|
    decreases |s| - pos
  {
    var (t, p) := NextValid(s, pos);
    if t.kind == NUM then (Ok(NumValue(t.text) as int), p)
    else if IsOperator(t.kind) then
      var (a, p1) := PrefixFrom(s, p);
      if a.Err? then (a, p1)
      else
        var (b, p2) := PrefixFrom(s, p1);
        if b.Err? then (b, p2)
        else (Arith.Apply(OpOf(t.kind), a.value, b.value), p2)
    else (Err(ValueError("Unexpected token in expression: " + KindName(t.kind) + ".")), p)
  }

  class Lexer {
    /** The text being scanned. */
    const input: string
    /** The index of the next character to read. */
    var position: nat

    constructor(s: string)
      ensures input == s && position == 0 && Valid()
    {
      input := s;
      position := 0;
    }

    predicate Valid()
      reads this
    {
      position <= |input|
    }

    /** `getToken()`: an unknown character is stepped over by a recursive call. */
    method GetToken() returns (t: Token)
      requires Valid()
      modifies this
      ensures Valid()
      ensures (t, position) == Scan(input, old(position))
      decreases |input| - position
    {
      if position >= |input| {
        return Token("", EOF);
      }
      var c := input[position];
      if c == ' ' || c == '\n' {
        var token := Token([c], if c == ' ' then WSP else NLN);
        position := position + 1;
        if position >= |input| {
          return Token("", EOF);
        }
        return token;
      }
      if Decimal.IsDigit(c) {
        var start := position;
        var numStr := "";
        while position < |input| && Decimal.IsDigit(input[position])
          invariant start <= position <= |input|
          invariant numStr == input[start..position]
          invariant position > start ==> DigitRunEnd(input, position) == DigitRunEnd(input, start + 1)
          decreases |input| - position
        {
          assert input[start..position + 1] == input[start..position] + [input[position]];
          numStr := numStr + [input[position]];
          position := position + 1;
        }
        return Token(numStr, NUM);
      }
      var k := OperatorChar(c);
      if IsOperator(k) {
        position := position + 1;
        return Token([c], k);
      }
      position := position + 1;
      t := GetToken();
    }

    /** `next_valid_token()`: spaces and newlines are skipped by recursion. */
    method NextValidToken() returns (t: Token)
      requires Valid()
      modifies this
      ensures Valid()
      ensures (t, position) == NextValid(input, old(position))
      decreases |input| - position
    {
      t := GetToken();
      if t.kind == WSP || t.kind == NLN {
        t := NextValidToken();
      }
    }

    /** `list(tokens())`: valid tokens until the first EOF. */
    method AllTokens() returns (ts: seq<Token>)
      requires Valid()
      modifies this
      ensures Valid() && position == |input|
      ensures ts == TokensFrom(input, old(position))
    {
      ts := [];
      assert TokensFrom(input, old(position)) == ts + TokensFrom(input, position);
      while true
        invariant Valid()
        invariant TokensFrom(input, old(position)) == ts + TokensFrom(input, position)
        decreases |input| - position
      {
        ghost var before := position;
        var t := NextValidToken();
        TokensStep(input, before, t, position);
        if t.kind == EOF {
          assert ts + [] == ts;
          return;
        }
        assert ts + ([t] + TokensFrom(input, position)) == (ts + [t]) + TokensFrom(input, position);
        ts := ts + [t];
      }
    }
  }

  /** `compute_postfix(lexer)`: one pass over `lexer.tokens()` with a stack of values. */
  method ComputePostfix(lexer: Lexer) returns (r: Result<int>)
    requires lexer.Valid()
    modifies lexer
    ensures lexer.Valid()
    ensures (r, lexer.position) == PostfixFrom(lexer.input, old(lexer.position), [])
  {
    var stack: seq<int> := [];
    while true
      invariant lexer.Valid()
      invariant PostfixFrom(lexer.input, old(lexer.position), []) == PostfixFrom(lexer.input, lexer.position, stack)
      decreases |lexer.input| - lexer.position
    {
      var t := lexer.NextValidToken();
      if t.kind == EOF {
        break;
      }
      if t.kind == NUM {
        stack := stack + [NumValue(t.text)];
      } else {
        if |stack| < 2 {
          return Err(ValueError("Insufficient values in expression."));
        }
        var b := stack[|stack| - 1];
        var a := stack[|stack| - 2];
        stack := stack[..|stack| - 2];
        var c := Arith.Apply(OpOf(t.kind), a, b);
        if c.Err? {
          return Err(c.error);
        }
        stack := stack + [c.value];
      }
    }
    if |stack| != 1 {
      return Err(ValueError("The user input has too many values."));
    }
    r := Ok(stack[0]);
  }

  /** `compute_prefix(lexer)`: an operator reads its two operands by recursion. */
  method ComputePrefix(lexer: Lexer) returns (r: Result<int>)
    requires lexer.Valid()
    modifies lexer
    ensures lexer.Valid()
    ensures (r, lexer.position) == PrefixFrom(lexer.input, old(lexer.position))
    decreases |lexer.input| - lexer.position
  {
    var t := lexer.NextValidToken();
    if t.kind == NUM {
      return Ok(NumValue(t.text) as int);
    }
    if IsOperator(t.kind) {
      var a := ComputePrefix(lexer);
      if a.Err? {
        return a;
      }
      var b := ComputePrefix(lexer);
      if b.Err? {
        return b;
      }
      return Arith.Apply(OpOf(t.kind), a.value, b.value);
    }
    r := Err(ValueError("Unexpected token in expression: " + KindName(t.kind) + "."));
  }

  // Agreement with the strict lexer on the text both accept.

  /** Text made only of characters this lexer knows. */
  predicate Clean(s: string) {
    forall k :: 0 <= k < |s| ==> Known(s[k])
  }

  /** Both lexers read a digit run or an operator alike. */
  lemma ScanAgrees(s: string, pos: nat)
    requires pos < |s| && Known(s[pos]) && s[pos] != ' ' && s[pos] != '\n'
    ensures ArithLexer1.Scan(s, pos) == (Ok(Scan(s, pos).0), Scan(s, pos).1)
    ensures Scan(s, pos).0.kind in {NUM, ADD, SUB, MUL, DIV}
  {
  }

  /** Both lexers pass over a space or a newline before reading on. */
  lemma SpaceAgrees(s: string, pos: nat)
    requires pos < |s| && (s[pos] == ' ' || s[pos] == '\n')
    ensures ArithLexer1.TokensFrom(s, pos) == ArithLexer1.TokensFrom(s, pos + 1)
    ensures ArithLexer1.NextValid(s, pos) == ArithLexer1.NextValid(s, pos + 1)
    ensures TokensFrom(s, pos) == TokensFrom(s, pos + 1)
    ensures NextValid(s, pos) == NextValid(s, pos + 1)
  {
    assert ArithLexer1.Scan(s, pos).1 == pos + 1;
  }

  /** A token other than a space: this lexer's next valid token, and the head of its list. */
  lemma TokenStep(s: string, pos: nat)
    requires pos < |s| && Scan(s, pos).0.kind in {NUM, ADD, SUB, MUL, DIV}
    ensures NextValid(s, pos) == Scan(s, pos)
    ensures TokensFrom(s, pos) == [Scan(s, pos).0] + TokensFrom(s, Scan(s, pos).1)
  {
  }

  /** The same for the strict lexer. */
  lemma StrictTokenStep(s: string, pos: nat, t: Token, p: nat)
    requires pos < |s| && ArithLexer1.Scan(s, pos) == (Ok(t), p) && t.kind in {NUM, ADD, SUB, MUL, DIV}
    ensures ArithLexer1.NextValid(s, pos) == (Ok(t), p)
    ensures ArithLexer1.TokensFrom(s, pos) == ArithLexer1.Prefixed([t], ArithLexer1.TokensFrom(s, p))
  {
  }

  /**
   * One step of both lexers from a known character: the position `p` where
   * they both continue, such that agreement from `p` on gives agreement
   * from `pos` on.
   */
  lemma AgreeStep(s: string, pos: nat) returns (p: nat)
    requires pos < |s| && Known(s[pos])
    ensures pos < p <= |s|
    ensures ArithLexer1.TokensFrom(s, p) == Ok(TokensFrom(s, p)) ==>
      ArithLexer1.TokensFrom(s, pos) == Ok(TokensFrom(s, pos))
    ensures ArithLexer1.NextValid(s, p) == (Ok(NextValid(s, p).0), NextValid(s, p).1) ==>
      ArithLexer1.NextValid(s, pos) == (Ok(NextValid(s, pos).0), NextValid(s, pos).1)
  {
    if s[pos] == ' ' || s[pos] == '\n' {
      SpaceAgrees(s, pos);
      p := pos + 1;
    } else {
      ScanAgrees(s, pos);
      var t;
      t, p := Scan(s, pos).0, Scan(s, pos).1;
      TokenStep(s, pos);
      StrictTokenStep(s, pos, t, p);
    }
  }

  /**
   * On text of known characters the strict lexer never fails, and both
   * lexers list the same tokens: this one skips a final space silently,
   * the other reads it as a space token and drops it.
   */
  lemma {:induction false} TokensAgree(s: string, pos: nat)
    requires pos <= |s| && Clean(s)
    ensures ArithLexer1.TokensFrom(s, pos) == Ok(TokensFrom(s, pos))
    decreases |s| - pos
  {
    if pos < |s| {
      var p := AgreeStep(s, pos);
      TokensAgree(s, p);
    }
  }

  /** The two lexers hand out the same next valid token on text of known characters. */
  lemma {:induction false} NextValidAgrees(s: string, pos: nat)
    requires pos <= |s| && Clean(s)
    ensures ArithLexer1.NextValid(s, pos) == (Ok(NextValid(s, pos).0), NextValid(s, pos).1)
    decreases |s| - pos
  {
    if pos < |s| {
      var p := AgreeStep(s, pos);
      NextValidAgrees(s, p);
    }
  }

  /** The same outcome, up to the wording of a ValueError. */
  predicate SameOutcome(a: Result<int>, b: Result<int>) {
    a == b || (a.Err? && b.Err? && a.error.ValueError? && b.error.ValueError?)
  }

  /** This reverse Polish evaluator and the strict lexer's agree on every list of tokens this lexer makes. */
  lemma {:induction false} RunPostfixAgrees(ts: seq<Token>, stack: seq<int>)
    requires Lexed(ts)
    ensures SameOutcome(RunPostfix(ts, stack), ArithLexer1.RunPostfix(ts, stack))
    decreases |ts|
  {
    if |ts| > 0 {
      assert Lexed(ts[1..]) by {
        forall i | 0 <= i < |ts| - 1
          ensures (ts[1..][i].kind == NUM && Decimal.AllDigits(ts[1..][i].text)) || IsOperator(ts[1..][i].kind)
        {
          assert ts[1..][i] == ts[i + 1];
        }
      }
      if ts[0].kind == NUM {
        RunPostfixAgrees(ts[1..], stack + [NumValue(ts[0].text)]);
      } else if |stack| >= 2 {
        var c := Arith.Apply(OpOf(ts[0].kind), stack[|stack| - 2], stack[|stack| - 1]);
        if c.Ok? {
          RunPostfixAgrees(ts[1..], stack[..|stack| - 2] + [c.value]);
        }
      }
    }
  }

  /** This Polish evaluator and the strict lexer's agree on text of known characters, and stop at the same place. */
  lemma {:induction false} PrefixAgrees(s: string, pos: nat)
    requires pos <= |s| && Clean(s)
    ensures PrefixFrom(s, pos).1 == ArithLexer1.PrefixFrom(s, pos).1
    ensures SameOutcome(PrefixFrom(s, pos).0, ArithLexer1.PrefixFrom(s, pos).0)
    decreases |s| - pos
  {
    NextValidAgrees(s, pos);
    var (t, p) := NextValid(s, pos);
    if IsOperator(t.kind) {
      PrefixAgrees(s, p);
      var (a, p1) := PrefixFrom(s, p);
      if a.Ok? {
        PrefixAgrees(s, p1);
      }
    }
  }

  lemma {:induction false} CleanJoined(ts: seq<Token>)
    requires forall i :: 0 <= i < |ts| ==> ArithLexer1.Lexeme(ts[i])
    ensures Clean(ArithLexer1.Joined(ts))
    decreases |ts|
  {
    if |ts| > 0 {
      var t := ts[0];
      assert Clean(t.text) by {
        if IsOperator(t.kind) {
          assert t.text == Arith.Symbol(OpOf(t.kind));
        }
      }
      if |ts| > 1 {
        CleanJoined(ts[1..]);
      }
    }
  }

  /** `compute_postfix` on the postfix printout of an expression gives the expression's value. */
  lemma PostfixRoundTrip(e: ArithPrinters.Exp)
    requires ArithLexer1.NonNegative(e)
    ensures PostfixFrom(ArithPrinters.Postfix(e), 0, []).0 == ArithPrinters.Eval(e)
  {
    var text, ts := ArithPrinters.Postfix(e), ArithLexer1.PostfixTokens(e);
    ArithLexer1.PostfixIsJoined(e);
    CleanJoined(ts);
    ArithLexer1.PostfixLexes(e);
    TokensAgree(text, 0);
    PostfixFromIsRunOverTokens(text, 0, []);
    RunPostfixAgrees(ts, []);
    ArithLexer1.PostfixTokensPushValue(e, [], []);
    assert ts + [] == ts;
  }

  /** `compute_prefix` on the prefix printout of an expression gives the expression's value. */
  lemma PrefixRoundTrip(e: ArithPrinters.Exp)
    requires ArithLexer1.NonNegative(e)
    ensures PrefixFrom(ArithPrinters.Prefix(e), 0).0 == ArithPrinters.Eval(e)
  {
    var text := ArithPrinters.Prefix(e);
    ArithLexer1.PrefixIsJoined(e);
    CleanJoined(ArithLexer1.PrefixTokens(e));
    PrefixAgrees(text, 0);
    ArithLexer1.PrefixRoundTrip(e);
  }

  /** `compute_postfix(Lexer("3 4 + 2 * 7 /"))` is 2. */
  lemma PostfixFirstExample()
    ensures PostfixFrom("3 4 + 2 * 7 /", 0, []).0 == Ok(2)
  {
    ArithLexer1.FirstPostfixTokens();
    ArithLexer1.FirstPostfixText();
    ArithLexer1.PostfixIsJoined(ArithLexer1.FirstPostfixTree());
    PostfixRoundTrip(ArithLexer1.FirstPostfixTree());
  }

  /** `compute_postfix(Lexer("4 2 5 * + 1 3 2 * + /"))` is 2. */
  lemma PostfixSecondExample()
    ensures PostfixFrom("4 2 5 * + 1 3 2 * + /", 0, []).0 == Ok(2)
  {
    ArithLexer1.SecondPostfixTokens();
    ArithLexer1.SecondPostfixText();
    ArithLexer1.PostfixIsJoined(ArithLexer1.SecondPostfixTree());
    PostfixRoundTrip(ArithLexer1.SecondPostfixTree());
  }

  /** `compute_prefix(Lexer("+ 3 * 4 2"))` is 11. */
  lemma PrefixFirstExample()
    ensures PrefixFrom("+ 3 * 4 2", 0).0 == Ok(11)
  {
    ArithLexer1.FirstPrefixTokens();
    ArithLexer1.FirstPrefixText();
    ArithLexer1.PrefixIsJoined(ArithLexer1.FirstPrefixTree());
    PrefixRoundTrip(ArithLexer1.FirstPrefixTree());
  }

  /** `compute_prefix(Lexer("+ * 3 4 2"))` is 14. */
  lemma PrefixSecondExample()
    ensures PrefixFrom("+ * 3 4 2", 0).0 == Ok(14)
  {
    ArithLexer1.SecondPrefixTokens();
    ArithLexer1.SecondPrefixText();
    ArithLexer1.PrefixIsJoined(ArithLexer1.SecondPrefixTree());
    PrefixRoundTrip(ArithLexer1.SecondPrefixTree());
  }

  /** An operator with nothing after it: the missing operand is read as EOF. */
  lemma MissingOperandTokens()
    ensures NextValid("+ 3", 0) == (Token("+", ADD), 1)
    ensures NextValid("+ 3", 1) == (Token("3", NUM), 3)
    ensures NextValid("+ 3", 3) == (Token("", EOF), 3)
  {
    assert Scan("+ 3", 1) == (Token(" ", WSP), 2);
    assert DigitRunEnd("+ 3", 3) == 3;
    assert "+ 3"[2..3] == "3";
    assert Scan("+ 3", 2) == (Token("3", NUM), 3);
  }

  lemma PrefixMissingOperand()
    ensures PrefixFrom("+ 3", 0).0 == Err(ValueError("Unexpected token in expression: TokenType.EOF."))
  {
    MissingOperandTokens();
    assert "Unexpected token in expression: " + KindName(EOF) + "." == "Unexpected token in expression: TokenType.EOF.";
    assert PrefixFrom("+ 3", 3).1 == 3;
    assert PrefixFrom("+ 3", 1) == (Ok(3), 3);
  }
}
