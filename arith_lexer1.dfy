/**
 * A lexer for arithmetic over `+ - * /`, numbers and key words, and the two
 * evaluators that read its tokens: reverse Polish notation with an explicit
 * stack, and Polish notation by recursion. The lexer is an object whose
 * position advances as tokens are read.
 */
module ArithLexer1 {
  import opened Wrappers
  import opened Tokens
  import Decimal
  import Arith
  import ArithPrinters

  /** `Token.key_word_token(text)`: "add" and "sub" are operators, any other word a variable. */
  function KeyWordToken(text: string): Token {
    if text == "add" then Token("+", ADD)
    else if text == "sub" then Token("-", SUB)
    else Token(text, VAR)
  }

  /** The single characters `getToken` accepts, and the error for any other. */
  function OneChar(c: char): (r: Result<Token>)
    ensures r.Ok? ==> r.value.text == [c] && r.value.kind in {ADD, SUB, MUL, DIV, WSP, NLN}
    ensures r.Ok? <==> c in "+-*/ \n"
  {
    if c == '+' then Ok(Token([c], ADD))
    else if c == '-' then Ok(Token([c], SUB))
    else if c == '*' then Ok(Token([c], MUL))
    else if c == '/' then Ok(Token([c], DIV))
    else if c == ' ' then Ok(Token([c], WSP))
    else if c == '\n' then Ok(Token([c], NLN))
    else Err(ValueError("Unexpected character: " + [c]))
  }

  /**
   * `getToken()` as written: the letter branch reads a whole word into
   * `id_text` and then returns `Token.key_word_token(tokText)`, a name that
   * is never bound, so every word raises NameError.
   */
  function ScanAsWritten(s: string, pos: nat): (r: (Result<Token>, nat))
    requires pos <= |s|
    ensures pos <= r.1 <= |s| && (pos < |s| ==> pos < r.1)
    ensures r.0.Err? ==> r.0.error == NameError("tokText") || r.0.error.ValueError?
  {
    if pos == |s| then (Ok(Token("", EOF)), pos)
    else if Decimal.IsDigit(s[pos]) then
      var e := DigitRunEnd(s, pos + 1);
      (Ok(Token(s[pos..e], NUM)), e)
    else if IsAlpha(s[pos]) then (Err(NameError("tokText")), AlnumRunEnd(s, pos + 1))
    else (OneChar(s[pos]), pos + 1)
  }

  /**
   * `getToken()` with the word branch returning `key_word_token(id_text)`:
   * the token at `pos` and the position after it. At the end of the input
   * it is EOF and the position stays; otherwise at least one character is
   * read, even when an error is raised.
   */
  function Scan(s: string, pos: nat): (r: (Result<Token>, nat))
    requires pos <= |s|
    ensures pos <= r.1 <= |s|
    ensures r.0.Ok? && r.0.value.kind == EOF <==> pos == |s|
    ensures pos < |s| ==> r.1 > pos
    ensures r.0.Ok? && r.0.value.kind == NUM ==>
      r.0.value.text == s[pos..r.1] && |r.0.value.text| > 0 && Decimal.AllDigits(r.0.value.text) &&
      (r.1 == |s| || !Decimal.IsDigit(s[r.1]))
  {
    if pos == |s| then (Ok(Token("", EOF)), pos)
    else if Decimal.IsDigit(s[pos]) then
      var e := DigitRunEnd(s, pos + 1);
      (Ok(Token(s[pos..e], NUM)), e)
    else if IsAlpha(s[pos]) then
      var e := AlnumRunEnd(s, pos + 1);
      (Ok(KeyWordToken(s[pos..e])), e)
    else (OneChar(s[pos]), pos + 1)
  }

  /** The two readings differ exactly on words: everywhere else the written lexer does what was intended. */
  lemma ScanAsWrittenFailsOnWords(s: string, pos: nat)
    requires pos <= |s|
    ensures pos < |s| && IsAlpha(s[pos]) ==>
      ScanAsWritten(s, pos).0 == Err(NameError("tokText")) && Scan(s, pos).0.Ok?
    ensures !(pos < |s| && IsAlpha(s[pos])) ==> ScanAsWritten(s, pos) == Scan(s, pos)
  {
  }

  /** `next_valid_token()`: tokens up to the first that is neither a space nor a newline. */
  function NextValid(s: string, pos: nat): (r: (Result<Token>, nat))
    requires pos <= |s|
    ensures pos <= r.1 <= |s|
    ensures r.0.Ok? ==> r.0.value.kind != WSP && r.0.value.kind != NLN
    ensures r.0.Ok? && r.0.value.kind != EOF ==> r.1 > pos
    ensures r.0.Ok? && r.0.value.kind == NUM ==> Decimal.AllDigits(r.0.value.text)
    decreases |s| - pos
  {
    var (t, p) := Scan(s, pos);
    if t.Ok? && (t.value.kind == WSP || t.value.kind == NLN) then NextValid(s, p) else (t, p)
  }

  /** Whatever `tokens()` yields, placed after `acc`; an error passes through. */
  function Prefixed(acc: seq<Token>, r: Result<seq<Token>>): Result<seq<Token>> {
    if r.Err? then r else Ok(acc + r.value)
  }

  lemma PrefixedNothing(r: Result<seq<Token>>)
    ensures Prefixed([], r) == r
  {
    if r.Ok? {
      assert [] + r.value == r.value;
    }
  }

  lemma PrefixedTwice(acc: seq<Token>, t: Token, r: Result<seq<Token>>)
    ensures Prefixed(acc, Prefixed([t], r)) == Prefixed(acc + [t], r)
  {
    if r.Ok? {
      assert acc + ([t] + r.value) == acc + [t] + r.value;
    }
  }

  /** `list(tokens())` from `pos`: every token up to EOF except spaces and newlines. */
  function TokensFrom(s: string, pos: nat): (r: Result<seq<Token>>)
    requires pos <= |s|
    ensures r.Ok? ==> forall i :: 0 <= i < |r.value| ==> r.value[i].kind !in {EOF, WSP, NLN}
    decreases |s| - pos
  {
    var (t, p) := Scan(s, pos);
    if t.Err? then Err(t.error)
    else if t.value.kind == EOF then Ok([])
    else if t.value.kind == WSP || t.value.kind == NLN then TokensFrom(s, p)
    else Prefixed([t.value], TokensFrom(s, p))
  }

  /** The outcome of `compute_postfix` once the tokens are used up. */
  function Finish(stack: seq<int>): (r: Result<int>)
    ensures r.Ok? <==> |stack| == 1
  {
    if |stack| != 1 then Err(ValueError("The user input has too many values.")) else Ok(stack[0])
  }

  /**
   * `compute_postfix(lexer)` from `pos` with `stack` already built: a number
   * is pushed; an operator pops b, then a, and pushes `a op b`. Tokens are
   * read one at a time, so a lexing error stops evaluation only when it is
   * reached.
   */
  function PostfixFrom(s: string, pos: nat, stack: seq<int>): (r: Result<int>)
    requires pos <= |s|
    decreases |s| - pos
  {
    var (t, p) := Scan(s, pos);
    if t.Err? then Err(t.error)
    else
      var tok := t.value;
      if tok.kind == EOF then Finish(stack)
      else if tok.kind == WSP || tok.kind == NLN then PostfixFrom(s, p, stack)
      else if tok.kind == NUM then PostfixFrom(s, p, stack + [NumValue(tok.text)])
      else if IsOperator(tok.kind) then
        if |stack| < 2 then Err(ValueError("Insufficient values in the expression."))
        else
          var c :- Arith.Apply(OpOf(tok.kind), stack[|stack| - 2], stack[|stack| - 1]);
          PostfixFrom(s, p, stack[..|stack| - 2] + [c])
      else Err(ValueError("Unexpected token type: " + KindName(tok.kind)))
  }

  /** Reverse Polish evaluation over a finished list of tokens. */
  function RunPostfix(ts: seq<Token>, stack: seq<int>): Result<int>
    decreases |ts|
  {
    if |ts| == 0 then Finish(stack)
    else
      var tok := ts[0];
      if tok.kind == NUM && Decimal.AllDigits(tok.text) then RunPostfix(ts[1..], stack + [NumValue(tok.text)])
      else if IsOperator(tok.kind) then
        if |stack| < 2 then Err(ValueError("Insufficient values in the expression."))
        else
          var c :- Arith.Apply(OpOf(tok.kind), stack[|stack| - 2], stack[|stack| - 1]);
          RunPostfix(ts[1..], stack[..|stack| - 2] + [c])
      else Err(ValueError("Unexpected token type: " + KindName(tok.kind)))
  }

  /**
   * Reading tokens lazily and evaluating as they come gives the same result
   * as listing all tokens first and evaluating the list, whenever the whole
   * input lexes.
   */
  lemma {:induction false} PostfixFromIsRunOverTokens(s: string, pos: nat, stack: seq<int>)
    requires pos <= |s|
    requires TokensFrom(s, pos).Ok?
    ensures PostfixFrom(s, pos, stack) == RunPostfix(TokensFrom(s, pos).value, stack)
    decreases |s| - pos
  {
    var (t, p) := Scan(s, pos);
    if t.value.kind != EOF {
      if t.value.kind == WSP || t.value.kind == NLN {
        PostfixFromIsRunOverTokens(s, p, stack);
      } else {
        var ts := TokensFrom(s, pos).value;
        assert ts == [t.value] + TokensFrom(s, p).value;
        assert ts[1..] == TokensFrom(s, p).value;
        if t.value.kind == NUM {
          PostfixFromIsRunOverTokens(s, p, stack + [NumValue(t.value.text)]);
        } else if IsOperator(t.value.kind) && |stack| >= 2 {
          var c := Arith.Apply(OpOf(t.value.kind), stack[|stack| - 2], stack[|stack| - 1]);
          if c.Ok? {
            PostfixFromIsRunOverTokens(s, p, stack[..|stack| - 2] + [c.value]);
          }
        }
      }
    }
  }

  /**
   * `compute_prefix(lexer)` from `pos`: a number is its value; an operator
   * reads two complete operands, left first, and combines them. The result
   * and the position after the expression.
   */
  function PrefixFrom(s: string, pos: nat): (r: (Result<int>, nat))
    requires pos <= |s|
    ensures pos <= r.1 <= |s|
    decreases |s| - pos
  {
    var (t, p) := NextValid(s, pos);
    if t.Err? then (Err(t.error), p)
    else if t.value.kind == NUM then (Ok(NumValue(t.value.text)), p)
    else if IsOperator(t.value.kind) then
      var (a, p1) := PrefixFrom(s, p);
      if a.Err? then (a, p1)
      else
        var (b, p2) := PrefixFrom(s, p1);
        if b.Err? then (b, p2)
        else (Arith.Apply(OpOf(t.value.kind), a.value, b.value), p2)
    else (Err(ValueError("Unexpected token type: " + KindName(t.value.kind))), p)
  }

  class Lexer {
    /** The text being scanned. */
    const input: string
    /** The index of the next character to read. */
    var position: nat

    constructor(s: string)
      ensures input == s && position == 0 && Valid()
    {
      input := s;
      position := 0;
    }

    predicate Valid()
      reads this
    {
      position <= |input|
    }

    /** `getToken()`: the next token, advancing past it. */
    method GetToken() returns (r: Result<Token>)
      requires Valid()
      modifies this
      ensures Valid()
      ensures (r, position) == Scan(input, old(position))
    {
      if position >= |input| {
        return Ok(Token("", EOF));
      }
      var start := position;
      var c := input[position];
      position := position + 1;
      if Decimal.IsDigit(c) {
        var text := ReadDigits(start);
        return Ok(Token(text, NUM));
      } else if IsAlpha(c) {
        var idText := ReadWord(start);
        return Ok(KeyWordToken(idText));
      }
      r := OneChar(c);
    }

    /** The digit loop of `getToken`: reads on from `start` to the end of the run of digits. */
    method ReadDigits(start: nat) returns (text: string)
      requires start < position == start + 1 <= |input|
      modifies this
      ensures start < position == DigitRunEnd(input, start + 1) <= |input|
      ensures text == input[start..position]
    {
      text := [input[start]];
      while position < |input| && Decimal.IsDigit(input[position])
        invariant start < position <= |input|
        invariant text == input[start..position]
        invariant DigitRunEnd(input, position) == DigitRunEnd(input, start + 1)
        decreases |input| - position
      {
        assert input[start..position + 1] == input[start..position] + [input[position]];
        text := text + [input[position]];
        position := position + 1;
      }
    }

    /** The word loop of `getToken`: reads on from `start` to the end of the run of letters and digits. */
    method ReadWord(start: nat) returns (idText: string)
      requires start < position == start + 1 <= |input|
      modifies this
      ensures start < position == AlnumRunEnd(input, start + 1) <= |input|
      ensures idText == input[start..position]
    {
      idText := [input[start]];
      while position < |input| && IsAlnum(input[position])
        invariant start < position <= |input|
        invariant idText == input[start..position]
        invariant AlnumRunEnd(input, position) == AlnumRunEnd(input, start + 1)
        decreases |input| - position
      {
        assert input[start..position + 1] == input[start..position] + [input[position]];
        idText := idText + [input[position]];
        position := position + 1;
      }
    }

    /** `next_valid_token()`: skips spaces and newlines by recursion. */
    method NextValidToken() returns (r: Result<Token>)
      requires Valid()
      modifies this
      ensures Valid()
      ensures (r, position) == NextValid(input, old(position))
      decreases |input| - position
    {
      r := GetToken();
      if r.Ok? && (r.value.kind == WSP || r.value.kind == NLN) {
        r := NextValidToken();
      }
    }

    /** `list(tokens())`: every token up to EOF, spaces and newlines left out. */
    method AllTokens() returns (r: Result<seq<Token>>)
      requires Valid()
      modifies this
      ensures Valid()
      ensures r == TokensFrom(input, old(position))
    {
      var acc: seq<Token> := [];
      PrefixedNothing(TokensFrom(input, position));
      while true
        invariant Valid()
        invariant TokensFrom(input, old(position)) == Prefixed(acc, TokensFrom(input, position))
        decreases |input| - position
      {
        ghost var before := position;
        var t := GetToken();
        if t.Err? {
          return Err(t.error);
        }
        if t.value.kind == EOF {
          assert TokensFrom(input, before) == Ok([]);
          assert acc + [] == acc;
          return Ok(acc);
        }
        if t.value.kind != WSP && t.value.kind != NLN {
          PrefixedTwice(acc, t.value, TokensFrom(input, position));
          acc := acc + [t.value];
        }
      }
    }
  }

  /** `compute_postfix(lexer)`: one pass over the tokens with a stack of values. */
  method ComputePostfix(lexer: Lexer) returns (r: Result<int>)
    requires lexer.Valid()
    modifies lexer
    ensures r == PostfixFrom(lexer.input, old(lexer.position), [])
  {
    var stack: seq<int> := [];
    while true
      invariant lexer.Valid()
      invariant PostfixFrom(lexer.input, old(lexer.position), []) == PostfixFrom(lexer.input, lexer.position, stack)
      decreases |lexer.input| - lexer.position
    {
      var t := lexer.GetToken();
      if t.Err? {
        return Err(t.error);
      }
      var tok := t.value;
      if tok.kind == EOF {
        break;
      }
      if tok.kind == NUM {
        stack := stack + [NumValue(tok.text)];
      } else if IsOperator(tok.kind) {
        if |stack| < 2 {
          return Err(ValueError("Insufficient values in the expression."));
        }
        var b := stack[|stack| - 1];
        var a := stack[|stack| - 2];
        stack := stack[..|stack| - 2];
        var c := Arith.Apply(OpOf(tok.kind), a, b);
        if c.Err? {
          return Err(c.error);
        }
        stack := stack + [c.value];
      } else if tok.kind != WSP && tok.kind != NLN {
        return Err(ValueError("Unexpected token type: " + KindName(tok.kind)));
      }
    }
    if |stack| != 1 {
      return Err(ValueError("The user input has too many values."));
    }
    r := Ok(stack[0]);
  }

  /** `compute_prefix(lexer)`: an operator reads its two operands by recursion. */
  method ComputePrefix(lexer: Lexer) returns (r: Result<int>)
    requires lexer.Valid()
    modifies lexer
    ensures lexer.Valid()
    ensures (r, lexer.position) == PrefixFrom(lexer.input, old(lexer.position))
    decreases |lexer.input| - lexer.position
  {
    var t := lexer.NextValidToken();
    if t.Err? {
      return Err(t.error);
    }
    var tok := t.value;
    if tok.kind == NUM {
      return Ok(NumValue(tok.text));
    }
    if IsOperator(tok.kind) {
      var a := ComputePrefix(lexer);
      if a.Err? {
        return a;
      }
      var b := ComputePrefix(lexer);
      if b.Err? {
        return b;
      }
      return Arith.Apply(OpOf(tok.kind), a.value, b.value);
    }
    r := Err(ValueError("Unexpected token type: " + KindName(tok.kind)));
  }

  // Printed expressions read back.

  /** A character of `y` seen at offset `|x|` in `x + y`. */
  lemma CharShift(x: string, y: string, i: nat)
    requires i < |y|
    ensures (x + y)[|x| + i] == y[i]
  {
  }

  /** The lexer reads the same token, of the same length, from the same text. */
  lemma ScanSame(s: string, i: nat, u: string, j: nat)
    requires SameFrom(s, i, u, j)
    ensures Scan(s, i).0 == Scan(u, j).0 && Scan(s, i).1 - i == Scan(u, j).1 - j
  {
    if i < |s| {
      SameFromLater(s, i, u, j, 0);
      if Decimal.IsDigit(s[i]) {
        NumberSame(s, i, u, j);
      } else if IsAlpha(s[i]) {
        WordSame(s, i, u, j);
      }
    }
  }

  /** A number is read with the same digits from the same text. */
  lemma NumberSame(s: string, i: nat, u: string, j: nat)
    requires SameFrom(s, i, u, j) && i < |s|
    ensures DigitRunEnd(s, i + 1) - i == DigitRunEnd(u, j + 1) - j
    ensures s[i..DigitRunEnd(s, i + 1)] == u[j..DigitRunEnd(u, j + 1)]
  {
    SameFromLater(s, i, u, j, 1);
    DigitRunSame(s, i + 1, u, j + 1);
    var d := DigitRunEnd(s, i + 1) - i;
    assert s[i..i + d] == s[i..][..d];
    assert u[j..j + d] == u[j..][..d];
  }

  /** A word is read with the same letters from the same text. */
  lemma WordSame(s: string, i: nat, u: string, j: nat)
    requires SameFrom(s, i, u, j) && i < |s|
    ensures AlnumRunEnd(s, i + 1) - i == AlnumRunEnd(u, j + 1) - j
    ensures s[i..AlnumRunEnd(s, i + 1)] == u[j..AlnumRunEnd(u, j + 1)]
  {
    SameFromLater(s, i, u, j, 1);
    AlnumRunSame(s, i + 1, u, j + 1);
    var d := AlnumRunEnd(s, i + 1) - i;
    assert s[i..i + d] == s[i..][..d];
    assert u[j..j + d] == u[j..][..d];
  }

  /** The lexer reads `y` the same whether or not text comes before it. */
  lemma ScanShift(x: string, y: string, k: nat)
    requires k <= |y|
    ensures Scan(x + y, |x| + k) == (Scan(y, k).0, |x| + Scan(y, k).1)
  {
    ShiftedSame(x, y, k);
    ScanSame(x + y, |x| + k, y, k);
  }

  /** Two positions where the lexer reads the same token, and after which the rest lexes the same, lex the same. */
  lemma TokensAfterScan(s: string, i: nat, u: string, j: nat, t: Result<Token>, p: nat, q: nat)
    requires i <= |s| && j <= |u|
    requires Scan(s, i) == (t, p) && Scan(u, j) == (t, q)
    requires t.Ok? && t.value.kind != EOF ==> TokensFrom(s, p) == TokensFrom(u, q)
    ensures TokensFrom(s, i) == TokensFrom(u, j)
  {
  }

  /** `tokens()` yields the same from the same text. */
  lemma {:induction false} TokensSame(s: string, i: nat, u: string, j: nat)
    requires SameFrom(s, i, u, j)
    ensures TokensFrom(s, i) == TokensFrom(u, j)
    decreases |s| - i
  {
    var r := Scan(s, i);
    var q := Scan(u, j);
    ScanSame(s, i, u, j);
    if r.0.Ok? && r.0.value.kind != EOF {
      SameFromLater(s, i, u, j, r.1 - i);
      TokensSame(s, r.1, u, q.1);
    }
    TokensAfterScan(s, i, u, j, r.0, r.1, q.1);
  }

  /** `tokens()` reads `y` the same whether or not text comes before it. */
  lemma TokensShift(x: string, y: string, k: nat)
    requires k <= |y|
    ensures TokensFrom(x + y, |x| + k) == TokensFrom(y, k)
  {
    ShiftedSame(x, y, k);
    TokensSame(x + y, |x| + k, y, k);
  }

  /** A token the lexer produces on its own text: a run of digits, or an operator's symbol. */
  predicate Lexeme(t: Token) {
    (t.kind == NUM && |t.text| > 0 && Decimal.AllDigits(t.text)) ||
    (IsOperator(t.kind) && t.text == Arith.Symbol(OpOf(t.kind)))
  }

  /** A lexeme followed by nothing or by a space is read back as itself. */
  lemma ScanLexeme(t: Token, rest: string)
    requires Lexeme(t)
    requires rest == [] || rest[0] == ' '
    ensures Scan(t.text + rest, 0) == (Ok(t), |t.text|)
  {
    var s := t.text + rest;
    if t.kind == NUM {
      forall k | 1 <= k < |t.text|
        ensures Decimal.IsDigit(s[k])
      {
        assert s[k] == t.text[k];
      }
      if |t.text| < |s| {
        CharShift(t.text, rest, 0);
      }
      DigitRunEndAt(s, 1, |t.text|);
      assert s[0..|t.text|] == t.text;
    } else {
      assert s[0] == t.text[0];
      assert t.text == [t.text[0]];
    }
  }

  /** Texts of tokens separated by single spaces, as the printers write them. */
  function Joined(ts: seq<Token>): string
    decreases |ts|
  {
    if |ts| == 0 then ""
    else if |ts| == 1 then ts[0].text
    else ts[0].text + " " + Joined(ts[1..])
  }

  lemma {:induction false} JoinedAppend(a: seq<Token>, b: seq<Token>)
    requires |a| > 0 && |b| > 0
    ensures Joined(a + b) == Joined(a) + " " + Joined(b)
    decreases |a|
  {
    assert (a + b)[0] == a[0];
    assert (a + b)[1..] == a[1..] + b;
    if |a| > 1 {
      JoinedAppend(a[1..], b);
    }
  }

  lemma SkipSpace(s: string, i: nat)
    requires i < |s| && s[i] == ' '
    ensures TokensFrom(s, i) == TokensFrom(s, i + 1)
  {
    assert Scan(s, i) == (Ok(Token(" ", WSP)), i + 1);
  }

  /** Text after a space is lexed as if it stood alone. */
  lemma TokensAfterSpace(x: string, rest: string)
    ensures TokensFrom(x + " " + rest, |x|) == TokensFrom(rest, 0)
  {
    var y := x + " ";
    var s := y + rest;
    assert s == x + " " + rest;
    CharShift(x, " " + rest, 0);
    assert s == x + (" " + rest);
    SkipSpace(s, |x|);
    TokensShift(y, rest, 0);
    assert |y| + 0 == |x| + 1;
  }

  /** A lexeme, a space, and more text: the lexeme is the first token. */
  lemma LexemeThenSpace(t: Token, rest: string)
    requires Lexeme(t)
    ensures TokensFrom(t.text + " " + rest, 0) == Prefixed([t], TokensFrom(rest, 0))
  {
    var s := t.text + " " + rest;
    assert s == t.text + (" " + rest);
    ScanLexeme(t, " " + rest);
    TokensAfterSpace(t.text, rest);
  }

  /**
   * Lexing a space-separated list of lexemes gives the list back: the
   * lexer and the printers agree on what a token is.
   */
  lemma {:induction false} LexJoined(ts: seq<Token>)
    requires forall i :: 0 <= i < |ts| ==> Lexeme(ts[i])
    ensures TokensFrom(Joined(ts), 0) == Ok(ts)
    decreases |ts|
  {
    if |ts| == 1 {
      ScanLexeme(ts[0], "");
      assert ts[0].text + "" == ts[0].text;
      assert [ts[0]] + [] == ts;
    } else if |ts| > 1 {
      LexemeThenSpace(ts[0], Joined(ts[1..]));
      LexJoined(ts[1..]);
      assert [ts[0]] + ts[1..] == ts;
    }
  }

  /** The lexer reads no sign: an expression it can read back has no negative numbers. */
  predicate NonNegative(e: ArithPrinters.Exp) {
    match e
    case Num(n) => n >= 0
    case Bin(_, l, r) => NonNegative(l) && NonNegative(r)
  }

  function NumToken(n: nat): (t: Token)
    ensures Lexeme(t)
  {
    Token(Decimal.NatToString(n), NUM)
  }

  function OpToken(op: Arith.Op): (t: Token)
    ensures Lexeme(t)
  {
    Token(Arith.Symbol(op), KindOf(op))
  }

  /** The tokens of the postfix printout of `e`, operands before their operator. */
  function PostfixTokens(e: ArithPrinters.Exp): (ts: seq<Token>)
    requires NonNegative(e)
    ensures |ts| > 0 && forall i :: 0 <= i < |ts| ==> Lexeme(ts[i])
  {
    match e
    case Num(n) => [NumToken(n)]
    case Bin(op, l, r) => PostfixTokens(l) + PostfixTokens(r) + [OpToken(op)]
  }

  /** The tokens of the prefix printout of `e`, each operator before its operands. */
  function PrefixTokens(e: ArithPrinters.Exp): (ts: seq<Token>)
    requires NonNegative(e)
    ensures |ts| > 0 && forall i :: 0 <= i < |ts| ==> Lexeme(ts[i])
  {
    match e
    case Num(n) => [NumToken(n)]
    case Bin(op, l, r) => [OpToken(op)] + (PrefixTokens(l) + PrefixTokens(r))
  }

  lemma {:induction false} PostfixIsJoined(e: ArithPrinters.Exp)
    requires NonNegative(e)
    ensures ArithPrinters.Postfix(e) == Joined(PostfixTokens(e))
  {
    match e
    case Num(n) =>
    case Bin(op, l, r) =>
      PostfixIsJoined(l);
      PostfixIsJoined(r);
      JoinedAppend(PostfixTokens(l), PostfixTokens(r));
      JoinedAppend(PostfixTokens(l) + PostfixTokens(r), [OpToken(op)]);
  }

  lemma JoinedOperatorFirst(op: Arith.Op, tl: seq<Token>, tr: seq<Token>)
    requires |tl| > 0 && |tr| > 0
    ensures Joined([OpToken(op)] + (tl + tr)) == Arith.Symbol(op) + " " + Joined(tl) + " " + Joined(tr)
  {
    JoinedAppend(tl, tr);
    JoinedAppend([OpToken(op)], tl + tr);
    Regroup3(Arith.Symbol(op), Joined(tl), Joined(tr));
  }

  lemma Regroup3(a: string, b: string, c: string)
    ensures a + " " + (b + " " + c) == a + " " + b + " " + c
  {
  }

  lemma {:induction false} PrefixIsJoined(e: ArithPrinters.Exp)
    requires NonNegative(e)
    ensures ArithPrinters.Prefix(e) == Joined(PrefixTokens(e))
  {
    match e
    case Num(n) =>
    case Bin(op, l, r) =>
      PrefixIsJoined(l);
      PrefixIsJoined(r);
      JoinedOperatorFirst(op, PrefixTokens(l), PrefixTokens(r));
  }

  /** The lexer turns the postfix printout of `e` into exactly the tokens of `e`. */
  lemma PostfixLexes(e: ArithPrinters.Exp)
    requires NonNegative(e)
    ensures TokensFrom(ArithPrinters.Postfix(e), 0) == Ok(PostfixTokens(e))
  {
    PostfixIsJoined(e);
    LexJoined(PostfixTokens(e));
  }

  /** The lexer turns the prefix printout of `e` into exactly the tokens of `e`. */
  lemma PrefixLexes(e: ArithPrinters.Exp)
    requires NonNegative(e)
    ensures TokensFrom(ArithPrinters.Prefix(e), 0) == Ok(PrefixTokens(e))
  {
    PrefixIsJoined(e);
    LexJoined(PrefixTokens(e));
  }

  lemma RunPostfixNumber(n: nat, more: seq<Token>, stack: seq<int>)
    ensures RunPostfix([NumToken(n)] + more, stack) == RunPostfix(more, stack + [n])
  {
    var ts := [NumToken(n)] + more;
    assert ts[0] == NumToken(n) && ts[1..] == more;
    Decimal.ParsePrinted(n);
  }

  lemma RunPostfixOperator(op: Arith.Op, more: seq<Token>, stack: seq<int>, a: int, b: int)
    ensures Arith.Apply(op, a, b).Err? ==> RunPostfix([OpToken(op)] + more, stack + [a] + [b]) == Err(ZeroDivisionError)
    ensures Arith.Apply(op, a, b).Ok? ==>
      RunPostfix([OpToken(op)] + more, stack + [a] + [b]) == RunPostfix(more, stack + [Arith.Apply(op, a, b).value])
  {
    var ts := [OpToken(op)] + more;
    assert ts[0] == OpToken(op) && ts[1..] == more;
    var st := stack + [a] + [b];
    assert st[..|st| - 2] == stack && st[|st| - 2] == a && st[|st| - 1] == b;
  }

  /**
   * The tokens of `e` push the value of `e` on the stack, or stop with the
   * division by zero that `e` contains.
   */
  lemma {:induction false} PostfixTokensPushValue(e: ArithPrinters.Exp, more: seq<Token>, stack: seq<int>)
    requires NonNegative(e)
    ensures ArithPrinters.Eval(e).Err? ==> RunPostfix(PostfixTokens(e) + more, stack) == Err(ZeroDivisionError)
    ensures ArithPrinters.Eval(e).Ok? ==>
      RunPostfix(PostfixTokens(e) + more, stack) == RunPostfix(more, stack + [ArithPrinters.Eval(e).value])
  {
    match e
    case Num(n) =>
      RunPostfixNumber(n, more, stack);
    case Bin(op, l, r) =>
      var tl, tr := PostfixTokens(l), PostfixTokens(r);
      assert PostfixTokens(e) + more == tl + (tr + ([OpToken(op)] + more));
      PostfixTokensPushValue(l, tr + ([OpToken(op)] + more), stack);
      var a := ArithPrinters.Eval(l);
      if a.Ok? {
        PostfixTokensPushValue(r, [OpToken(op)] + more, stack + [a.value]);
        var b := ArithPrinters.Eval(r);
        if b.Ok? {
          RunPostfixOperator(op, more, stack, a.value, b.value);
        }
      }
  }

  /** `compute_postfix` on the postfix printout of an expression gives the expression's value. */
  lemma PostfixRoundTrip(e: ArithPrinters.Exp)
    requires NonNegative(e)
    ensures PostfixFrom(ArithPrinters.Postfix(e), 0, []) == ArithPrinters.Eval(e)
  {
    PostfixLexes(e);
    PostfixFromIsRunOverTokens(ArithPrinters.Postfix(e), 0, []);
    PostfixTokensPushValue(e, [], []);
    assert PostfixTokens(e) + [] == PostfixTokens(e);
  }

  /**
   * Polish-notation reading over a finished list of tokens: the value of
   * the first complete expression, and the tokens after it.
   */
  function RunPrefix(ts: seq<Token>): (r: (Result<int>, seq<Token>))
    ensures |r.1| <= |ts|
    decreases |ts|
  {
    if |ts| == 0 then (Err(ValueError("Unexpected token type: " + KindName(EOF))), [])
    else
      var t := ts[0];
      if t.kind == NUM && Decimal.AllDigits(t.text) then (Ok(NumValue(t.text)), ts[1..])
      else if IsOperator(t.kind) then
        var (a, r1) := RunPrefix(ts[1..]);
        if a.Err? then (a, r1)
        else
          var (b, r2) := RunPrefix(r1);
          if b.Err? then (b, r2) else (Arith.Apply(OpOf(t.kind), a.value, b.value), r2)
      else (Err(ValueError("Unexpected token type: " + KindName(t.kind))), ts[1..])
  }

  /** `next_valid_token` hands out the listed tokens one by one, then EOF. */
  lemma {:induction false} NextValidOverTokens(s: string, pos: nat)
    requires pos <= |s| && TokensFrom(s, pos).Ok?
    ensures var ts, (t, p) := TokensFrom(s, pos).value, NextValid(s, pos);
      if |ts| == 0 then t == Ok(Token("", EOF)) && TokensFrom(s, p) == Ok([])
      else t == Ok(ts[0]) && TokensFrom(s, p) == Ok(ts[1..])
    decreases |s| - pos
  {
    var (t, p) := Scan(s, pos);
    if t.value.kind == WSP || t.value.kind == NLN {
      NextValidOverTokens(s, p);
    } else if t.value.kind != EOF {
      assert TokensFrom(s, pos).value[1..] == TokensFrom(s, p).value;
    }
  }

  /**
   * Reading tokens lazily with `compute_prefix` gives the same value as
   * reading the whole token list first, and leaves the same tokens unread.
   */
  lemma {:induction false} PrefixFromIsRunOverTokens(s: string, pos: nat)
    requires pos <= |s| && TokensFrom(s, pos).Ok?
    ensures PrefixFrom(s, pos).0 == RunPrefix(TokensFrom(s, pos).value).0
    ensures TokensFrom(s, PrefixFrom(s, pos).1) == Ok(RunPrefix(TokensFrom(s, pos).value).1)
    decreases |s| - pos
  {
    var ts := TokensFrom(s, pos).value;
    NextValidOverTokens(s, pos);
    var (t, p) := NextValid(s, pos);
    if |ts| > 0 && IsOperator(ts[0].kind) {
      PrefixFromIsRunOverTokens(s, p);
      var (a, p1) := PrefixFrom(s, p);
      if a.Ok? {
        PrefixFromIsRunOverTokens(s, p1);
      }
    }
  }

  lemma RunPrefixNumber(n: nat, more: seq<Token>)
    ensures RunPrefix([NumToken(n)] + more) == (Ok(n as int), more)
  {
    var ts := [NumToken(n)] + more;
    assert ts[0] == NumToken(n) && ts[1..] == more;
    Decimal.ParsePrinted(n);
  }

  lemma RunPrefixOperator(op: Arith.Op, rest: seq<Token>)
    ensures RunPrefix([OpToken(op)] + rest) ==
      var (a, r1) := RunPrefix(rest);
      if a.Err? then (a, r1)
      else
        var (b, r2) := RunPrefix(r1);
        if b.Err? then (b, r2) else (Arith.Apply(op, a.value, b.value), r2)
  {
    var ts := [OpToken(op)] + rest;
    assert ts[0] == OpToken(op) && ts[1..] == rest;
  }

  /** The tokens of `e` read in Polish notation give the value of `e`, and nothing after them is read. */
  lemma {:induction false} PrefixTokensReadValue(e: ArithPrinters.Exp, more: seq<Token>)
    requires NonNegative(e)
    ensures RunPrefix(PrefixTokens(e) + more).0 == ArithPrinters.Eval(e)
    ensures ArithPrinters.Eval(e).Ok? ==> RunPrefix(PrefixTokens(e) + more).1 == more
  {
    match e
    case Num(n) =>
      RunPrefixNumber(n, more);
    case Bin(op, l, r) =>
      var tl, tr := PrefixTokens(l), PrefixTokens(r);
      assert PrefixTokens(e) + more == [OpToken(op)] + (tl + (tr + more));
      RunPrefixOperator(op, tl + (tr + more));
      PrefixTokensReadValue(l, tr + more);
      if ArithPrinters.Eval(l).Ok? {
        PrefixTokensReadValue(r, more);
      }
  }

  /** `compute_prefix` on the prefix printout of an expression gives the expression's value. */
  lemma PrefixRoundTrip(e: ArithPrinters.Exp)
    requires NonNegative(e)
    ensures PrefixFrom(ArithPrinters.Prefix(e), 0).0 == ArithPrinters.Eval(e)
  {
    PrefixLexes(e);
    PrefixFromIsRunOverTokens(ArithPrinters.Prefix(e), 0);
    PrefixTokensReadValue(e, []);
    assert PrefixTokens(e) + [] == PrefixTokens(e);
  }

  // The documented runs.

  /** The postfix reading of `text` is the value of `e`, when `text` spells out the tokens of `e`. */
  lemma PostfixReads(e: ArithPrinters.Exp, text: string)
    requires NonNegative(e) && Joined(PostfixTokens(e)) == text
    ensures PostfixFrom(text, 0, []) == ArithPrinters.Eval(e)
  {
    PostfixIsJoined(e);
    PostfixRoundTrip(e);
  }

  /** The prefix reading of `text` is the value of `e`, when `text` spells out the tokens of `e`. */
  lemma PrefixReads(e: ArithPrinters.Exp, text: string)
    requires NonNegative(e) && Joined(PrefixTokens(e)) == text
    ensures PrefixFrom(text, 0).0 == ArithPrinters.Eval(e)
  {
    PrefixIsJoined(e);
    PrefixRoundTrip(e);
  }

  lemma DigitToken(n: nat)
    requires n < 10
    ensures NumToken(n) == Token([Decimal.DigitChar(n)], NUM)
  {
    Decimal.SmallNatToString(n);
  }

  /** The tree that "3 4 + 2 * 7 /" writes in postfix: ((3 + 4) * 2) / 7. */
  function FirstPostfixTree(): (e: ArithPrinters.Exp)
    ensures NonNegative(e) && ArithPrinters.Eval(e) == Ok(2)
  {
    ArithPrinters.Bin(Arith.DivOp,
      ArithPrinters.Bin(Arith.MulOp,
        ArithPrinters.Bin(Arith.AddOp, ArithPrinters.Num(3), ArithPrinters.Num(4)),
        ArithPrinters.Num(2)),
      ArithPrinters.Num(7))
  }

  lemma FirstPostfixTokens()
    ensures PostfixTokens(FirstPostfixTree()) ==
      [Token("3", NUM), Token("4", NUM), Token("+", ADD), Token("2", NUM), Token("*", MUL), Token("7", NUM), Token("/", DIV)]
  {
    DigitToken(2);
    DigitToken(3);
    DigitToken(4);
    DigitToken(7);
  }

  lemma FirstPostfixText()
    ensures Joined([Token("3", NUM), Token("4", NUM), Token("+", ADD), Token("2", NUM), Token("*", MUL), Token("7", NUM), Token("/", DIV)])
      == "3 4 + 2 * 7 /"
  {
  }

  /** `compute_postfix(Lexer("3 4 + 2 * 7 /"))` is 2. */
  lemma PostfixFirstExample()
    ensures PostfixFrom("3 4 + 2 * 7 /", 0, []) == Ok(2)
  {
    FirstPostfixTokens();
    FirstPostfixText();
    PostfixReads(FirstPostfixTree(), "3 4 + 2 * 7 /");
  }

  /** The tree that "4 2 5 * + 1 3 2 * + /" writes in postfix: (4 + 2 * 5) / (1 + 3 * 2). */
  function SecondPostfixTree(): (e: ArithPrinters.Exp)
    ensures NonNegative(e) && ArithPrinters.Eval(e) == Ok(2)
  {
    ArithPrinters.Bin(Arith.DivOp,
      ArithPrinters.Bin(Arith.AddOp, ArithPrinters.Num(4), ArithPrinters.Bin(Arith.MulOp, ArithPrinters.Num(2), ArithPrinters.Num(5))),
      ArithPrinters.Bin(Arith.AddOp, ArithPrinters.Num(1), ArithPrinters.Bin(Arith.MulOp, ArithPrinters.Num(3), ArithPrinters.Num(2))))
  }

  lemma SecondPostfixTokens()
    ensures PostfixTokens(SecondPostfixTree()) == [Token("4", NUM), Token("2", NUM), Token("5", NUM), Token("*", MUL), Token("+", ADD)] + [Token("1", NUM), Token("3", NUM), Token("2", NUM), Token("*", MUL), Token("+", ADD)] + [Token("/", DIV)]
  {
    DigitToken(1);
    DigitToken(2);
    DigitToken(3);
    DigitToken(4);
    DigitToken(5);
    var e := SecondPostfixTree();
    assert PostfixTokens(e.left) == [Token("4", NUM), Token("2", NUM), Token("5", NUM), Token("*", MUL), Token("+", ADD)];
    assert PostfixTokens(e.right) == [Token("1", NUM), Token("3", NUM), Token("2", NUM), Token("*", MUL), Token("+", ADD)];
  }

  lemma SecondPostfixText()
    ensures Joined([Token("4", NUM), Token("2", NUM), Token("5", NUM), Token("*", MUL), Token("+", ADD)] + [Token("1", NUM), Token("3", NUM), Token("2", NUM), Token("*", MUL), Token("+", ADD)] + [Token("/", DIV)])
      == "4 2 5 * + 1 3 2 * + /"
  {
    var l, r := [Token("4", NUM), Token("2", NUM), Token("5", NUM), Token("*", MUL), Token("+", ADD)], [Token("1", NUM), Token("3", NUM), Token("2", NUM), Token("*", MUL), Token("+", ADD)];
    JoinedAppend(l, r + [Token("/", DIV)]);
    assert l + r + [Token("/", DIV)] == l + (r + [Token("/", DIV)]);
    JoinedAppend(r, [Token("/", DIV)]);
    SecondPostfixLeft();
    SecondPostfixRight();
  }

  lemma SecondPostfixLeft()
    ensures Joined([Token("4", NUM), Token("2", NUM), Token("5", NUM), Token("*", MUL), Token("+", ADD)]) == "4 2 5 * +"
  {
  }

  lemma SecondPostfixRight()
    ensures Joined([Token("1", NUM), Token("3", NUM), Token("2", NUM), Token("*", MUL), Token("+", ADD)]) == "1 3 2 * +"
  {
  }

  /** `compute_postfix(Lexer("4 2 5 * + 1 3 2 * + /"))` is 2. */
  lemma PostfixSecondExample()
    ensures PostfixFrom("4 2 5 * + 1 3 2 * + /", 0, []) == Ok(2)
  {
    SecondPostfixTokens();
    SecondPostfixText();
    PostfixReads(SecondPostfixTree(), "4 2 5 * + 1 3 2 * + /");
  }

  /** The tree that "+ 3 * 4 2" writes in prefix: 3 + 4 * 2. */
  function FirstPrefixTree(): (e: ArithPrinters.Exp)
    ensures NonNegative(e) && ArithPrinters.Eval(e) == Ok(11)
  {
    ArithPrinters.Bin(Arith.AddOp, ArithPrinters.Num(3), ArithPrinters.Bin(Arith.MulOp, ArithPrinters.Num(4), ArithPrinters.Num(2)))
  }

  lemma FirstPrefixTokens()
    ensures PrefixTokens(FirstPrefixTree()) ==
      [Token("+", ADD), Token("3", NUM), Token("*", MUL), Token("4", NUM), Token("2", NUM)]
  {
    DigitToken(2);
    DigitToken(3);
    DigitToken(4);
  }

  lemma FirstPrefixText()
    ensures Joined([Token("+", ADD), Token("3", NUM), Token("*", MUL), Token("4", NUM), Token("2", NUM)])
      == "+ 3 * 4 2"
  {
  }

  /** `compute_prefix(Lexer("+ 3 * 4 2"))` is 11. */
  lemma PrefixFirstExample()
    ensures PrefixFrom("+ 3 * 4 2", 0).0 == Ok(11)
  {
    FirstPrefixTokens();
    FirstPrefixText();
    PrefixReads(FirstPrefixTree(), "+ 3 * 4 2");
  }

  /** The tree that "+ * 3 4 2" writes in prefix: 3 * 4 + 2. */
  function SecondPrefixTree(): (e: ArithPrinters.Exp)
    ensures NonNegative(e) && ArithPrinters.Eval(e) == Ok(14)
  {
    ArithPrinters.Bin(Arith.AddOp, ArithPrinters.Bin(Arith.MulOp, ArithPrinters.Num(3), ArithPrinters.Num(4)), ArithPrinters.Num(2))
  }

  lemma SecondPrefixTokens()
    ensures PrefixTokens(SecondPrefixTree()) ==
      [Token("+", ADD), Token("*", MUL), Token("3", NUM), Token("4", NUM), Token("2", NUM)]
  {
    DigitToken(2);
    DigitToken(3);
    DigitToken(4);
  }

  lemma SecondPrefixText()
    ensures Joined([Token("+", ADD), Token("*", MUL), Token("3", NUM), Token("4", NUM), Token("2", NUM)])
      == "+ * 3 4 2"
  {
  }

  /** `compute_prefix(Lexer("+ * 3 4 2"))` is 14. */
  lemma PrefixSecondExample()
    ensures PrefixFrom("+ * 3 4 2", 0).0 == Ok(14)
  {
    SecondPrefixTokens();
    SecondPrefixText();
    PrefixReads(SecondPrefixTree(), "+ * 3 4 2");
  }

  lemma KeyWordExamples()
    ensures KeyWordToken("add").text == "+"
    ensures KeyWordToken("sub").text == "-"
    ensures KeyWordToken("x") == Token("x", VAR)
  {
  }
}
