/**
 * The lexer the parsers read from: numbers, `+ - * /`, parentheses, spaces
 * and newlines, with any other character an error. Besides the object with
 * its advancing position, this module describes what the lexer hands out
 * from a position on as a `Stream`: the valid tokens up to the end of the
 * input, or up to the first bad character together with its error. The
 * parsers are specified over such streams.
 */
module ParenLexer {
  import opened Wrappers
  import opened Tokens
  import Decimal
  import Arith
  import ArithPrinters
  import ArithLexer1

  /** The single characters `getToken` accepts, and the error for any other. */
  function OneChar(c: char): (r: Result<Token>)
    ensures r.Ok? ==> r.value.text == [c] && r.value.kind in {ADD, SUB, MUL, DIV, LPR, RPR, WSP, NLN}
    ensures r.Ok? <==> c in "+-*/() \n"
    ensures r.Err? ==> r.error == ValueError("Unexpected character: " + [c])
  {
    if c == '(' then Ok(Token([c], LPR))
    else if c == ')' then Ok(Token([c], RPR))
    else ArithLexer1.OneChar(c)
  }

  /**
   * `getToken()`: the token at `pos` and the position after it. At the end
   * of the input it is EOF and the position stays; otherwise at least one
   * character is read, even when an error is raised.
   */
  function Scan(s: string, pos: nat): (r: (Result<Token>, nat))
    requires pos <= |s|
    ensures pos <= r.1 <= |s|
    ensures r.0.Ok? && r.0.value.kind == EOF <==> pos == |s|
    ensures pos == |s| ==> r == (Ok(Token("", EOF)), pos)
    ensures pos < |s| ==> r.1 > pos
    ensures r.0.Ok? && r.0.value.kind == NUM ==>
      r.0.value.text == s[pos..r.1] && |r.0.value.text| > 0 && Decimal.AllDigits(r.0.value.text) &&
      (r.1 == |s| || !Decimal.IsDigit(s[r.1]))
    ensures r.0.Ok? && r.0.value.kind != NUM && r.0.value.kind != EOF ==> r.0.value.text == [s[pos]] && r.1 == pos + 1
  {
    if pos == |s| then (Ok(Token("", EOF)), pos)
    else if Decimal.IsDigit(s[pos]) then
      var e := DigitRunEnd(s, pos + 1);
      (Ok(Token(s[pos..e], NUM)), e)
    else (OneChar(s[pos]), pos + 1)
  }

  /**
   * Away from letters and parentheses this lexer reads exactly as the
   * arithmetic lexer with key words does; a letter, which that lexer reads
   * as a word, is an error here.
   */
  lemma ScanAgrees(s: string, pos: nat)
    requires pos <= |s|
    ensures pos < |s| && IsAlpha(s[pos]) ==>
      Scan(s, pos).0 == Err(ValueError("Unexpected character: " + [s[pos]])) && ArithLexer1.Scan(s, pos).0.Ok?
    ensures pos == |s| || (!IsAlpha(s[pos]) && s[pos] != '(' && s[pos] != ')') ==>
      Scan(s, pos) == ArithLexer1.Scan(s, pos)
  {
  }

  /** `next_valid_token()`: tokens up to the first that is neither a space nor a newline. */
  function NextValid(s: string, pos: nat): (r: (Result<Token>, nat))
    requires pos <= |s|
    ensures pos <= r.1 <= |s|
    ensures r.0.Ok? ==> r.0.value.kind != WSP && r.0.value.kind != NLN
    ensures r.0.Ok? && r.0.value.kind == EOF ==> r.1 == |s| && r.0.value == Token("", EOF)
    ensures r.0.Ok? && r.0.value.kind != EOF ==> r.1 > pos
    ensures r.0.Ok? && r.0.value.kind == NUM ==> Decimal.AllDigits(r.0.value.text)
    decreases |s| - pos
  {
    var (t, p) := Scan(s, pos);
    if t.Ok? && (t.value.kind == WSP || t.value.kind == NLN) then NextValid(s, p) else (t, p)
  }

  // The tokens from a position on.

  /** The valid tokens in order, and the error that cut them short, if any. */
  datatype Stream = Stream(tokens: seq<Token>, failure: Option<Exc>)

  /** `acc` placed before the tokens of `st`. */
  function Prepend(acc: seq<Token>, st: Stream): Stream {
    Stream(acc + st.tokens, st.failure)
  }

  lemma PrependNothing(st: Stream)
    ensures Prepend([], st) == st
  {
    assert [] + st.tokens == st.tokens;
  }

  lemma PrependTwice(acc: seq<Token>, t: Token, st: Stream)
    ensures Prepend(acc, Prepend([t], st)) == Prepend(acc + [t], st)
  {
    assert acc + ([t] + st.tokens) == acc + [t] + st.tokens;
  }

  /**
   * Everything `next_valid_token` hands out from `pos`: the tokens before
   * EOF, or the tokens before the first bad character and its error.
   */
  function LexAll(s: string, pos: nat): Stream
    requires pos <= |s|
    decreases |s| - pos
  {
    var (t, p) := NextValid(s, pos);
    if t.Err? then Stream([], Some(t.error))
    else if t.value.kind == EOF then Stream([], None)
    else Prepend([t.value], LexAll(s, p))
  }

  /** One read from a stream: its next token, EOF once it is used up, or its error. */
  function Read(st: Stream): (r: (Result<Token>, Stream))
    ensures r.0.Ok? && |st.tokens| > 0 ==> r.0.value == st.tokens[0] && r.1.tokens == st.tokens[1..]
    ensures |st.tokens| == 0 ==> r.1 == st && (r.0.Ok? <==> st.failure.None?)
    ensures r.0.Ok? && r.0.value.kind == EOF ==> r.1.tokens == [] || st.tokens[0].kind == EOF
    ensures r.1.failure == st.failure
  {
    if |st.tokens| > 0 then (Ok(st.tokens[0]), Stream(st.tokens[1..], st.failure))
    else if st.failure.Some? then (Err(st.failure.value), st)
    else (Ok(Token("", EOF)), st)
  }

  /** `next_valid_token` is one read from the stream of the remaining input. */
  lemma NextValidReadsStream(s: string, pos: nat)
    requires pos <= |s|
    ensures NextValid(s, pos).0 == Read(LexAll(s, pos)).0
    ensures NextValid(s, pos).0.Ok? ==> LexAll(s, NextValid(s, pos).1) == Read(LexAll(s, pos)).1
  {
    var (t, p) := NextValid(s, pos);
    if t.Err? {
      assert LexAll(s, pos) == Stream([], Some(t.error));
    } else if t.value.kind == EOF {
      assert LexAll(s, pos) == Stream([], None);
      assert LexAll(s, p) == Stream([], None);
    } else {
      assert LexAll(s, pos) == Prepend([t.value], LexAll(s, p));
      assert ([t.value] + LexAll(s, p).tokens)[1..] == LexAll(s, p).tokens;
    }
  }

  /** How one `getToken` call moves the stream of the remaining input along. */
  lemma ScanStep(s: string, pos: nat)
    requires pos <= |s|
    ensures var (t, p) := Scan(s, pos);
      if t.Err? then LexAll(s, pos) == Stream([], Some(t.error))
      else if t.value.kind == EOF then LexAll(s, pos) == Stream([], None)
      else if t.value.kind == WSP || t.value.kind == NLN then LexAll(s, pos) == LexAll(s, p)
      else LexAll(s, pos) == Prepend([t.value], LexAll(s, p))
  {
  }

  /** `list(tokens())`: every token up to EOF, or the error that stops the generator. */
  function Listed(st: Stream): (r: Result<seq<Token>>)
    ensures r.Ok? <==> st.failure.None?
  {
    if st.failure.Some? then Err(st.failure.value) else Ok(st.tokens)
  }

  /**
   * On text without letters and parentheses the list of tokens is the one
   * the arithmetic lexer with key words produces.
   */
  lemma {:induction false} TokensAgree(s: string, pos: nat)
    requires pos <= |s|
    requires forall i :: pos <= i < |s| ==> !IsAlpha(s[i]) && s[i] != '(' && s[i] != ')'
    ensures Listed(LexAll(s, pos)) == ArithLexer1.TokensFrom(s, pos)
    decreases |s| - pos
  {
    ScanAgrees(s, pos);
    ScanStep(s, pos);
    var (t, p) := Scan(s, pos);
    if t.Ok? && t.value.kind != EOF {
      TokensAgree(s, p);
    }
  }

  /**
   * `compute_prefix(lexer)`: the expression tree of a Polish-notation
   * expression, read lazily. `parse_infix` in 3_ParsingArithExp/Parser0.py
   * has the same body, so this is its model too.
   */
  function PrefixTree(s: string, pos: nat): (r: (Result<ArithPrinters.Exp>, nat))
    requires pos <= |s|
    ensures pos <= r.1 <= |s|
    ensures r.0.Ok? ==> ArithLexer1.NonNegative(r.0.value)
    decreases |s| - pos
  {
    var (t, p) := NextValid(s, pos);
    if t.Err? then (Err(t.error), p)
    else if t.value.kind == NUM then (Ok(ArithPrinters.Num(NumValue(t.value.text) as int)), p)
    else if IsOperator(t.value.kind) then
      var (a, p1) := PrefixTree(s, p);
      if a.Err? then (a, p1)
      else
        var (b, p2) := PrefixTree(s, p1);
        if b.Err? then (b, p2) else (Ok(ArithPrinters.Bin(OpOf(t.value.kind), a.value, b.value)), p2)
    else (Err(ValueError("Unexpected token type: " + KindName(t.value.kind))), p)
  }

  class Lexer {
    /** The text being scanned. */
    const input: string
    /** The index of the next character to read. */
    var position: nat

    constructor(s: string)
      ensures input == s && position == 0 && Valid()
    {
      input := s;
      position := 0;
    }

    predicate Valid()
      reads this
    {
      position <= |input|
    }

    /** What the lexer has yet to hand out. */
    function Remaining(): Stream
      reads this
      requires Valid()
    {
      LexAll(input, position)
    }

    /** `getToken()`: the next token, advancing past it. */
    method GetToken() returns (r: Result<Token>)
      requires Valid()
      modifies this
      ensures Valid()
      ensures (r, position) == Scan(input, old(position))
    {
      if position >= |input| {
        return Ok(Token("", EOF));
      }
      var start := position;
      var c := input[position];
      position := position + 1;
      if Decimal.IsDigit(c) {
        var text := [c];
        while position < |input| && Decimal.IsDigit(input[position])
          invariant start < position <= |input|
          invariant text == input[start..position]
          invariant DigitRunEnd(input, position) == DigitRunEnd(input, start + 1)
          decreases |input| - position
        {
          assert input[start..position + 1] == input[start..position] + [input[position]];
          text := text + [input[position]];
          position := position + 1;
        }
        return Ok(Token(text, NUM));
      }
      r := OneChar(c);
    }

    /** `next_valid_token()`: skips spaces and newlines by recursion. */
    method NextValidToken() returns (r: Result<Token>)
      requires Valid()
      modifies this
      ensures Valid()
      ensures (r, position) == NextValid(input, old(position))
      decreases |input| - position
    {
      r := GetToken();
      if r.Ok? && (r.value.kind == WSP || r.value.kind == NLN) {
        r := NextValidToken();
      }
    }

    /** `list(tokens())`: every token up to EOF, spaces and newlines left out. */
    method AllTokens() returns (r: Result<seq<Token>>)
      requires Valid()
      modifies this
      ensures Valid()
      ensures r == Listed(LexAll(input, old(position)))
    {
      var acc: seq<Token> := [];
      PrependNothing(LexAll(input, position));
      while true
        invariant Valid()
        invariant LexAll(input, old(position)) == Prepend(acc, LexAll(input, position))
        decreases |input| - position
      {
        ScanStep(input, position);
        var t := GetToken();
        if t.Err? {
          return Err(t.error);
        }
        if t.value.kind == EOF {
          assert acc + [] == acc;
          return Ok(acc);
        }
        if t.value.kind != WSP && t.value.kind != NLN {
          PrependTwice(acc, t.value, LexAll(input, position));
          acc := acc + [t.value];
        }
      }
    }
  }

  /** `compute_prefix(lexer)`: reads one Polish-notation expression from the lexer. */
  method ComputePrefix(lexer: Lexer) returns (r: Result<ArithPrinters.Exp>)
    requires lexer.Valid()
    modifies lexer
    ensures lexer.Valid()
    ensures (r, lexer.position) == PrefixTree(lexer.input, old(lexer.position))
    decreases |lexer.input| - lexer.position
  {
    var t := lexer.NextValidToken();
    if t.Err? {
      return Err(t.error);
    }
    if t.value.kind == NUM {
      return Ok(ArithPrinters.Num(NumValue(t.value.text) as int));
    } else if IsOperator(t.value.kind) {
      var a := ComputePrefix(lexer);
      if a.Err? {
        return a;
      }
      var b := ComputePrefix(lexer);
      if b.Err? {
        return b;
      }
      return Ok(ArithPrinters.Bin(OpOf(t.value.kind), a.value, b.value));
    }
    return Err(ValueError("Unexpected token type: " + KindName(t.value.kind)));
  }

  // Printed token lists read back.

  /** `getToken` reads a text the same whether or not text comes before it. */
  lemma ScanShift(x: string, y: string, k: nat)
    requires k <= |y|
    ensures Scan(x + y, |x| + k) == (Scan(y, k).0, |x| + Scan(y, k).1)
  {
    ShiftedSame(x, y, k);
    ScanSame(x + y, |x| + k, y, k);
  }

  /** `next_valid_token` reads a text the same whether or not text comes before it. */
  lemma NextValidShift(x: string, y: string, k: nat)
    requires k <= |y|
    ensures NextValid(x + y, |x| + k) == (NextValid(y, k).0, |x| + NextValid(y, k).1)
  {
    ShiftedSame(x, y, k);
    NextValidSame(x + y, |x| + k, y, k);
  }

  /** `next_valid_token` reads the same token, as far on, from the same text. */
  lemma {:induction false} NextValidSame(s: string, i: nat, u: string, j: nat)
    requires SameFrom(s, i, u, j)
    ensures NextValid(s, i).0 == NextValid(u, j).0 && NextValid(s, i).1 - i == NextValid(u, j).1 - j
    decreases |s| - i
  {
    var r := Scan(s, i);
    var q := Scan(u, j);
    ScanSame(s, i, u, j);
    NextValidUnfold(s, i);
    NextValidUnfold(u, j);
    if r.0.Ok? && (r.0.value.kind == WSP || r.0.value.kind == NLN) {
      SameFromLater(s, i, u, j, r.1 - i);
      NextValidSame(s, r.1, u, q.1);
    }
  }

  /** One step of `next_valid_token`, stated once so that proofs need not unfold `getToken`. */
  lemma NextValidUnfold(s: string, pos: nat)
    requires pos <= |s|
    ensures var r := Scan(s, pos);
      NextValid(s, pos) == if r.0.Ok? && (r.0.value.kind == WSP || r.0.value.kind == NLN) then NextValid(s, r.1) else r
  {
  }

  /** `getToken` reads the same token, of the same length, from the same text. */
  lemma ScanSame(s: string, i: nat, u: string, j: nat)
    requires SameFrom(s, i, u, j)
    ensures Scan(s, i).0 == Scan(u, j).0 && Scan(s, i).1 - i == Scan(u, j).1 - j
  {
    if i < |s| {
      SameFromLater(s, i, u, j, 0);
      if Decimal.IsDigit(s[i]) {
        SameFromLater(s, i, u, j, 1);
        DigitRunSame(s, i + 1, u, j + 1);
        var d := DigitRunEnd(s, i + 1) - i;
        assert s[i..i + d] == s[i..][..d];
        assert u[j..j + d] == u[j..][..d];
      }
    }
  }

  /** The lexer hands out the same stream from the same text. */
  lemma {:induction false} LexAllSame(s: string, i: nat, u: string, j: nat)
    requires SameFrom(s, i, u, j)
    ensures LexAll(s, i) == LexAll(u, j)
    decreases |s| - i
  {
    var r := Scan(s, i);
    var q := Scan(u, j);
    ScanSame(s, i, u, j);
    if r.0.Ok? && r.0.value.kind != EOF {
      SameFromLater(s, i, u, j, r.1 - i);
      LexAllSame(s, r.1, u, q.1);
    }
    LexAllAfterScan(s, i, u, j, r.0, r.1, q.1);
  }

  /** Two positions where `getToken` reads the same token, and after which the rest lexes the same, lex the same. */
  lemma LexAllAfterScan(s: string, i: nat, u: string, j: nat, t: Result<Token>, p: nat, q: nat)
    requires i <= |s| && j <= |u|
    requires Scan(s, i) == (t, p) && Scan(u, j) == (t, q)
    requires t.Ok? && t.value.kind != EOF ==> LexAll(s, p) == LexAll(u, q)
    ensures LexAll(s, i) == LexAll(u, j)
  {
    ScanStep(s, i);
    ScanStep(u, j);
  }

  /** The lexer reads `y` the same whether or not text comes before it. */
  lemma LexAllShift(x: string, y: string, k: nat)
    requires k <= |y|
    ensures LexAll(x + y, |x| + k) == LexAll(y, k)
  {
    var s, i := x + y, |x| + k;
    ShiftedSame(x, y, k);
    LexAllSame(s, i, y, k);
    assert LexAll(s, i) == LexAll(y, k);
  }

  /** Two positions from which the next valid token is the same, and the rest lexes the same, lex the same. */
  lemma LexAllAlike(s: string, i: nat, u: string, j: nat)
    requires i <= |s| && j <= |u|
    requires NextValid(s, i).0 == NextValid(u, j).0
    requires NextValid(u, j).0.Ok? && NextValid(u, j).0.value.kind != EOF ==>
      LexAll(s, NextValid(s, i).1) == LexAll(u, NextValid(u, j).1)
    ensures LexAll(s, i) == LexAll(u, j)
  {
    LexAllUnfold(s, i);
    LexAllUnfold(u, j);
  }

  /** One step of `LexAll`, stated once. */
  lemma LexAllUnfold(s: string, pos: nat)
    requires pos <= |s|
    ensures NextValid(s, pos).0.Err? ==> LexAll(s, pos) == Stream([], Some(NextValid(s, pos).0.error))
    ensures NextValid(s, pos).0.Ok? && NextValid(s, pos).0.value.kind == EOF ==> LexAll(s, pos) == Stream([], None)
    ensures NextValid(s, pos).0.Ok? && NextValid(s, pos).0.value.kind != EOF ==>
      LexAll(s, pos) == Prepend([NextValid(s, pos).0.value], LexAll(s, NextValid(s, pos).1))
  {
  }

  /** A token these parsers print: a lexeme of the arithmetic lexer, or a parenthesis. */
  predicate PLexeme(t: Token) {
    ArithLexer1.Lexeme(t) || t == Token("(", LPR) || t == Token(")", RPR)
  }

  /** A printed token followed by nothing or by a space is read back as itself. */
  lemma ScanPLexeme(t: Token, rest: string)
    requires PLexeme(t)
    requires rest == [] || rest[0] == ' '
    ensures Scan(t.text + rest, 0) == (Ok(t), |t.text|)
  {
    var s := t.text + rest;
    if ArithLexer1.Lexeme(t) {
      ArithLexer1.ScanLexeme(t, rest);
      assert s[0] == t.text[0];
      if t.kind != NUM {
        Tokens.SymbolLexes(OpOf(t.kind));
      }
      ScanAgrees(s, 0);
    } else {
      assert s[0] == t.text[0];
    }
  }

  /** A printed token, a space, and more text: the token is the first in the stream. */
  lemma PLexemeThenSpace(t: Token, rest: string)
    requires PLexeme(t)
    ensures LexAll(t.text + " " + rest, 0) == Prepend([t], LexAll(rest, 0))
  {
    var y := t.text + " ";
    var s := y + rest;
    assert s == t.text + (" " + rest);
    var n := |t.text| + 1;
    assert |y| + 0 == n;
    LexAllShift(y, rest, 0);
    assert LexAll(s, n) == LexAll(rest, 0);
    ScanPLexeme(t, " " + rest);
    ArithLexer1.CharShift(t.text, " " + rest, 0);
    TokenThenSpace(s, t, |t.text|);
  }

  /** A space is read as a WSP token of its own. */
  lemma SpaceScan(s: string, n: nat)
    requires n < |s| && s[n] == ' '
    ensures Scan(s, n) == (Ok(Token(" ", WSP)), n + 1)
  {
    assert !Decimal.IsDigit(s[n]);
    assert OneChar(s[n]) == ArithLexer1.OneChar(' ');
  }

  /** A token read at the start, then a space: the token heads the stream of what follows the space. */
  lemma TokenThenSpace(s: string, t: Token, n: nat)
    requires n < |s| && s[n] == ' '
    requires Scan(s, 0) == (Ok(t), n) && t.kind != WSP && t.kind != NLN && t.kind != EOF
    ensures LexAll(s, 0) == Prepend([t], LexAll(s, n + 1))
  {
    assert NextValid(s, 0) == (Ok(t), n) by {
      NextValidUnfold(s, 0);
    }
    assert NextValid(s, n) == NextValid(s, n + 1) by {
      SpaceScan(s, n);
      NextValidUnfold(s, n);
    }
    LexAllAlike(s, n, s, n + 1);
    LexAllUnfold(s, 0);
  }

  /** Lexing a space-separated list of printed tokens gives the list back, with no error. */
  lemma {:induction false} LexJoined(ts: seq<Token>)
    requires forall i :: 0 <= i < |ts| ==> PLexeme(ts[i])
    ensures LexAll(ArithLexer1.Joined(ts), 0) == Stream(ts, None)
    decreases |ts|
  {
    if |ts| == 0 {
      LexEmpty();
    } else if |ts| == 1 {
      LexLone(ts[0]);
      assert [ts[0]] == ts;
    } else {
      PLexemeThenSpace(ts[0], ArithLexer1.Joined(ts[1..]));
      LexJoined(ts[1..]);
      assert [ts[0]] + ts[1..] == ts;
    }
  }

  /**
   * Texts of tokens as the infix parsers' examples write them: one space
   * between two tokens, none after '(' and none before ')'.
   */
  function Spaced(ts: seq<Token>): (s: string)
    ensures |ts| > 0 && |ts[0].text| > 0 ==> |s| > 0 && s[0] == ts[0].text[0]
    decreases |ts|
  {
    if |ts| == 0 then ""
    else if |ts| == 1 then ts[0].text
    else ts[0].text + (if ts[0].kind == LPR || ts[1].kind == RPR then "" else " ") + Spaced(ts[1..])
  }

  /** Spacing a token in front of others. */
  lemma SpacedCons(t: Token, ts: seq<Token>)
    requires |ts| > 0
    ensures Spaced([t] + ts) == t.text + (if t.kind == LPR || ts[0].kind == RPR then "" else " ") + Spaced(ts)
  {
    assert ([t] + ts)[1..] == ts;
  }

  /** A printed token is one character, or a run of digits. */
  lemma PLexemeText(t: Token)
    requires PLexeme(t)
    ensures |t.text| > 0
    ensures t.kind != NUM ==> |t.text| == 1
  {
    if ArithLexer1.Lexeme(t) && t.kind != NUM {
      assert |Arith.Symbol(OpOf(t.kind))| == 1;
    }
  }

  /** A printed token followed by a character that cannot continue it is read back as itself. */
  lemma ScanPLexemeBefore(t: Token, rest: string)
    requires PLexeme(t)
    requires rest == [] || t.kind != NUM || !Decimal.IsDigit(rest[0])
    ensures Scan(t.text + rest, 0) == (Ok(t), |t.text|)
  {
    var s := t.text + rest;
    ScanPLexeme(t, []);
    assert t.text + [] == t.text;
    assert s[0] == t.text[0];
    if t.kind == NUM {
      forall k | 0 <= k < |t.text|
        ensures Decimal.IsDigit(s[k])
      {
        assert s[k] == t.text[k];
      }
      if |rest| > 0 {
        ArithLexer1.CharShift(t.text, rest, 0);
      }
      DigitRunEndAt(s, 1, |t.text|);
      assert s[0..|t.text|] == t.text;
    }
  }

  /** A printed token directly followed by more text that cannot continue it: the token is the first in the stream. */
  lemma PLexemeThenText(t: Token, rest: string)
    requires PLexeme(t)
    requires rest == [] || t.kind != NUM || !Decimal.IsDigit(rest[0])
    ensures LexAll(t.text + rest, 0) == Prepend([t], LexAll(rest, 0))
  {
    var s := t.text + rest;
    ScanPLexemeBefore(t, rest);
    NextValidUnfold(s, 0);
    LexAllUnfold(s, 0);
    LexAllShift(t.text, rest, 0);
  }

  /** Lexing the examples' spacing of printed tokens gives the list back, with no error. */
  lemma {:induction false} LexSpaced(ts: seq<Token>)
    requires forall i :: 0 <= i < |ts| ==> PLexeme(ts[i])
    ensures LexAll(Spaced(ts), 0) == Stream(ts, None)
    decreases |ts|
  {
    if |ts| == 0 {
      LexEmpty();
    } else if |ts| == 1 {
      LexLone(ts[0]);
      assert [ts[0]] == ts;
    } else {
      LexSpaced(ts[1..]);
      SpacedFirst(ts);
    }
  }

  /** The empty text has no tokens and no error. */
  lemma LexEmpty()
    ensures LexAll("", 0) == Stream([], None)
  {
  }

  /** Spaced tokens read back from the second on are read back from the first. */
  lemma SpacedFirst(ts: seq<Token>)
    requires |ts| > 1 && forall i :: 0 <= i < |ts| ==> PLexeme(ts[i])
    requires LexAll(Spaced(ts[1..]), 0) == Stream(ts[1..], None)
    ensures LexAll(Spaced(ts), 0) == Stream(ts, None)
  {
    SpacedStep(ts);
    assert [ts[0]] + ts[1..] == ts;
  }

  /** A printed token alone is read back as itself. */
  lemma LexLone(t: Token)
    requires PLexeme(t)
    ensures LexAll(t.text, 0) == Stream([t], None)
  {
    PLexemeThenText(t, "");
    assert t.text + "" == t.text;
    assert LexAll("", 0) == Stream([], None);
    assert [t] + [] == [t];
  }

  /** The first of several spaced tokens heads the stream of the rest. */
  lemma SpacedStep(ts: seq<Token>)
    requires |ts| > 1 && forall i :: 0 <= i < |ts| ==> PLexeme(ts[i])
    ensures LexAll(Spaced(ts), 0) == Prepend([ts[0]], LexAll(Spaced(ts[1..]), 0))
  {
    var rest := Spaced(ts[1..]);
    PLexemeText(ts[1]);
    if ts[0].kind == LPR || ts[1].kind == RPR {
      assert Spaced(ts) == ts[0].text + "" + rest;
      assert ts[0].text + "" == ts[0].text;
      if ts[0].kind != LPR {
        assert PLexeme(ts[1]) && !IsOperator(RPR);
        assert ts[1] == Token(")", RPR);
        assert rest[0] == ')';
      }
      PLexemeThenText(ts[0], rest);
    } else {
      assert Spaced(ts) == ts[0].text + " " + rest;
      PLexemeThenSpace(ts[0], rest);
    }
  }

  /** A number token at the head of the stream is read as a leaf. */
  lemma PrefixTreeNumber(s: string, pos: nat, n: nat, more: seq<Token>, failure: Option<Exc>)
    requires pos <= |s|
    requires LexAll(s, pos) == Stream([ArithLexer1.NumToken(n)] + more, failure)
    ensures PrefixTree(s, pos) == (Ok(ArithPrinters.Num(n)), NextValid(s, pos).1)
    ensures LexAll(s, NextValid(s, pos).1) == Stream(more, failure)
  {
    NextValidReadsStream(s, pos);
    assert ([ArithLexer1.NumToken(n)] + more)[1..] == more;
    Decimal.ParsePrinted(n);
  }

  /** An operator token read first, then two operand trees: `compute_prefix` joins them under it. */
  lemma OperatorBuilds(s: string, pos: nat, op: Arith.Op, p: nat, a: ArithPrinters.Exp, p1: nat, b: ArithPrinters.Exp, p2: nat)
    requires pos <= |s| && NextValid(s, pos) == (Ok(ArithLexer1.OpToken(op)), p)
    requires PrefixTree(s, p) == (Ok(a), p1) && p1 <= |s| && PrefixTree(s, p1) == (Ok(b), p2)
    ensures PrefixTree(s, pos) == (Ok(ArithPrinters.Bin(op, a, b)), p2)
  {
    assert IsOperator(ArithLexer1.OpToken(op).kind) && OpOf(ArithLexer1.OpToken(op).kind) == op;
  }

  /** An operator token at the head of the stream is the next valid token. */
  lemma OperatorHead(s: string, pos: nat, op: Arith.Op, rest: seq<Token>, failure: Option<Exc>)
    requires pos <= |s|
    requires LexAll(s, pos) == Stream([ArithLexer1.OpToken(op)] + rest, failure)
    ensures NextValid(s, pos).0 == Ok(ArithLexer1.OpToken(op))
    ensures LexAll(s, NextValid(s, pos).1) == Stream(rest, failure)
  {
    NextValidReadsStream(s, pos);
    assert ([ArithLexer1.OpToken(op)] + rest)[1..] == rest;
  }

  lemma PrefixTokensSplit(op: Arith.Op, l: ArithPrinters.Exp, r: ArithPrinters.Exp, more: seq<Token>)
    requires ArithLexer1.NonNegative(l) && ArithLexer1.NonNegative(r)
    ensures ArithLexer1.PrefixTokens(ArithPrinters.Bin(op, l, r)) + more ==
      [ArithLexer1.OpToken(op)] + (ArithLexer1.PrefixTokens(l) + (ArithLexer1.PrefixTokens(r) + more))
  {
  }

  /**
   * `compute_prefix` on a stream that starts with the prefix tokens of `e`
   * builds `e` and leaves exactly the tokens after them.
   */
  lemma {:induction false} PrefixTreeReads(s: string, pos: nat, e: ArithPrinters.Exp, more: seq<Token>, failure: Option<Exc>)
    requires pos <= |s| && ArithLexer1.NonNegative(e)
    requires LexAll(s, pos) == Stream(ArithLexer1.PrefixTokens(e) + more, failure)
    ensures PrefixTree(s, pos).0 == Ok(e)
    ensures LexAll(s, PrefixTree(s, pos).1) == Stream(more, failure)
    decreases e
  {
    match e
    case Num(n) =>
      PrefixTreeNumber(s, pos, n, more, failure);
    case Bin(op, l, r) =>
      var tl, tr := ArithLexer1.PrefixTokens(l), ArithLexer1.PrefixTokens(r);
      PrefixTokensSplit(op, l, r, more);
      OperatorHead(s, pos, op, tl + (tr + more), failure);
      var p := NextValid(s, pos).1;
      PrefixTreeReads(s, p, l, tr + more, failure);
      var p1 := PrefixTree(s, p).1;
      PrefixTreeReads(s, p1, r, more, failure);
      OperatorBuilds(s, pos, op, p, l, p1, r, PrefixTree(s, p1).1);
  }

  /** `compute_prefix` reads the prefix printout of an expression back as the same tree. */
  lemma PrefixRoundTrip(e: ArithPrinters.Exp)
    requires ArithLexer1.NonNegative(e)
    ensures PrefixTree(ArithPrinters.Prefix(e), 0).0 == Ok(e)
  {
    ArithLexer1.PrefixIsJoined(e);
    LexJoined(ArithLexer1.PrefixTokens(e));
    assert ArithLexer1.PrefixTokens(e) + [] == ArithLexer1.PrefixTokens(e);
    PrefixTreeReads(ArithPrinters.Prefix(e), 0, e, [], None);
  }

  // The documented runs.

  /** The tree `compute_prefix` builds from `text` is `e`, when `text` spells out the prefix tokens of `e`. */
  lemma PrefixTreeOf(e: ArithPrinters.Exp, text: string)
    requires ArithLexer1.NonNegative(e) && ArithLexer1.Joined(ArithLexer1.PrefixTokens(e)) == text
    ensures PrefixTree(text, 0).0 == Ok(e)
  {
    ArithLexer1.PrefixIsJoined(e);
    PrefixRoundTrip(e);
  }

  /** `compute_prefix(Lexer("+ 3 * 4 2")).eval()` is 11. */
  lemma PrefixFirstExample()
    ensures PrefixTree("+ 3 * 4 2", 0).0.Ok?
    ensures ArithPrinters.Eval(PrefixTree("+ 3 * 4 2", 0).0.value) == Ok(11)
  {
    ArithLexer1.FirstPrefixTokens();
    ArithLexer1.FirstPrefixText();
    PrefixTreeOf(ArithLexer1.FirstPrefixTree(), "+ 3 * 4 2");
  }

  /** `compute_prefix(Lexer("+ * 3 4 2")).eval()` is 14. */
  lemma PrefixSecondExample()
    ensures PrefixTree("+ * 3 4 2", 0).0.Ok?
    ensures ArithPrinters.Eval(PrefixTree("+ * 3 4 2", 0).0.value) == Ok(14)
  {
    ArithLexer1.SecondPrefixTokens();
    ArithLexer1.SecondPrefixText();
    PrefixTreeOf(ArithLexer1.SecondPrefixTree(), "+ * 3 4 2");
  }

  // Reading a given text position by position, from its end back to its start.

  /** A token read at `p`, then the valid tokens `w` up to the end with no error. */
  lemma LexTokenAt(s: string, p: nat, t: Token, q: nat, w: seq<Token>)
    requires p < |s| && Scan(s, p) == (Ok(t), q) && t.kind != WSP && t.kind != NLN
    requires LexAll(s, q) == Stream(w, None)
    ensures LexAll(s, p) == Stream([t] + w, None)
  {
    NextValidUnfold(s, p);
    LexAllUnfold(s, p);
  }

  /** A space is skipped. */
  lemma LexSpaceAt(s: string, p: nat, w: seq<Token>)
    requires p < |s| && s[p] == ' '
    requires LexAll(s, p + 1) == Stream(w, None)
    ensures LexAll(s, p) == Stream(w, None)
  {
    SpaceScan(s, p);
    NextValidUnfold(s, p);
    LexAllAlike(s, p, s, p + 1);
  }

  lemma LexOpenAt(s: string, p: nat, w: seq<Token>)
    requires p < |s| && s[p] == '('
    requires LexAll(s, p + 1) == Stream(w, None)
    ensures LexAll(s, p) == Stream([Token("(", LPR)] + w, None)
  {
    LexTokenAt(s, p, Token("(", LPR), p + 1, w);
  }

  lemma LexCloseAt(s: string, p: nat, w: seq<Token>)
    requires p < |s| && s[p] == ')'
    requires LexAll(s, p + 1) == Stream(w, None)
    ensures LexAll(s, p) == Stream([Token(")", RPR)] + w, None)
  {
    LexTokenAt(s, p, Token(")", RPR), p + 1, w);
  }

  lemma LexOpAt(s: string, p: nat, op: Arith.Op, w: seq<Token>)
    requires p < |s| && s[p] == Arith.Symbol(op)[0]
    requires LexAll(s, p + 1) == Stream(w, None)
    ensures LexAll(s, p) == Stream([ArithLexer1.OpToken(op)] + w, None)
  {
    assert Scan(s, p) == (Ok(ArithLexer1.OpToken(op)), p + 1) by {
      Tokens.SymbolLexes(op);
      assert [s[p]] == Arith.Symbol(op);
    }
    LexTokenAt(s, p, ArithLexer1.OpToken(op), p + 1, w);
  }

  /** The numeral of `n` between `p` and `q`, with no digit after it. */
  lemma LexNumAt(s: string, p: nat, n: nat, q: nat, w: seq<Token>)
    requires p < q <= |s| && s[p..q] == Decimal.NatToString(n)
    requires q == |s| || !Decimal.IsDigit(s[q])
    requires LexAll(s, q) == Stream(w, None)
    ensures LexAll(s, p) == Stream([ArithLexer1.NumToken(n)] + w, None)
  {
    assert forall k :: p <= k < q ==> Decimal.IsDigit(s[k]) by {
      forall k | p <= k < q
        ensures Decimal.IsDigit(s[k])
      {
        assert s[k] == s[p..q][k - p];
      }
    }
    var e := DigitRunEnd(s, p + 1);
    assert e == q;
    LexTokenAt(s, p, ArithLexer1.NumToken(n), q, w);
  }

  /** Texts spelled `(3 + 2)`. */
  predicate SpellsThreePlusTwo(s: string) {
    |s| == 7 && s[0] == '(' && s[1] == '3' && s[2] == ' ' && s[3] == '+' && s[4] == ' ' && s[5] == '2' && s[6] == ')'
  }

  /** The end of any text spelled `(3 + 2)`, from the '2' on. */
  lemma LexTwoClose(s: string)
    requires SpellsThreePlusTwo(s)
    ensures LexAll(s, 5) == Stream([ArithLexer1.NumToken(2), Token(")", RPR)], None)
  {
    LexCloseAt(s, 6, []);
    assert s[5..6] == Decimal.NatToString(2);
    LexNumAt(s, 5, 2, 6, [Token(")", RPR)] + []);
    assert [ArithLexer1.NumToken(2)] + ([Token(")", RPR)] + []) == [ArithLexer1.NumToken(2), Token(")", RPR)];
  }

  /** The end of any text spelled `(3 + 2)`, from the '+' on. */
  lemma LexPlusTwo(s: string)
    requires SpellsThreePlusTwo(s)
    ensures LexAll(s, 3) == Stream([ArithLexer1.OpToken(Arith.AddOp), ArithLexer1.NumToken(2), Token(")", RPR)], None)
  {
    var w := [ArithLexer1.NumToken(2), Token(")", RPR)];
    LexTwoClose(s);
    LexSpaceAt(s, 4, w);
    LexOpAt(s, 3, Arith.AddOp, w);
    assert [ArithLexer1.OpToken(Arith.AddOp)] + w == [ArithLexer1.OpToken(Arith.AddOp), ArithLexer1.NumToken(2), Token(")", RPR)];
  }

  /** The end of any text spelled `(3 + 2)`, from the '3' on. */
  lemma LexThreeOn(s: string)
    requires SpellsThreePlusTwo(s)
    ensures LexAll(s, 1) == Stream([ArithLexer1.NumToken(3), ArithLexer1.OpToken(Arith.AddOp), ArithLexer1.NumToken(2), Token(")", RPR)], None)
  {
    var w3 := [ArithLexer1.OpToken(Arith.AddOp), ArithLexer1.NumToken(2), Token(")", RPR)];
    LexPlusTwo(s);
    LexSpaceAt(s, 2, w3);
    assert s[1..2] == Decimal.NatToString(3);
    LexNumAt(s, 1, 3, 2, w3);
    assert [ArithLexer1.NumToken(3)] + w3 == [ArithLexer1.NumToken(3), ArithLexer1.OpToken(Arith.AddOp), ArithLexer1.NumToken(2), Token(")", RPR)];
  }

  /** The tokens of any text spelled `(3 + 2)`. */
  lemma LexThreePlusTwo(s: string)
    requires SpellsThreePlusTwo(s)
    ensures LexAll(s, 0) == Stream([Token("(", LPR), ArithLexer1.NumToken(3), ArithLexer1.OpToken(Arith.AddOp),
      ArithLexer1.NumToken(2), Token(")", RPR)], None)
  {
    var w1 := [ArithLexer1.NumToken(3), ArithLexer1.OpToken(Arith.AddOp), ArithLexer1.NumToken(2), Token(")", RPR)];
    LexThreeOn(s);
    LexOpenAt(s, 0, w1);
    assert [Token("(", LPR)] + w1 == [Token("(", LPR), ArithLexer1.NumToken(3), ArithLexer1.OpToken(Arith.AddOp), ArithLexer1.NumToken(2), Token(")", RPR)];
  }

  /** The tokens of the numbers and the operator of `(3 + 2)`, spelled out. */
  lemma LiteralTokens()
    ensures ArithLexer1.NumToken(2) == Token("2", NUM) && ArithLexer1.NumToken(3) == Token("3", NUM)
    ensures ArithLexer1.OpToken(Arith.AddOp) == Token("+", ADD)
  {
  }

  /** The first documented run of `tokens()`. */
  lemma TokensExample()
    ensures Listed(LexAll("(3 + 2)", 0)) == Ok([Token("(", LPR), Token("3", NUM), Token("+", ADD), Token("2", NUM), Token(")", RPR)])
  {
    LexThreePlusTwo("(3 + 2)");
    LiteralTokens();
  }

}
