/**
 * A lexer written as a deterministic automaton: each state is a method that
 * looks at the current character, advances, and moves to the next state.
 * It reads decimal, octal (`017`), binary (`0b101`) and hexadecimal
 * (`0x1F`) numbers and the four operators, and skips white space.
 * White space is exactly what `str.isspace()` accepts; digits are the ASCII
 * digits '0'..'9' only (`Decimal.IsDigit`).
 */
module ArithDfaLexer {
  import opened Wrappers
  import Decimal

  datatype TokenType = INT | OCT | HEX | BIN | ADD | SUB | MUL | DIV

  datatype Token = Token(text: string, tokenType: TokenType)

  /**
   * `c.isspace()`: a character of Unicode category Zs or of bidirectional class
   * WS, B or S. These are tab to carriage return, the four information
   * separators, space, U+0085, U+00A0, U+1680, U+2000 to U+200A, U+2028,
   * U+2029, U+202F, U+205F and U+3000.
   */
  predicate IsSpace(c: char) {
    var n := c as int;
    n == 32 || 9 <= n <= 13 || 28 <= n <= 31 || n == 0x85 || n == 0xA0 || n == 0x1680 ||
    0x2000 <= n <= 0x200A || n == 0x2028 || n == 0x2029 || n == 0x202F || n == 0x205F || n == 0x3000
  }

  /** The one-character operators and their token types. */
  function OperatorType(c: char): Option<TokenType> {
    if c == '+' then Some(ADD)
    else if c == '-' then Some(SUB)
    else if c == '*' then Some(MUL)
    else if c == '/' then Some(DIV)
    else None
  }

  /** The digits of each base the automaton reads. */
  datatype Base = Dec | Oct | Bin | Hex

  predicate InBase(c: char, b: Base) {
    match b
    case Dec => Decimal.IsDigit(c)
    case Oct => '0' <= c <= '7'
    case Bin => c == '0' || c == '1'
    case Hex => Decimal.IsDigit(c) || 'a' <= c <= 'f' || 'A' <= c <= 'F'
  }

  /** Where the run of digits of base `b` starting at `i` ends. */
  function RunEnd(s: string, i: nat, b: Base): (e: nat)
    requires i <= |s|
    ensures i <= e <= |s|
    ensures forall k :: i <= k < e ==> InBase(s[k], b)
    ensures e == |s| || !InBase(s[e], b)
    decreases |s| - i
  {
    if i < |s| && InBase(s[i], b) then RunEnd(s, i + 1, b) else i
  }

  /** What Python says when `q1` tests `None in "01234567"`. */
  const NoneInString := "'in <string>' requires string as left operand, not NoneType"

  /**
   * The state `q1`, reached after a '0' at `pos - 1`: the token from
   * `start` and the position after it. Past the end of the input it raises
   * TypeError, having advanced past the '0'.
   */
  function AfterZero(s: string, start: nat, pos: nat): (r: (Result<Token>, nat))
    requires start < pos <= |s|
    ensures pos <= r.1 <= |s|
    ensures r.0.Ok? ==> r.0.value.text == s[start..r.1]
  {
    if pos == |s| then (Err(TypeError(NoneInString)), pos)
    else
      var d := s[pos];
      if '0' <= d <= '7' then
        var e := RunEnd(s, pos + 1, Oct);
        (Ok(Token(s[start..e], OCT)), e)
      else if d == 'b' || d == 'B' then
        var e := RunEnd(s, pos + 1, Bin);
        (Ok(Token(s[start..e], BIN)), e)
      else if d == 'x' || d == 'X' then
        var e := RunEnd(s, pos + 1, Hex);
        (Ok(Token(s[start..e], HEX)), e)
      else (Ok(Token(s[start..pos], INT)), pos)
  }

  /**
   * The state `q0` at `pos`: no token at the end of input or on white
   * space, a token otherwise, or the error for a character no state
   * accepts. Also the position after it.
   */
  function ReadToken(s: string, pos: nat): (r: (Result<Option<Token>>, nat))
    requires pos <= |s|
    ensures pos <= r.1 <= |s|
    ensures r.0.Ok? && pos < |s| ==> r.1 > pos
    ensures r.0.Ok? && r.0.value.Some? ==> r.0.value.value.text == s[pos..r.1]
  {
    if pos == |s| then (Ok(None), pos)
    else
      var c := s[pos];
      if IsSpace(c) then (Ok(None), pos + 1)
      else if OperatorType(c).Some? then (Ok(Some(Token(s[pos..pos + 1], OperatorType(c).value))), pos + 1)
      else if Decimal.IsDigit(c) then
        if c != '0' then
          var e := RunEnd(s, pos + 1, Dec);
          (Ok(Some(Token(s[pos..e], INT))), e)
        else
          var (t, e) := AfterZero(s, pos, pos + 1);
          if t.Err? then (Err(t.error), e) else (Ok(Some(t.value)), e)
      else (Err(GenericException("Unexpected character: " + [c])), pos)
  }

  /** The tokens `tokens` collected so far, followed by those of `r`; an error passes through. */
  function Prefixed(tokens: seq<Token>, r: Result<seq<Token>>): Result<seq<Token>> {
    if r.Err? then r else Ok(tokens + r.value)
  }

  /** `getTokens()` from `pos`: the tokens up to the end of input, and where reading stops. */
  function LexFrom(s: string, pos: nat): (r: (Result<seq<Token>>, nat))
    requires pos <= |s|
    ensures pos <= r.1 <= |s|
    ensures r.0.Ok? ==> r.1 == |s|
    decreases |s| - pos
  {
    if pos == |s| then (Ok([]), pos)
    else
      var (t, p) := ReadToken(s, pos);
      if t.Err? then (Err(t.error), p)
      else
        var (rest, q) := LexFrom(s, p);
        (Prefixed(if t.value.Some? then [t.value.value] else [], rest), q)
  }

  lemma PrefixedNothing(r: Result<seq<Token>>)
    ensures Prefixed([], r) == r
  {
    if r.Ok? {
      assert [] + r.value == r.value;
    }
  }

  lemma PrefixedTwice(a: seq<Token>, b: seq<Token>, r: Result<seq<Token>>)
    ensures Prefixed(a, Prefixed(b, r)) == Prefixed(a + b, r)
  {
    if r.Ok? {
      assert a + (b + r.value) == a + b + r.value;
    }
  }

  class Lexer {
    /** The text being scanned. */
    const source: string
    /** The index of the current character. */
    var curPos: int
    /** The current character, or None past the end. */
    var curChar: Option<char>

    predicate Valid()
      reads this
    {
      0 <= curPos && curChar == (if curPos < |source| then Some(source[curPos]) else None)
    }

    constructor(s: string)
      ensures source == s && curPos == 0 && Valid()
    {
      source := s;
      curPos := -1;
      curChar := None;
      new;
      NextChar();
    }

    /** `nextChar()`: one character on, or None past the end. */
    method NextChar()
      requires curPos >= -1
      modifies this
      ensures curPos == old(curPos) + 1 && Valid()
    {
      curPos := curPos + 1;
      if curPos >= |source| {
        curChar := None;
      } else {
        curChar := Some(source[curPos]);
      }
    }

    /** `make_token(startPos, type)`: the text from `startPos` up to the current character. */
    method MakeToken(startPos: int, tokenType: TokenType) returns (t: Token)
      requires 0 <= startPos <= curPos <= |source|
      ensures t.text == source[startPos..curPos] && t.tokenType == tokenType
    {
      t := Token(source[startPos..curPos], tokenType);
    }

    method QAdd(startPos: int) returns (t: Token)
      requires 0 <= startPos <= curPos <= |source|
      ensures t == Token(source[startPos..curPos], ADD)
    {
      t := MakeToken(startPos, ADD);
    }

    method QSub(startPos: int) returns (t: Token)
      requires 0 <= startPos <= curPos <= |source|
      ensures t == Token(source[startPos..curPos], SUB)
    {
      t := MakeToken(startPos, SUB);
    }

    method QMul(startPos: int) returns (t: Token)
      requires 0 <= startPos <= curPos <= |source|
      ensures t == Token(source[startPos..curPos], MUL)
    {
      t := MakeToken(startPos, MUL);
    }

    method QDiv(startPos: int) returns (t: Token)
      requires 0 <= startPos <= curPos <= |source|
      ensures t == Token(source[startPos..curPos], DIV)
    {
      t := MakeToken(startPos, DIV);
    }

    /** `q2`: the rest of a decimal number. */
    method Q2(startPos: int) returns (t: Token)
      requires Valid() && 0 <= startPos <= curPos <= |source|
      modifies this
      ensures Valid() && curPos == RunEnd(source, old(curPos), Dec)
      ensures t == Token(source[startPos..curPos], INT)
      decreases |source| - curPos
    {
      if curChar.Some? && Decimal.IsDigit(curChar.value) {
        NextChar();
        t := Q2(startPos);
      } else {
        t := MakeToken(startPos, INT);
      }
    }

    /** `q3`: the rest of an octal number. */
    method Q3(startPos: int) returns (t: Token)
      requires Valid() && 0 <= startPos <= curPos <= |source|
      modifies this
      ensures Valid() && curPos == RunEnd(source, old(curPos), Oct)
      ensures t == Token(source[startPos..curPos], OCT)
      decreases |source| - curPos
    {
      if curChar.Some? && '0' <= curChar.value <= '7' {
        NextChar();
        t := Q3(startPos);
      } else {
        t := MakeToken(startPos, OCT);
      }
    }

    /** `q4`: the rest of a hexadecimal number; `upper()` makes the letter test case-blind. */
    method Q4(startPos: int) returns (t: Token)
      requires Valid() && 0 <= startPos <= curPos <= |source|
      modifies this
      ensures Valid() && curPos == RunEnd(source, old(curPos), Hex)
      ensures t == Token(source[startPos..curPos], HEX)
      decreases |source| - curPos
    {
      if curChar.Some? && InBase(curChar.value, Hex) {
        NextChar();
        t := Q4(startPos);
      } else {
        t := MakeToken(startPos, HEX);
      }
    }

    /** `q6`: the rest of a binary number. */
    method Q6(startPos: int) returns (t: Token)
      requires Valid() && 0 <= startPos <= curPos <= |source|
      modifies this
      ensures Valid() && curPos == RunEnd(source, old(curPos), Bin)
      ensures t == Token(source[startPos..curPos], BIN)
      decreases |source| - curPos
    {
      if curChar.Some? && (curChar.value == '0' || curChar.value == '1') {
        NextChar();
        t := Q6(startPos);
      } else {
        t := MakeToken(startPos, BIN);
      }
    }

    /** `q1`: what follows a leading '0'. */
    method Q1(startPos: int) returns (r: Result<Token>)
      requires Valid() && 0 <= startPos < curPos <= |source|
      modifies this
      ensures Valid()
      ensures (r, curPos) == AfterZero(source, startPos, old(curPos))
    {
      if curChar.None? {
        return Err(TypeError(NoneInString));
      }
      var c := curChar.value;
      if '0' <= c <= '7' {
        NextChar();
        var t := Q3(startPos);
        r := Ok(t);
      } else if c == 'b' || c == 'B' {
        NextChar();
        var t := Q6(startPos);
        r := Ok(t);
      } else if c == 'x' || c == 'X' {
        NextChar();
        var t := Q4(startPos);
        r := Ok(t);
      } else {
        var t := MakeToken(startPos, INT);
        r := Ok(t);
      }
    }

    /** `q0(startPos)`, which `getTokens` calls with the current position. */
    method Q0(startPos: int) returns (r: Result<Option<Token>>)
      requires Valid() && startPos == curPos <= |source|
      modifies this
      ensures Valid()
      ensures (r, curPos) == ReadToken(source, old(curPos))
    {
      if curChar.None? {
        return Ok(None);
      }
      var c := curChar.value;
      if IsSpace(c) {
        NextChar();
        return Ok(None);
      } else if c == '+' {
        NextChar();
        var t := QAdd(startPos);
        return Ok(Some(t));
      } else if c == '-' {
        NextChar();
        var t := QSub(startPos);
        return Ok(Some(t));
      } else if c == '*' {
        NextChar();
        var t := QMul(startPos);
        return Ok(Some(t));
      } else if c == '/' {
        NextChar();
        var t := QDiv(startPos);
        return Ok(Some(t));
      } else if Decimal.IsDigit(c) {
        if c == '0' {
          NextChar();
          var t := Q1(startPos);
          if t.Err? {
            return Err(t.error);
          }
          return Ok(Some(t.value));
        } else {
          NextChar();
          var t := Q2(startPos);
          return Ok(Some(t));
        }
      }
      r := Err(GenericException("Unexpected character: " + [c]));
    }

    /** `getTokens()`: runs `q0` until the input is used up, keeping the tokens. */
    method GetTokens() returns (r: Result<seq<Token>>)
      requires Valid() && curPos <= |source|
      modifies this
      ensures Valid()
      ensures (r, curPos) == LexFrom(source, old(curPos))
    {
      var tokens: seq<Token> := [];
      PrefixedNothing(LexFrom(source, curPos).0);
      while curChar.Some?
        invariant Valid() && old(curPos) <= curPos <= |source|
        invariant LexFrom(source, old(curPos)) == (Prefixed(tokens, LexFrom(source, curPos).0), LexFrom(source, curPos).1)
        decreases |source| - curPos
      {
        ghost var before := curPos;
        var tk := Q0(curPos);
        if tk.Err? {
          return Err(tk.error);
        }
        var found := if tk.value.Some? then [tk.value.value] else [];
        PrefixedTwice(tokens, found, LexFrom(source, curPos).0);
        tokens := tokens + found;
      }
      r := Ok(tokens);
      assert tokens + [] == tokens;
    }
  }

  // What the tokens are.

  /** A token's text has the shape its type promises. */
  predicate WellFormed(t: Token) {
    match t.tokenType
    case INT => |t.text| > 0 && Decimal.AllDigits(t.text) && (t.text[0] == '0' ==> t.text == "0")
    case OCT => |t.text| >= 2 && t.text[0] == '0' && forall k :: 1 <= k < |t.text| ==> InBase(t.text[k], Oct)
    case BIN => |t.text| >= 2 && t.text[0] == '0' && t.text[1] in "bB" && forall k :: 2 <= k < |t.text| ==> InBase(t.text[k], Bin)
    case HEX => |t.text| >= 2 && t.text[0] == '0' && t.text[1] in "xX" && forall k :: 2 <= k < |t.text| ==> InBase(t.text[k], Hex)
    case _ => |t.text| == 1 && OperatorType(t.text[0]) == Some(t.tokenType)
  }

  /** `c` could have continued the token `t`: the automaton never stops before such a character. */
  predicate Continues(t: Token, c: char)
    requires WellFormed(t)
  {
    match t.tokenType
    case INT => if t.text == "0" then InBase(c, Oct) || c in "bBxX" else Decimal.IsDigit(c)
    case OCT => InBase(c, Oct)
    case BIN => InBase(c, Bin)
    case HEX => InBase(c, Hex)
    case _ => false
  }

  lemma SliceDigits(s: string, i: nat, j: nat, k: nat, b: Base)
    requires i <= j <= k <= |s|
    requires forall m :: j <= m < k ==> InBase(s[m], b)
    ensures forall m :: j - i <= m < k - i ==> InBase(s[i..k][m], b)
  {
  }

  /**
   * Every token `q0` reads is well formed and maximal: the character after
   * it, if any, could not have continued it.
   */
  lemma Q0TokenShape(s: string, pos: nat)
    requires pos <= |s|
    ensures var (r, e) := ReadToken(s, pos);
      r.Ok? && r.value.Some? ==> WellFormed(r.value.value) && (e == |s| || !Continues(r.value.value, s[e]))
  {
    var (r, e) := ReadToken(s, pos);
    if r.Ok? && r.value.Some? && pos < |s| {
      var c := s[pos];
      if Decimal.IsDigit(c) && c != '0' {
        SliceDigits(s, pos, pos + 1, e, Dec);
      } else if c == '0' {
        var d := s[pos + 1];
        if '0' <= d <= '7' {
          SliceDigits(s, pos, pos + 1, e, Oct);
        } else if d == 'b' || d == 'B' {
          SliceDigits(s, pos, pos + 2, e, Bin);
        } else if d == 'x' || d == 'X' {
          SliceDigits(s, pos, pos + 2, e, Hex);
        }
      }
    }
  }

  /** The error cases of `q0`: a character no state accepts, or a '0' that ends the input. */
  lemma Q0Errors(s: string, pos: nat)
    requires pos <= |s|
    ensures ReadToken(s, pos).0.Err? <==>
      pos < |s| && ((!IsSpace(s[pos]) && OperatorType(s[pos]).None? && !Decimal.IsDigit(s[pos])) ||
                    (s[pos] == '0' && pos + 1 == |s|))
    ensures ReadToken(s, pos).0 == Err(TypeError(NoneInString)) <==> pos + 1 == |s| && s[pos] == '0'
  {
  }

  /** Every token of `getTokens` is well formed. */
  lemma {:induction false} LexFromWellFormed(s: string, pos: nat)
    requires pos <= |s| && LexFrom(s, pos).0.Ok?
    ensures forall i :: 0 <= i < |LexFrom(s, pos).0.value| ==> WellFormed(LexFrom(s, pos).0.value[i])
    decreases |s| - pos
  {
    if pos < |s| {
      var (t, p) := ReadToken(s, pos);
      Q0TokenShape(s, pos);
      LexFromWellFormed(s, p);
    }
  }

  /** The characters of `s` from `pos` on that are not white space. */
  function Stripped(s: string, pos: nat): string
    requires pos <= |s|
    decreases |s| - pos
  {
    if pos == |s| then "" else (if IsSpace(s[pos]) then "" else [s[pos]]) + Stripped(s, pos + 1)
  }

  /** A stretch without white space is kept whole by stripping. */
  lemma {:induction false} StrippedSplit(s: string, pos: nat, e: nat)
    requires pos <= e <= |s|
    requires forall k :: pos <= k < e ==> !IsSpace(s[k])
    ensures Stripped(s, pos) == s[pos..e] + Stripped(s, e)
    decreases e - pos
  {
    if pos < e {
      assert !IsSpace(s[pos]);
      assert Stripped(s, pos) == [s[pos]] + Stripped(s, pos + 1);
      StrippedSplit(s, pos + 1, e);
      assert s[pos..e] == [s[pos]] + s[pos + 1..e];
      assert [s[pos]] + (s[pos + 1..e] + Stripped(s, e)) == ([s[pos]] + s[pos + 1..e]) + Stripped(s, e);
    } else {
      assert s[pos..e] == [];
    }
  }

  /** A token's characters are never white space. */
  lemma NoSpaceInToken(s: string, pos: nat)
    requires pos <= |s|
    ensures var (r, e) := ReadToken(s, pos);
      r.Ok? && r.value.Some? ==> forall k :: pos <= k < e ==> !IsSpace(s[k])
  {
    var (r, e) := ReadToken(s, pos);
    if r.Ok? && r.value.Some? {
      Q0TokenShape(s, pos);
      var text := r.value.value.text;
      forall k | pos <= k < e
        ensures !IsSpace(s[k])
      {
        assert s[k] == text[k - pos];
      }
    }
  }

  /** The texts of a list of tokens, one after the other. */
  function Texts(ts: seq<Token>): string {
    if |ts| == 0 then "" else ts[0].text + Texts(ts[1..])
  }

  lemma TextsPrepend(found: seq<Token>, rest: seq<Token>)
    requires |found| <= 1
    ensures Texts(found + rest) == (if |found| == 1 then found[0].text else "") + Texts(rest)
  {
    if |found| == 1 {
      assert (found + rest)[1..] == rest;
    } else {
      assert found + rest == rest;
    }
  }

  /**
   * Token texts are consecutive slices of the input separated only by white
   * space: laid end to end they spell the input with its white space removed.
   */
  lemma {:induction false} TextsAreStrippedSource(s: string, pos: nat)
    requires pos <= |s| && LexFrom(s, pos).0.Ok?
    ensures Texts(LexFrom(s, pos).0.value) == Stripped(s, pos)
    decreases |s| - pos
  {
    if pos < |s| {
      var (t, p) := ReadToken(s, pos);
      TextsAreStrippedSource(s, p);
      var found := if t.value.Some? then [t.value.value] else [];
      TextsPrepend(found, LexFrom(s, p).0.value);
      if t.value.Some? {
        NoSpaceInToken(s, pos);
        StrippedSplit(s, pos, p);
      }
    }
  }

  // Runs of the automaton.

  lemma MixedBasesTokens()
    ensures ReadToken("0x1F+017", 0) == (Ok(Some(Token("0x1F", HEX))), 4)
    ensures ReadToken("0x1F+017", 4) == (Ok(Some(Token("+", ADD))), 5)
    ensures ReadToken("0x1F+017", 5) == (Ok(Some(Token("017", OCT))), 8)
  {
    var s := "0x1F+017";
    assert RunEnd(s, 4, Hex) == 4;
    assert RunEnd(s, 3, Hex) == 4;
    assert RunEnd(s, 2, Hex) == 4;
    assert s[0..4] == "0x1F" && s[4..5] == "+";
    assert RunEnd(s, 7, Oct) == 8;
    assert RunEnd(s, 6, Oct) == 8;
    assert s[5..8] == "017";
  }

  /** "0x1F+017" reads as a hexadecimal number, '+' and an octal number. */
  lemma MixedBasesExample()
    ensures LexFrom("0x1F+017", 0).0 == Ok([Token("0x1F", HEX), Token("+", ADD), Token("017", OCT)])
  {
    MixedBasesTokens();
    var s := "0x1F+017";
    assert LexFrom(s, 8).0 == Ok([]);
    assert [Token("017", OCT)] + [] == [Token("017", OCT)];
    assert LexFrom(s, 5).0 == Ok([Token("017", OCT)]);
    assert [Token("+", ADD)] + [Token("017", OCT)] == [Token("+", ADD), Token("017", OCT)];
    assert LexFrom(s, 4).0 == Ok([Token("+", ADD), Token("017", OCT)]);
    assert [Token("0x1F", HEX)] + [Token("+", ADD), Token("017", OCT)] == [Token("0x1F", HEX), Token("+", ADD), Token("017", OCT)];
  }

  /** "0b102": the binary run stops at '2', which starts a decimal number. */
  lemma BinaryStopsExample()
    ensures LexFrom("0b102", 0).0 == Ok([Token("0b10", BIN), Token("2", INT)])
  {
    var s := "0b102";
    assert RunEnd(s, 4, Bin) == 4;
    assert RunEnd(s, 3, Bin) == 4;
    assert RunEnd(s, 2, Bin) == 4;
    assert s[0..4] == "0b10" && s[4..5] == "2";
    assert ReadToken(s, 0) == (Ok(Some(Token("0b10", BIN))), 4);
    assert RunEnd(s, 5, Dec) == 5;
    assert ReadToken(s, 4) == (Ok(Some(Token("2", INT))), 5);
    assert LexFrom(s, 5).0 == Ok([]);
    assert [Token("2", INT)] + [] == [Token("2", INT)];
    assert LexFrom(s, 4).0 == Ok([Token("2", INT)]);
    assert [Token("0b10", BIN)] + [Token("2", INT)] == [Token("0b10", BIN), Token("2", INT)];
  }

  /** "1 0": the final '0' makes `q1` test `None in "01234567"`. */
  lemma TrailingZeroExample()
    ensures LexFrom("1 0", 0).0 == Err(TypeError(NoneInString))
  {
    var s := "1 0";
    assert RunEnd(s, 1, Dec) == 1;
    assert s[0..1] == "1";
    assert ReadToken(s, 0) == (Ok(Some(Token("1", INT))), 1);
    assert ReadToken(s, 1) == (Ok(None), 2);
    assert ReadToken(s, 2).0 == Err(TypeError(NoneInString));
    assert LexFrom(s, 2).0 == Err(TypeError(NoneInString));
    assert LexFrom(s, 1).0 == Err(TypeError(NoneInString));
  }

  /** "2 $ 3": the '$' is rejected. */
  lemma UnexpectedCharacterExample()
    ensures LexFrom("2 $ 3", 0).0 == Err(GenericException("Unexpected character: $"))
  {
    var s := "2 $ 3";
    assert RunEnd(s, 1, Dec) == 1;
    assert s[0..1] == "2";
    assert ReadToken(s, 0) == (Ok(Some(Token("2", INT))), 1);
    assert ReadToken(s, 1) == (Ok(None), 2);
    assert s[2] == '$' && "Unexpected character: " + ['$'] == "Unexpected character: $";
    assert ReadToken(s, 2).0 == Err(GenericException("Unexpected character: $"));
    assert LexFrom(s, 2).0 == Err(GenericException("Unexpected character: $"));
    assert LexFrom(s, 1).0 == Err(GenericException("Unexpected character: $"));
  }
}
