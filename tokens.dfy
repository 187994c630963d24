/**
 * The tokens the hand-written lexers produce, and the character classes they
 * test. The classes are ASCII only: `isdigit()` is '0'..'9', `isalpha()` an
 * ASCII letter and `isalnum()` either. Python's own methods also accept
 * non-ASCII characters ('²' is a digit, 'é' a letter), which this model
 * does not.
 */
module Tokens {
  import Decimal
  import Arith

  datatype Kind = EOF | NLN | WSP | NUM | LPR | RPR | ADD | SUB | MUL | DIV | VAR

  datatype Token = Token(text: string, kind: Kind)

  /** `str(kind)`, as an f-string prints an enum member. */
  function KindName(k: Kind): string {
    "TokenType." +
    match k
    case EOF => "EOF"
    case NLN => "NLN"
    case WSP => "WSP"
    case NUM => "NUM"
    case LPR => "LPR"
    case RPR => "RPR"
    case ADD => "ADD"
    case SUB => "SUB"
    case MUL => "MUL"
    case DIV => "DIV"
    case VAR => "VAR"
  }

  /** The names the error messages print for the kinds the parsers check. */
  lemma KindNames()
    ensures KindName(EOF) == "TokenType.EOF"
    ensures KindName(LPR) == "TokenType.LPR"
    ensures KindName(RPR) == "TokenType.RPR"
    ensures KindName(NUM) == "TokenType.NUM"
  {
  }

  /** `Token.operators`. */
  predicate IsOperator(k: Kind) {
    k in {ADD, SUB, MUL, DIV}
  }

  /** The arithmetic operator an operator token stands for. */
  function OpOf(k: Kind): (op: Arith.Op)
    requires IsOperator(k)
    ensures KindOf(op) == k
  {
    match k
    case ADD => Arith.AddOp
    case SUB => Arith.SubOp
    case MUL => Arith.MulOp
    case DIV => Arith.DivOp
  }

  function KindOf(op: Arith.Op): (k: Kind)
    ensures IsOperator(k)
  {
    match op
    case AddOp => ADD
    case SubOp => SUB
    case MulOp => MUL
    case DivOp => DIV
  }

  /** The one-character operator tokens: '+', '-', '*', '/'. */
  function OperatorChar(c: char): (k: Kind)
    ensures IsOperator(k) || k == VAR
  {
    if c == '+' then ADD
    else if c == '-' then SUB
    else if c == '*' then MUL
    else if c == '/' then DIV
    else VAR
  }

  lemma SymbolLexes(op: Arith.Op)
    ensures Arith.Symbol(op)[0] != ' ' && !Decimal.IsDigit(Arith.Symbol(op)[0])
    ensures OperatorChar(Arith.Symbol(op)[0]) == KindOf(op)
  {
  }

  predicate IsAlpha(c: char) {
    'a' <= c <= 'z' || 'A' <= c <= 'Z'
  }

  predicate IsAlnum(c: char) {
    IsAlpha(c) || Decimal.IsDigit(c)
  }

  /** Where the run of digits starting at `i` ends. */
  function DigitRunEnd(s: string, i: nat): (e: nat)
    requires i <= |s|
    ensures i <= e <= |s|
    ensures forall k :: i <= k < e ==> Decimal.IsDigit(s[k])
    ensures e == |s| || !Decimal.IsDigit(s[e])
    decreases |s| - i
  {
    if i < |s| && Decimal.IsDigit(s[i]) then DigitRunEnd(s, i + 1) else i
  }

  /** Where the run of letters and digits starting at `i` ends. */
  function AlnumRunEnd(s: string, i: nat): (e: nat)
    requires i <= |s|
    ensures i <= e <= |s|
    ensures forall k :: i <= k < e ==> IsAlnum(s[k])
    ensures e == |s| || !IsAlnum(s[e])
    decreases |s| - i
  {
    if i < |s| && IsAlnum(s[i]) then AlnumRunEnd(s, i + 1) else i
  }

  /** The text of `s` from `i` on is the text of `u` from `j` on. */
  predicate SameFrom(s: string, i: nat, u: string, j: nat) {
    i <= |s| && j <= |u| && s[i..] == u[j..]
  }

  lemma SameFromLater(s: string, i: nat, u: string, j: nat, d: nat)
    requires SameFrom(s, i, u, j) && d <= |s| - i
    ensures SameFrom(s, i + d, u, j + d)
    ensures d < |s| - i ==> s[i + d] == u[j + d]
  {
    assert s[i + d..] == s[i..][d..];
    assert u[j + d..] == u[j..][d..];
    if d < |s| - i {
      assert s[i + d] == s[i..][d];
      assert u[j + d] == u[j..][d];
    }
  }

  /** `y` from `k` on is the text of `x + y` from `|x| + k` on. */
  lemma ShiftedSame(x: string, y: string, k: nat)
    requires k <= |y|
    ensures SameFrom(x + y, |x| + k, y, k)
  {
    assert (x + y)[|x| + k..] == y[k..];
  }

  /** A run of digits is as long in either copy of the same text. */
  lemma {:induction false} DigitRunSame(s: string, i: nat, u: string, j: nat)
    requires SameFrom(s, i, u, j)
    ensures DigitRunEnd(s, i) - i == DigitRunEnd(u, j) - j
    decreases |s| - i
  {
    if i < |s| {
      SameFromLater(s, i, u, j, 0);
      SameFromLater(s, i, u, j, 1);
      DigitRunSame(s, i + 1, u, j + 1);
    }
  }

  /** A run of letters and digits is as long in either copy of the same text. */
  lemma {:induction false} AlnumRunSame(s: string, i: nat, u: string, j: nat)
    requires SameFrom(s, i, u, j)
    ensures AlnumRunEnd(s, i) - i == AlnumRunEnd(u, j) - j
    decreases |s| - i
  {
    if i < |s| {
      SameFromLater(s, i, u, j, 0);
      SameFromLater(s, i, u, j, 1);
      AlnumRunSame(s, i + 1, u, j + 1);
    }
  }

  /** A run ends at the first character that does not belong to it. */
  lemma {:induction false} DigitRunEndAt(s: string, i: nat, e: nat)
    requires i <= e <= |s|
    requires forall k :: i <= k < e ==> Decimal.IsDigit(s[k])
    requires e == |s| || !Decimal.IsDigit(s[e])
    ensures DigitRunEnd(s, i) == e
    decreases e - i
  {
    if i < e {
      DigitRunEndAt(s, i + 1, e);
    }
  }

  /** `int(text)` of a NUM token's text. */
  function NumValue(text: string): nat
    requires Decimal.AllDigits(text)
  {
    Decimal.DigitsToNat(text)
  }
}
