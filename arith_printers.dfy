/**
 * Arithmetic trees of numbers and `+ - * /` with an evaluator and three
 * printers: prefix ("* / 28 4 5"), fully parenthesised infix
 * ("((28) / (4)) * (5)") and postfix ("28 4 / 5 *"). The `str` of an
 * operator node is only its symbol.
 */
module ArithPrinters {
  import opened Wrappers
  import Decimal
  import Arith

  datatype Exp = Num(num: int) | Bin(op: Arith.Op, left: Exp, right: Exp)

  /** `e.eval()`; `evaluate(e)` is the same call. */
  function Eval(e: Exp): (r: Result<int>)
    ensures r.Err? ==> r.error == ZeroDivisionError
  {
    match e
    case Num(n) => Ok(n)
    case Bin(op, l, r) =>
      var a :- Eval(l);
      var b :- Eval(r);
      Arith.Apply(op, a, b)
  }

  /** `str(e)`: a number's decimal text, or an operator node's symbol alone. */
  function Str(e: Exp): string {
    match e
    case Num(n) => Decimal.IntToString(n)
    case Bin(op, _, _) => Arith.Symbol(op)
  }

  function Prefix(e: Exp): string {
    match e
    case Num(_) => Str(e)
    case Bin(_, l, r) => Str(e) + " " + Prefix(l) + " " + Prefix(r)
  }

  function Infix(e: Exp): string {
    match e
    case Num(_) => Str(e)
    case Bin(_, l, r) => "(" + Infix(l) + ") " + Str(e) + " (" + Infix(r) + ")"
  }

  function Postfix(e: Exp): string {
    match e
    case Num(_) => Str(e)
    case Bin(_, l, r) => Postfix(l) + " " + Postfix(r) + " " + Str(e)
  }

  /**
   * A printed text cut into pieces: the numbers, and the operators, spaces
   * and parentheses between them.
   */
  datatype Piece = Numeral(n: int) | Punct(text: string)

  function Text(p: Piece): string {
    match p
    case Numeral(n) => Decimal.IntToString(n)
    case Punct(t) => t
  }

  function Render(ps: seq<Piece>): string {
    if |ps| == 0 then "" else Text(ps[0]) + Render(ps[1..])
  }

  /** The numbers among the pieces, in order. */
  function Numerals(ps: seq<Piece>): seq<int> {
    if |ps| == 0 then []
    else (if ps[0].Numeral? then [ps[0].n] else []) + Numerals(ps[1..])
  }

  lemma {:induction false} RenderAppend(a: seq<Piece>, b: seq<Piece>)
    ensures Render(a + b) == Render(a) + Render(b)
    ensures Numerals(a + b) == Numerals(a) + Numerals(b)
    decreases |a|
  {
    if |a| == 0 {
      assert a + b == b;
    } else {
      assert (a + b)[0] == a[0];
      assert (a + b)[1..] == a[1..] + b;
      RenderAppend(a[1..], b);
      calc {
        Render(a + b);
        Text(a[0]) + Render(a[1..] + b);
        Text(a[0]) + (Render(a[1..]) + Render(b));
        (Text(a[0]) + Render(a[1..])) + Render(b);
      }
      var h := if a[0].Numeral? then [a[0].n] else [];
      calc {
        Numerals(a + b);
        h + Numerals(a[1..] + b);
        h + (Numerals(a[1..]) + Numerals(b));
        (h + Numerals(a[1..])) + Numerals(b);
      }
    }
  }

  /** A punctuation piece followed by more pieces. */
  lemma RenderPunct(t: string, b: seq<Piece>)
    ensures Render([Punct(t)] + b) == t + Render(b)
    ensures Numerals([Punct(t)] + b) == Numerals(b)
  {
    RenderAppend([Punct(t)], b);
  }

  /** The numbers of `e`, left to right. */
  function Leaves(e: Exp): seq<int> {
    match e
    case Num(n) => [n]
    case Bin(_, l, r) => Leaves(l) + Leaves(r)
  }

  function PrefixPieces(e: Exp): seq<Piece> {
    match e
    case Num(n) => [Numeral(n)]
    case Bin(op, l, r) => [Punct(Arith.Symbol(op) + " ")] + (PrefixPieces(l) + ([Punct(" ")] + PrefixPieces(r)))
  }

  function InfixPieces(e: Exp): seq<Piece> {
    match e
    case Num(n) => [Numeral(n)]
    case Bin(op, l, r) =>
      [Punct("(")] + (InfixPieces(l) + ([Punct(") " + Arith.Symbol(op) + " (")] + (InfixPieces(r) + [Punct(")")])))
  }

  function PostfixPieces(e: Exp): seq<Piece> {
    match e
    case Num(n) => [Numeral(n)]
    case Bin(op, l, r) => PostfixPieces(l) + ([Punct(" ")] + (PostfixPieces(r) + [Punct(" " + Arith.Symbol(op))]))
  }

  /**
   * The prefix text is its pieces put together, and its numbers are the
   * tree's numbers left to right.
   */
  lemma {:induction false} PrefixListsLeavesInOrder(e: Exp)
    ensures Render(PrefixPieces(e)) == Prefix(e)
    ensures Numerals(PrefixPieces(e)) == Leaves(e)
  {
    match e
    case Num(n) =>
    case Bin(op, l, r) =>
      PrefixListsLeavesInOrder(l);
      PrefixListsLeavesInOrder(r);
      var rest := [Punct(" ")] + PrefixPieces(r);
      RenderPunct(" ", PrefixPieces(r));
      RenderAppend(PrefixPieces(l), rest);
      RenderPunct(Arith.Symbol(op) + " ", PrefixPieces(l) + rest);
  }

  /** The parenthesised infix text is its pieces put together. */
  lemma {:induction false} InfixPiecesRender(e: Exp)
    ensures Render(InfixPieces(e)) == Infix(e)
  {
    match e
    case Num(n) =>
    case Bin(op, l, r) =>
      InfixPiecesRender(l);
      InfixPiecesRender(r);
      InfixBinRender(op, l, r);
  }

  /** One operator node of `InfixPiecesRender`, given its operands' texts. */
  lemma InfixBinRender(op: Arith.Op, l: Exp, r: Exp)
    requires Render(InfixPieces(l)) == Infix(l) && Render(InfixPieces(r)) == Infix(r)
    ensures Render(InfixPieces(Bin(op, l, r))) == Infix(Bin(op, l, r))
  {
    RenderBetween("(", InfixPieces(l), ") " + Arith.Symbol(op) + " (", InfixPieces(r), ")");
    Regroup("(", Infix(l), ") ", Arith.Symbol(op), " (", Infix(r), ")");
  }

  /** Two runs of pieces between three punctuation marks. */
  lemma RenderBetween(s1: string, p1: seq<Piece>, s2: string, p2: seq<Piece>, s3: string)
    ensures Render([Punct(s1)] + (p1 + ([Punct(s2)] + (p2 + [Punct(s3)]))))
         == s1 + (Render(p1) + (s2 + (Render(p2) + s3)))
  {
    assert Render([Punct(s3)]) == s3;
    RenderAppend(p2, [Punct(s3)]);
    RenderPunct(s2, p2 + [Punct(s3)]);
    RenderAppend(p1, [Punct(s2)] + (p2 + [Punct(s3)]));
    RenderPunct(s1, p1 + ([Punct(s2)] + (p2 + [Punct(s3)])));
  }

  lemma Regroup(a: string, b: string, c: string, d: string, e: string, f: string, g: string)
    ensures a + (b + ((c + d + e) + (f + g))) == a + b + c + d + e + f + g
  {
  }

  /** The numbers of the infix text are the tree's numbers left to right. */
  lemma {:induction false} InfixListsLeavesInOrder(e: Exp)
    ensures Numerals(InfixPieces(e)) == Leaves(e)
  {
    match e
    case Num(n) =>
    case Bin(op, l, r) =>
      InfixListsLeavesInOrder(l);
      InfixListsLeavesInOrder(r);
      var close := [Punct(")")];
      var right := InfixPieces(r) + close;
      var mid := [Punct(") " + Arith.Symbol(op) + " (")] + right;
      RenderAppend(InfixPieces(r), close);
      RenderPunct(") " + Arith.Symbol(op) + " (", right);
      RenderAppend(InfixPieces(l), mid);
      RenderPunct("(", InfixPieces(l) + mid);
  }

  /** The postfix text is its pieces put together. */
  lemma {:induction false} PostfixPiecesRender(e: Exp)
    ensures Render(PostfixPieces(e)) == Postfix(e)
  {
    match e
    case Num(n) =>
    case Bin(op, l, r) =>
      PostfixPiecesRender(l);
      PostfixPiecesRender(r);
      PostfixBinRender(op, l, r);
  }

  /** One operator node of `PostfixPiecesRender`, given its operands' texts. */
  lemma PostfixBinRender(op: Arith.Op, l: Exp, r: Exp)
    requires Render(PostfixPieces(l)) == Postfix(l) && Render(PostfixPieces(r)) == Postfix(r)
    ensures Render(PostfixPieces(Bin(op, l, r))) == Postfix(Bin(op, l, r))
  {
    RenderSpaced(PostfixPieces(l), PostfixPieces(r), " " + Arith.Symbol(op));
    RegroupSpaced(Postfix(l), Postfix(r), Arith.Symbol(op));
  }

  /** Two runs of pieces with a space between them and a last punctuation mark. */
  lemma RenderSpaced(p1: seq<Piece>, p2: seq<Piece>, t: string)
    ensures Render(p1 + ([Punct(" ")] + (p2 + [Punct(t)]))) == Render(p1) + (" " + (Render(p2) + t))
    ensures Numerals(p1 + ([Punct(" ")] + (p2 + [Punct(t)]))) == Numerals(p1) + Numerals(p2)
  {
    assert Render([Punct(t)]) == t;
    assert Numerals([Punct(t)]) == [];
    RenderAppend(p2, [Punct(t)]);
    assert Numerals(p2) + [] == Numerals(p2);
    RenderPunct(" ", p2 + [Punct(t)]);
    RenderAppend(p1, [Punct(" ")] + (p2 + [Punct(t)]));
  }

  lemma RegroupSpaced(a: string, b: string, c: string)
    ensures a + (" " + (b + (" " + c))) == a + " " + b + " " + c
  {
  }

  /** The numbers of the postfix text are the tree's numbers left to right. */
  lemma {:induction false} PostfixListsLeavesInOrder(e: Exp)
    ensures Numerals(PostfixPieces(e)) == Leaves(e)
  {
    match e
    case Num(n) =>
    case Bin(op, l, r) =>
      PostfixListsLeavesInOrder(l);
      PostfixListsLeavesInOrder(r);
      RenderSpaced(PostfixPieces(l), PostfixPieces(r), " " + Arith.Symbol(op));
  }

  // The documented runs.

  lemma EvalExamples()
    ensures Eval(Num(3)) == Ok(3)
    ensures Eval(Bin(Arith.AddOp, Num(3), Num(4))) == Ok(7)
    ensures Eval(Bin(Arith.AddOp, Num(5), Bin(Arith.AddOp, Num(3), Num(4)))) == Ok(12)
    ensures Eval(Bin(Arith.SubOp, Num(3), Num(4))) == Ok(-1)
    ensures Eval(Bin(Arith.SubOp, Num(5), Bin(Arith.SubOp, Num(3), Num(4)))) == Ok(6)
    ensures Eval(Bin(Arith.MulOp, Num(3), Num(4))) == Ok(12)
    ensures Eval(Bin(Arith.MulOp, Bin(Arith.AddOp, Num(3), Num(4)), Bin(Arith.MulOp, Num(3), Num(4)))) == Ok(84)
    ensures Eval(Bin(Arith.DivOp, Num(28), Num(4))) == Ok(7)
    ensures Eval(Bin(Arith.DivOp, Num(22), Num(4))) == Ok(5)
    ensures Eval(Bin(Arith.DivOp, Bin(Arith.SubOp, Num(0), Num(10)), Bin(Arith.SubOp, Num(0), Num(5)))) == Ok(2)
    ensures Eval(Bin(Arith.MulOp, Num(7), Num(4))) == Ok(28)
  {
  }

  function SmallTree(): Exp {
    Bin(Arith.MulOp, Bin(Arith.DivOp, Num(28), Num(4)), Num(5))
  }

  function LargeTree(): Exp {
    var q := Bin(Arith.DivOp, Num(28), Num(4));
    Bin(Arith.MulOp, Bin(Arith.DivOp, Num(50), q), q)
  }

  lemma Numerals28()
    ensures Str(Num(28)) == "28" && Str(Num(4)) == "4" && Str(Num(5)) == "5" && Str(Num(50)) == "50"
  {
    Decimal.SmallNatToString(28);
    Decimal.SmallNatToString(4);
    Decimal.SmallNatToString(5);
    Decimal.SmallNatToString(50);
  }

  /** The three printouts of an operator node, from its operands' printouts. */
  lemma PrintedNode(op: Arith.Op, l: Exp, r: Exp, pl: string, pr: string, il: string, ir: string, ql: string, qr: string)
    requires Prefix(l) == pl && Prefix(r) == pr
    requires Infix(l) == il && Infix(r) == ir
    requires Postfix(l) == ql && Postfix(r) == qr
    ensures Prefix(Bin(op, l, r)) == Arith.Symbol(op) + " " + pl + " " + pr
    ensures Infix(Bin(op, l, r)) == "(" + il + ") " + Arith.Symbol(op) + " (" + ir + ")"
    ensures Postfix(Bin(op, l, r)) == ql + " " + qr + " " + Arith.Symbol(op)
  {
  }

  /** 28 / 4, the quotient both trees share. */
  lemma QuotientPrinted()
    ensures Prefix(Bin(Arith.DivOp, Num(28), Num(4))) == "/ 28 4"
    ensures Infix(Bin(Arith.DivOp, Num(28), Num(4))) == "(28) / (4)"
    ensures Postfix(Bin(Arith.DivOp, Num(28), Num(4))) == "28 4 /"
  {
    Numerals28();
    PrintedNode(Arith.DivOp, Num(28), Num(4), "28", "4", "28", "4", "28", "4");
  }

  lemma SmallTreeExamples()
    ensures Eval(SmallTree()) == Ok(35)
    ensures Prefix(SmallTree()) == "* / 28 4 5"
    ensures Infix(SmallTree()) == "((28) / (4)) * (5)"
    ensures Postfix(SmallTree()) == "28 4 / 5 *"
  {
    Numerals28();
    QuotientPrinted();
    PrintedNode(Arith.MulOp, Bin(Arith.DivOp, Num(28), Num(4)), Num(5), "/ 28 4", "5", "(28) / (4)", "5", "28 4 /", "5");
  }

  /** 50 / (28 / 4), the left operand of `LargeTree`. */
  lemma LeftPrinted()
    ensures Prefix(Bin(Arith.DivOp, Num(50), Bin(Arith.DivOp, Num(28), Num(4)))) == "/ 50 / 28 4"
    ensures Infix(Bin(Arith.DivOp, Num(50), Bin(Arith.DivOp, Num(28), Num(4)))) == "(50) / ((28) / (4))"
    ensures Postfix(Bin(Arith.DivOp, Num(50), Bin(Arith.DivOp, Num(28), Num(4)))) == "50 28 4 / /"
  {
    Numerals28();
    QuotientPrinted();
    PrintedNode(Arith.DivOp, Num(50), Bin(Arith.DivOp, Num(28), Num(4)), "50", "/ 28 4", "50", "(28) / (4)", "50", "28 4 /");
    LeftTexts();
  }

  lemma LeftTexts()
    ensures "/" + " " + "50" + " " + "/ 28 4" == "/ 50 / 28 4"
    ensures "(" + "50" + ") " + "/" + " (" + "(28) / (4)" + ")" == "(50) / ((28) / (4))"
    ensures "50" + " " + "28 4 /" + " " + "/" == "50 28 4 / /"
  {
  }

  lemma LargeTreeExamples()
    ensures Eval(LargeTree()) == Ok(49)
    ensures Prefix(LargeTree()) == "* / 50 / 28 4 / 28 4"
    ensures Infix(LargeTree()) == "((50) / ((28) / (4))) * ((28) / (4))"
    ensures Postfix(LargeTree()) == "50 28 4 / / 28 4 / *"
  {
    var q := Bin(Arith.DivOp, Num(28), Num(4));
    QuotientPrinted();
    LeftPrinted();
    PrintedNode(Arith.MulOp, Bin(Arith.DivOp, Num(50), q), q,
      "/ 50 / 28 4", "/ 28 4", "(50) / ((28) / (4))", "(28) / (4)", "50 28 4 / /", "28 4 /");
    LargeTexts();
  }

  lemma LargeTexts()
    ensures "*" + " " + "/ 50 / 28 4" + " " + "/ 28 4" == "* / 50 / 28 4 / 28 4"
    ensures "(" + "(50) / ((28) / (4))" + ") " + "*" + " (" + "(28) / (4)" + ")" == "((50) / ((28) / (4))) * ((28) / (4))"
    ensures "50 28 4 / /" + " " + "28 4 /" + " " + "*" == "50 28 4 / / 28 4 / *"
  {
  }
}
