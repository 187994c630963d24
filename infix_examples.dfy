/**
 * The inputs of the infix parsers' documented runs: for each, the tree of
 * its first operand and the chain of operators and operands after it. For
 * the inputs without parentheses, spelled `a o1 b o2 c` with one-digit
 * numbers, any such text is lexed into the tokens of the first operand and
 * the chain. The text is read from its end back to its start, a few
 * positions per lemma, with the numbers and operators left as variables.
 */
module InfixExamples {
  import opened Wrappers
  import opened Tokens
  import Arith
  import Decimal
  import opened ParenLexer
  import opened InfixTree

  // `a o1 b o2 c` with one-digit numbers.

  lemma ChainFrom5(s: string, a: nat, o1: Arith.Op, b: nat, o2: Arith.Op, c: nat, links: seq<Link>)
    requires |s| == 9 && links == [Link(o1, Num(b)), Link(o2, Num(c))] && s[5] == ' '
    requires s[6] == Arith.Symbol(o2)[0] && s[7] == ' ' && s[8..9] == Decimal.NatToString(c)
    ensures LexAll(s, 5) == Stream([ArithLexer1.OpToken(o2)] + (AtomTokens(Num(c)) + (ChainTokens(links[2..]) + [])), None)
  {
    assert LexAll(s, 9) == Stream((ChainTokens(links[2..]) + []), None);
    LexNumAt(s, 8, c, 9, (ChainTokens(links[2..]) + []));
    LexSpaceAt(s, 7, AtomTokens(Num(c)) + (ChainTokens(links[2..]) + []));
    LexOpAt(s, 6, o2, AtomTokens(Num(c)) + (ChainTokens(links[2..]) + []));
    LexSpaceAt(s, 5, [ArithLexer1.OpToken(o2)] + (AtomTokens(Num(c)) + (ChainTokens(links[2..]) + [])));
  }

  lemma ChainFrom1(s: string, a: nat, o1: Arith.Op, b: nat, o2: Arith.Op, c: nat, links: seq<Link>)
    requires |s| == 9 && links == [Link(o1, Num(b)), Link(o2, Num(c))] && s[1] == ' '
    requires s[2] == Arith.Symbol(o1)[0] && s[3] == ' ' && s[4..5] == Decimal.NatToString(b)
    requires s[5] == ' '
    requires LexAll(s, 5) == Stream([ArithLexer1.OpToken(o2)] + (AtomTokens(Num(c)) + (ChainTokens(links[2..]) + [])), None)
    ensures LexAll(s, 1) == Stream([ArithLexer1.OpToken(o1)] + (AtomTokens(Num(b)) + (ChainTokens(links[1..]) + [])), None)
  {
    assert links[1..][1..] == links[2..];
    ChainSplit(links[1..], []);
    LexNumAt(s, 4, b, 5, (ChainTokens(links[1..]) + []));
    LexSpaceAt(s, 3, AtomTokens(Num(b)) + (ChainTokens(links[1..]) + []));
    LexOpAt(s, 2, o1, AtomTokens(Num(b)) + (ChainTokens(links[1..]) + []));
    LexSpaceAt(s, 1, [ArithLexer1.OpToken(o1)] + (AtomTokens(Num(b)) + (ChainTokens(links[1..]) + [])));
  }

  lemma ChainFrom0(s: string, a: nat, o1: Arith.Op, b: nat, o2: Arith.Op, c: nat, links: seq<Link>)
    requires |s| == 9 && links == [Link(o1, Num(b)), Link(o2, Num(c))] && s[0..1] == Decimal.NatToString(a)
    requires s[1] == ' '
    requires LexAll(s, 1) == Stream([ArithLexer1.OpToken(o1)] + (AtomTokens(Num(b)) + (ChainTokens(links[1..]) + [])), None)
    ensures LexAll(s, 0) == Stream(AtomTokens(Num(a)) + ChainTokens(links), None)
  {
    ChainSplit(links, []);
    LexNumAt(s, 0, a, 1, (ChainTokens(links) + []));
    assert ChainTokens(links) + [] == ChainTokens(links);
  }

  /** Two links whose operands are numbers are printable. */
  lemma NumLinks(o1: Arith.Op, b: nat, o2: Arith.Op, c: nat, links: seq<Link>)
    requires links == [Link(o1, Num(b)), Link(o2, Num(c))]
    ensures PrintableLinks(links)
  {
    assert links[0].operand == Num(b) && links[1].operand == Num(c);
  }

  /** Any text spelled `a o1 b o2 c` with one-digit numbers is lexed into the tokens of its first operand and chain. */
  lemma ChainLexes(s: string, a: nat, o1: Arith.Op, b: nat, o2: Arith.Op, c: nat)
    requires |s| == 9 && s[0..1] == Decimal.NatToString(a) && s[1] == ' '
    requires s[2] == Arith.Symbol(o1)[0] && s[3] == ' ' && s[4..5] == Decimal.NatToString(b)
    requires s[5] == ' ' && s[6] == Arith.Symbol(o2)[0] && s[7] == ' '
    requires s[8..9] == Decimal.NatToString(c)
    ensures LexAll(s, 0) == Stream(AtomTokens(Num(a)) + ChainTokens([Link(o1, Num(b)), Link(o2, Num(c))]), None)
  {
    var links := [Link(o1, Num(b)), Link(o2, Num(c))];
    NumLinks(o1, b, o2, c, links);
    ChainFrom5(s, a, o1, b, o2, c, links);
    ChainFrom1(s, a, o1, b, o2, c, links);
    ChainFrom0(s, a, o1, b, o2, c, links);
  }

  // The documented inputs.

  /** `2 + 3 + 4`: a chain of additions. */
  const SumText := "2 + 3 + 4"
  const SumFirst := Num(2)
  const SumLinks := [Link(Arith.AddOp, Num(3)), Link(Arith.AddOp, Num(4))]

  lemma SumLexes()
    ensures LexAll(SumText, 0) == Stream(AtomTokens(SumFirst) + ChainTokens(SumLinks), None)
  {
    ChainLexes(SumText, 2, Arith.AddOp, 3, Arith.AddOp, 4);
  }

  /** `2 * 3 * 4`: a chain of multiplications. */
  const ProductText := "2 * 3 * 4"
  const ProductFirst := Num(2)
  const ProductLinks := [Link(Arith.MulOp, Num(3)), Link(Arith.MulOp, Num(4))]

  lemma ProductLexes()
    ensures LexAll(ProductText, 0) == Stream(AtomTokens(ProductFirst) + ChainTokens(ProductLinks), None)
  {
    ChainLexes(ProductText, 2, Arith.MulOp, 3, Arith.MulOp, 4);
  }

  /** `2 * 3 + 4`: a product followed by an addition. */
  const MixedText := "2 * 3 + 4"
  const MixedFirst := Num(2)
  const MixedLinks := [Link(Arith.MulOp, Num(3)), Link(Arith.AddOp, Num(4))]

  lemma MixedLexes()
    ensures LexAll(MixedText, 0) == Stream(AtomTokens(MixedFirst) + ChainTokens(MixedLinks), None)
  {
    ChainLexes(MixedText, 2, Arith.MulOp, 3, Arith.AddOp, 4);
  }

  /** `2 - 3 - 4`: a chain of subtractions. */
  const DifferenceText := "2 - 3 - 4"
  const DifferenceFirst := Num(2)
  const DifferenceLinks := [Link(Arith.SubOp, Num(3)), Link(Arith.SubOp, Num(4))]

  lemma DifferenceLexes()
    ensures LexAll(DifferenceText, 0) == Stream(AtomTokens(DifferenceFirst) + ChainTokens(DifferenceLinks), None)
  {
    ChainLexes(DifferenceText, 2, Arith.SubOp, 3, Arith.SubOp, 4);
  }

  /** `(2 + 3) * 4`: a parenthesised sum times a number. */
  const GroupTimesFirst := Bin(Arith.AddOp, Num(2), Num(3))
  const GroupTimesLinks := [Link(Arith.MulOp, Num(4))]

  /** `4 * (2 + 3)`: a number times a parenthesised sum. */
  const TimesGroupFirst := Num(4)
  const TimesGroupLinks := [Link(Arith.MulOp, Bin(Arith.AddOp, Num(2), Num(3)))]

  /** `(2 * 3) + 4`: a parenthesised product plus a number. */
  const GroupPlusFirst := Bin(Arith.MulOp, Num(2), Num(3))
  const GroupPlusLinks := [Link(Arith.AddOp, Num(4))]

  /** `(2 - 3) - (4 - 10)`: the difference of two parenthesised differences. */
  const GroupsFirst := Bin(Arith.SubOp, Num(2), Num(3))
  const GroupsLinks := [Link(Arith.SubOp, Bin(Arith.SubOp, Num(4), Num(10)))]
}
