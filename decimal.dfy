/**
 * Decimal text of natural numbers and integers, as Python's `str(n)`,
 * f-string interpolation and `int(text)` produce and read it. Digits here
 * are the ASCII digits '0'..'9'.
 */
module Decimal {
  import opened Wrappers

  predicate IsDigit(c: char) { '0' <= c <= '9' }

  predicate AllDigits(s: string) { forall i :: 0 <= i < |s| ==> IsDigit(s[i]) }

  function DigitChar(d: nat): (c: char)
    requires d < 10
    ensures IsDigit(c) && c as int - '0' as int == d
  {
    ('0' as int + d) as char
  }

  function DigitValue(c: char): (d: nat)
    requires IsDigit(c)
    ensures d < 10 && DigitChar(d) == c
  {
    c as int - '0' as int
  }

  /** `str(n)` for a non-negative Python int: no leading zeros, at least one digit. */
  function NatToString(n: nat): (s: string)
    ensures |s| >= 1 && AllDigits(s)
    ensures |s| > 1 ==> s[0] != '0'
    decreases n
  {
    if n < 10 then [DigitChar(n)] else NatToString(n / 10) + [DigitChar(n % 10)]
  }

  /** `int(s)` for a string of decimal digits (leading zeros allowed). */
  function DigitsToNat(s: string): nat
    requires AllDigits(s)
    decreases |s|
  {
    if |s| == 0 then 0 else DigitsToNat(s[..|s| - 1]) * 10 + DigitValue(s[|s| - 1])
  }

  /** `str(i)` for any Python int: a minus sign before the digits of |i|. */
  function IntToString(i: int): (s: string)
    ensures |s| >= 1
    ensures i >= 0 ==> s == NatToString(i)
    ensures i < 0 ==> s == "-" + NatToString(-i)
  {
    if i >= 0 then NatToString(i) else "-" + NatToString(-i)
  }

  /** A number below 100 prints as its one or two digits. */
  lemma SmallNatToString(n: nat)
    requires n < 100
    ensures n < 10 ==> NatToString(n) == [DigitChar(n)]
    ensures n >= 10 ==> NatToString(n) == [DigitChar(n / 10), DigitChar(n % 10)]
  {
  }

  /** Reading back what `str` printed gives the number again. */
  lemma {:induction false} ParsePrinted(n: nat)
    ensures DigitsToNat(NatToString(n)) == n
    decreases n
  {
    if n >= 10 {
      var s := NatToString(n);
      assert s[..|s| - 1] == NatToString(n / 10);
      ParsePrinted(n / 10);
    }
  }

  /** Distinct numbers print as distinct strings. */
  lemma PrintInjective(a: nat, b: nat)
    ensures NatToString(a) == NatToString(b) <==> a == b
  {
    if NatToString(a) == NatToString(b) {
      ParsePrinted(a);
      ParsePrinted(b);
    }
  }

  /**
   * The white space `int(text)` strips from both ends of its argument, as far
   * as ASCII goes: space, tab, line feed, vertical tab, form feed, carriage return.
   */
  predicate IsIntSpace(c: char) { c == ' ' || '\t' <= c <= '\r' }

  predicate AllIntSpace(s: string) { forall i :: 0 <= i < |s| ==> IsIntSpace(s[i]) }

  function TrimStart(s: string): string
    decreases |s|
  {
    if |s| > 0 && IsIntSpace(s[0]) then TrimStart(s[1..]) else s
  }

  function TrimEnd(s: string): string
    decreases |s|
  {
    if |s| > 0 && IsIntSpace(s[|s| - 1]) then TrimEnd(s[..|s| - 1]) else s
  }

  /** Digits with single underscores between them: "1_000", but not "_1", "1_" or "1__0". */
  predicate Grouped(s: string)
    decreases |s|
  {
    |s| > 0 && IsDigit(s[|s| - 1]) &&
    (|s| == 1 ||
     (IsDigit(s[|s| - 2]) && Grouped(s[..|s| - 1])) ||
     (s[|s| - 2] == '_' && Grouped(s[..|s| - 2])))
  }

  /** The number grouped digits spell, the underscores ignored. */
  function GroupedValue(s: string): nat
    requires Grouped(s)
    decreases |s|
  {
    if |s| == 1 then DigitValue(s[0])
    else if IsDigit(s[|s| - 2]) then GroupedValue(s[..|s| - 1]) * 10 + DigitValue(s[|s| - 1])
    else GroupedValue(s[..|s| - 2]) * 10 + DigitValue(s[|s| - 1])
  }

  /**
   * `int(text)` with base 10: white space at both ends, then an optional sign
   * and grouped digits (leading zeros allowed); any other text raises
   * ValueError.
   */
  function ParseInt(text: string): (r: Result<int>)
    ensures r.Err? ==> r.error == ValueError("invalid literal for int() with base 10: '" + text + "'")
  {
    var t := TrimEnd(TrimStart(text));
    if |t| > 0 && (t[0] == '+' || t[0] == '-') && Grouped(t[1..]) then
      var n: int := GroupedValue(t[1..]);
      Ok(if t[0] == '-' then -n else n)
    else if Grouped(t) then Ok(GroupedValue(t))
    else Err(ValueError("invalid literal for int() with base 10: '" + text + "'"))
  }

  /** A run of digits is grouped digits, and spells the same number. */
  lemma {:induction false} DigitsAreGrouped(s: string)
    requires |s| > 0 && AllDigits(s)
    ensures Grouped(s) && GroupedValue(s) == DigitsToNat(s)
    decreases |s|
  {
    if |s| > 1 {
      var p := s[..|s| - 1];
      assert AllDigits(p) by {
        forall i | 0 <= i < |p| ensures IsDigit(p[i]) { assert p[i] == s[i]; }
      }
      DigitsAreGrouped(p);
    } else {
      assert DigitsToNat(s[..0]) == 0;
    }
  }

  /** `int` reads a non-empty run of digits as the number it spells. */
  lemma ParseDigits(s: string)
    ensures |s| > 0 && AllDigits(s) ==> ParseInt(s) == Ok(DigitsToNat(s))
  {
    if |s| > 0 && AllDigits(s) {
      assert TrimStart(s) == s;
      assert TrimEnd(s) == s;
      DigitsAreGrouped(s);
    }
  }

  /** `int(str(i)) == i` for every Python int. */
  lemma ParseIntToString(i: int)
    ensures ParseInt(IntToString(i)) == Ok(i)
  {
    if i >= 0 {
      ParseDigits(NatToString(i));
      ParsePrinted(i);
    } else {
      var d := NatToString(-i);
      var t := "-" + d;
      assert TrimStart(t) == t;
      assert t[|t| - 1] == d[|d| - 1];
      assert TrimEnd(t) == t;
      assert t[1..] == d;
      DigitsAreGrouped(d);
      ParsePrinted(-i);
    }
  }

  lemma {:induction false} TrimStartSpaces(pre: string, s: string)
    requires AllIntSpace(pre)
    ensures TrimStart(pre + s) == TrimStart(s)
    decreases |pre|
  {
    if |pre| > 0 {
      assert (pre + s)[1..] == pre[1..] + s;
      TrimStartSpaces(pre[1..], s);
    } else {
      assert pre + s == s;
    }
  }

  lemma {:induction false} TrimEndSpaces(s: string, post: string)
    requires AllIntSpace(post)
    ensures TrimEnd(s + post) == TrimEnd(s)
    decreases |post|
  {
    if |post| > 0 {
      assert (s + post)[..|s + post| - 1] == s + post[..|post| - 1];
      TrimEndSpaces(s, post[..|post| - 1]);
    } else {
      assert s + post == s;
    }
  }

  lemma {:induction false} TrimBothSpaces(s: string, post: string)
    requires AllIntSpace(post)
    ensures TrimEnd(TrimStart(s + post)) == TrimEnd(TrimStart(s))
    decreases |s|
  {
    if |s| == 0 {
      assert s + post == post;
      TrimStartSpaces(post, "");
      assert post + "" == post;
    } else if IsIntSpace(s[0]) {
      assert (s + post)[1..] == s[1..] + post;
      TrimBothSpaces(s[1..], post);
    } else {
      TrimEndSpaces(s, post);
    }
  }

  /** White space around the numeral changes neither whether `int` accepts it nor its value. */
  lemma ParseIntIgnoresSpace(pre: string, s: string, post: string)
    requires AllIntSpace(pre) && AllIntSpace(post)
    ensures ParseInt(pre + s + post).Ok? == ParseInt(s).Ok?
    ensures ParseInt(s).Ok? ==> ParseInt(pre + s + post).value == ParseInt(s).value
  {
    assert pre + s + post == pre + (s + post);
    TrimStartSpaces(pre, s + post);
    TrimBothSpaces(s, post);
  }

  /** `int` reads a sign before the digits. */
  lemma ParseIntSignExamples()
    ensures ParseInt("-5") == Ok(-5)
    ensures ParseInt("+3") == Ok(3)
  {
  }

  /** `int` drops the white space around the number. */
  lemma ParseIntSpaceExamples()
    ensures ParseInt(" 7 ") == Ok(7)
  {
  }

  /** `int` reads single underscores between digits. */
  lemma ParseIntUnderscoreExample()
    ensures ParseInt("1_0") == Ok(10)
  {
  }

  /** `int` reads leading zeros. */
  lemma ParseIntZerosExample()
    ensures ParseInt("007") == Ok(7)
  {
    ParseDigits("007");
    assert "007"[..2] == "00" && "00"[..1] == "0" && "0"[..0] == "";
  }

  /** `int` refuses an empty text and an underscore that is not between two digits. */
  lemma ParseIntRejectsGrouping()
    ensures ParseInt("").Err? && ParseInt("1__0").Err? && ParseInt("_1").Err? && ParseInt("1_").Err?
  {
  }

  /** `int` refuses a space after the sign, and a letter. */
  lemma ParseIntRejectsText()
    ensures ParseInt("- 5").Err? && ParseInt("x").Err?
  {
  }
}
