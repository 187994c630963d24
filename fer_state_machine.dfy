/**
 * The hand-written bottom-up recogniser for left-skewed parentheses: three
 * action functions, one per state, edit a list stack in place and return
 * the next state; a driver calls them until a state below zero comes back.
 * With these actions it accepts a run of '(' optionally followed by one
 * ')', the empty text included, exactly as the table-driven parser does.
 */
module FerStateMachine {
  import opened Wrappers
  import opened Tokens
  import ParenLexer
  import opened ParseState
  import LhplShiftReduce

  /** A stack entry: a token kind, or the name of a non-terminal. */
  datatype Sym = Term(k: Kind) | NonTerm(name: string)

  /** The stack, a list the action functions edit in place. */
  class Stack {
    var items: seq<Sym>

    constructor()
      ensures items == []
    {
      items := [];
    }
  }

  /** `stack[-n:]`: for n == 0 this is the whole list, as in Python. */
  function Tail<T>(items: seq<T>, n: nat): seq<T>
    requires n <= |items|
  {
    if n == 0 then items else items[|items| - n..]
  }

  /** `match_and_pop(stack, pattern)`: whether it matched, and the stack after. */
  function MatchPop<T(==)>(items: seq<T>, pattern: seq<T>): (r: (bool, seq<T>))
    ensures !r.0 ==> r.1 == items
  {
    if |items| < |pattern| then (false, items)
    else if Tail(items, |pattern|) == pattern then (true, items[..|items| - |pattern|])
    else (false, items)
  }

  /**
   * For a pattern that is not empty, `match_and_pop` matches exactly when
   * the stack ends with the pattern, and then removes just that suffix.
   */
  lemma MatchPopSuffix<T>(items: seq<T>, pattern: seq<T>)
    requires |pattern| > 0
    ensures MatchPop(items, pattern).0 <==> |pattern| <= |items| && items[|items| - |pattern|..] == pattern
    ensures MatchPop(items, pattern).0 ==> MatchPop(items, pattern).1 + pattern == items
  {
    if MatchPop(items, pattern).0 {
      assert items[..|items| - |pattern|] + items[|items| - |pattern|..] == items;
    }
  }

  /** The empty pattern, which the source never passes, matches only the empty stack. */
  lemma MatchPopEmpty<T>(items: seq<T>)
    ensures MatchPop(items, []) == (|items| == 0, items)
  {
    if |items| == 0 {
      assert items[..0] == items;
    }
  }

  /** `match_and_pop` on the stack the actions share. */
  method MatchAndPop(stack: Stack, pattern: seq<Sym>) returns (matched: bool)
    modifies stack
    ensures (matched, stack.items) == MatchPop(old(stack.items), pattern)
  {
    var n := |pattern|;
    if |stack.items| < n {
      return false;
    }
    var tail := if n == 0 then stack.items else stack.items[|stack.items| - n..];
    if tail == pattern {
      stack.items := stack.items[..|stack.items| - n];
      return true;
    }
    return false;
  }

  /** One action: the next state, the stack after it and what the lexer has left. */
  type Outcome = Result<(int, seq<Sym>, ParenLexer.Stream)>

  /** `shift_0`: reads a token; '(' stays in state 0, ')' and EOF go to state 1. */
  function ShiftZero(items: seq<Sym>, rest: ParenLexer.Stream): (r: Outcome)
    ensures r.Ok? ==> r.value.0 == 0 || r.value.0 == 1
    ensures r.Ok? ==> |r.value.2.tokens| < |rest.tokens| || (|rest.tokens| == 0 && r.value.0 == 1)
  {
    var (t, more) := ParenLexer.Read(rest);
    if t.Err? then Err(t.error)
    else if t.value.kind == LPR then Ok((0, items + [Term(LPR)], more))
    else if t.value.kind == RPR then Ok((1, items + [NonTerm("P"), Term(RPR)], more))
    else if t.value.kind == EOF then Ok((1, items + [NonTerm("S")], more))
    else Err(ValueError("Unknown token: " + t.value.text))
  }

  const OpenGroup: seq<Sym> := [Term(LPR), NonTerm("P"), Term(RPR)]
  const OpenStart: seq<Sym> := [Term(LPR), NonTerm("S")]

  /** `reduce_1`: the three reductions in order, then acceptance of [S]. */
  function ReduceOne(items: seq<Sym>): (r: Result<(int, seq<Sym>)>)
    ensures r.Ok? ==> r.value.0 == -1 || r.value.0 == 1 || r.value.0 == 2
  {
    var (a, after_a) := MatchPop(items, OpenGroup);
    if a then Ok((2, after_a + [NonTerm("P")]))
    else
      var (b, after_b) := MatchPop(items, [NonTerm("P")]);
      if b then Ok((1, after_b + [NonTerm("S")]))
      else
        var (c, after_c) := MatchPop(items, OpenStart);
        if c then Ok((1, after_c + [NonTerm("S")]))
        else if items == [NonTerm("S")] then Ok((-1, items))
        else Err(ValueError("Reduce error"))
  }

  /** `shift_2`: reads a token; ')' pushes P and ')', EOF pushes nothing, both go to state 1. */
  function ShiftTwo(items: seq<Sym>, rest: ParenLexer.Stream): (r: Outcome)
    ensures r.Ok? ==> r.value.0 == 1
    ensures r.Ok? ==> |r.value.2.tokens| < |rest.tokens| || (|rest.tokens| == 0 && r.value.1 == items)
  {
    var (t, more) := ParenLexer.Read(rest);
    if t.Err? then Err(t.error)
    else if t.value.kind == RPR then Ok((1, items + [NonTerm("P"), Term(RPR)], more))
    else if t.value.kind == EOF then Ok((1, items, more))
    else Err(ValueError("Reduce error"))
  }

  /** `state_machine[state](stack, lexer)`. */
  function Act(state: int, items: seq<Sym>, rest: ParenLexer.Stream): (r: Outcome)
    requires 0 <= state <= 2
    ensures r.Ok? ==> -1 <= r.value.0 <= 2
    ensures r.Ok? ==> |r.value.2.tokens| <= |rest.tokens|
    ensures r.Ok? && |r.value.2.tokens| == |rest.tokens| ==>
      Phase(r.value.0) < Phase(state) ||
      (Phase(r.value.0) == Phase(state) && Weight(r.value.0, r.value.1) < Weight(state, items))
  {
    if state == 0 then ShiftZero(items, rest)
    else if state == 2 then ShiftTwo(items, rest)
    else
      ReduceOneWeight(items);
      var r :- ReduceOne(items);
      Ok((r.0, r.1, rest))
  }

  /** State 0 is never entered again once left. */
  function Phase(state: int): nat {
    if state == 0 then 1 else 0
  }

  /** What each reduction, each EOF read in state 2 and the final return decrease. */
  function Weight(state: int, items: seq<Sym>): nat {
    3 * |items| + (if |items| > 0 && items[|items| - 1] == NonTerm("P") then 1 else 0) +
    (if state == 2 then 2 else if state >= 0 then 1 else 0)
  }

  /** Every reduction shortens the stack or turns the P on top into S, and [S] ends the run. */
  lemma ReduceOneWeight(items: seq<Sym>)
    ensures ReduceOne(items).Ok? ==> Weight(ReduceOne(items).value.0, ReduceOne(items).value.1) < Weight(1, items)
  {
    MatchPopSuffix(items, OpenGroup);
    MatchPopSuffix(items, [NonTerm("P")]);
    MatchPopSuffix(items, OpenStart);
    var (a, x) := MatchPop(items, OpenGroup);
    var (b, y) := MatchPop(items, [NonTerm("P")]);
    var (c, z) := MatchPop(items, OpenStart);
    if a {
      GroupWeight(items, x);
    } else if b {
      PWeight(items, y);
    } else if c {
      StartWeight(items, z);
    }
  }

  /** Reducing `( P )` to P: the stack loses two entries and ends in P. */
  lemma GroupWeight(items: seq<Sym>, x: seq<Sym>)
    requires items == x + OpenGroup
    ensures Weight(2, x + [NonTerm("P")]) < Weight(1, items)
  {
    assert items[|items| - 1] == Term(RPR);
    assert |x + [NonTerm("P")]| == |x| + 1;
  }

  /** Reducing P to S: the stack keeps its height and no longer ends in P. */
  lemma PWeight(items: seq<Sym>, y: seq<Sym>)
    requires items == y + [NonTerm("P")]
    ensures Weight(1, y + [NonTerm("S")]) < Weight(1, items)
  {
    assert items[|items| - 1] == NonTerm("P");
    assert (y + [NonTerm("S")])[|y|] == NonTerm("S");
  }

  /** Reducing `( S` to S: the stack loses an entry. */
  lemma StartWeight(items: seq<Sym>, z: seq<Sym>)
    requires items == z + OpenStart
    ensures Weight(1, z + [NonTerm("S")]) < Weight(1, items)
  {
    assert (z + [NonTerm("S")])[|z|] == NonTerm("S");
  }

  /** The driver loop from a state, a stack and the tokens left: the exception it ends with, or success. */
  function Drive(state: int, items: seq<Sym>, rest: ParenLexer.Stream): Result<()>
    requires -1 <= state <= 2
    decreases |rest.tokens|, Phase(state), Weight(state, items)
  {
    if state < 0 then Ok(())
    else
      var (next, items2, rest2) :- Act(state, items, rest);
      Drive(next, items2, rest2)
  }

  /** `test_parser(s)`: "valid", "invalid" on a ValueError, or an exception it does not catch. */
  function Verdict(s: string): Result<bool> {
    Verdict'(Drive(0, [], ParenLexer.LexAll(s, 0)))
  }

  method Shift0(stack: Stack, lexer: ParenLexer.Lexer) returns (r: Result<int>)
    requires lexer.Valid()
    modifies stack, lexer
    ensures lexer.Valid()
    ensures match ShiftZero(old(stack.items), old(lexer.Remaining()))
      case Ok(o) => r == Ok(o.0) && stack.items == o.1 && lexer.Remaining() == o.2
      case Err(e) => r == Err(e)
  {
    ParenLexer.NextValidReadsStream(lexer.input, lexer.position);
    var token := lexer.NextValidToken();
    if token.Err? {
      return Err(token.error);
    }
    if token.value.kind == LPR {
      stack.items := stack.items + [Term(LPR)];
      return Ok(0);
    } else if token.value.kind == RPR {
      stack.items := stack.items + [NonTerm("P")];
      stack.items := stack.items + [Term(RPR)];
      return Ok(1);
    } else if token.value.kind == EOF {
      stack.items := stack.items + [NonTerm("S")];
      return Ok(1);
    }
    return Err(ValueError("Unknown token: " + token.value.text));
  }

  method Reduce1(stack: Stack) returns (r: Result<int>)
    modifies stack
    ensures match ReduceOne(old(stack.items))
      case Ok(o) => r == Ok(o.0) && stack.items == o.1
      case Err(e) => r == Err(e)
  {
    var m := MatchAndPop(stack, OpenGroup);
    if m {
      stack.items := stack.items + [NonTerm("P")];
      return Ok(2);
    }
    m := MatchAndPop(stack, [NonTerm("P")]);
    if m {
      stack.items := stack.items + [NonTerm("S")];
      return Ok(1);
    }
    m := MatchAndPop(stack, OpenStart);
    if m {
      stack.items := stack.items + [NonTerm("S")];
      return Ok(1);
    }
    if stack.items == [NonTerm("S")] {
      return Ok(-1);
    }
    return Err(ValueError("Reduce error"));
  }

  method Shift2(stack: Stack, lexer: ParenLexer.Lexer) returns (r: Result<int>)
    requires lexer.Valid()
    modifies stack, lexer
    ensures lexer.Valid()
    ensures match ShiftTwo(old(stack.items), old(lexer.Remaining()))
      case Ok(o) => r == Ok(o.0) && stack.items == o.1 && lexer.Remaining() == o.2
      case Err(e) => r == Err(e)
  {
    ParenLexer.NextValidReadsStream(lexer.input, lexer.position);
    var token := lexer.NextValidToken();
    if token.Err? {
      return Err(token.error);
    }
    if token.value.kind == RPR {
      stack.items := stack.items + [NonTerm("P")];
      stack.items := stack.items + [Term(RPR)];
      return Ok(1);
    } else if token.value.kind == EOF {
      return Ok(1);
    }
    return Err(ValueError("Reduce error"));
  }

  /** The body of `test_parser`: the driver loop over a fresh lexer and an empty stack. */
  method TestParser(s: string) returns (r: Result<bool>)
    ensures r == Verdict(s)
  {
    var lexer := new ParenLexer.Lexer(s);
    var stack := new Stack();
    var nextState := 0;
    while nextState >= 0
      invariant lexer.Valid() && -1 <= nextState <= 2
      invariant Drive(nextState, stack.items, lexer.Remaining()) == Drive(0, [], ParenLexer.LexAll(s, 0))
      decreases |lexer.Remaining().tokens|, Phase(nextState), Weight(nextState, stack.items)
    {
      var step: Result<int>;
      if nextState == 0 {
        step := Shift0(stack, lexer);
      } else if nextState == 1 {
        step := Reduce1(stack);
      } else {
        step := Shift2(stack, lexer);
      }
      if step.Err? {
        if step.error.ValueError? {
          return Ok(false);
        }
        return Err(step.error);
      }
      nextState := step.value;
    }
    return Ok(true);
  }

  // What the driver accepts.

  /** One call of the driver loop. */
  lemma DriveStep(state: int, items: seq<Sym>, rest: ParenLexer.Stream)
    requires 0 <= state <= 2
    ensures Drive(state, items, rest) ==
      match Act(state, items, rest)
      case Ok(o) => Drive(o.0, o.1, o.2)
      case Err(e) => Err(e)
  {
  }

  /** The stack after shifting `k` '(' tokens. */
  function Opens(k: nat): (items: seq<Sym>)
    ensures |items| == k
  {
    if k == 0 then [] else Opens(k - 1) + [Term(LPR)]
  }

  /** A stack that differs from the pattern `i` places from the top does not match it. */
  lemma NoMatchAt<T>(items: seq<T>, pattern: seq<T>, i: nat)
    requires i < |pattern| && i < |items|
    requires items[|items| - 1 - i] != pattern[|pattern| - 1 - i]
    ensures MatchPop(items, pattern) == (false, items)
  {
    if |pattern| <= |items| {
      assert Tail(items, |pattern|)[|pattern| - 1 - i] == items[|items| - 1 - i];
    }
  }

  /** A stack that ends with the pattern matches it, leaving what lies below. */
  lemma MatchOnTop<T>(x: seq<T>, pattern: seq<T>)
    requires |pattern| > 0
    ensures MatchPop(x + pattern, pattern) == (true, x)
  {
    var items := x + pattern;
    assert items[|items| - |pattern|..] == pattern;
    assert items[..|items| - |pattern|] == x;
  }

  /** A '(' read in state 0 is pushed and state 0 repeats. */
  lemma DriveOpen(w: seq<Token>, k: nat)
    requires |w| > 0 && w[0].kind == LPR
    ensures Drive(0, Opens(k), ParenLexer.Stream(w, None)) == Drive(0, Opens(k + 1), ParenLexer.Stream(w[1..], None))
  {
    var rest := ParenLexer.Stream(w, None);
    var more := ParenLexer.Stream(w[1..], None);
    assert ParenLexer.Read(rest) == (Ok(w[0]), more);
    assert ShiftZero(Opens(k), rest) == Ok((0, Opens(k + 1), more));
    DriveStep(0, Opens(k), rest);
  }

  /** A run of `n` '(' is pushed in state 0. */
  lemma {:induction false} DriveOpens(w: seq<Token>, k: nat, n: nat)
    requires n <= |w|
    requires forall i :: 0 <= i < n ==> w[i].kind == LPR
    ensures Drive(0, Opens(k), ParenLexer.Stream(w, None)) ==
      Drive(0, Opens(k + n), ParenLexer.Stream(w[n..], None))
    decreases n
  {
    if n == 0 {
      assert w[0..] == w;
    } else {
      DriveOpen(w, k);
      OpensAfterFirst(w, n);
      DriveOpens(w[1..], k + 1, n - 1);
      SameDrive(k + 1 + (n - 1), k + n, w[1..][n - 1..], w[n..]);
    }
  }

  /** Past a first '(' of a run of `n`, a run of `n - 1` follows. */
  lemma OpensAfterFirst(w: seq<Token>, n: nat)
    requires 0 < n <= |w|
    requires forall i :: 0 <= i < n ==> w[i].kind == LPR
    ensures forall i :: 0 <= i < n - 1 ==> w[1..][i].kind == LPR
  {
    forall i | 0 <= i < n - 1
      ensures w[1..][i].kind == LPR
    {
      assert w[1..][i] == w[i + 1];
    }
  }

  lemma SameDrive(k: nat, k': nat, w: seq<Token>, w': seq<Token>)
    requires k == k' && w == w'
    ensures Drive(0, Opens(k), ParenLexer.Stream(w, None)) == Drive(0, Opens(k'), ParenLexer.Stream(w', None))
  {
  }

  /** '(' S on top reduces to S. */
  lemma ReduceOpenStart(x: seq<Sym>)
    ensures ReduceOne(x + OpenStart) == Ok((1, x + [NonTerm("S")]))
  {
    var items := x + OpenStart;
    NoMatchAt(items, OpenGroup, 0);
    NoMatchAt(items, [NonTerm("P")], 0);
    MatchOnTop(x, OpenStart);
  }

  /** [S] alone is accepted. */
  lemma ReduceLoneStart()
    ensures ReduceOne([NonTerm("S")]) == Ok((-1, [NonTerm("S")]))
  {
    NoMatchAt([NonTerm("S")], [NonTerm("P")], 0);
  }

  /** With S on top of `k` '(' entries, LPR S reduces to S; [S] alone ends the run. */
  lemma ReduceOnStarts(k: nat)
    ensures ReduceOne(Opens(k) + [NonTerm("S")]) ==
      if k == 0 then Ok((-1, [NonTerm("S")])) else Ok((1, Opens(k - 1) + [NonTerm("S")]))
  {
    if k == 0 {
      assert Opens(k) + [NonTerm("S")] == [NonTerm("S")];
      ReduceLoneStart();
    } else {
      assert Opens(k) + [NonTerm("S")] == Opens(k - 1) + OpenStart;
      ReduceOpenStart(Opens(k - 1));
    }
  }

  /** With S on top of `k` '(' entries the run accepts. */
  lemma {:induction false} FoldStarts(k: nat, rest: ParenLexer.Stream)
    ensures Drive(1, Opens(k) + [NonTerm("S")], rest) == Ok(())
    decreases k
  {
    if k == 0 {
      FoldLast(rest);
    } else {
      FoldOne(k, rest);
      FoldStarts(k - 1, rest);
    }
  }

  /** S on top of '(' reduces to S one entry lower. */
  lemma FoldOne(k: nat, rest: ParenLexer.Stream)
    requires k > 0
    ensures Drive(1, Opens(k) + [NonTerm("S")], rest) == Drive(1, Opens(k - 1) + [NonTerm("S")], rest)
  {
    ReduceOnStarts(k);
    DriveStep(1, Opens(k) + [NonTerm("S")], rest);
  }

  /** A lone S is accepted. */
  lemma FoldLast(rest: ParenLexer.Stream)
    ensures Drive(1, Opens(0) + [NonTerm("S")], rest) == Ok(())
  {
    ReduceOnStarts(0);
    DriveStep(1, Opens(0) + [NonTerm("S")], rest);
  }

  /** At the end of the input, state 0 pushes S and the run accepts. */
  lemma DriveEnd(k: nat)
    ensures Drive(0, Opens(k), ParenLexer.Stream([], None)) == Ok(())
  {
    var rest := ParenLexer.Stream([], None);
    assert Act(0, Opens(k), rest) == Ok((1, Opens(k) + [NonTerm("S")], rest));
    DriveStep(0, Opens(k), rest);
    FoldStarts(k, rest);
  }

  /** A ')' with no '(' below it leaves [P, ')'], which no reduction matches. */
  lemma DriveStrayClose(u: seq<Token>)
    requires |u| > 0 && u[0].kind == RPR
    ensures Drive(0, Opens(0), ParenLexer.Stream(u, None)) == Err(ValueError("Reduce error"))
  {
    var items := [NonTerm("P"), Term(RPR)];
    var rest := ParenLexer.Stream(u, None);
    var more := ParenLexer.Stream(u[1..], None);
    assert Opens(0) == [];
    assert ParenLexer.Read(rest) == (Ok(u[0]), more);
    assert Opens(0) + [NonTerm("P"), Term(RPR)] == items;
    assert ShiftZero(Opens(0), rest) == Ok((1, items, more));
    assert Act(0, Opens(0), rest) == Ok((1, items, more));
    DriveStep(0, Opens(0), rest);
    NoMatchAt(items, [NonTerm("P")], 0);
    NoMatchAt(items, OpenStart, 0);
    DriveStep(1, items, more);
  }

  /** The first ')' after some '(' is reduced with one of them to P, and state 2 follows. */
  lemma DriveFirstClose(u: seq<Token>, k: nat)
    requires |u| > 0 && u[0].kind == RPR && k > 0
    ensures Drive(0, Opens(k), ParenLexer.Stream(u, None)) ==
      Drive(2, Opens(k - 1) + [NonTerm("P")], ParenLexer.Stream(u[1..], None))
  {
    var items := Opens(k) + [NonTerm("P"), Term(RPR)];
    var rest := ParenLexer.Stream(u, None);
    var more := ParenLexer.Stream(u[1..], None);
    assert Act(0, Opens(k), rest) == Ok((1, items, more));
    DriveStep(0, Opens(k), rest);
    assert items == Opens(k - 1) + OpenGroup;
    MatchOnTop(Opens(k - 1), OpenGroup);
    DriveStep(1, items, more);
  }

  /** EOF in state 2: P on top becomes S and the run accepts. */
  lemma DriveClosedEnd(j: nat)
    ensures Drive(2, Opens(j) + [NonTerm("P")], ParenLexer.Stream([], None)) == Ok(())
  {
    var items := Opens(j) + [NonTerm("P")];
    var rest := ParenLexer.Stream([], None);
    assert Act(2, items, rest) == Ok((1, items, rest));
    DriveStep(2, items, rest);
    NoMatchAt(items, OpenGroup, 0);
    MatchOnTop(Opens(j), [NonTerm("P")]);
    assert Act(1, items, rest) == Ok((1, Opens(j) + [NonTerm("S")], rest));
    DriveStep(1, items, rest);
    FoldStarts(j, rest);
  }

  /** Any token after the first ')' fails: '(' in state 2, and a second ')' in the reduction. */
  lemma DriveClosedMore(u: seq<Token>, j: nat)
    requires |u| > 0 && (u[0].kind == LPR || u[0].kind == RPR)
    ensures Drive(2, Opens(j) + [NonTerm("P")], ParenLexer.Stream(u, None)) == Err(ValueError("Reduce error"))
  {
    var rest := ParenLexer.Stream(u, None);
    DriveStep(2, Opens(j) + [NonTerm("P")], rest);
    if u[0].kind == RPR {
      var items := Opens(j) + [NonTerm("P"), NonTerm("P"), Term(RPR)];
      var more := ParenLexer.Stream(u[1..], None);
      assert Opens(j) + [NonTerm("P")] + [NonTerm("P"), Term(RPR)] == items;
      assert Act(2, Opens(j) + [NonTerm("P")], rest) == Ok((1, items, more));
      NoMatchAt(items, OpenGroup, 2);
      NoMatchAt(items, [NonTerm("P")], 0);
      NoMatchAt(items, OpenStart, 0);
      DriveStep(1, items, more);
    }
  }

  /** `test_parser` on a text of parentheses: the leading '(' are shifted first. */
  lemma VerdictFromOpens(s: string)
    requires forall i :: 0 <= i < |s| ==> IsParenChar(s[i])
    ensures var w := ParenTokens(s); var n := LeadingOpens(w);
      Verdict(s) == Verdict'(Drive(0, Opens(n), ParenLexer.Stream(w[n..], None)))
  {
    LexedParens(s);
    NoOpens();
    DriveFromOpens(ParenTokens(s));
  }

  /** A text of parentheses lexes, with no error, into its parenthesis tokens. */
  lemma LexedParens(s: string)
    requires forall i :: 0 <= i < |s| ==> IsParenChar(s[i])
    ensures ParenLexer.LexAll(s, 0) == ParenLexer.Stream(ParenTokens(s), None)
  {
    LexParens(s, 0);
    assert s[0..] == s;
  }

  /** From the empty stack, the driver first shifts the whole leading run of '('. */
  lemma DriveFromOpens(w: seq<Token>)
    ensures Drive(0, Opens(0), ParenLexer.Stream(w, None)) ==
      Drive(0, Opens(LeadingOpens(w)), ParenLexer.Stream(w[LeadingOpens(w)..], None))
  {
    DriveOpens(w, 0, LeadingOpens(w));
  }

  lemma NoOpens()
    ensures Opens(0) == []
  {
  }

  /** How `test_parser` reports the driver's result. */
  function Verdict'(r: Result<()>): Result<bool> {
    if r.Ok? then Ok(true)
    else if r.error.ValueError? then Ok(false)
    else Err(r.error)
  }

  /** After the '(' run: the end, or a ')' and whatever follows it. */
  lemma DriveAfterOpens(u: seq<Token>, n: nat)
    requires |u| > 0 ==> u[0].kind == RPR
    requires |u| > 1 ==> u[1].kind == LPR || u[1].kind == RPR
    ensures Verdict'(Drive(0, Opens(n), ParenLexer.Stream(u, None))) == Ok(|u| == 0 || (n > 0 && |u| == 1))
  {
    if |u| == 0 {
      DriveEnd(n);
    } else if n == 0 {
      DriveStrayClose(u);
    } else {
      DriveFirstClose(u, n);
      var v := u[1..];
      if |u| == 1 {
        assert v == [];
        DriveClosedEnd(n - 1);
      } else {
        assert v[0] == u[1];
        DriveClosedMore(v, n - 1);
      }
    }
  }

  /**
   * On a text of parentheses with a leading run of n '(', `test_parser`
   * reports valid exactly when the text is that run, or that run (n > 0)
   * and one ')'; every failure is a ValueError, reported as invalid.
   */
  lemma VerdictOnParens(s: string)
    requires forall i :: 0 <= i < |s| ==> IsParenChar(s[i])
    ensures var n := LeadingOpens(ParenTokens(s));
      Verdict(s) == Ok(n == |s| || (n > 0 && n + 1 == |s|))
  {
    var w := ParenTokens(s);
    var n := LeadingOpens(w);
    var u := w[n..];
    if n < |w| {
      assert u[0] == w[n];
    }
    if n + 1 < |w| {
      assert u[1] == w[n + 1];
    }
    VerdictFromOpens(s);
    DriveAfterOpens(u, n);
  }

  /** On texts of parentheses the state machine and the table-driven parser accept the same texts. */
  lemma AgreesWithTables(s: string)
    requires forall i :: 0 <= i < |s| ==> IsParenChar(s[i])
    ensures Verdict(s) == Ok(LhplShiftReduce.Recognize(s).Ok?)
  {
    VerdictOnParens(s);
    LhplShiftReduce.RecognizesRunAndClose(s);
  }

  // The documented runs.

  /** Popping [4, 5] off [1, 2, 3, 4, 5] leaves [1, 2, 3]; [3, 4] is not on top and nothing changes. */
  lemma MatchPopExamples()
    ensures MatchPop([1, 2, 3, 4, 5], [4, 5]) == (true, [1, 2, 3])
    ensures MatchPop([1, 2, 3, 4, 5], [3, 4]) == (false, [1, 2, 3, 4, 5])
  {
    MatchOnTop([1, 2, 3], [4, 5]);
    assert [1, 2, 3] + [4, 5] == [1, 2, 3, 4, 5];
    assert Tail([1, 2, 3, 4, 5], 2) == [4, 5];
  }

  /** The single steps shown for `shift_0`, `reduce_1` and `shift_2`. */
  lemma ActionExamples()
    ensures ShiftZero([], ParenLexer.Stream([Token("(", LPR)], None)).Ok?
    ensures ShiftZero([], ParenLexer.Stream([Token("(", LPR)], None)).value.0 == 0
    ensures ShiftZero([], ParenLexer.Stream([Token("(", LPR)], None)).value.1 == [Term(LPR)]
    ensures ReduceOne(OpenGroup) == Ok((2, [NonTerm("P")]))
    ensures ShiftTwo([NonTerm("P")], ParenLexer.Stream([Token(")", RPR)], None)).Ok?
    ensures ShiftTwo([NonTerm("P")], ParenLexer.Stream([Token(")", RPR)], None)).value.0 == 1
    ensures ShiftTwo([NonTerm("P")], ParenLexer.Stream([Token(")", RPR)], None)).value.1 ==
      [NonTerm("P"), NonTerm("P"), Term(RPR)]
  {
    var none: seq<Sym> := [];
    assert none + OpenGroup == OpenGroup;
    MatchOnTop(none, OpenGroup);
    assert MatchPop(OpenGroup, OpenGroup) == (true, none);
    assert none + [NonTerm("P")] == [NonTerm("P")];
  }

  /** '()' is reported valid. */
  lemma PairExample()
    ensures Verdict("()") == Ok(true)
  {
    var s := "()";
    LeadingOpensAt(ParenTokens(s), 1);
    VerdictOnParens(s);
  }

  /** '(()' is reported valid. */
  lemma OpenPairExample()
    ensures Verdict("(()") == Ok(true)
  {
    var s := "(()";
    LeadingOpensAt(ParenTokens(s), 2);
    VerdictOnParens(s);
  }

  /** '(' is reported valid. */
  lemma OpenExample()
    ensures Verdict("(") == Ok(true)
  {
    var s := "(";
    LeadingOpensAt(ParenTokens(s), 1);
    VerdictOnParens(s);
  }

  /** '())' is reported invalid. */
  lemma ExtraCloseExample()
    ensures Verdict("())") == Ok(false)
  {
    var s := "())";
    LeadingOpensAt(ParenTokens(s), 1);
    VerdictOnParens(s);
  }

  /** '(()))' is reported invalid. */
  lemma NestedExtraCloseExample()
    ensures Verdict("(()))") == Ok(false)
  {
    var s := "(()))";
    LeadingOpensAt(ParenTokens(s), 2);
    VerdictOnParens(s);
  }

  /** '()()' is reported invalid. */
  lemma TwoPairsExample()
    ensures Verdict("()()") == Ok(false)
  {
    var s := "()()";
    LeadingOpensAt(ParenTokens(s), 1);
    VerdictOnParens(s);
  }

  /** ')(' is reported invalid. */
  lemma CloseOpenExample()
    ensures Verdict(")(") == Ok(false)
  {
    var s := ")(";
    LeadingOpensAt(ParenTokens(s), 0);
    VerdictOnParens(s);
  }
}
