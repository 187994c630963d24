/**
 * The table-driven shift-reduce parser for S ::= P, P ::= '(' P ')' | empty.
 * Its stack holds states and, between them, the tokens and non-terminals
 * it has shifted or reduced; one action table and one goto table drive
 * it. With these tables it accepts a run of '(' optionally followed by one
 * ')', the empty text included.
 */
module LhplShiftReduce {
  import opened Wrappers
  import opened Tokens
  import ParenLexer
  import opened ParseState

  /** A stack entry: a state number, a shifted token, or a reduced non-terminal. */
  datatype Entry = StateNo(n: int) | Sym(t: Token) | NonTerm(name: string)

  /** The actions of the table; the only reduction is P ::= ( P ). */
  datatype Action = Shift(next: int) | ReduceP | Accept

  /** `action_table.get((stack[-1], kind))`: a key whose first part is not a state has no action. */
  function ActionFor(top: Entry, k: Kind): (a: Option<Action>)
    ensures a == Some(Accept) <==> top == StateNo(2) && k == EOF
    ensures a == Some(ReduceP) <==> top == StateNo(2) && k == RPR
    ensures a.Some? && a.value.Shift? ==> (k == LPR || k == RPR) && top.StateNo? && 0 <= top.n <= 1
  {
    match top
    case StateNo(n) =>
      if n == 0 && k == LPR then Some(Shift(1))
      else if n == 1 && k == LPR then Some(Shift(1))
      else if n == 1 && k == RPR then Some(Shift(2))
      else if n == 2 && k == RPR then Some(ReduceP)
      else if n == 2 && k == EOF then Some(Accept)
      else None
    case _ => None
  }

  /** `goto_table.get((stack[-1], non_terminal))`. */
  function GotoFor(top: Entry, nt: string): (g: Option<int>)
    ensures g.Some? <==> (top == StateNo(0) && nt == "S") || (top == StateNo(1) && nt == "P")
  {
    if top == StateNo(0) && nt == "S" then Some(3)
    else if top == StateNo(1) && nt == "P" then Some(2)
    else None
  }

  /** One turn of the `while True` loop: it stops with a result, or goes on with a new token and stack. */
  datatype Turn = Done(r: Result<()>) | Next(st: State, stack: seq<Entry>)

  function TurnOf(st: State, stack: seq<Entry>): (t: Turn)
    ensures t.Next? ==>
      Rank(t.st) < Rank(st) || (t.st == st && |t.stack| < |stack|)
  {
    if |stack| == 0 then Done(Err(IndexError("list index out of range")))
    else
      match ActionFor(stack[|stack| - 1], st.cur.kind)
      case None =>
        if st.cur.kind != EOF then Done(Err(ValueError("Unexpected token: " + KindName(st.cur.kind))))
        else Done(Ok(()))
      case Some(Shift(next)) =>
        var pushed := stack + [Sym(st.cur), StateNo(next)];
        (match Advance(st)
         case Err(e) => Done(Err(e))
         case Ok(st2) => Next(st2, pushed))
      case Some(ReduceP) =>
        if |stack| < 4 then Done(Err(IndexError("pop from empty list")))
        else if |stack| == 4 then Done(Err(IndexError("list index out of range")))
        else
          var popped := stack[..|stack| - 4];
          (match GotoFor(popped[|popped| - 1], "P")
           case Some(g) => Next(st, popped + [NonTerm("P"), StateNo(g)])
           case None => Done(Err(ValueError("Unexpected reduction"))))
      case Some(Accept) => Done(Ok(()))
  }

  /** `parse()` from a token state and a stack: the state and stack it returns in, or the error it raises. */
  function Run(st: State, stack: seq<Entry>): (r: Result<(State, seq<Entry>)>)
    ensures r.Ok? ==> r.value.0.cur.kind == EOF
    decreases Rank(st), |stack|
  {
    match TurnOf(st, stack)
    case Done(r) => if r.Err? then Err(r.error) else Ok((st, stack))
    case Next(st2, stack2) => Run(st2, stack2)
  }

  /** `LRParser(Lexer(s)).parse()`. */
  function Recognize(s: string): Result<()> {
    var st :- Start(ParenLexer.LexAll(s, 0));
    var _ :- Run(st, [StateNo(0)]);
    Ok(())
  }

  class LRParser {
    const lexer: ParenLexer.Lexer
    var current: Token
    var stack: seq<Entry>

    predicate Valid()
      reads this, lexer
    {
      lexer.Valid()
    }

    /** The current token and what the lexer has yet to hand out. */
    function Config(): State
      reads this, lexer
      requires Valid()
    {
      State(current, lexer.Remaining())
    }

    constructor Init(l: ParenLexer.Lexer, first: Token)
      ensures lexer == l && current == first && stack == [StateNo(0)]
    {
      lexer := l;
      current := first;
      stack := [StateNo(0)];
    }

    /** `LRParser(lexer)`: reads the first token, which may raise, and starts the stack at state 0. */
    static method Create(l: ParenLexer.Lexer) returns (r: Result<LRParser>)
      requires l.Valid()
      modifies l
      ensures r.Ok? ==> fresh(r.value) && r.value.lexer == l && r.value.Valid()
      ensures r.Ok? ==> r.value.stack == [StateNo(0)]
      ensures match Start(old(l.Remaining()))
        case Ok(st) => r.Ok? && r.value.Config() == st
        case Err(e) => r == Err(e)
    {
      ParenLexer.NextValidReadsStream(l.input, l.position);
      var t := l.NextValidToken();
      if t.Err? {
        return Err(t.error);
      }
      var p := new LRParser.Init(l, t.value);
      return Ok(p);
    }

    method Parse() returns (r: Result<()>)
      requires Valid()
      modifies this, lexer
      ensures Valid()
      ensures match Run(old(Config()), old(stack))
        case Ok(fin) => r.Ok? && Config() == fin.0 && stack == fin.1
        case Err(e) => r == Err(e)
    {
      while true
        invariant Valid()
        invariant Run(Config(), stack) == Run(old(Config()), old(stack))
        decreases Rank(Config()), |stack|
      {
        var done := Step();
        if done.Some? {
          return done.value;
        }
      }
    }

    /** One pass of the loop in `parse`: `None` when the loop goes on. */
    method Step() returns (done: Option<Result<()>>)
      requires Valid()
      modifies this, lexer
      ensures Valid()
      ensures match TurnOf(old(Config()), old(stack))
        case Done(r) => done == Some(r) && (r.Ok? ==> Config() == old(Config()) && stack == old(stack))
        case Next(st, s) => done.None? && Config() == st && stack == s
    {
      if |stack| == 0 {
        return Some(Err(IndexError("list index out of range")));
      }
      var action := ActionFor(stack[|stack| - 1], current.kind);
      if action.None? {
        if current.kind != EOF {
          return Some(Err(ValueError("Unexpected token: " + KindName(current.kind))));
        }
        return Some(Ok(()));
      }
      match action.value
      case Shift(next) =>
        stack := stack + [Sym(current), StateNo(next)];
        ParenLexer.NextValidReadsStream(lexer.input, lexer.position);
        var t := lexer.NextValidToken();
        if t.Err? {
          return Some(Err(t.error));
        }
        current := t.value;
        return None;
      case ReduceP =>
        if |stack| < 4 {
          return Some(Err(IndexError("pop from empty list")));
        }
        stack := stack[..|stack| - 4];
        if |stack| == 0 {
          return Some(Err(IndexError("list index out of range")));
        }
        var g := GotoFor(stack[|stack| - 1], "P");
        if g.None? {
          return Some(Err(ValueError("Unexpected reduction")));
        }
        stack := stack + [NonTerm("P"), StateNo(g.value)];
        return None;
      case Accept =>
        return Some(Ok(()));
    }
  }

  // The stack the parser keeps.

  /** Odd length, states at the even positions and symbols between them, a state on top. */
  predicate Alternates(stack: seq<Entry>) {
    |stack| % 2 == 1 && forall i :: 0 <= i < |stack| ==> (stack[i].StateNo? <==> i % 2 == 0)
  }

  /** State 0 with, above it, a shifted token and state 1 for each '(' read so far. */
  predicate Opened(stack: seq<Entry>)
    decreases |stack|
  {
    stack == [StateNo(0)] ||
    (|stack| >= 3 && stack[|stack| - 1] == StateNo(1) && stack[|stack| - 2].Sym? && Opened(stack[..|stack| - 2]))
  }

  /** The stacks the parser reaches from [0]: opened, or opened by at least one '(' with a ')' or a P and state 2 on top. */
  predicate Reachable(stack: seq<Entry>) {
    Opened(stack) ||
    (|stack| >= 5 && stack[|stack| - 1] == StateNo(2) && !stack[|stack| - 2].StateNo? &&
     Opened(stack[..|stack| - 2]))
  }

  lemma {:induction false} OpenedTop(stack: seq<Entry>)
    requires Opened(stack)
    ensures |stack| % 2 == 1
    ensures stack[|stack| - 1] == StateNo(0) <==> |stack| == 1
    ensures stack[|stack| - 1] == StateNo(0) || stack[|stack| - 1] == StateNo(1)
    decreases |stack|
  {
    if stack != [StateNo(0)] {
      OpenedTop(stack[..|stack| - 2]);
    }
  }

  lemma {:induction false} OpenedAlternates(stack: seq<Entry>)
    requires Opened(stack)
    ensures Alternates(stack)
    decreases |stack|
  {
    if stack != [StateNo(0)] {
      var p := stack[..|stack| - 2];
      OpenedAlternates(p);
      forall i | 0 <= i < |stack|
        ensures stack[i].StateNo? <==> i % 2 == 0
      {
        if i < |p| {
          assert stack[i] == p[i];
        }
      }
    }
  }

  /** Every reachable stack alternates states and symbols, with a state on top. */
  lemma ReachableAlternates(stack: seq<Entry>)
    requires Reachable(stack)
    ensures Alternates(stack)
  {
    if Opened(stack) {
      OpenedAlternates(stack);
    } else {
      var p := stack[..|stack| - 2];
      OpenedAlternates(p);
      forall i | 0 <= i < |stack|
        ensures stack[i].StateNo? <==> i % 2 == 0
      {
        if i < |p| {
          assert stack[i] == p[i];
        }
      }
    }
  }

  /**
   * One turn keeps the stack reachable. A reduction only happens with state
   * 2 on top, where at least five entries sit, so the four pops and the look
   * at the new top never run out of stack.
   */
  lemma TurnKeepsReachable(st: State, stack: seq<Entry>)
    requires Reachable(stack)
    requires st.rest.failure.Some? ==> !st.rest.failure.value.IndexError?
    ensures TurnOf(st, stack).Next? ==> Reachable(TurnOf(st, stack).stack)
    ensures TurnOf(st, stack).Done? && TurnOf(st, stack).r.Err? ==> !TurnOf(st, stack).r.error.IndexError?
  {
    var top := stack[|stack| - 1];
    if Opened(stack) {
      OpenedTop(stack);
      var t := TurnOf(st, stack);
      if t.Next? {
        var pushed := stack + [Sym(st.cur), StateNo(ActionFor(top, st.cur.kind).value.next)];
        assert pushed[..|pushed| - 2] == stack;
      }
    } else {
      var p := stack[..|stack| - 2];
      OpenedTop(p);
      if st.cur.kind == RPR {
        var popped := stack[..|stack| - 4];
        assert popped == p[..|p| - 2];
        assert Opened(popped);
        OpenedTop(popped);
        var pushed := popped + [NonTerm("P"), StateNo(2)];
        assert pushed[..|pushed| - 2] == popped;
      }
    }
  }

  /** From a reachable stack the loop ends on a reachable stack, or raises anything but IndexError. */
  lemma {:induction false} RunKeepsReachable(st: State, stack: seq<Entry>)
    requires Reachable(stack)
    requires st.rest.failure.Some? ==> !st.rest.failure.value.IndexError?
    ensures Run(st, stack).Ok? ==> Reachable(Run(st, stack).value.1)
    ensures Run(st, stack).Err? ==> !Run(st, stack).error.IndexError?
    decreases Rank(st), |stack|
  {
    TurnKeepsReachable(st, stack);
    match TurnOf(st, stack)
    case Done(r) =>
    case Next(st2, stack2) =>
      RunKeepsReachable(st2, stack2);
  }

  // What the parser accepts.

  /** The stack after shifting the '(' tokens `ts` from state 0. */
  function OpenStack(ts: seq<Token>): (stack: seq<Entry>)
    ensures |stack| == 2 * |ts| + 1
    ensures stack[|stack| - 1] == if |ts| == 0 then StateNo(0) else StateNo(1)
  {
    if |ts| == 0 then [StateNo(0)]
    else OpenStack(ts[..|ts| - 1]) + [Sym(ts[|ts| - 1]), StateNo(1)]
  }

  /** Each '(' is shifted, moving to state 1. */
  lemma {:induction false} RunOpens(w: seq<Token>, ts: seq<Token>)
    ensures Run(StateOf(w), OpenStack(ts)) ==
      Run(StateOf(w[LeadingOpens(w)..]), OpenStack(ts + w[..LeadingOpens(w)]))
    decreases |w|
  {
    var m := LeadingOpens(w);
    if |w| > 0 && w[0].kind == LPR {
      var ts2 := ts + [w[0]];
      assert ts2 + w[1..][..m - 1] == ts + w[..m];
      assert w[1..][m - 1..] == w[m..];
      assert ts2[..|ts2| - 1] == ts;
      AdvanceStateOf(w);
      assert TurnOf(StateOf(w), OpenStack(ts)) == Next(StateOf(w[1..]), OpenStack(ts2));
      RunOpens(w[1..], ts2);
    } else {
      assert w[0..] == w && ts + w[..0] == ts;
    }
  }

  /** EOF after the '(' tokens: state 0 and state 1 have no action on EOF, and the loop returns. */
  lemma RunEnd(ts: seq<Token>)
    ensures Run(StateOf([]), OpenStack(ts)) == Ok((StateOf([]), OpenStack(ts)))
  {
  }

  /** A ')' with no '(' before it has no action in state 0. */
  lemma RunStrayClose(u: seq<Token>)
    requires |u| > 0 && u[0].kind == RPR
    ensures Run(StateOf(u), OpenStack([])) == Err(ValueError("Unexpected token: " + KindName(RPR)))
  {
  }

  /** The first ')' after some '(' is shifted, moving to state 2. */
  lemma RunFirstClose(u: seq<Token>, ts: seq<Token>)
    requires |u| > 0 && u[0].kind == RPR && |ts| > 0
    ensures Run(StateOf(u), OpenStack(ts)) == Run(StateOf(u[1..]), OpenStack(ts) + [Sym(u[0]), StateNo(2)])
  {
    AdvanceStateOf(u);
  }

  /** EOF in state 2 accepts. */
  lemma RunClosedEnd(ts: seq<Token>, x: Entry)
    ensures Run(StateOf([]), OpenStack(ts) + [x, StateNo(2)]) == Ok((StateOf([]), OpenStack(ts) + [x, StateNo(2)]))
  {
  }

  /** '(' in state 2 has no action. */
  lemma RunClosedOpen(u: seq<Token>, ts: seq<Token>, x: Entry)
    requires |u| > 0 && u[0].kind == LPR
    ensures Run(StateOf(u), OpenStack(ts) + [x, StateNo(2)]) == Err(ValueError("Unexpected token: " + KindName(LPR)))
  {
  }

  /**
   * ')' in state 2 reduces P ::= ( P ), which does not consume it: the
   * reductions repeat until the stack is back at state 0, where there is no
   * goto on P.
   */
  lemma {:induction false} RunClosedClose(u: seq<Token>, ts: seq<Token>, x: Entry)
    requires |u| > 0 && u[0].kind == RPR && |ts| > 0
    ensures Run(StateOf(u), OpenStack(ts) + [x, StateNo(2)]) == Err(ValueError("Unexpected reduction"))
    decreases |ts|
  {
    var stack := OpenStack(ts) + [x, StateNo(2)];
    var ts2 := ts[..|ts| - 1];
    assert stack[..|stack| - 4] == OpenStack(ts2);
    if |ts2| > 0 {
      assert TurnOf(StateOf(u), stack) == Next(StateOf(u), OpenStack(ts2) + [NonTerm("P"), StateNo(2)]);
      RunClosedClose(u, ts2, NonTerm("P"));
    }
  }

  /** What `test_parser` reports: the error raised, or success. */
  function Outcome(r: Result<(State, seq<Entry>)>): Result<()> {
    if r.Err? then Err(r.error) else Ok(())
  }

  /** After the leading '(' tokens `ts`, the rest `u` of a text of parentheses decides the outcome. */
  lemma AfterOpens(u: seq<Token>, ts: seq<Token>)
    requires |u| > 0 ==> u[0].kind == RPR
    requires |u| > 1 ==> u[1].kind == LPR || u[1].kind == RPR
    ensures Outcome(Run(StateOf(u), OpenStack(ts))) ==
      if |u| == 0 then Ok(())
      else if |ts| == 0 then Err(ValueError("Unexpected token: " + KindName(RPR)))
      else if |u| == 1 then Ok(())
      else if u[1].kind == LPR then Err(ValueError("Unexpected token: " + KindName(LPR)))
      else Err(ValueError("Unexpected reduction"))
  {
    if |u| == 0 {
      RunEnd(ts);
    } else if |ts| == 0 {
      RunStrayClose(u);
    } else {
      RunFirstClose(u, ts);
      var v := u[1..];
      var x := Sym(u[0]);
      if |u| == 1 {
        assert v == [];
        RunClosedEnd(ts, x);
      } else if u[1].kind == LPR {
        RunClosedOpen(v, ts, x);
      } else {
        RunClosedClose(v, ts, x);
      }
    }
  }

  /** Building the parser and running it on a text of parentheses: the '(' run is shifted first. */
  lemma RecognizeFromOpens(s: string)
    requires forall i :: 0 <= i < |s| ==> IsParenChar(s[i])
    ensures var w := ParenTokens(s); var n := LeadingOpens(w);
      Recognize(s) == Outcome(Run(StateOf(w[n..]), OpenStack(w[..n])))
  {
    var w := ParenTokens(s);
    var n := LeadingOpens(w);
    assert [] + w[..n] == w[..n];
    RunOpens(w, []);
    assert OpenStack([]) == [StateNo(0)];
    RecognizeStarts(s);
  }

  /** On a text of parentheses the first token is read without error, and the loop starts from [0]. */
  lemma RecognizeStarts(s: string)
    requires forall i :: 0 <= i < |s| ==> IsParenChar(s[i])
    ensures Recognize(s) == Outcome(Run(StateOf(ParenTokens(s)), [StateNo(0)]))
  {
    StartOnParens(s);
  }

  /**
   * On a text of parentheses with a leading run of n '(', the parser accepts
   * when the text is that run, or that run (n > 0) and one ')'. A ')' at the
   * start is an unexpected token; after the first ')', a '(' is an
   * unexpected token and a ')' an unexpected reduction.
   */
  lemma RecognizesRunAndClose(s: string)
    requires forall i :: 0 <= i < |s| ==> IsParenChar(s[i])
    ensures var n := LeadingOpens(ParenTokens(s));
      Recognize(s).Ok? <==> n == |s| || (n > 0 && n + 1 == |s|)
    ensures var n := LeadingOpens(ParenTokens(s));
      n == 0 < |s| ==> Recognize(s) == Err(ValueError("Unexpected token: " + KindName(RPR)))
    ensures var n := LeadingOpens(ParenTokens(s));
      0 < n && n + 1 < |s| ==>
        Recognize(s) ==
          if s[n + 1] == '(' then Err(ValueError("Unexpected token: " + KindName(LPR)))
          else Err(ValueError("Unexpected reduction"))
  {
    var w := ParenTokens(s);
    var n := LeadingOpens(w);
    var u := w[n..];
    if n < |w| {
      assert u[0] == w[n];
    }
    if n + 1 < |w| {
      assert u[1] == w[n + 1];
    }
    RecognizeFromOpens(s);
    AfterOpens(u, w[..n]);
  }

  // The documented runs.

  /** '()' is accepted. */
  lemma PairExample()
    ensures Recognize("()").Ok?
  {
    var s := "()";
    var w := ParenTokens(s);
    assert w[0].kind == LPR && w[1].kind == RPR;
    LeadingOpensAt(w, 1);
    RecognizesRunAndClose(s);
  }

  /** '(()' is accepted. */
  lemma OpenPairExample()
    ensures Recognize("(()").Ok?
  {
    var s := "(()";
    var w := ParenTokens(s);
    assert w[0].kind == LPR && w[1].kind == LPR && w[2].kind == RPR;
    LeadingOpensAt(w, 2);
    RecognizesRunAndClose(s);
  }

  /** '(' is accepted. */
  lemma OpenExample()
    ensures Recognize("(").Ok?
  {
    var s := "(";
    var w := ParenTokens(s);
    assert w[0].kind == LPR;
    LeadingOpensAt(w, 1);
    RecognizesRunAndClose(s);
  }

  /** '())' fails with "Unexpected reduction". */
  lemma ExtraCloseExample()
    ensures Recognize("())") == Err(ValueError("Unexpected reduction"))
  {
    var s := "())";
    var w := ParenTokens(s);
    assert w[0].kind == LPR && w[1].kind == RPR;
    LeadingOpensAt(w, 1);
    RecognizesRunAndClose(s);
  }

  /** '(()))' fails with "Unexpected reduction". */
  lemma NestedCloseExample()
    ensures Recognize("(()))") == Err(ValueError("Unexpected reduction"))
  {
    var s := "(()))";
    var w := ParenTokens(s);
    assert w[0].kind == LPR && w[1].kind == LPR && w[2].kind == RPR;
    LeadingOpensAt(w, 2);
    RecognizesRunAndClose(s);
  }

  /** '()()' fails with "Unexpected token: TokenType.LPR". */
  lemma TwoPairsExample()
    ensures Recognize("()()") == Err(ValueError("Unexpected token: " + KindName(LPR)))
  {
    var s := "()()";
    var w := ParenTokens(s);
    assert w[0].kind == LPR && w[1].kind == RPR;
    LeadingOpensAt(w, 1);
    RecognizesRunAndClose(s);
  }
}
