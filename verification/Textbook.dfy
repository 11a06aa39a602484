/** The textbook LR machine that the engine implements: rows instead of packed cells, complete
    items as states of their own instead of fused shift-reduce codes, an unbounded stack. */
module Textbook {
  import opened Grammar
  import opened ActionTables
  import opened Machine
  import opened Runs
  import opened Conservation
  import opened Limits

  /** What the generator starts from: a row of actions and a row of gotos for each state, before
      the rows are packed into one array. */
  datatype LR = LR(shift: seq<Row>, goto: seq<Row>, dflt: seq<nat>, fallback: seq<Symbol>, rules: seq<Rule>)

  /** The packed tables read back as the machine's rows. */
  ghost predicate Denotes(a: Automaton, m: LR) {
    && |m.shift| == |a.tables.shiftOfst| && |m.goto| == |a.tables.reduceOfst|
    && Faithful(a.tables, m.shift, m.goto)
    && m.dflt == a.tables.dflt
    && m.fallback == a.tables.fallback
    && m.rules == a.grammar.rules
  }

  /** Tables that were filled from a machine's rows denote it if and only if states that share an
      offset share a row. */
  lemma PackedDenotes(a: Automaton, m: LR)
    requires FilledFrom(a.tables, m.shift, m.goto)
    requires m.dflt == a.tables.dflt && m.fallback == a.tables.fallback && m.rules == a.grammar.rules
    ensures Denotes(a, m) <==>
            AgreeOnOffsets(a.tables.shiftOfst, m.shift) && AgreeOnOffsets(a.tables.reduceOfst, m.goto)
  {
    PackingIsFaithful(a.tables, m.shift, m.goto);
    hide Faithful, AgreeOnOffsets;
  }

  /** The rows that the packed tables read back as. */
  function ReadBack(a: Automaton): (m: LR)
    requires Shaped(a.tables)
    ensures Denotes(a, m)
  {
    LR(seq(|a.tables.shiftOfst|, s requires 0 <= s < |a.tables.shiftOfst| => ShiftRow(a.tables, s)),
       seq(|a.tables.reduceOfst|, s requires 0 <= s < |a.tables.reduceOfst| => GotoRow(a.tables, s)),
       a.tables.dflt, a.tables.fallback, a.grammar.rules)
  }

  /** `Complete(r)` is the state whose only action is to reduce by rule `r`. */
  datatype State = At(s: nat) | Complete(rule: nat)

  datatype Action = ShiftTo(state: State) | ReduceBy(rule: nat) | AcceptInput | Fail

  type TextStack = seq<(State, Value)>

  /** The stack after a move. `Reduced` leaves the token to be looked at again; every other
      outcome ends the call. */
  datatype Outcome =
    | Shifted(stack: TextStack)
    | Reduced(stack: TextStack)
    | Accepted(stack: TextStack, value: Value)
    | Rejected(stack: TextStack)

  /** What a table's action code means. */
  function Meaning(act: nat): Action {
    if act <= YY_MAX_SHIFT then ShiftTo(At(act))
    else if YY_MIN_SHIFTREDUCE <= act <= YY_MAX_SHIFTREDUCE then ShiftTo(Complete(act - YY_MIN_SHIFTREDUCE))
    else if YY_MIN_REDUCE <= act <= YY_MAX_REDUCE then ReduceBy(act - YY_MIN_REDUCE)
    else if act == YY_ACCEPT_ACTION then AcceptInput
    else Fail
  }

  function FallbackIn(m: LR, x: Symbol): Symbol {
    if x < |m.fallback| then m.fallback[x] else 0
  }

  /** What a token may be read as, in order of preference: itself, its fallback, the wildcard. The
      end of input is never the wildcard. */
  function Readings(fallback: Symbol, x: Symbol): seq<Symbol> {
    [x] + (if fallback != 0 then [fallback] else []) + (if x > 0 then [YYWILDCARD] else [])
  }

  /** The entry of the first reading that has one, else the default. */
  function FirstEntry(row: Row, dflt: nat, xs: seq<Symbol>): nat {
    if xs == [] then dflt else if xs[0] in row then row[xs[0]] else FirstEntry(row, dflt, xs[1..])
  }

  function ActionIn(m: LR, state: State, x: Symbol): Action {
    match state
    case Complete(r) => ReduceBy(r)
    case At(s) =>
      if s < |m.shift| == |m.dflt| then
        Meaning(FirstEntry(m.shift[s], m.dflt[s], Readings(FallbackIn(m, x), x)))
      else Fail
  }

  lemma FirstCons(row: Row, dflt: nat, x: Symbol, xs: seq<Symbol>)
    ensures FirstEntry(row, dflt, [x] + xs) == if x in row then row[x] else FirstEntry(row, dflt, xs)
  {
    assert ([x] + xs)[1..] == xs;
  }

  /** The engine's search finds the entry of the first reading. */
  lemma LookupIsFirst(row: Row, dflt: nat, fallback: Symbol, x: Symbol)
    ensures LookupRow(row, dflt, fallback, x).act == FirstEntry(row, dflt, Readings(fallback, x))
  {
    var last := if x > 0 then [YYWILDCARD] else [];
    var rest := (if fallback != 0 then [fallback] else []) + last;
    assert Readings(fallback, x) == [x] + rest;
    FirstCons(row, dflt, x, rest);
    if fallback != 0 {
      FirstCons(row, dflt, fallback, last);
    } else {
      assert rest == last;
    }
    if x > 0 {
      FirstCons(row, dflt, YYWILDCARD, []);
      assert last == [YYWILDCARD] + [];
    }
  }

  function GotoIn(m: LR, state: State, lhs: Symbol): Action {
    if state.At? && state.s < |m.goto| && lhs in m.goto[state.s] then Meaning(m.goto[state.s][lhs]) else Fail
  }

  function Move(m: LR, stack: TextStack, tok: Token): (o: Outcome)
    requires |stack| > 0
    ensures |o.stack| > 0
  {
    match ActionIn(m, stack[|stack| - 1].0, tok.code)
    case ShiftTo(q) => Outcome.Shifted(stack + [(q, Tok(tok))])
    case ReduceBy(r) => MoveReduce(m, stack, r)
    case _ => Rejected(stack)
  }

  function Values(stack: TextStack): (vs: seq<Value>)
    ensures |vs| == |stack|
    ensures forall i :: 0 <= i < |vs| ==> vs[i] == stack[i].1
  {
    seq(|stack|, i requires 0 <= i < |stack| => stack[i].1)
  }

  function MoveReduce(m: LR, stack: TextStack, r: nat): (o: Outcome)
    requires |stack| > 0
    ensures |o.stack| > 0
  {
    if r < |m.rules| && |m.rules[r].rhs| < |stack| then
      var n := |stack| - |m.rules[r].rhs|;
      var v := App(r, Values(stack[n..]));
      match GotoIn(m, stack[n - 1].0, m.rules[r].lhs)
      case ShiftTo(q) => Outcome.Reduced(stack[..n] + [(q, v)])
      case AcceptInput => Accepted(stack[..n], v)
      case _ => Rejected(stack)
    else Rejected(stack)
  }

  // ---- the engine's stack seen as a textbook stack ----

  function StateOf(stateno: nat): State {
    if stateno >= YY_MIN_REDUCE then Complete(stateno - YY_MIN_REDUCE) else At(stateno)
  }

  function View(stack: seq<Entry>): (w: TextStack)
    ensures |w| == |stack|
    ensures forall i :: 0 <= i < |stack| ==> w[i] == (StateOf(stack[i].stateno), stack[i].minor)
  {
    seq(|stack|, i requires 0 <= i < |stack| => (StateOf(stack[i].stateno), stack[i].minor))
  }

  /** Only the top of the stack may be a complete item. */
  lemma OnlyTopIsComplete(a: Automaton, limit: nat, c: Config, i: nat)
    requires Ready(a, limit, c) && i < |c.stack| - 1
    ensures View(c.stack)[i].0.At? && c.stack[i].stateno <= YY_MAX_SHIFT
  {
    assert Settled(a, c.stack, i);
  }

  /** Encoding an action as a stack entry loses nothing. */
  lemma EncodedState(act: nat)
    requires act <= YY_MAX_SHIFT || YY_MIN_SHIFTREDUCE <= act <= YY_MAX_SHIFTREDUCE
    ensures Meaning(act) == ShiftTo(StateOf(Encode(act)))
  {
  }

  /** The configuration shows the outcome on its stack and at the end of its log. */
  ghost predicate Matches(c: Config, tok: Token, o: Outcome) {
    && |c.log| > 0
    && View(c.stack) == o.stack
    && var last := c.log[|c.log| - 1];
       match o
       case Shifted(_) => last == Shift(tok)
       case Reduced(_) => last.Reduce?
       case Accepted(_, v) => last == Accept(v, tok)
       case Rejected(_) => last == Reject(tok)
  }

  /** Refinement: each pass of the engine that does not overflow is one textbook move. */
  lemma StepIsMove(a: Automaton, m: LR, limit: nat, c: Config, tok: Token)
    requires Ready(a, limit, c) && IsToken(tok) && Denotes(a, m)
    ensures var c' := Step(a, limit, c, tok).c;
            Matches(c', tok, Move(m, View(c.stack), tok)) || (|c'.log| > 0 && c'.log[|c'.log| - 1] == Overflow(tok))
  {
    var top := c.stack[|c.stack| - 1].stateno;
    var act := ActionFor(a, c.stack, tok.code).act;
    ActionIsSafe(a, c.stack, tok.code);
    TopAction(a, m, limit, c, tok);
    if act <= YY_MAX_SHIFTREDUCE {
      if |c.stack| < limit {
        EncodedState(act);
        assert View(DoShift(limit, c, act, tok).stack) == View(c.stack) + [(StateOf(Encode(act)), Tok(tok))];
      }
    } else if act <= YY_MAX_REDUCE {
      var r := act - YY_MIN_REDUCE;
      if !(|a.grammar.rules[r].rhs| == 0 && |c.stack| >= limit) {
        LandIsMove(a, m, limit, c, r, tok);
      }
    }
  }

  lemma TopAction(a: Automaton, m: LR, limit: nat, c: Config, tok: Token)
    requires Ready(a, limit, c) && IsToken(tok) && Denotes(a, m)
    ensures ActionIn(m, View(c.stack)[|c.stack| - 1].0, tok.code) == Meaning(ActionFor(a, c.stack, tok.code).act)
  {
    ActionIsSafe(a, c.stack, tok.code);
    var s := c.stack[|c.stack| - 1].stateno;
    if s < YY_MIN_REDUCE {
      LookupIsFirst(m.shift[s], m.dflt[s], FallbackIn(m, tok.code), tok.code);
    }
    hide LookupRow, FirstEntry, Readings;
  }

  /** The goto met by a reduction, as the textbook machine sees it. */
  lemma GotoMeans(a: Automaton, m: LR, stack: seq<Entry>, r: nat)
    requires WellFormed(a) && StackOk(a, stack) && CanReduce(a, stack, r) && Denotes(a, m)
    ensures var under := stack[Kept(a, stack, r) - 1].stateno;
            var act := GotoAct(a, stack, r);
            && GotoIn(m, StateOf(under), a.grammar.rules[r].lhs) == Meaning(act)
            && (act <= YY_MAX_SHIFTREDUCE ==> Meaning(act) == ShiftTo(StateOf(Encode(act))))
            && (act > YY_MAX_SHIFTREDUCE ==> Meaning(act) == AcceptInput)
  {
    Uncover(a, stack, r);
    var under := stack[Kept(a, stack, r) - 1].stateno;
    assert GotoCellOk(a, under, a.grammar.rules[r].lhs);
  }

  lemma LandIsMove(a: Automaton, m: LR, limit: nat, c: Config, r: nat, tok: Token)
    requires Ready(a, limit, c) && CanReduce(a, c.stack, r) && Denotes(a, m)
    ensures Matches(Land(a, c, r, tok), tok, MoveReduce(m, View(c.stack), r))
  {
    GotoMeans(a, m, c.stack, r);
    var n := Kept(a, c.stack, r);
    var rest, w := c.stack[..n], View(c.stack);
    hide WellFormed, StackOk, HasGoto, Fills, GotoIn, GotoAct, Meaning, StateOf, Encode, View, Minors, Values;
    assert w[..n] == View(rest);
    assert Values(w[n..]) == Minors(c.stack[n..]);
    var act := GotoAct(a, c.stack, r);
    if act <= YY_MAX_SHIFTREDUCE {
      var e := Entry(Encode(act), a.grammar.rules[r].lhs, Built(a, c.stack, r));
      assert View(rest + [e]) == View(rest) + [(StateOf(Encode(act)), e.minor)];
    }
  }

  // ---- whole calls and whole runs ----

  /** At most `n` moves on one token, up to the first that is not a reduction. */
  function Moves(m: LR, stack: TextStack, tok: Token, n: nat): (o: Outcome)
    requires |stack| > 0
    ensures |o.stack| > 0
    decreases n
  {
    if n == 0 then Outcome.Reduced(stack)
    else
      match Move(m, stack, tok)
      case Reduced(w) => Moves(m, w, tok, n - 1)
      case o => o
  }

  /** The events that end calls. */
  function Verdicts(log: seq<Event>): seq<Event> {
    if log == [] then []
    else
      var last := log[|log| - 1];
      Verdicts(log[..|log| - 1]) + if last.Reduce? || last.Destroy? || last.Leak? then [] else [last]
  }

  lemma VerdictsLast(log: seq<Event>, e: Event)
    ensures Verdicts(log + [e]) == Verdicts(log) + if e.Reduce? || e.Destroy? || e.Leak? then [] else [e]
  {
    assert (log + [e])[..|log + [e]| - 1] == log;
  }

  lemma EffectVerdicts(a: Automaton, c: Config, c': Config, tok: Token, e: Effect)
    requires Does(a, c, c', tok, e) && !e.Overflows? && !e.Falls?
    ensures |c'.log| > 0
    ensures Verdicts(c'.log) == Verdicts(c.log) + if e.Reduces? then [] else [c'.log[|c'.log| - 1]]
  {
    hide Derives, RootedAt, Forest, Verdicts;
    match e
    case Pushes => VerdictsLast(c.log, Shift(tok));
    case Rejects => VerdictsLast(c.log, Reject(tok));
    case Reduces(r, n) =>
      var trees := Forest(c.stack);
      VerdictsLast(c.log, Reduce(r, trees[|trees| - n..]));
    case Accepts(r) =>
      var trees := Forest(c.stack);
      assert c'.log == c.log + [Reduce(r, trees)] + [Accept(App(r, trees), tok)];
      VerdictsLast(c.log, Reduce(r, trees));
      VerdictsLast(c.log + [Reduce(r, trees)], Accept(App(r, trees), tok));
  }

  /** One call of the engine is a sequence of textbook moves that ends with the same verdict. */
  lemma {:induction false} CallIsMoves(a: Automaton, m: LR, limit: nat, c: Config, tok: Token) returns (n: nat)
    requires Ready(a, limit, c) && IsToken(tok) && Denotes(a, m)
    requires !Overflowing(Feed(a, limit, c, tok).log)
    ensures var c', o := Feed(a, limit, c, tok), Moves(m, View(c.stack), tok, n);
            && Matches(c', tok, o) && !o.Reduced?
            && Verdicts(c'.log) == Verdicts(c.log) + [c'.log[|c'.log| - 1]]
    decreases Fuel(a, limit, c)
  {
    hide WellFormed, StackOk, Step, Fuel, Move, Feed, Verdicts, View, Denotes, Does, ReducesEmpty;
    FeedUnfolds(a, limit, c, tok);
    StepIsMove(a, m, limit, c, tok);
    var s := Step(a, limit, c, tok);
    var e := StepDoes(a, limit, c, tok);
    EffectEvent(a, c, s.c, tok, e);
    assert s.c.log[|s.c.log| - 1] in Feed(a, limit, c, tok).log;
    hide Overflowing;
    EffectVerdicts(a, c, s.c, tok, e);
    if More(s) {
      var k := CallIsMoves(a, m, limit, s.c, tok);
      n := k + 1;
    } else {
      n := 1;
    }
  }

  /** The outcome ends a textbook call with this token. */
  ghost predicate Ends(m: LR, stack: TextStack, tok: Token, o: Outcome) {
    |stack| > 0 && !o.Reduced? && exists n :: Moves(m, stack, tok, n) == o
  }

  lemma {:induction false} MoreMovesSameEnd(m: LR, stack: TextStack, tok: Token, n: nat, k: nat)
    requires |stack| > 0 && n <= k && !Moves(m, stack, tok, n).Reduced?
    ensures Moves(m, stack, tok, k) == Moves(m, stack, tok, n)
    decreases n
  {
    hide Move;
    var o := Move(m, stack, tok);
    if o.Reduced? {
      MoreMovesSameEnd(m, o.stack, tok, n - 1, k - 1);
    }
  }

  /** The textbook machine is deterministic: a call has at most one outcome. */
  lemma OneEnd(m: LR, stack: TextStack, tok: Token, o: Outcome, o': Outcome)
    requires Ends(m, stack, tok, o) && Ends(m, stack, tok, o')
    ensures o == o'
  {
    var n :| Moves(m, stack, tok, n) == o;
    var k :| Moves(m, stack, tok, k) == o';
    if n <= k {
      MoreMovesSameEnd(m, stack, tok, n, k);
    } else {
      MoreMovesSameEnd(m, stack, tok, k, n);
    }
  }

  function Top(outs: seq<Outcome>): TextStack {
    if outs == [] then View(INITIAL.stack) else outs[|outs| - 1].stack
  }

  /** The textbook machine, started empty, answers the tokens with these outcomes. */
  ghost predicate TextbookRun(m: LR, toks: seq<Token>, outs: seq<Outcome>) {
    && |outs| == |toks|
    && forall i :: 0 <= i < |toks| ==> Ends(m, Top(outs[..i]), toks[i], outs[i])
  }

  function Answer(tok: Token, o: Outcome): Event {
    match o
    case Shifted(_) => Shift(tok)
    case Accepted(_, v) => Accept(v, tok)
    case _ => Reject(tok)
  }

  function Answers(toks: seq<Token>, outs: seq<Outcome>): seq<Event>
    requires |toks| == |outs|
  {
    if toks == [] then []
    else
      var n := |toks| - 1;
      Answers(toks[..n], outs[..n]) + [Answer(toks[n], outs[n])]
  }

  lemma OneMoreCall(m: LR, toks: seq<Token>, outs: seq<Outcome>, tok: Token, o: Outcome)
    requires TextbookRun(m, toks, outs) && Ends(m, Top(outs), tok, o)
    ensures TextbookRun(m, toks + [tok], outs + [o])
    ensures Top(outs + [o]) == o.stack
    ensures Answers(toks + [tok], outs + [o]) == Answers(toks, outs) + [Answer(tok, o)]
  {
    hide Ends, Answer;
    var longer := outs + [o];
    assert longer[..|toks|] == outs && (toks + [tok])[..|toks|] == toks;
    forall i | 0 <= i < |toks| ensures longer[..i] == outs[..i] {
    }
  }

  /** Refinement of whole runs: a run without overflow gives every token the verdict that the
      textbook machine gives it, with the same accepted values, and ends on the same stack. */
  lemma {:induction false} RunIsTextbookRun(a: Automaton, m: LR, limit: nat, toks: seq<Token>)
      returns (outs: seq<Outcome>)
    requires WellFormed(a) && limit >= 1 && AreTokens(toks) && Denotes(a, m)
    requires !Overflowing(Run(a, limit, toks).log)
    ensures TextbookRun(m, toks, outs)
    ensures View(Run(a, limit, toks).stack) == Top(outs)
    ensures Verdicts(Run(a, limit, toks).log) == Answers(toks, outs)
    decreases |toks|
  {
    hide WellFormed, Feed, StackOk, Denotes;
    if toks == [] {
      outs := [];
    } else {
      var front, tok := toks[..|toks| - 1], toks[|toks| - 1];
      var before := Run(a, limit, front);
      assert toks == front + [tok];
      hide Run, Moves, View, Verdicts, Answers, TextbookRun, Top;
      RunUnfolds(a, limit, toks);
      outs := RunIsTextbookRun(a, m, limit, front);
      var n := CallIsMoves(a, m, limit, before, tok);
      var o := Moves(m, View(before.stack), tok, n);
      assert Ends(m, Top(outs), tok, o);
      OneMoreCall(m, front, outs, tok, o);
      outs := outs + [o];
    }
  }
}
