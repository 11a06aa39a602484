/** What a full stack does: overflow, leak, or fall below the base. How two parsers that differ only
    in stack depth compare, such as the fixed and the growable build. */
module Limits {
  import opened Grammar
  import opened ActionTables
  import opened Machine
  import opened Runs
  import opened History
  import opened Ownership
  import opened Conservation

  /** The pass pushes an entry without popping one. */
  predicate Grows(a: Automaton, c: Config, tok: Token)
    requires WellFormed(a) && StackOk(a, c.stack) && IsToken(tok)
  {
    ActionFor(a, c.stack, tok.code).act <= YY_MAX_SHIFTREDUCE || ReducesEmpty(a, c, tok)
  }

  predicate Overflowed(c: Config, c': Config, tok: Token) {
    |c'.log| > |c.log| && c'.log[|c'.log| - 1] == Overflow(tok)
  }

  /** A pass overflows exactly when it grows a stack that is at the limit. */
  lemma OverflowExactly(a: Automaton, limit: nat, c: Config, tok: Token)
    requires Ready(a, limit, c) && IsToken(tok)
    ensures Overflowed(c, Step(a, limit, c, tok).c, tok) <==> Grows(a, c, tok) && |c.stack| == limit
  {
    ActionIsSafe(a, c.stack, tok.code);
    hide WellFormed, StackOk, ActionFor, CanReduce, Destroys, EdgeOk;
  }

  // ---- falling below the base ----

  /** A pass takes the top index below the base if and only if the stack has room for one entry
      only and the pass reduces by an empty rule. */
  lemma PassFalls(a: Automaton, limit: nat, c: Config, tok: Token)
    requires Ready(a, limit, c) && IsToken(tok)
    ensures Step(a, limit, c, tok).c.stack == [] <==> limit == 1 && ReducesEmpty(a, c, tok)
  {
    StepKeepsStack(a, limit, c, tok);
    hide WellFormed, Step, ReducesEmpty;
  }

  /** A call takes the top index below the base if and only if the stack has room for one entry
      only and the first pass reduces by an empty rule. */
  lemma FeedFalls(a: Automaton, limit: nat, c: Config, tok: Token)
    requires Ready(a, limit, c) && IsToken(tok)
    ensures Feed(a, limit, c, tok).stack == [] <==> limit == 1 && ReducesEmpty(a, c, tok)
  {
    StepKeepsStack(a, limit, c, tok);
    StepBurnsFuel(a, limit, c, tok);
    hide WellFormed, StackOk, Step, Fuel, ReducesEmpty;
  }

  lemma OneState(a: Automaton, c: Config, tok: Token)
    requires Ready(a, 1, c) && IsToken(tok) && Ready(a, 1, INITIAL)
    ensures ReducesEmpty(a, c, tok) <==> ReducesEmpty(a, INITIAL, tok)
  {
    assert c.stack[|c.stack| - 1].stateno == INITIAL.stack[0].stateno;
    assert ActionFor(a, c.stack, tok.code) == ActionFor(a, INITIAL.stack, tok.code);
    hide WellFormed, StackOk, ActionFor;
  }

  ghost predicate OpensEmpty(a: Automaton, toks: seq<Token>)
    requires WellFormed(a) && StackOk(a, INITIAL.stack) && AreTokens(toks)
  {
    exists tok :: tok in toks && ReducesEmpty(a, INITIAL, tok)
  }

  /** A run stays at or above its base if and only if it has room for two entries or no token
      makes the start state reduce by an empty rule. */
  lemma {:induction false} RunFalls(a: Automaton, limit: nat, toks: seq<Token>)
    requires WellFormed(a) && limit >= 1 && AreTokens(toks)
    ensures StackOk(a, INITIAL.stack)
    ensures Run(a, limit, toks).stack == [] <==> limit == 1 && OpensEmpty(a, toks)
    decreases |toks|
  {
    InitialReady(a, limit);
    hide WellFormed, StackOk, Feed, ReducesEmpty;
    if toks != [] {
      var front, last := toks[..|toks| - 1], toks[|toks| - 1];
      assert toks == front + [last];
      var before := Run(a, limit, front);
      assert Run(a, limit, toks) == if before.stack == [] then before else Feed(a, limit, before, last);
      hide Run;
      RunFalls(a, limit, front);
      if before.stack != [] {
        FeedFalls(a, limit, before, last);
        if limit == 1 {
          OneState(a, before, last);
        }
      }
    }
  }

  // ---- leaks ----

  lemma LeaksLast(log: seq<Event>, e: Event)
    requires !e.Leak?
    ensures BooksOf(log + [e]).leaked == BooksOf(log).leaked
  {
    BooksLast(log, e);
  }

  lemma CleanupLeaks(a: Automaton, c: Config, leak: bool, tok: Token)
    requires |c.stack| > 0 && (leak ==> |c.stack| > 1) && StackOk(a, c.stack)
    ensures BooksOf(c.log + Cleanup(c.stack, leak) + [Overflow(tok)]).leaked ==
            if leak then BooksOf(c.log).leaked + multiset{c.stack[|c.stack| - 1].minor} else BooksOf(c.log).leaked
  {
    assert forall i :: 1 <= i < |c.stack| ==> EntryOk(a, c.stack[i]);
    hide StackOk, EntryOk, BooksOf, Cleanup, AllRight;
    CleanupBooks(a, c.log, c.stack, leak);
    LeaksLast(c.log + Cleanup(c.stack, leak), Overflow(tok));
  }

  lemma EffectLeaks(a: Automaton, c: Config, c': Config, tok: Token, e: Effect)
    requires StackOk(a, c.stack) && Does(a, c, c', tok, e)
    ensures e == Overflows(true) ==> |c.stack| > 1
    ensures e.Falls? ==> |c.stack| == 1
    ensures BooksOf(c'.log).leaked ==
            if e == Overflows(true) then BooksOf(c.log).leaked + multiset{c.stack[|c.stack| - 1].minor}
            else BooksOf(c.log).leaked
  {
    var trees := Forest(c.stack);
    assert |trees| == |c.stack| - 1;
    hide StackOk, Derives, RootedAt, BooksOf, Cleanup, Forest;
    match e
    case Pushes => LeaksLast(c.log, Shift(tok));
    case Rejects => LeaksLast(c.log, Reject(tok));
    case Reduces(r, n) => LeaksLast(c.log, Reduce(r, trees[|trees| - n..]));
    case Accepts(r) =>
      assert c'.log == c.log + [Reduce(r, trees)] + [Accept(App(r, trees), tok)];
      LeaksLast(c.log, Reduce(r, trees));
      LeaksLast(c.log + [Reduce(r, trees)], Accept(App(r, trees), tok));
    case Overflows(leak) => CleanupLeaks(a, c, leak, tok);
    case Falls => LeaksLast(c.log, Overflow(tok));
  }

  /** A pass leaks if and only if it reduces by an empty rule on a full stack that holds a value,
      and then it leaks the top value. */
  lemma LeakExactly(a: Automaton, limit: nat, c: Config, tok: Token)
    requires Ready(a, limit, c) && IsToken(tok)
    ensures BooksOf(Step(a, limit, c, tok).c.log).leaked ==
            if ReducesEmpty(a, c, tok) && |c.stack| == limit > 1
            then BooksOf(c.log).leaked + multiset{c.stack[|c.stack| - 1].minor} else BooksOf(c.log).leaked
  {
    hide WellFormed, StackOk, ReducesEmpty, Does, BooksOf, Step, ActionFor, CanReduce;
    var e := StepDoes(a, limit, c, tok);
    EffectLeaks(a, c, Step(a, limit, c, tok).c, tok, e);
    OverflowKind(a, limit, c, tok, e);
  }

  lemma OverflowKind(a: Automaton, limit: nat, c: Config, tok: Token, e: Effect)
    requires Ready(a, limit, c) && IsToken(tok)
    requires Does(a, c, Step(a, limit, c, tok).c, tok, e)
    requires Step(a, limit, c, tok).done <==> e.Pushes? || e.Rejects? || e == Overflows(false)
    requires e.Falls? <==> limit == 1 && ReducesEmpty(a, c, tok)
    requires e == Overflows(true) ==> |c.stack| > 1
    ensures e == Overflows(true) <==> ReducesEmpty(a, c, tok) && |c.stack| == limit > 1
  {
    var s := Step(a, limit, c, tok);
    ActionIsSafe(a, c.stack, tok.code);
    OverflowExactly(a, limit, c, tok);
    EffectEvent(a, c, s.c, tok, e);
    hide WellFormed, StackOk, ActionFor, CanReduce, Does, DoShift, DoReduce, EdgeOk, Settled;
  }

  /** A pass that grows the stack and has room leaves one entry more; only an empty rule on the
      bare base may accept instead. */
  lemma GrowsByOne(a: Automaton, limit: nat, c: Config, tok: Token)
    requires Ready(a, limit, c) && IsToken(tok) && Grows(a, c, tok) && |c.stack| < limit
    requires |c.stack| == 1 ==> !ReducesEmpty(a, c, tok)
    ensures |Step(a, limit, c, tok).c.stack| == |c.stack| + 1
  {
    ActionIsSafe(a, c.stack, tok.code);
    var act := ActionFor(a, c.stack, tok.code).act;
    if act > YY_MAX_SHIFTREDUCE {
      LandOk(a, c, act - YY_MIN_REDUCE, tok);
    }
  }

  // ---- two depths ----

  /** The pass needs more than `n` entries. Its stack has more afterwards, except when an empty
      rule that needs a slot accepts at once. */
  ghost predicate Outgrows(a: Automaton, c: Config, c': Config, tok: Token, n: nat)
    requires WellFormed(a) && StackOk(a, c.stack) && IsToken(tok)
  {
    |c'.stack| > n || (|c.stack| == n && ReducesEmpty(a, c, tok))
  }

  /** Parsers agree on a pass unless it needs an entry beyond the smaller limit, which is exactly
      when the smaller one overflows. */
  lemma StepsAgree(a: Automaton, small: nat, large: nat, c: Config, tok: Token)
    requires Ready(a, small, c) && IsToken(tok) && small < large
    ensures var s, l := Step(a, small, c, tok), Step(a, large, c, tok);
            && (!Overflowed(c, s.c, tok) ==> s == l)
            && (Overflowed(c, s.c, tok) <==> Outgrows(a, c, l.c, tok, small))
  {
    OverflowExactly(a, small, c, tok);
    StepKeepsStack(a, small, c, tok);
    if Grows(a, c, tok) && |c.stack| == small {
      if !ReducesEmpty(a, c, tok) {
        GrowsByOne(a, large, c, tok);
      }
    } else {
      SameStep(a, small, large, c, tok);
    }
  }

  lemma SameStep(a: Automaton, small: nat, large: nat, c: Config, tok: Token)
    requires Ready(a, small, c) && IsToken(tok) && small < large
    requires !(Grows(a, c, tok) && |c.stack| == small)
    ensures Step(a, small, c, tok) == Step(a, large, c, tok)
  {
    ActionIsSafe(a, c.stack, tok.code);
    hide WellFormed, StackOk, ActionFor;
  }

  // ---- calls and runs ----

  lemma {:induction false} FeedAppends(a: Automaton, limit: nat, c: Config, tok: Token)
    requires Ready(a, limit, c) && IsToken(tok)
    ensures c.log <= Feed(a, limit, c, tok).log
    decreases Fuel(a, limit, c)
  {
    hide WellFormed, StackOk, Step, Fuel, ReducesEmpty;
    var s := Step(a, limit, c, tok);
    var e := StepDoes(a, limit, c, tok);
    StepBurnsFuel(a, limit, c, tok);
    if !s.done && |s.c.stack| > 1 {
      FeedAppends(a, limit, s.c, tok);
    }
  }

  ghost predicate More(s: Stepped) { !s.done && |s.c.stack| > 1 }

  /** A call is one pass and the rest of the call, whose log goes on from the pass's log. */
  lemma FeedUnfolds(a: Automaton, limit: nat, c: Config, tok: Token)
    requires Ready(a, limit, c) && IsToken(tok)
    ensures var s := Step(a, limit, c, tok);
            && Standing(a, limit, s.c)
            && (if More(s) then
                  && Ready(a, limit, s.c) && Fuel(a, limit, s.c) < Fuel(a, limit, c)
                  && Feed(a, limit, c, tok) == Feed(a, limit, s.c, tok)
                else Feed(a, limit, c, tok) == s.c)
            && s.c.log <= Feed(a, limit, c, tok).log
  {
    StepBurnsFuel(a, limit, c, tok);
    hide WellFormed, StackOk, Step, Fuel;
    var s := Step(a, limit, c, tok);
    if More(s) {
      FeedAppends(a, limit, s.c, tok);
    }
  }

  ghost predicate Overflowing(log: seq<Event>) {
    exists e :: e in log && e.Overflow?
  }

  /** A run is the run before its last token and one call, unless the run has fallen below the
      base, which shows as an overflow. */
  lemma RunUnfolds(a: Automaton, limit: nat, toks: seq<Token>)
    requires WellFormed(a) && limit >= 1 && AreTokens(toks) && toks != []
    ensures var c, before := Run(a, limit, toks), Run(a, limit, toks[..|toks| - 1]);
            && (if before.stack == [] then c == before else c == Feed(a, limit, before, toks[|toks| - 1]))
            && before.log <= c.log
            && (before.stack == [] ==> Overflowing(before.log))
  {
    hide WellFormed, StackOk, Feed;
    var before, tok := Run(a, limit, toks[..|toks| - 1]), toks[|toks| - 1];
    assert Run(a, limit, toks) == if before.stack == [] then before else Feed(a, limit, before, tok);
    hide Run;
    if before.stack != [] {
      FeedAppends(a, limit, before, tok);
    } else {
      assert before.log[|before.log| - 1] in before.log;
    }
  }

  /** `n` events are common; what `s` did beyond them starts with emptying its stack. */
  ghost predicate SameUntilOverflow(s: Config, l: Config, n: nat) {
    && n <= |s.log|
    && s.log[..n] <= l.log
    && if n == |s.log| then s == l else Quiet(s.log[n]) || s.log[n].Overflow?
  }

  lemma OverflowStarts(a: Automaton, c: Config, c': Config, tok: Token, e: Effect)
    requires Does(a, c, c', tok, e) && (e.Overflows? || e.Falls?)
    ensures |c.log| < |c'.log| && c'.log[..|c.log|] == c.log
    ensures Quiet(c'.log[|c.log|]) || c'.log[|c.log|].Overflow?
  {
    if e.Overflows? {
      CleanupIsQuiet(c.stack, e.leak);
    }
  }

  /** One call: the same shifts and reductions until the smaller parser overflows. */
  lemma {:induction false} CallsAgree(a: Automaton, small: nat, large: nat, c: Config, tok: Token) returns (n: nat)
    requires Ready(a, small, c) && IsToken(tok) && small < large
    ensures |c.log| <= n && SameUntilOverflow(Feed(a, small, c, tok), Feed(a, large, c, tok), n)
    decreases Fuel(a, small, c)
  {
    hide WellFormed, StackOk, Step, Fuel, Feed, Does, Outgrows, ReducesEmpty;
    var s, l := Step(a, small, c, tok), Step(a, large, c, tok);
    var e := StepDoes(a, small, c, tok);
    EffectEvent(a, c, s.c, tok, e);
    StepsAgree(a, small, large, c, tok);
    FeedUnfolds(a, small, c, tok);
    FeedUnfolds(a, large, c, tok);
    FeedAppends(a, large, c, tok);
    if e.Overflows? || e.Falls? {
      n := |c.log|;
      OverflowStarts(a, c, s.c, tok, e);
    } else if More(s) {
      n := CallsAgree(a, small, large, s.c, tok);
    } else {
      n := |s.c.log|;
    }
  }

  /** Whole runs on the same tokens: identical, or identical until the smaller one overflows. */
  lemma {:induction false} RunsAgree(a: Automaton, small: nat, large: nat, toks: seq<Token>) returns (n: nat)
    requires WellFormed(a) && 1 <= small < large && AreTokens(toks)
    ensures SameUntilOverflow(Run(a, small, toks), Run(a, large, toks), n)
    decreases |toks|
  {
    hide WellFormed, StackOk, Feed;
    if toks == [] {
      n := 0;
    } else {
      hide Run, Overflowing;
      var front, tok := toks[..|toks| - 1], toks[|toks| - 1];
      var s := Run(a, small, front);
      RunUnfolds(a, small, toks);
      RunUnfolds(a, large, toks);
      n := RunsAgree(a, small, large, front);
      if n == |s.log| {
        n := CallsAgree(a, small, large, s, tok);
      }
    }
  }

  // ---- which runs overflow ----

  /** Some pass of the call needs more than `n` entries. */
  ghost predicate CallOutgrows(a: Automaton, limit: nat, c: Config, tok: Token, n: nat)
    requires Ready(a, limit, c) && IsToken(tok)
    decreases Fuel(a, limit, c)
  {
    var s := Step(a, limit, c, tok);
    StepBurnsFuel(a, limit, c, tok);
    Outgrows(a, c, s.c, tok, n) || (!s.done && |s.c.stack| > 1 && CallOutgrows(a, limit, s.c, tok, n))
  }

  /** Some pass of the run needs more than `n` entries. */
  ghost predicate RunOutgrows(a: Automaton, limit: nat, toks: seq<Token>, n: nat)
    requires WellFormed(a) && limit >= 1 && AreTokens(toks)
    decreases |toks|
  {
    && toks != []
    && var front, c := toks[..|toks| - 1], Run(a, limit, toks[..|toks| - 1]);
       RunOutgrows(a, limit, front, n) || (c.stack != [] && CallOutgrows(a, limit, c, toks[|toks| - 1], n))
  }

  /** Only the last event of a call can be an overflow. */
  lemma {:induction false} CallOverflows(a: Automaton, limit: nat, c: Config, tok: Token)
    requires Ready(a, limit, c) && IsToken(tok)
    ensures |Feed(a, limit, c, tok).log| > 0
    ensures var log := Feed(a, limit, c, tok).log;
            Overflowing(log) <==> Overflowing(c.log) || log[|log| - 1].Overflow?
    decreases Fuel(a, limit, c)
  {
    hide WellFormed, StackOk, Step, Fuel, Feed, Does, ReducesEmpty, Overflowing;
    var s := Step(a, limit, c, tok);
    var e := StepDoes(a, limit, c, tok);
    EffectOverflows(a, c, s.c, tok, e);
    FeedUnfolds(a, limit, c, tok);
    if More(s) {
      CallOverflows(a, limit, s.c, tok);
    }
  }

  lemma EffectOverflows(a: Automaton, c: Config, c': Config, tok: Token, e: Effect)
    requires Does(a, c, c', tok, e)
    ensures |c'.log| > 0
    ensures Overflowing(c'.log) <==> Overflowing(c.log) || c'.log[|c'.log| - 1].Overflow?
    ensures e.Reduces? ==> !c'.log[|c'.log| - 1].Overflow?
  {
    hide Derives, RootedAt, Forest, Cleanup;
    if e.Overflows? {
      CleanupIsQuiet(c.stack, e.leak);
    }
    assert c'.log[|c'.log| - 1] in c'.log;
    assert forall x :: x in c.log ==> x in c'.log;
  }

  /** A call of the smaller parser overflows if and only if some pass of the larger one needs an
      entry beyond the smaller limit; otherwise the calls are the same. */
  lemma {:induction false} CallOverflowsExactly(a: Automaton, small: nat, large: nat, c: Config, tok: Token)
    requires Ready(a, small, c) && IsToken(tok) && small < large
    ensures var log := Feed(a, small, c, tok).log;
            |log| > 0 && (log[|log| - 1].Overflow? <==> CallOutgrows(a, large, c, tok, small))
    ensures !CallOutgrows(a, large, c, tok, small) ==> Feed(a, small, c, tok) == Feed(a, large, c, tok)
    decreases Fuel(a, small, c)
  {
    hide WellFormed, StackOk, Step, Fuel, Feed, Does, Outgrows, ReducesEmpty;
    var s, l := Step(a, small, c, tok), Step(a, large, c, tok);
    var e := StepDoes(a, small, c, tok);
    EffectEvent(a, c, s.c, tok, e);
    EffectOverflows(a, c, s.c, tok, e);
    StepsAgree(a, small, large, c, tok);
    FeedUnfolds(a, small, c, tok);
    FeedUnfolds(a, large, c, tok);
    if More(s) {
      CallOverflowsExactly(a, small, large, s.c, tok);
    }
  }

  /** A run of the smaller parser overflows if and only if some pass of the larger one, on the
      same tokens, needs an entry beyond the smaller limit; otherwise the runs are the same. */
  lemma {:induction false} RunOverflowsExactly(a: Automaton, small: nat, large: nat, toks: seq<Token>)
    requires WellFormed(a) && 1 <= small < large && AreTokens(toks)
    ensures Overflowing(Run(a, small, toks).log) <==> RunOutgrows(a, large, toks, small)
    ensures !RunOutgrows(a, large, toks, small) ==> Run(a, small, toks) == Run(a, large, toks)
    decreases |toks|
  {
    hide WellFormed, StackOk, Feed, CallOutgrows;
    if toks != [] {
      var front, tok := toks[..|toks| - 1], toks[|toks| - 1];
      var s, l := Run(a, small, front), Run(a, large, front);
      assert RunOutgrows(a, large, toks, small)
        <==> RunOutgrows(a, large, front, small) || CallOutgrows(a, large, l, tok, small);
      hide Run, RunOutgrows, Overflowing;
      RunUnfolds(a, small, toks);
      RunUnfolds(a, large, toks);
      RunOverflowsExactly(a, small, large, front);
      if s.stack != [] {
        CallOverflows(a, small, s, tok);
        if s == l {
          CallOverflowsExactly(a, small, large, s, tok);
        }
      }
    }
  }
}
