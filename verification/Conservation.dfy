/** What every run of the parser keeps, from allocation through any sequence of calls. */
module Conservation {
  import opened Grammar
  import opened Machine
  import opened Runs
  import opened History
  import opened Ownership
  import opened Cost
  import Bound

  /** The run invariant: the trees match the log, the books balance, the work is paid for. */
  ghost predicate Lawful(a: Automaton, limit: nat, c: Config) {
    Standing(a, limit, c) && Honest(a, c) && Accounted(a, c) && Affordable(a, limit, c)
  }

  ghost predicate AreTokens(toks: seq<Token>) {
    forall i :: 0 <= i < |toks| ==> IsToken(toks[i])
  }

  lemma InitialLawful(a: Automaton, limit: nat)
    requires WellFormed(a) && limit >= 1
    ensures Lawful(a, limit, INITIAL)
  {
    InitialReady(a, limit);
  }

  lemma EffectKeepsLawful(a: Automaton, limit: nat, c: Config, c': Config, tok: Token, e: Effect)
    requires Ready(a, limit, c) && Lawful(a, limit, c) && Standing(a, limit, c') && Does(a, c, c', tok, e)
    ensures Lawful(a, limit, c')
    ensures Closings(c'.log) == Closings(c.log) + if e.Reduces? then [] else [tok]
  {
    hide Standing, Honest, Accounted, Affordable, Does, WellFormed;
    EffectKeepsHonest(a, c, c', tok, e);
    EffectKeepsAccounted(a, c, c', tok, e);
    EffectKeepsAffordable(a, limit, c, c', tok, e);
  }

  /** One call keeps the run invariant and closes exactly once, on its own token. */
  lemma {:induction false} FeedKeepsLawful(a: Automaton, limit: nat, c: Config, tok: Token)
    requires Ready(a, limit, c) && Lawful(a, limit, c) && IsToken(tok)
    ensures Lawful(a, limit, Feed(a, limit, c, tok))
    ensures Closings(Feed(a, limit, c, tok).log) == Closings(c.log) + [tok]
    decreases Fuel(a, limit, c)
  {
    hide WellFormed, StackOk, Step, Fuel, Honest, Accounted, Affordable, Does, ReducesEmpty;
    var s := Step(a, limit, c, tok);
    var e := StepDoes(a, limit, c, tok);
    EffectKeepsLawful(a, limit, c, s.c, tok, e);
    StepBurnsFuel(a, limit, c, tok);
    if !s.done && |s.c.stack| > 1 {
      FeedKeepsLawful(a, limit, s.c, tok);
    }
  }

  /** Token conservation: in any run the tokens close one call each, in the order of arrival, and
      the run invariant holds at the end. Only a run that falls below the base leaves tokens. */
  lemma {:induction false} RunIsLawful(a: Automaton, limit: nat, toks: seq<Token>)
    requires WellFormed(a) && limit >= 1 && AreTokens(toks)
    ensures Lawful(a, limit, Run(a, limit, toks))
    ensures Closings(Run(a, limit, toks).log) <= toks
    ensures Run(a, limit, toks).stack != [] ==> Closings(Run(a, limit, toks).log) == toks
    decreases |toks|
  {
    hide WellFormed, Feed, Lawful, StackOk;
    InitialLawful(a, limit);
    if toks != [] {
      var front, last := toks[..|toks| - 1], toks[|toks| - 1];
      assert toks == front + [last];
      var before := Run(a, limit, front);
      assert Run(a, limit, toks) == if before.stack == [] then before else Feed(a, limit, before, last);
      hide Run, Closings;
      RunIsLawful(a, limit, front);
      if before.stack != [] {
        FeedKeepsLawful(a, limit, before, last);
      }
    }
  }

  // ---- soundness ----

  /** Whatever a run accepts has a textbook derivation tree from the start symbol, with the
      removed unit rules put back, over the tokens shifted since the stack was last empty. The
      shifts and reductions were made bottom-up and left to right along that tree. */
  lemma AcceptIsDerivation(a: Automaton, limit: nat, toks: seq<Token>, k: nat) returns (t: Tree)
    requires WellFormed(a) && limit >= 1 && AreTokens(toks)
    requires k < |Run(a, limit, toks).log| && Run(a, limit, toks).log[k].Accept?
    ensures Explains(a.grammar, t, a.grammar.start, Run(a, limit, toks).log[k].value)
    ensures Leaves(t) == TokensOf(Since(Run(a, limit, toks).log[..k]))
    ensures PostOrder(Run(a, limit, toks).log[k].value) == Since(Run(a, limit, toks).log[..k])
  {
    RunIsLawful(a, limit, toks);
    var v := Run(a, limit, toks).log[k].value;
    t := Elaborate(a.grammar, v, a.grammar.start);
    WorkOfValue(v);
  }

  ghost predicate Plain(e: Event) { e.Shift? || e.Reduce? }

  /** Without rejects and overflows the work since the start lists the tokens as they came. */
  lemma {:induction false} PlainTokens(log: seq<Event>)
    requires forall e :: e in log ==> Plain(e)
    ensures TokensOf(Since(log)) == Closings(log)
    decreases |log|
  {
    if log != [] {
      var front, last := log[..|log| - 1], log[|log| - 1];
      assert Plain(last);
      PlainTokens(front);
      WorkConcat(Since(front), if last.Shift? then [Shifted(last.token)] else [Reduced(last.rule)]);
    }
  }

  /** Parser soundness: if feeding `toks` to a fresh parser first accepts on the last token and
      nothing was rejected or overflowed, the other tokens are the leaves of a derivation tree
      from the start symbol, each read as itself, its fallback or the wildcard. */
  lemma ParserIsSound(a: Automaton, limit: nat, toks: seq<Token>) returns (t: Tree)
    requires WellFormed(a) && limit >= 1 && AreTokens(toks)
    requires var log := Run(a, limit, toks).log;
             && |log| > 0 && log[|log| - 1].Accept?
             && forall e :: e in log[..|log| - 1] ==> Plain(e)
    ensures |toks| > 0
    ensures IsTree(a.grammar, t) && Root(a.grammar, t) == a.grammar.start
    ensures Leaves(t) == toks[..|toks| - 1]
  {
    hide WellFormed, Run, Derives, IsTree, Erase, Lawful, Since, TokensOf, Closings, PostOrder, Yield, Leaves, Root;
    var log := Run(a, limit, toks).log;
    var k := |log| - 1;
    t := AcceptIsDerivation(a, limit, toks, k);
    RunIsLawful(a, limit, toks);
    var front, last := log[..k], log[k];
    assert log == front + [last];
    PlainTokens(front);
    SinceLast(front, last);
    assert toks == Closings(front) + [last.token];
  }

  /** Until the first accept or overflow the stack's leaves are the tokens that were not
      rejected, in order of arrival. */
  function NotRejected(log: seq<Event>): seq<Token> {
    if log == [] then []
    else NotRejected(log[..|log| - 1]) +
         if log[|log| - 1].Reject? then [] else OneClosing(log[|log| - 1])
  }

  lemma {:induction false} SinceIsNotRejected(log: seq<Event>)
    requires forall e :: e in log ==> !e.Accept? && !e.Overflow?
    ensures TokensOf(Since(log)) == NotRejected(log)
    decreases |log|
  {
    if log != [] {
      var front, last := log[..|log| - 1], log[|log| - 1];
      assert last in log;
      SinceIsNotRejected(front);
      WorkConcat(Since(front), if last.Shift? then [Shifted(last.token)]
                               else if last.Reduce? then [Reduced(last.rule)] else []);
      assert Since(front) + [] == Since(front);
    }
  }

  lemma StackHoldsTokens(a: Automaton, limit: nat, toks: seq<Token>)
    requires WellFormed(a) && limit >= 1 && AreTokens(toks)
    requires forall e :: e in Run(a, limit, toks).log ==> !e.Accept? && !e.Overflow?
    ensures YieldAll(Forest(Run(a, limit, toks).stack)) == NotRejected(Run(a, limit, toks).log)
  {
    var c := Run(a, limit, toks);
    RunIsLawful(a, limit, toks);
    WorkOfValues(Forest(c.stack));
    SinceIsNotRejected(c.log);
  }

  // ---- work ----

  /** What a lawful configuration with this many closed calls has cost. */
  lemma LinearAt(a: Automaton, limit: nat, c: Config, calls: nat)
    requires Affordable(a, limit, c) && |Closings(c.log)| <= calls
    requires NodesAll(Forest(c.stack)) <= Bound.ForestBound(a.ranking, limit, |YieldAll(Forest(c.stack))|)
    ensures Reductions(c.log) <= Bare(a, limit) + (Bare(a, limit) + 1 + PerShift(a)) * calls
  {
    hide Closings, Reductions, Allowance, Bare, PerShift, Bound.ForestBound;
    FullBound(a, limit, |YieldAll(Forest(c.stack))|);
    AllowanceBound(a, limit, c.log);
    Bound.MulMonotone(Bare(a, limit) + 1 + PerShift(a), |Closings(c.log)|, calls);
  }

  /** A whole run makes at most linearly many reductions, with constants that depend on the
      grammar and the stack depth only. */
  lemma RunIsLinear(a: Automaton, limit: nat, toks: seq<Token>)
    requires WellFormed(a) && limit >= 1 && AreTokens(toks)
    ensures Reductions(Run(a, limit, toks).log)
            <= Bare(a, limit) + (Bare(a, limit) + 1 + PerShift(a)) * |toks|
  {
    RunIsLawful(a, limit, toks);
    var c := Run(a, limit, toks);
    hide WellFormed, Run, Closings, StackOk, Reductions, Allowance, Bare, PerShift, Bound.Mul, Honest, Accounted;
    if c.stack != [] {
      FuelIsNatural(a, limit, c);
    }
    LinearAt(a, limit, c, |toks|);
  }

  // ---- ownership ----

  /** After a run and the final free, each value made was consumed by one reduction, destroyed
      once, delivered, or is the one dropped by an empty rule's overflow. */
  lemma NothingIsLost(a: Automaton, limit: nat, toks: seq<Token>)
    requires WellFormed(a) && limit >= 1 && AreTokens(toks)
    ensures var c := Run(a, limit, toks);
            var b := BooksOf(c.log + Destroys(c.stack));
            && b.created == b.consumed + b.destroyed + b.leaked + b.delivered
            && AllRight(a.grammar, c.log + Destroys(c.stack))
  {
    var c := Run(a, limit, toks);
    RunIsLawful(a, limit, toks);
    FreeSettles(a, c);
    DestroysBooks(a, c.log, c.stack);
    AllRightConcat(a.grammar, c.log, Destroys(c.stack));
  }
}
