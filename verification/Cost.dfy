/** The reductions of a whole run are linear in the number of calls. */
module Cost {
  import opened Grammar
  import opened Machine
  import opened Runs
  import opened History
  import Bound

  function Reductions(log: seq<Event>): nat {
    if log == [] then 0 else Reductions(log[..|log| - 1]) + if log[|log| - 1].Reduce? then 1 else 0
  }

  /** Nodes of any stack whose trees hold no tokens. */
  function Bare(a: Automaton, limit: nat): nat {
    Bound.ForestBound(a.ranking, limit, 0)
  }

  function PerShift(a: Automaton): nat { 2 * Bound.Width(a.ranking) }

  function Paid(a: Automaton, limit: nat, e: Event): nat {
    match e
    case Shift(_) => PerShift(a)
    case Accept(_, _) => Bare(a, limit) + 1
    case Overflow(_) => Bare(a, limit) + 1
    case _ => 0
  }

  /** A shift pays for the nodes its token can support, an emptied stack for the nodes it loses. */
  function Allowance(a: Automaton, limit: nat, log: seq<Event>): nat {
    if log == [] then 0 else Allowance(a, limit, log[..|log| - 1]) + Paid(a, limit, log[|log| - 1])
  }

  ghost predicate Affordable(a: Automaton, limit: nat, c: Config) {
    && Reductions(c.log) + Bound.Mul(PerShift(a), |YieldAll(Forest(c.stack))|)
       <= NodesAll(Forest(c.stack)) + Allowance(a, limit, c.log)
  }

  lemma CostLast(a: Automaton, limit: nat, log: seq<Event>, e: Event)
    ensures Reductions(log + [e]) == Reductions(log) + if e.Reduce? then 1 else 0
    ensures Allowance(a, limit, log + [e]) == Allowance(a, limit, log) + Paid(a, limit, e)
  {
    assert (log + [e])[..|log + [e]| - 1] == log;
  }

  lemma {:induction false} CostQuiet(a: Automaton, limit: nat, log: seq<Event>, quiet: seq<Event>)
    requires forall e :: e in quiet ==> Quiet(e)
    ensures Reductions(log + quiet) == Reductions(log)
    ensures Allowance(a, limit, log + quiet) == Allowance(a, limit, log)
    decreases |quiet|
  {
    if quiet == [] {
      assert log + quiet == log;
    } else {
      var front, last := quiet[..|quiet| - 1], quiet[|quiet| - 1];
      assert Quiet(last);
      CostQuiet(a, limit, log, front);
      assert log + quiet == log + front + [last];
      CostLast(a, limit, log + front, last);
    }
  }

  lemma FullBound(a: Automaton, limit: nat, m: nat)
    ensures Bound.ForestBound(a.ranking, limit, m) == Bare(a, limit) + Bound.Mul(PerShift(a), m)
  {
    hide Bound.Empties, Bound.Width;
  }

  lemma EffectKeepsAffordable(a: Automaton, limit: nat, c: Config, c': Config, tok: Token, e: Effect)
    requires Ready(a, limit, c) && Affordable(a, limit, c) && Does(a, c, c', tok, e)
    ensures Affordable(a, limit, c')
  {
    FuelIsNatural(a, limit, c);
    var trees := Forest(c.stack);
    assert |c.stack| > 0;
    FullBound(a, limit, |YieldAll(trees)|);
    hide Ready, Derives, RootedAt, Reductions, Allowance, Cleanup, PerShift, Bare, Bound.ForestBound, Forest;
    hide Affordable, Does;
    match e
    case Pushes => PushIsAffordable(a, limit, c, c', tok);
    case Rejects => RejectIsAffordable(a, limit, c, c', tok);
    case Reduces(r, n) => ReduceIsAffordable(a, limit, c, c', tok, r, n);
    case Accepts(r) => AcceptIsAffordable(a, limit, c, c', tok, r);
    case Overflows(leak) => OverflowIsAffordable(a, limit, c, c', tok, leak);
    case Falls => FallIsAffordable(a, limit, c, c', tok);
  }

  lemma FallIsAffordable(a: Automaton, limit: nat, c: Config, c': Config, tok: Token)
    requires Affordable(a, limit, c) && Does(a, c, c', tok, Falls)
    ensures Affordable(a, limit, c')
  {
    hide Reductions, Allowance, PerShift, Bare, Bound.Mul;
    CostLast(a, limit, c.log, Overflow(tok));
  }

  lemma AcceptIsAffordable(a: Automaton, limit: nat, c: Config, c': Config, tok: Token, r: nat)
    requires Affordable(a, limit, c) && Does(a, c, c', tok, Accepts(r))
    requires NodesAll(Forest(c.stack)) <= Bare(a, limit) + Bound.Mul(PerShift(a), |YieldAll(Forest(c.stack))|)
    ensures Affordable(a, limit, c')
  {
    hide Derives, RootedAt, Reductions, Allowance, PerShift, Bare, Forest, Affordable;
    var trees := Forest(c.stack);
    var reduced := c.log + [Reduce(r, trees)];
    assert c'.log == reduced + [Accept(App(r, trees), tok)];
    CostLast(a, limit, c.log, Reduce(r, trees));
    CostLast(a, limit, reduced, Accept(App(r, trees), tok));
    EmptyIsAffordable(a, limit, c, c');
  }

  lemma OverflowIsAffordable(a: Automaton, limit: nat, c: Config, c': Config, tok: Token, leak: bool)
    requires Affordable(a, limit, c) && Does(a, c, c', tok, Overflows(leak))
    requires NodesAll(Forest(c.stack)) <= Bare(a, limit) + Bound.Mul(PerShift(a), |YieldAll(Forest(c.stack))|)
    ensures Affordable(a, limit, c')
  {
    hide Reductions, Allowance, PerShift, Bare, Forest, Cleanup, Affordable;
    CleanupIsQuiet(c.stack, leak);
    CostQuiet(a, limit, c.log, Cleanup(c.stack, leak));
    CostLast(a, limit, c.log + Cleanup(c.stack, leak), Overflow(tok));
    EmptyIsAffordable(a, limit, c, c');
  }

  lemma RejectIsAffordable(a: Automaton, limit: nat, c: Config, c': Config, tok: Token)
    requires Affordable(a, limit, c) && Does(a, c, c', tok, Rejects)
    ensures Affordable(a, limit, c')
  {
    CostLast(a, limit, c.log, Reject(tok));
  }

  lemma ReduceIsAffordable(a: Automaton, limit: nat, c: Config, c': Config, tok: Token, r: nat, n: nat)
    requires Affordable(a, limit, c) && Does(a, c, c', tok, Reduces(r, n))
    ensures Affordable(a, limit, c')
  {
    hide Reductions, Allowance, PerShift, Bare, Forest, Derives;
    var trees := Forest(c.stack);
    CostLast(a, limit, c.log, Reduce(r, trees[|trees| - n..]));
    FoldTrees(trees, n, r);
  }

  lemma PushIsAffordable(a: Automaton, limit: nat, c: Config, c': Config, tok: Token)
    requires Affordable(a, limit, c) && Does(a, c, c', tok, Pushes)
    ensures Affordable(a, limit, c')
  {
    hide Reductions, Allowance, PerShift, Bare, Forest;
    CostLast(a, limit, c.log, Shift(tok));
    ForestConcat(Forest(c.stack), [Tok(tok)]);
    OneToken(tok);
    Bound.MulAdd(PerShift(a), |YieldAll(Forest(c.stack))|, 1);
  }

  lemma EmptyIsAffordable(a: Automaton, limit: nat, c: Config, c': Config)
    requires Affordable(a, limit, c) && Forest(c'.stack) == []
    requires NodesAll(Forest(c.stack)) <= Bare(a, limit) + Bound.Mul(PerShift(a), |YieldAll(Forest(c.stack))|)
    requires Reductions(c'.log) <= Reductions(c.log) + 1
    requires Allowance(a, limit, c'.log) == Allowance(a, limit, c.log) + Bare(a, limit) + 1
    ensures Affordable(a, limit, c')
  {
    hide Reductions, Allowance, PerShift, Bare, Forest;
  }

  lemma OneToken(tok: Token)
    ensures YieldAll([Tok(tok)]) == [tok] && NodesAll([Tok(tok)]) == 0
  {
    assert [Tok(tok)][..0] == [];
  }

  /** Each call pays at most once. */
  lemma {:induction false} AllowanceBound(a: Automaton, limit: nat, log: seq<Event>)
    ensures Allowance(a, limit, log) <= Bound.Mul(Bare(a, limit) + 1 + PerShift(a), |Closings(log)|)
    decreases |log|
  {
    hide Bare, PerShift, Bound.Mul;
    Bound.MulAdd(Bare(a, limit) + 1 + PerShift(a), 0, 1);
    if log != [] {
      var unit := Bare(a, limit) + 1 + PerShift(a);
      var front := log[..|log| - 1];
      AllowanceBound(a, limit, front);
      var k := |OneClosing(log[|log| - 1])|;
      Bound.MulAdd(unit, |Closings(front)|, k);
      Bound.MulAdd(unit, 0, 1);
    }
  }
}
