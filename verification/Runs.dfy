/** Whole calls and whole runs of the parser: every call ends, and what every run keeps. */
module Runs {
  import opened Grammar
  import opened ActionTables
  import opened Machine
  import Bound

  // ---- what one pass does to the forest and the log ----

  /** `Overflows(true)` drops the top value without its destructor; `Falls` drops the base. */
  datatype Effect = Pushes | Rejects | Reduces(rule: nat, n: nat) | Accepts(rule: nat) | Overflows(leak: bool) | Falls

  /** `before` becomes `after` with effect `e`. */
  ghost predicate Does(a: Automaton, before: Config, after: Config, tok: Token, e: Effect)
  {
    && |before.stack| > 0
    && (after.stack == [] <==> e.Falls?)
    && var trees, next := Forest(before.stack), Forest(after.stack);
    match e
    case Pushes =>
      next == trees + [Tok(tok)] && after.log == before.log + [Shift(tok)]
    case Rejects =>
      after == before.(log := before.log + [Reject(tok)])
    case Reduces(r, n) =>
      && n <= |trees|
      && var args := trees[|trees| - n..];
      && Derives(a.grammar, App(r, args))
      && next == trees[..|trees| - n] + [App(r, args)]
      && after.log == before.log + [Reduce(r, args)]
    case Accepts(r) =>
      && next == []
      && Derives(a.grammar, App(r, trees))
      && RootedAt(a.grammar, App(r, trees), a.grammar.start)
      && after.log == before.log + [Reduce(r, trees), Accept(App(r, trees), tok)]
    case Overflows(leak) =>
      && next == []
      && (leak ==> |trees| > 0)
      && after.log == before.log + Cleanup(before.stack, leak) + [Overflow(tok)]
    case Falls =>
      trees == [] && after.log == before.log + [Overflow(tok)]
  }

  /** The last event tells a fold and an overflow from the other effects. */
  lemma EffectEvent(a: Automaton, c: Config, c': Config, tok: Token, e: Effect)
    requires Does(a, c, c', tok, e)
    ensures |c'.log| > |c.log|
    ensures e.Reduces? <==> c'.log[|c'.log| - 1].Reduce?
    ensures c'.log[|c'.log| - 1].Overflow? ==> c'.log[|c'.log| - 1] == Overflow(tok)
    ensures e.Overflows? || e.Falls? <==> c'.log[|c'.log| - 1] == Overflow(tok)
  {
    hide Derives, RootedAt, Cleanup, Forest;
  }

  ghost predicate Ready(a: Automaton, limit: nat, c: Config) {
    WellFormed(a) && StackOk(a, c.stack) && 1 <= limit && |c.stack| <= limit
  }

  /** The parser can take another token, or its top index has gone below the base. The latter
      needs a stack of one entry, and shows as an overflow. */
  ghost predicate Standing(a: Automaton, limit: nat, c: Config) {
    if c.stack == [] then limit == 1 && |c.log| > 0 && c.log[|c.log| - 1].Overflow?
    else Ready(a, limit, c)
  }

  ghost predicate IsToken(tok: Token) { tok.code < YYNTOKEN }

  lemma StepDoes(a: Automaton, limit: nat, c: Config, tok: Token) returns (e: Effect)
    requires Ready(a, limit, c) && IsToken(tok)
    ensures Standing(a, limit, Step(a, limit, c, tok).c)
    ensures Does(a, c, Step(a, limit, c, tok).c, tok, e)
    ensures Step(a, limit, c, tok).done <==> e.Pushes? || e.Rejects? || e == Overflows(false)
    ensures !Step(a, limit, c, tok).done && |Step(a, limit, c, tok).c.stack| > 1 <==> e.Reduces?
    ensures e.Falls? <==> limit == 1 && ReducesEmpty(a, c, tok)
  {
    StepKeepsStack(a, limit, c, tok);
    ActionIsSafe(a, c.stack, tok.code);
    assert |c.stack| > 0;
    hide WellFormed, ActionFor, CanReduce, EdgeOk, ReducesEmpty, Reads, Settled, DoReduce;
    var act, s := ActionFor(a, c.stack, tok.code).act, Step(a, limit, c, tok);
    if act <= YY_MAX_SHIFTREDUCE {
      assert s == Stepped(DoShift(limit, c, act, tok), true);
      hide Step, StackOk;
      e := if |c.stack| >= limit then Overflows(false) else Pushes;
      assert e.Pushes? ==> Forest(c.stack + [Entry(Encode(act), tok.code, Tok(tok))]) == Forest(c.stack) + [Tok(tok)];
    } else if act <= YY_MAX_REDUCE {
      assert s == Stepped(DoReduce(a, limit, c, act - YY_MIN_REDUCE, tok), false);
      e := ReduceDoes(a, limit, c, act - YY_MIN_REDUCE, tok);
      hide Step, StackOk, Does;
    } else {
      assert s == Stepped(c.(log := c.log + [Reject(tok)]), true);
      hide Step, StackOk;
      e := Rejects;
    }
  }

  lemma ReduceDoes(a: Automaton, limit: nat, c: Config, r: nat, tok: Token) returns (e: Effect)
    requires Ready(a, limit, c) && CanReduce(a, c.stack, r)
    ensures Does(a, c, DoReduce(a, limit, c, r, tok), tok, e)
    ensures !e.Pushes? && !e.Rejects? && e != Overflows(false)
    ensures |DoReduce(a, limit, c, r, tok).stack| > 1 <==> e.Reduces?
  {
    if |a.grammar.rules[r].rhs| == 0 && |c.stack| >= limit {
      e := if |c.stack| == 1 then Falls else Overflows(true);
    } else {
      e := LandDoes(a, c, r, tok);
    }
  }

  lemma LandDoes(a: Automaton, c: Config, r: nat, tok: Token) returns (e: Effect)
    requires WellFormed(a) && StackOk(a, c.stack) && CanReduce(a, c.stack, r)
    ensures Does(a, c, Land(a, c, r, tok), tok, e)
    ensures e.Reduces? || e.Accepts?
    ensures |Land(a, c, r, tok).stack| > 1 <==> e.Reduces?
  {
    hide WellFormed, StackOk, HasGoto, Derives, RootedAt, GotoAct, Built, Does;
    LandOk(a, c, r, tok);
    RuleInfoTells(a, c.stack, r);
    if GotoAct(a, c.stack, r) <= YY_MAX_SHIFTREDUCE {
      e := Reduces(r, |c.stack| - Kept(a, c.stack, r));
      LandReduces(a, c, r, tok);
    } else {
      e := Accepts(r);
      LandAccepts(a, c, r, tok);
    }
  }

  lemma LandReduces(a: Automaton, c: Config, r: nat, tok: Token)
    requires CanReduce(a, c.stack, r) && 0 < Kept(a, c.stack, r) <= |c.stack|
    requires GotoAct(a, c.stack, r) <= YY_MAX_SHIFTREDUCE && Derives(a.grammar, Built(a, c.stack, r))
    ensures Does(a, c, Land(a, c, r, tok), tok, Reduces(r, |c.stack| - Kept(a, c.stack, r)))
  {
    var keep := Kept(a, c.stack, r);
    ForestParts(c.stack, keep);
    assert Built(a, c.stack, r) == App(r, Forest(c.stack)[keep - 1..]);
    assert |Forest(c.stack)| == |c.stack| - 1;
    hide CanReduce, Derives, GotoAct, Minors, Encode, Forest, Kept, Built;
    ForestPush(c.stack[..keep], Land(a, c, r, tok).stack[keep]);
  }

  lemma LandAccepts(a: Automaton, c: Config, r: nat, tok: Token)
    requires CanReduce(a, c.stack, r) && Kept(a, c.stack, r) == 1 <= |c.stack|
    requires GotoAct(a, c.stack, r) > YY_MAX_SHIFTREDUCE && Derives(a.grammar, Built(a, c.stack, r))
    requires RootedAt(a.grammar, Built(a, c.stack, r), a.grammar.start)
    ensures Does(a, c, Land(a, c, r, tok), tok, Accepts(r))
  {
    ForestParts(c.stack, 1);
    assert Built(a, c.stack, r) == App(r, Forest(c.stack));
    hide CanReduce, Derives, RootedAt, GotoAct, Minors, Kept, Built;
    assert Forest(c.stack[..1]) == [];
  }

  // ---- every call ends ----

  /** How many more reductions the tokens on the stack can support. */
  function Fuel(a: Automaton, limit: nat, c: Config): nat
    requires Ready(a, limit, c)
  {
    FuelIsNatural(a, limit, c);
    Bound.ForestBound(a.ranking, limit, |YieldAll(Forest(c.stack))|) - NodesAll(Forest(c.stack))
  }

  lemma FuelIsNatural(a: Automaton, limit: nat, c: Config)
    requires Ready(a, limit, c)
    ensures NodesAll(Forest(c.stack)) <= Bound.ForestBound(a.ranking, limit, |YieldAll(Forest(c.stack))|)
  {
    var vs := Forest(c.stack);
    forall v | v in vs ensures Derives(a.grammar, v) && Rooted(a.grammar, v) {
      var i :| 0 <= i < |vs| && vs[i] == v;
      assert EntryOk(a, c.stack[1..][i]);
    }
    Bound.ForestSize(a.grammar, a.ranking, vs);
    Bound.MulMonotone(Bound.Empties(a.ranking), |vs|, limit);
  }

  lemma {:induction false} ForestConcat(us: seq<Value>, vs: seq<Value>)
    ensures YieldAll(us + vs) == YieldAll(us) + YieldAll(vs)
    ensures NodesAll(us + vs) == NodesAll(us) + NodesAll(vs)
    decreases |vs|
  {
    if vs == [] {
      assert us + vs == us;
    } else {
      assert (us + vs)[..|us + vs| - 1] == us + vs[..|vs| - 1];
      ForestConcat(us, vs[..|vs| - 1]);
    }
  }

  /** Folding the last `n` trees into one adds a node and keeps the tokens. */
  lemma FoldTrees(trees: seq<Value>, n: nat, r: nat)
    requires n <= |trees|
    ensures var next := trees[..|trees| - n] + [App(r, trees[|trees| - n..])];
            && YieldAll(next) == YieldAll(trees)
            && NodesAll(next) == NodesAll(trees) + 1
            && PostOrderAll(next) == PostOrderAll(trees) + [Reduced(r)]
  {
    var rest, args := trees[..|trees| - n], trees[|trees| - n..];
    assert trees == rest + args;
    ForestConcat(rest, args);
    PostOrderConcat(rest, args);
    var next := rest + [App(r, args)];
    assert next[..|next| - 1] == rest;
    var front := PostOrderAll(rest);
    assert front + (PostOrderAll(args) + [Reduced(r)]) == front + PostOrderAll(args) + [Reduced(r)];
  }

  /** A pass that does not finish the call uses up fuel. */
  lemma StepBurnsFuel(a: Automaton, limit: nat, c: Config, tok: Token)
    requires Ready(a, limit, c) && IsToken(tok)
    ensures var s := Step(a, limit, c, tok);
            && Standing(a, limit, s.c)
            && (!s.done && |s.c.stack| > 1 ==> Ready(a, limit, s.c) && Fuel(a, limit, s.c) < Fuel(a, limit, c))
  {
    var s := Step(a, limit, c, tok);
    var e := StepDoes(a, limit, c, tok);
    if e.Reduces? {
      FoldTrees(Forest(c.stack), e.n, e.rule);
    }
  }

  /** One call of the parser: the loop runs until the token is used up or the stack is empty. */
  function Feed(a: Automaton, limit: nat, c: Config, tok: Token): (c': Config)
    requires Ready(a, limit, c) && IsToken(tok)
    ensures Standing(a, limit, c')
    decreases Fuel(a, limit, c)
  {
    var s := Step(a, limit, c, tok);
    StepBurnsFuel(a, limit, c, tok);
    if s.done || |s.c.stack| <= 1 then s.c else Feed(a, limit, s.c, tok)
  }

  lemma InitialReady(a: Automaton, limit: nat)
    requires WellFormed(a) && limit >= 1
    ensures Ready(a, limit, INITIAL)
  {
    BaseOk(a, INITIAL.stack);
  }

  /** A fresh parser fed the tokens one call at a time. Below the base a call would read outside
      the stack, so a run stops there. */
  function Run(a: Automaton, limit: nat, toks: seq<Token>): (c: Config)
    requires WellFormed(a) && limit >= 1
    requires forall i :: 0 <= i < |toks| ==> IsToken(toks[i])
    ensures Standing(a, limit, c)
    decreases |toks|
  {
    InitialReady(a, limit);
    if toks == [] then INITIAL
    else
      var before := Run(a, limit, toks[..|toks| - 1]);
      if before.stack == [] then before else Feed(a, limit, before, toks[|toks| - 1])
  }

  /** How a call ends: its token is on top of the stack, or was reported and dropped with the
      stack as the reductions left it, or nothing is held after an accept or an overflow. */
  lemma {:induction false} CallEnds(a: Automaton, limit: nat, c: Config, tok: Token)
    requires Ready(a, limit, c) && IsToken(tok)
    ensures var c' := Feed(a, limit, c, tok);
            && |c'.log| > |c.log|
            && var last := c'.log[|c'.log| - 1];
            || (last == Shift(tok) && |c'.stack| > 1 && c'.stack[|c'.stack| - 1].minor == Tok(tok))
            || last == Reject(tok)
            || (last == Overflow(tok) && |c'.stack| <= 1)
            || (last.Accept? && last.token == tok && |c'.stack| == 1)
    decreases Fuel(a, limit, c)
  {
    hide WellFormed, StackOk, Step, Fuel;
    var s := Step(a, limit, c, tok);
    var e := StepDoes(a, limit, c, tok);
    StepBurnsFuel(a, limit, c, tok);
    if !s.done && |s.c.stack| > 1 {
      CallEnds(a, limit, s.c, tok);
    } else if e.Pushes? {
      assert Forest(s.c.stack)[|s.c.stack| - 2] == Tok(tok);
    }
  }
}
