/** The log of a run and the trees on its stack tell the same story. */
module History {
  import opened Grammar
  import opened Machine
  import opened Runs

  function WorkAfter(w: seq<Work>, e: Event): seq<Work> {
    match e
    case Shift(x) => w + [Shifted(x)]
    case Reduce(r, _) => w + [Reduced(r)]
    case Accept(_, _) => []
    case Overflow(_) => []
    case _ => w
  }

  /** The work done since the stack was last emptied by an accept or an overflow. */
  function Since(log: seq<Event>): seq<Work> {
    if log == [] then [] else WorkAfter(Since(log[..|log| - 1]), log[|log| - 1])
  }

  function OneClosing(e: Event): seq<Token> {
    match e
    case Shift(x) => [x]
    case Reject(x) => [x]
    case Overflow(x) => [x]
    case Accept(_, x) => [x]
    case _ => []
  }

  /** The tokens of the events that end a call, in order. */
  function Closings(log: seq<Event>): seq<Token> {
    if log == [] then [] else Closings(log[..|log| - 1]) + OneClosing(log[|log| - 1])
  }

  /** Every value accepted so far is a derivation of the start symbol, made of exactly the work
      done since the stack was last empty. */
  ghost predicate AcceptsSound(g: Grammar, log: seq<Event>) {
    forall k :: 0 <= k < |log| && log[k].Accept? ==>
      && Derives(g, log[k].value)
      && RootedAt(g, log[k].value, g.start)
      && PostOrder(log[k].value) == Since(log[..k])
  }

  /** The stack is the work since it was last empty, folded into trees. */
  ghost predicate Honest(a: Automaton, c: Config) {
    && PostOrderAll(Forest(c.stack)) == Since(c.log)
    && AcceptsSound(a.grammar, c.log)
  }

  lemma SinceLast(log: seq<Event>, e: Event)
    ensures Since(log + [e]) == WorkAfter(Since(log), e)
    ensures Closings(log + [e]) == Closings(log) + OneClosing(e)
  {
    assert (log + [e])[..|log + [e]| - 1] == log;
  }

  lemma AcceptsLast(g: Grammar, log: seq<Event>, e: Event)
    requires AcceptsSound(g, log)
    requires e.Accept? ==> Derives(g, e.value) && RootedAt(g, e.value, g.start) && PostOrder(e.value) == Since(log)
    ensures AcceptsSound(g, log + [e])
  {
    var longer := log + [e];
    forall k | 0 <= k < |longer| && longer[k].Accept?
      ensures Derives(g, longer[k].value) && RootedAt(g, longer[k].value, g.start)
      ensures PostOrder(longer[k].value) == Since(longer[..k])
    {
      if k < |log| {
        assert longer[..k] == log[..k];
      } else {
        assert longer[..k] == log;
      }
    }
  }

  ghost predicate Quiet(e: Event) { e.Destroy? || e.Leak? }

  lemma {:induction false} CleanupIsQuiet(stack: seq<Entry>, leak: bool)
    requires |stack| > 0
    ensures forall e :: e in Cleanup(stack, leak) ==> Quiet(e)
  {
    DestroysAreQuiet(if leak then stack[..|stack| - 1] else stack);
  }

  lemma {:induction false} DestroysAreQuiet(stack: seq<Entry>)
    ensures forall e :: e in Destroys(stack) ==> Quiet(e)
    decreases |stack|
  {
    if |stack| > 1 {
      DestroysAreQuiet(stack[..|stack| - 1]);
    }
  }

  /** Emptying the stack changes nothing that the log says about tokens and accepts. */
  lemma {:induction false} QuietEvents(g: Grammar, log: seq<Event>, quiet: seq<Event>)
    requires forall e :: e in quiet ==> Quiet(e)
    ensures Closings(log + quiet) == Closings(log)
    ensures AcceptsSound(g, log) ==> AcceptsSound(g, log + quiet)
    decreases |quiet|
  {
    if quiet == [] {
      assert log + quiet == log;
    } else {
      var front, last := quiet[..|quiet| - 1], quiet[|quiet| - 1];
      assert Quiet(last);
      QuietEvents(g, log, front);
      assert log + quiet == log + front + [last];
      SinceLast(log + front, last);
      if AcceptsSound(g, log) {
        AcceptsLast(g, log + front, last);
      }
    }
  }

  /** The forest and the log stay in step. */
  lemma EffectKeepsHonest(a: Automaton, c: Config, c': Config, tok: Token, e: Effect)
    requires Does(a, c, c', tok, e) && Honest(a, c)
    ensures Honest(a, c')
    ensures Closings(c'.log) == Closings(c.log) + if e.Reduces? then [] else [tok]
  {
    hide AcceptsSound, Derives, RootedAt, Since, Closings;
    var trees := Forest(c.stack);
    match e
    case Pushes =>
      SinceLast(c.log, Shift(tok));
      AcceptsLast(a.grammar, c.log, Shift(tok));
      PostOrderConcat(trees, [Tok(tok)]);
      assert [Tok(tok)][..0] == [];
    case Rejects =>
      SinceLast(c.log, Reject(tok));
      AcceptsLast(a.grammar, c.log, Reject(tok));
    case Reduces(r, n) =>
      FoldTrees(trees, n, r);
      var done := Reduce(r, trees[|trees| - n..]);
      SinceLast(c.log, done);
      AcceptsLast(a.grammar, c.log, done);
    case Accepts(r) =>
      var reduced, accepted := c.log + [Reduce(r, trees)], Accept(App(r, trees), tok);
      assert c'.log == reduced + [accepted];
      SinceLast(c.log, Reduce(r, trees));
      SinceLast(reduced, accepted);
      AcceptsLast(a.grammar, c.log, Reduce(r, trees));
      AcceptsLast(a.grammar, reduced, accepted);
    case Overflows(leak) =>
      CleanupIsQuiet(c.stack, leak);
      QuietEvents(a.grammar, c.log, Cleanup(c.stack, leak));
      SinceLast(c.log + Cleanup(c.stack, leak), Overflow(tok));
      AcceptsLast(a.grammar, c.log + Cleanup(c.stack, leak), Overflow(tok));
    case Falls =>
      SinceLast(c.log, Overflow(tok));
      AcceptsLast(a.grammar, c.log, Overflow(tok));
  }
}
