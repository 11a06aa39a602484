/** Who is responsible for each semantic value: the books of a whole run. */
module Ownership {
  import opened Grammar
  import opened Machine
  import opened Runs

  /** Values made by shifts and reductions, and where each of them went. */
  datatype Books = Books(
    created: multiset<Value>,
    consumed: multiset<Value>,
    destroyed: multiset<Value>,
    leaked: multiset<Value>,
    delivered: multiset<Value>)

  const NOTHING := Books(multiset{}, multiset{}, multiset{}, multiset{}, multiset{})

  function Entered(b: Books, e: Event): Books {
    match e
    case Shift(x) => b.(created := b.created + multiset{Tok(x)})
    case Reduce(r, args) => b.(created := b.created + multiset{App(r, args)}, consumed := b.consumed + multiset(args))
    case Destroy(_, v) => b.(destroyed := b.destroyed + multiset{v})
    case Leak(v) => b.(leaked := b.leaked + multiset{v})
    case Accept(v, _) => b.(delivered := b.delivered + multiset{v})
    case _ => b
  }

  function BooksOf(log: seq<Event>): Books {
    if log == [] then NOTHING else Entered(BooksOf(log[..|log| - 1]), log[|log| - 1])
  }

  /** Every value created was consumed by a reduction, destroyed, leaked or delivered, each once,
      or is still held. */
  ghost predicate Balanced(b: Books, held: seq<Value>) {
    b.created == b.consumed + b.destroyed + b.leaked + b.delivered + multiset(held)
  }

  /** A destructor is always chosen by the symbol that its value was built for. */
  ghost predicate RightDestructor(g: Grammar, e: Event) {
    e.Destroy? ==> (e.value.App? ==> e.value.rule < |g.rules|) && e.major == MajorOf(g, e.value)
  }

  ghost predicate AllRight(g: Grammar, log: seq<Event>) {
    forall e :: e in log ==> RightDestructor(g, e)
  }

  ghost predicate Accounted(a: Automaton, c: Config) {
    && Balanced(BooksOf(c.log), Forest(c.stack))
    && AllRight(a.grammar, c.log)
  }

  lemma BooksLast(log: seq<Event>, e: Event)
    ensures BooksOf(log + [e]) == Entered(BooksOf(log), e)
  {
    assert (log + [e])[..|log + [e]| - 1] == log;
  }

  /** Entries are destroyed from the top of the stack down to the base. */
  lemma {:induction false} DestroysInOrder(stack: seq<Entry>, k: nat)
    requires k < |stack| - 1
    ensures |Destroys(stack)| == |stack| - 1
    ensures var e := stack[|stack| - 1 - k]; Destroys(stack)[k] == Destroy(e.major, e.minor)
    decreases |stack|
  {
    if |stack| > 2 {
      DestroysInOrder(stack[..|stack| - 1], if k == 0 then 0 else k - 1);
    }
  }

  /** Emptying a stack destroys exactly the values above its base. */
  lemma {:induction false} DestroysBooks(a: Automaton, log: seq<Event>, stack: seq<Entry>)
    requires forall i :: 1 <= i < |stack| ==> EntryOk(a, stack[i])
    ensures var b := BooksOf(log);
            BooksOf(log + Destroys(stack)) == b.(destroyed := b.destroyed + multiset(Forest(stack)))
    ensures AllRight(a.grammar, Destroys(stack))
    decreases |stack|
  {
    if |stack| <= 1 {
      assert log + Destroys(stack) == log && Forest(stack) == [];
    } else {
      var top := stack[|stack| - 1];
      var first := Destroy(top.major, top.minor);
      var rest := stack[..|stack| - 1];
      assert Forest(stack) == Forest(rest) + [top.minor];
      assert log + Destroys(stack) == log + [first] + Destroys(rest);
      assert EntryOk(a, top);
      BooksLast(log, first);
      DestroysBooks(a, log + [first], rest);
    }
  }

  /** What an overflow writes in the books: everything held is destroyed, except that an empty
      rule's overflow leaks the top value. */
  lemma CleanupBooks(a: Automaton, log: seq<Event>, stack: seq<Entry>, leak: bool)
    requires |stack| > 0 && (leak ==> |stack| > 1)
    requires forall i :: 1 <= i < |stack| ==> EntryOk(a, stack[i])
    ensures var b, b' := BooksOf(log), BooksOf(log + Cleanup(stack, leak));
            var trees := Forest(stack);
            b' == if leak then
                    b.(destroyed := b.destroyed + multiset(trees[..|trees| - 1]),
                       leaked := b.leaked + multiset{trees[|trees| - 1]})
                  else b.(destroyed := b.destroyed + multiset(trees))
    ensures AllRight(a.grammar, Cleanup(stack, leak))
  {
    hide EntryOk, Balanced;
    if leak {
      var top := Leak(stack[|stack| - 1].minor);
      var rest := stack[..|stack| - 1];
      assert Forest(rest) == Forest(stack)[..|stack| - 2];
      assert log + Cleanup(stack, leak) == log + [top] + Destroys(rest);
      BooksLast(log, top);
      DestroysBooks(a, log + [top], rest);
    } else {
      DestroysBooks(a, log, stack);
    }
  }

  lemma CleanupKeepsBalance(b: Books, trees: seq<Value>, leak: bool)
    requires Balanced(b, trees) && (leak ==> |trees| > 0)
    ensures Balanced(if leak then
                       b.(destroyed := b.destroyed + multiset(trees[..|trees| - 1]),
                          leaked := b.leaked + multiset{trees[|trees| - 1]})
                     else b.(destroyed := b.destroyed + multiset(trees)), [])
  {
    if leak {
      assert trees == trees[..|trees| - 1] + [trees[|trees| - 1]];
    }
  }

  lemma CleanupKeepsAccounted(a: Automaton, c: Config, leak: bool, tok: Token)
    requires |c.stack| > 0 && (leak ==> |c.stack| > 1)
    requires forall i :: 1 <= i < |c.stack| ==> EntryOk(a, c.stack[i])
    requires Accounted(a, c)
    ensures var log := c.log + Cleanup(c.stack, leak) + [Overflow(tok)];
            Balanced(BooksOf(log), []) && AllRight(a.grammar, log)
  {
    hide EntryOk, BooksOf, Cleanup, Balanced, AllRight, MajorOf;
    var quiet := Cleanup(c.stack, leak);
    CleanupBooks(a, c.log, c.stack, leak);
    CleanupKeepsBalance(BooksOf(c.log), Forest(c.stack), leak);
    BooksLast(c.log + quiet, Overflow(tok));
    AllRightConcat(a.grammar, c.log, quiet);
    AllRightLast(a.grammar, c.log + quiet, Overflow(tok));
  }

  lemma PushKeepsBalance(b: Books, trees: seq<Value>, tok: Token)
    requires Balanced(b, trees)
    ensures Balanced(Entered(b, Shift(tok)), trees + [Tok(tok)])
  {
  }

  lemma DeliverKeepsBalance(b: Books, trees: seq<Value>, r: nat, tok: Token)
    requires Balanced(b, trees)
    ensures Balanced(Entered(Entered(b, Reduce(r, trees)), Accept(App(r, trees), tok)), [])
  {
  }

  lemma FoldKeepsBalance(b: Books, trees: seq<Value>, n: nat, r: nat)
    requires n <= |trees| && Balanced(b, trees)
    ensures var args := trees[|trees| - n..];
            Balanced(Entered(b, Reduce(r, args)), trees[..|trees| - n] + [App(r, args)])
  {
    assert trees == trees[..|trees| - n] + trees[|trees| - n..];
  }

  lemma AllRightConcat(g: Grammar, u: seq<Event>, w: seq<Event>)
    requires AllRight(g, u) && AllRight(g, w)
    ensures AllRight(g, u + w)
  {
  }

  lemma AllRightLast(g: Grammar, log: seq<Event>, e: Event)
    requires AllRight(g, log) && RightDestructor(g, e)
    ensures AllRight(g, log + [e])
  {
  }

  lemma EntryKeepsRight(g: Grammar, log: seq<Event>, e: Event)
    requires AllRight(g, log) && !e.Destroy? && !e.Leak?
    ensures AllRight(g, log + [e])
    ensures BooksOf(log + [e]) == Entered(BooksOf(log), e)
  {
    BooksLast(log, e);
    AllRightLast(g, log, e);
  }

  lemma ReduceIsAccounted(a: Automaton, c: Config, c': Config, tok: Token, r: nat, n: nat)
    requires Accounted(a, c) && Does(a, c, c', tok, Reduces(r, n))
    ensures Accounted(a, c')
  {
    hide Derives, BooksOf, AllRight, Balanced;
    var trees := Forest(c.stack);
    EntryKeepsRight(a.grammar, c.log, Reduce(r, trees[|trees| - n..]));
    FoldKeepsBalance(BooksOf(c.log), trees, n, r);
  }

  lemma AcceptIsAccounted(a: Automaton, c: Config, c': Config, tok: Token, r: nat)
    requires Accounted(a, c) && Does(a, c, c', tok, Accepts(r))
    ensures Accounted(a, c')
  {
    hide Derives, RootedAt, BooksOf, AllRight, Balanced;
    var trees := Forest(c.stack);
    assert c'.log == c.log + [Reduce(r, trees)] + [Accept(App(r, trees), tok)];
    EntryKeepsRight(a.grammar, c.log, Reduce(r, trees));
    EntryKeepsRight(a.grammar, c.log + [Reduce(r, trees)], Accept(App(r, trees), tok));
    DeliverKeepsBalance(BooksOf(c.log), trees, r, tok);
  }

  lemma FallIsAccounted(a: Automaton, c: Config, c': Config, tok: Token)
    requires Accounted(a, c) && Does(a, c, c', tok, Falls)
    ensures Accounted(a, c')
  {
    EntryKeepsRight(a.grammar, c.log, Overflow(tok));
  }

  lemma PushIsAccounted(a: Automaton, c: Config, c': Config, tok: Token)
    requires Accounted(a, c) && Does(a, c, c', tok, Pushes)
    ensures Accounted(a, c')
  {
    hide BooksOf, AllRight, Balanced;
    EntryKeepsRight(a.grammar, c.log, Shift(tok));
    PushKeepsBalance(BooksOf(c.log), Forest(c.stack), tok);
  }

  lemma RejectIsAccounted(a: Automaton, c: Config, c': Config, tok: Token)
    requires Accounted(a, c) && Does(a, c, c', tok, Rejects)
    ensures Accounted(a, c')
  {
    hide BooksOf, AllRight, Balanced;
    EntryKeepsRight(a.grammar, c.log, Reject(tok));
  }

  lemma OverflowIsAccounted(a: Automaton, c: Config, c': Config, tok: Token, leak: bool)
    requires StackOk(a, c.stack) && Accounted(a, c) && Does(a, c, c', tok, Overflows(leak))
    ensures Accounted(a, c')
  {
    assert forall i :: 1 <= i < |c.stack| ==> EntryOk(a, c.stack[i]);
    assert |Forest(c.stack)| == |c.stack| - 1;
    hide StackOk, EntryOk, BooksOf, AllRight, Cleanup, Balanced, Forest, Derives, RootedAt;
    assert c'.log == c.log + Cleanup(c.stack, leak) + [Overflow(tok)] && Forest(c'.stack) == [];
    assert leak ==> |c.stack| > 1;
    hide Does;
    CleanupKeepsAccounted(a, c, leak, tok);
  }

  lemma EffectKeepsAccounted(a: Automaton, c: Config, c': Config, tok: Token, e: Effect)
    requires StackOk(a, c.stack) && Accounted(a, c) && Does(a, c, c', tok, e)
    ensures Accounted(a, c')
  {
    hide StackOk, Accounted, Does;
    match e
    case Pushes => PushIsAccounted(a, c, c', tok);
    case Rejects => RejectIsAccounted(a, c, c', tok);
    case Reduces(r, n) => ReduceIsAccounted(a, c, c', tok, r, n);
    case Accepts(r) => AcceptIsAccounted(a, c, c', tok, r);
    case Overflows(leak) => OverflowIsAccounted(a, c, c', tok, leak);
    case Falls => FallIsAccounted(a, c, c', tok);
  }

  /** Freeing the parser settles the books: nothing is held any more, also when the top index is
      below the base. */
  lemma FreeSettles(a: Automaton, c: Config)
    requires c.stack == [] || StackOk(a, c.stack)
    requires Accounted(a, c)
    ensures Balanced(BooksOf(c.log + Destroys(c.stack)), [])
    ensures BooksOf(c.log + Destroys(c.stack)).leaked == BooksOf(c.log).leaked
  {
    DestroysBooks(a, c.log, c.stack);
  }
}
