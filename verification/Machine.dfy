/** The push-down automaton as a state machine: what a well-formed set of tables is, what one
    pass of the parser's loop does to the stack, and the invariant every pass keeps. */
module Machine {
  import opened Grammar
  import opened ActionTables
  import Bound

  /** What is known below a state: `syms[k]` holds the symbols that may have been pushed `k`
      entries below the top, `states[k]` the states that may lie under that entry. */
  datatype Past = Past(syms: seq<set<Symbol>>, states: seq<set<nat>>)

  datatype Automaton = Automaton(tables: Tables, grammar: Grammar, past: seq<Past>, ranking: Bound.Ranking)

  // ---- well-formed tables, checked one table entry at a time ----

  ghost predicate HasGoto(t: Tables, s: nat, lhs: Symbol) {
    s < |t.reduceOfst| && Hit(t, t.reduceOfst[s], lhs)
  }

  function GotoCell(t: Tables, s: nat, lhs: Symbol): nat
    requires HasGoto(t, s, lhs)
  {
    t.action[t.reduceOfst[s] + lhs]
  }

  ghost predicate Covered(g: Grammar, position: set<Symbol>, pushed: set<Symbol>) {
    forall b: Symbol :: b in pushed ==> exists a: Symbol :: a in position && Unit(g, a, b)
  }

  /** Rule `r` may be reduced in state `s` whose past is `p`. */
  ghost predicate HandleOk(a: Automaton, p: Past, s: nat, r: nat) {
    && r < |a.grammar.rules|
    && r !in a.grammar.optimizedOut
    && var rhs := a.grammar.rules[r].rhs;
    && var lhs := a.grammar.rules[r].lhs;
    && |rhs| <= |p.syms| == |p.states|
    && (forall k :: 0 <= k < |rhs| ==> Covered(a.grammar, rhs[|rhs| - 1 - k], p.syms[k]))
    && (if |rhs| == 0 then HasGoto(a.tables, s, lhs)
        else forall u :: u in p.states[|rhs| - 1] ==> HasGoto(a.tables, u, lhs))
  }

  function Push(p: Past, s: nat, x: Symbol): Past {
    Past([{x}] + p.syms, [{s}] + p.states)
  }

  ghost predicate Forgets(p: Past, q: Past) {
    && |q.syms| == |q.states| <= |p.syms| == |p.states|
    && forall k :: 0 <= k < |q.syms| ==> p.syms[k] <= q.syms[k] && p.states[k] <= q.states[k]
  }

  /** Pushing symbol `x` in state `s` with action `act` leads to a consistent place. */
  ghost predicate EdgeOk(a: Automaton, s: nat, x: Symbol, act: nat)
    requires s < |a.past|
  {
    if act <= YY_MAX_SHIFT then
      && 0 < act < |a.past|
      && Forgets(Push(a.past[s], s, x), a.past[act])
    else
      && YY_MIN_SHIFTREDUCE <= act <= YY_MAX_SHIFTREDUCE
      && var r := act - YY_MIN_SHIFTREDUCE;
      && HandleOk(a, Push(a.past[s], s, x), 0, r)
      && |a.grammar.rules[r].rhs| > 0
  }

  ghost predicate ShiftCellOk(a: Automaton, s: nat, x: Symbol)
    requires s < |a.past| == |a.tables.shiftOfst| == |a.tables.dflt|
  {
    var f := ShiftLookup(a.tables, s, x);
    if f.act <= YY_MAX_SHIFTREDUCE then EdgeOk(a, s, f.readAs, f.act)
    else if f.act <= YY_MAX_REDUCE then HandleOk(a, a.past[s], s, f.act - YY_MIN_REDUCE)
    else f.act == YY_ERROR_ACTION
  }

  ghost predicate GotoCellOk(a: Automaton, s: nat, lhs: Symbol)
    requires s < |a.tables.reduceOfst| <= |a.past|
  {
    HasGoto(a.tables, s, lhs) ==>
      var act := GotoCell(a.tables, s, lhs);
      if act <= YY_MAX_SHIFTREDUCE then EdgeOk(a, s, lhs, act)
      else act == YY_ACCEPT_ACTION && s == 0 && lhs == a.grammar.start
  }

  /** The run-time rule table and the grammar describe the same rules. */
  ghost predicate RulesMatch(t: Tables, g: Grammar) {
    && |t.ruleInfo| == |g.rules| <= YY_MAX_REDUCE - YY_MIN_REDUCE + 1
    && t.fallback == g.fallback
    && forall r :: 0 <= r < |g.rules| ==>
         && t.ruleInfo[r] == RuleInfo(g.rules[r].lhs, |g.rules[r].rhs|)
         && YYNTOKEN <= g.rules[r].lhs < YYNOCODE
  }

  ghost predicate WellFormed(a: Automaton) {
    && Shaped(a.tables)
    && RulesMatch(a.tables, a.grammar)
    && Bound.Ranked(a.grammar, a.ranking)
    && |a.past| == |a.tables.shiftOfst|
    && a.past[0] == Past([], [])
    && (forall s :: 0 <= s < |a.past| ==> |a.past[s].syms| == |a.past[s].states|)
    && (forall s, x: Symbol :: 0 <= s < |a.past| && x < YYNTOKEN ==> ShiftCellOk(a, s, x))
    && (forall s, r :: 0 <= s < |a.tables.reduceOfst| && 0 <= r < |a.grammar.rules| ==>
                         GotoCellOk(a, s, a.grammar.rules[r].lhs))
  }

  // ---- configurations ----

  /** `stateno` is a state, or on top of the stack a pending reduce. */
  datatype Entry = Entry(stateno: nat, major: Symbol, minor: Value)

  /** What the parser does, in order. The last four name the call's own token. */
  datatype Event =
    | Reduce(rule: nat, args: seq<Value>)
    | Destroy(major: Symbol, value: Value)
    | Leak(value: Value)
    | Shift(token: Token)
    | Reject(token: Token)
    | Overflow(token: Token)
    | Accept(value: Value, token: Token)

  /** The stack up to its top entry. It is empty when the top index has gone below the base. */
  datatype Config = Config(stack: seq<Entry>, log: seq<Event>)

  const BASE := Entry(0, 0, Tok(Token(0, 0)))

  const INITIAL := Config([BASE], [])

  function MajorOf(g: Grammar, v: Value): Symbol
    requires v.App? ==> v.rule < |g.rules|
  {
    match v
    case Tok(x) => x.code
    case App(r, _) => g.rules[r].lhs
  }

  function Minors(stack: seq<Entry>): (vs: seq<Value>)
    ensures |vs| == |stack|
    ensures forall i :: 0 <= i < |vs| ==> vs[i] == stack[i].minor
  {
    seq(|stack|, i requires 0 <= i < |stack| => stack[i].minor)
  }

  /** The values above the base entry, bottom first. */
  function Forest(stack: seq<Entry>): seq<Value> {
    if stack == [] then [] else Minors(stack[1..])
  }

  lemma ForestParts(stack: seq<Entry>, keep: nat)
    requires 0 < keep <= |stack|
    ensures Forest(stack[..keep]) == Forest(stack)[..keep - 1]
    ensures Minors(stack[keep..]) == Forest(stack)[keep - 1..]
  {
  }

  lemma ForestPush(stack: seq<Entry>, e: Entry)
    requires |stack| > 0
    ensures Forest(stack + [e]) == Forest(stack) + [e.minor]
  {
  }

  // ---- the stack invariant ----

  ghost predicate PushedAs(g: Grammar, v: Value, pushed: set<Symbol>) {
    exists b: Symbol :: b in pushed && RootedAt(g, v, b)
  }

  /** What past `p` says about the entry `k` below entry `i`. */
  ghost predicate FitsAt(g: Grammar, p: Past, stack: seq<Entry>, i: nat, k: nat)
    requires i < |stack| && k < |p.syms| == |p.states| <= i
  {
    PushedAs(g, stack[i - k].minor, p.syms[k]) && stack[i - 1 - k].stateno in p.states[k]
  }

  /** Entry `i` lies on what past `p` says. */
  ghost predicate Fits(g: Grammar, p: Past, stack: seq<Entry>, i: nat)
    requires i < |stack|
  {
    && |p.syms| == |p.states| <= i
    && forall k :: 0 <= k < |p.syms| ==> FitsAt(g, p, stack, i, k)
  }

  /** The top entries fill the right-hand side of rule `r`, and the state they uncover has a
      goto on its left-hand side. */
  ghost predicate CanReduce(a: Automaton, stack: seq<Entry>, r: nat) {
    && r < |a.grammar.rules|
    && r !in a.grammar.optimizedOut
    && var rhs := a.grammar.rules[r].rhs;
    && |rhs| < |stack|
    && (forall i :: 0 <= i < |rhs| ==> Fills(a.grammar, stack[|stack| - |rhs| + i].minor, rhs[i]))
    && HasGoto(a.tables, stack[|stack| - 1 - |rhs|].stateno, a.grammar.rules[r].lhs)
  }

  ghost predicate EntryOk(a: Automaton, e: Entry) {
    && e.stateno != 0
    && Derives(a.grammar, e.minor)
    && Rooted(a.grammar, e.minor)
    && e.major == MajorOf(a.grammar, e.minor)
  }

  /** Entry `i` is in a state, and what the state knows of its past is true. */
  ghost predicate Settled(a: Automaton, stack: seq<Entry>, i: nat)
    requires i < |stack|
  {
    && stack[i].stateno <= YY_MAX_SHIFT
    && stack[i].stateno < |a.past|
    && Fits(a.grammar, a.past[stack[i].stateno], stack, i)
  }

  ghost predicate Pending(a: Automaton, stack: seq<Entry>)
    requires |stack| > 0
  {
    var top := stack[|stack| - 1].stateno;
    && YY_MIN_REDUCE <= top <= YY_MAX_REDUCE
    && CanReduce(a, stack, top - YY_MIN_REDUCE)
    && |a.grammar.rules[top - YY_MIN_REDUCE].rhs| > 0
  }

  /** Only the top may hold a pending reduce; every other entry is settled. */
  ghost predicate StackOk(a: Automaton, stack: seq<Entry>) {
    && |stack| > 0
    && stack[0].stateno == 0
    && (forall i :: 1 <= i < |stack| ==> EntryOk(a, stack[i]))
    && (forall i :: 0 <= i < |stack| - 1 ==> Settled(a, stack, i))
    && (Settled(a, stack, |stack| - 1) || Pending(a, stack))
  }

  lemma BaseOk(a: Automaton, stack: seq<Entry>)
    requires WellFormed(a) && |stack| == 1 && stack[0].stateno == 0
    ensures StackOk(a, stack)
  {
  }

  lemma SettledStays(a: Automaton, stack: seq<Entry>, other: seq<Entry>, i: nat)
    requires i < |stack| && i < |other| && stack[..i + 1] == other[..i + 1] && Settled(a, stack, i)
    ensures Settled(a, other, i)
  {
    assert forall j :: 0 <= j <= i ==> stack[j] == stack[..i + 1][j] == other[..i + 1][j] == other[j];
    var p := a.past[stack[i].stateno];
    forall k | 0 <= k < |p.syms| ensures FitsAt(a.grammar, p, other, i, k) {
      assert FitsAt(a.grammar, p, stack, i, k);
    }
  }

  lemma PrefixOk(a: Automaton, stack: seq<Entry>, n: nat)
    requires StackOk(a, stack) && 0 < n < |stack|
    ensures StackOk(a, stack[..n]) && Settled(a, stack[..n], n - 1)
  {
    forall i | 0 <= i < n ensures Settled(a, stack[..n], i) {
      assert stack[..n][..i + 1] == stack[..i + 1];
      SettledStays(a, stack, stack[..n], i);
    }
  }

  /** A past that fits turns a checked table entry into a possible reduction. */
  lemma HandleReduces(a: Automaton, p: Past, stack: seq<Entry>, s: nat, r: nat)
    requires |stack| > 0 && Fits(a.grammar, p, stack, |stack| - 1)
    requires HandleOk(a, p, s, r) && (|a.grammar.rules[r].rhs| > 0 || stack[|stack| - 1].stateno == s)
    ensures CanReduce(a, stack, r)
  {
    var rhs := a.grammar.rules[r].rhs;
    var top := |stack| - 1;
    forall i | 0 <= i < |rhs| ensures Fills(a.grammar, stack[|stack| - |rhs| + i].minor, rhs[i]) {
      var k := |rhs| - 1 - i;
      assert Covered(a.grammar, rhs[|rhs| - 1 - k], p.syms[k]) && FitsAt(a.grammar, p, stack, top, k);
      assert top - k == |stack| - |rhs| + i;
      var b: Symbol :| b in p.syms[k] && RootedAt(a.grammar, stack[top - k].minor, b);
    }
    if |rhs| > 0 {
      assert FitsAt(a.grammar, p, stack, top, |rhs| - 1);
      assert top - 1 - (|rhs| - 1) == |stack| - 1 - |rhs|;
    }
  }

  lemma PushFits(g: Grammar, stack: seq<Entry>, p: Past, x: Symbol, e: Entry)
    requires |stack| > 0 && Fits(g, p, stack, |stack| - 1) && RootedAt(g, e.minor, x)
    ensures Fits(g, Push(p, stack[|stack| - 1].stateno, x), stack + [e], |stack|)
  {
    var q := Push(p, stack[|stack| - 1].stateno, x);
    var longer := stack + [e];
    forall k | 0 <= k < |q.syms| ensures FitsAt(g, q, longer, |stack|, k) {
      if k == 0 {
        assert x in q.syms[0];
      } else {
        assert FitsAt(g, p, stack, |stack| - 1, k - 1);
        assert longer[|stack| - k] == stack[|stack| - 1 - (k - 1)];
        assert longer[|stack| - 1 - k] == stack[|stack| - 1 - 1 - (k - 1)];
      }
    }
  }

  lemma ForgetFits(g: Grammar, p: Past, q: Past, stack: seq<Entry>, i: nat)
    requires i < |stack| && Fits(g, p, stack, i) && Forgets(p, q)
    ensures Fits(g, q, stack, i)
  {
    forall k | 0 <= k < |q.syms| ensures FitsAt(g, q, stack, i, k) {
      assert FitsAt(g, p, stack, i, k);
    }
  }

  function Encode(act: nat): nat {
    if act > YY_MAX_SHIFT then act + (YY_MIN_REDUCE - YY_MIN_SHIFTREDUCE) else act
  }

  /** Pushing along a checked edge keeps the stack invariant. */
  lemma PushOk(a: Automaton, stack: seq<Entry>, x: Symbol, act: nat, e: Entry)
    requires WellFormed(a) && StackOk(a, stack) && Settled(a, stack, |stack| - 1)
    requires EdgeOk(a, stack[|stack| - 1].stateno, x, act)
    requires e.stateno == Encode(act)
    requires Derives(a.grammar, e.minor) && RootedAt(a.grammar, e.minor, x)
    requires e.major == MajorOf(a.grammar, e.minor)
    ensures StackOk(a, stack + [e])
  {
    var longer := stack + [e];
    forall i | 0 <= i < |stack| ensures Settled(a, longer, i) {
      assert longer[..i + 1] == stack[..i + 1];
      SettledStays(a, stack, longer, i);
    }
    PushTop(a, stack, x, act, e);
    forall i | 1 <= i < |longer| ensures EntryOk(a, longer[i]) {
      if i < |stack| {
        assert longer[i] == stack[i];
      }
    }
  }

  lemma PushTop(a: Automaton, stack: seq<Entry>, x: Symbol, act: nat, e: Entry)
    requires WellFormed(a) && |stack| > 0 && Settled(a, stack, |stack| - 1)
    requires EdgeOk(a, stack[|stack| - 1].stateno, x, act)
    requires e.stateno == Encode(act) && RootedAt(a.grammar, e.minor, x)
    ensures Settled(a, stack + [e], |stack|) || Pending(a, stack + [e])
  {
    var s := stack[|stack| - 1].stateno;
    var p := Push(a.past[s], s, x);
    PushFits(a.grammar, stack, a.past[s], x, e);
    if act <= YY_MAX_SHIFT {
      ForgetFits(a.grammar, p, a.past[act], stack + [e], |stack|);
    } else {
      HandleReduces(a, p, stack + [e], 0, act - YY_MIN_SHIFTREDUCE);
    }
  }

  // ---- one pass of the loop ----

  /** The action chosen for token code `x`, with the symbol it was read as. */
  function ActionFor(a: Automaton, stack: seq<Entry>, x: Symbol): Found
    requires WellFormed(a) && StackOk(a, stack)
  {
    var s := stack[|stack| - 1].stateno;
    if s >= YY_MIN_REDUCE then Found(x, s) else ShiftLookup(a.tables, s, x)
  }

  lemma ActionIsSafe(a: Automaton, stack: seq<Entry>, x: Symbol)
    requires WellFormed(a) && StackOk(a, stack) && x < YYNTOKEN
    ensures var f := ActionFor(a, stack, x);
            && (f.act <= YY_MAX_SHIFTREDUCE ==>
                  && Settled(a, stack, |stack| - 1)
                  && EdgeOk(a, stack[|stack| - 1].stateno, f.readAs, f.act))
            && (YY_MIN_REDUCE <= f.act <= YY_MAX_REDUCE ==> CanReduce(a, stack, f.act - YY_MIN_REDUCE))
            && (f.act > YY_MAX_REDUCE ==> f.act == YY_ERROR_ACTION)
            && Reads(a.grammar, x, f.readAs)
  {
    var s := stack[|stack| - 1].stateno;
    if s < YY_MIN_REDUCE {
      var f := ShiftLookup(a.tables, s, x);
      assert ShiftCellOk(a, s, x);
      if YY_MIN_REDUCE <= f.act <= YY_MAX_REDUCE {
        HandleReduces(a, a.past[s], stack, s, f.act - YY_MIN_REDUCE);
      }
    }
  }

  /** Destructor calls for every entry above the base, top first. */
  function Destroys(stack: seq<Entry>): seq<Event> {
    if |stack| <= 1 then []
    else [Destroy(stack[|stack| - 1].major, stack[|stack| - 1].minor)] + Destroys(stack[..|stack| - 1])
  }

  /** The events of emptying the stack, with the top entry dropped first when `leak`. */
  function Cleanup(stack: seq<Entry>, leak: bool): seq<Event>
    requires |stack| > 0
  {
    var top := |stack| - 1;
    if leak then [Leak(stack[top].minor)] + Destroys(stack[..top]) else Destroys(stack)
  }

  function DoShift(limit: nat, c: Config, act: nat, tok: Token): Config
    requires |c.stack| > 0
  {
    if |c.stack| >= limit then
      Config(c.stack[..1], c.log + Cleanup(c.stack, false) + [Overflow(tok)])
    else
      Config(c.stack + [Entry(Encode(act), tok.code, Tok(tok))], c.log + [Shift(tok)])
  }

  /** An empty rule needs room for its result. On overflow the top entry is dropped before the
      rest are destroyed, without a destructor call of its own. When the base is the top entry,
      this puts the top index below the base. */
  function DoReduce(a: Automaton, limit: nat, c: Config, r: nat, tok: Token): Config
    requires CanReduce(a, c.stack, r)
  {
    if |a.grammar.rules[r].rhs| == 0 && |c.stack| >= limit then
      if |c.stack| == 1 then Config([], c.log + [Overflow(tok)])
      else Config(c.stack[..1], c.log + Cleanup(c.stack, true) + [Overflow(tok)])
    else
      Land(a, c, r, tok)
  }

  /** The entries that a reduction by rule `r` leaves in place. */
  function Kept(a: Automaton, stack: seq<Entry>, r: nat): nat
    requires CanReduce(a, stack, r)
  {
    |stack| - |a.grammar.rules[r].rhs|
  }

  /** The value that a reduction by rule `r` builds. */
  function Built(a: Automaton, stack: seq<Entry>, r: nat): Value
    requires CanReduce(a, stack, r)
  {
    App(r, Minors(stack[Kept(a, stack, r)..]))
  }

  /** The goto action of the state that a reduction by rule `r` uncovers. */
  function GotoAct(a: Automaton, stack: seq<Entry>, r: nat): nat
    requires CanReduce(a, stack, r)
  {
    GotoCell(a.tables, stack[Kept(a, stack, r) - 1].stateno, a.grammar.rules[r].lhs)
  }

  /** What the run-time rule table tells a reduction. */
  lemma RuleInfoTells(a: Automaton, stack: seq<Entry>, r: nat)
    requires WellFormed(a) && CanReduce(a, stack, r)
    ensures Shaped(a.tables) && r < |a.tables.ruleInfo|
    ensures a.tables.ruleInfo[r] == RuleInfo(a.grammar.rules[r].lhs, |stack| - Kept(a, stack, r))
    ensures 0 < Kept(a, stack, r) <= |stack|
    ensures |a.grammar.rules[r].rhs| == |stack| - Kept(a, stack, r)
    ensures var under, lhs := stack[Kept(a, stack, r) - 1].stateno, a.grammar.rules[r].lhs;
            && under < |a.tables.reduceOfst|
            && lhs in GotoRow(a.tables, under)
            && GotoRow(a.tables, under)[lhs] == GotoAct(a, stack, r)
  {
  }

  /** The right-hand side is replaced by one value; the uncovered state says where it goes. */
  function Land(a: Automaton, c: Config, r: nat, tok: Token): Config
    requires CanReduce(a, c.stack, r)
  {
    var rest := c.stack[..Kept(a, c.stack, r)];
    var v := Built(a, c.stack, r);
    var act := GotoAct(a, c.stack, r);
    if act <= YY_MAX_SHIFTREDUCE then
      Config(rest + [Entry(Encode(act), a.grammar.rules[r].lhs, v)], c.log + [Reduce(r, v.args)])
    else
      Config(rest, c.log + [Reduce(r, v.args), Accept(v, tok)])
  }

  /** `done` says that the loop has used up the token. */
  datatype Stepped = Stepped(c: Config, done: bool)

  function Step(a: Automaton, limit: nat, c: Config, tok: Token): Stepped
    requires WellFormed(a) && StackOk(a, c.stack) && limit >= 1 && tok.code < YYNTOKEN
  {
    var act := ActionFor(a, c.stack, tok.code).act;
    ActionIsSafe(a, c.stack, tok.code);
    if act <= YY_MAX_SHIFTREDUCE then Stepped(DoShift(limit, c, act, tok), true)
    else if act <= YY_MAX_REDUCE then Stepped(DoReduce(a, limit, c, act - YY_MIN_REDUCE, tok), false)
    else Stepped(c.(log := c.log + [Reject(tok)]), true)
  }

  /** The value a reduction builds is a derivation pushed as the rule's left side. */
  lemma ReducedDerives(a: Automaton, stack: seq<Entry>, r: nat)
    requires StackOk(a, stack) && CanReduce(a, stack, r)
    ensures Derives(a.grammar, Built(a, stack, r))
    ensures RootedAt(a.grammar, Built(a, stack, r), a.grammar.rules[r].lhs)
  {
    var rhs := a.grammar.rules[r].rhs;
    var args := Built(a, stack, r).args;
    forall i | 0 <= i < |rhs| ensures Derives(a.grammar, args[i]) && Fills(a.grammar, args[i], rhs[i]) {
      assert args[i] == stack[|stack| - |rhs| + i].minor;
      assert EntryOk(a, stack[|stack| - |rhs| + i]);
    }
  }

  /** What a reduction pops off leaves a stack with a checked goto on the left-hand side. */
  lemma Uncover(a: Automaton, stack: seq<Entry>, r: nat)
    requires WellFormed(a) && StackOk(a, stack) && CanReduce(a, stack, r)
    ensures var rest := stack[..Kept(a, stack, r)];
            var s := rest[|rest| - 1].stateno;
            && StackOk(a, rest) && Settled(a, rest, |rest| - 1)
            && HasGoto(a.tables, s, a.grammar.rules[r].lhs)
            && GotoCellOk(a, s, a.grammar.rules[r].lhs)
            && (s == 0 ==> |rest| == 1)
  {
    var n := Kept(a, stack, r);
    if n < |stack| {
      PrefixOk(a, stack, n);
    } else {
      assert stack[..n] == stack;
      assert stack[n - 1].stateno < |a.tables.reduceOfst|;
    }
    if n > 1 {
      assert EntryOk(a, stack[n - 1]);
    }
  }

  /** The goto of a reduction is a checked edge, or an accept met with nothing but the base
      entry left. */
  lemma GotoIsSafe(a: Automaton, stack: seq<Entry>, r: nat)
    requires WellFormed(a) && StackOk(a, stack) && CanReduce(a, stack, r)
    ensures var rest, lhs, act := stack[..Kept(a, stack, r)], a.grammar.rules[r].lhs, GotoAct(a, stack, r);
            && StackOk(a, rest) && Settled(a, rest, |rest| - 1)
            && if act <= YY_MAX_SHIFTREDUCE then EdgeOk(a, rest[|rest| - 1].stateno, lhs, act)
               else act == YY_ACCEPT_ACTION && |rest| == 1 && lhs == a.grammar.start
  {
    Uncover(a, stack, r);
    hide WellFormed, StackOk, EdgeOk, CanReduce;
  }

  /** Stack and table safety of a reduction: it ends on a consistent stack, and an accept
      delivers a derivation of the start symbol. */
  lemma LandOk(a: Automaton, c: Config, r: nat, tok: Token)
    requires WellFormed(a) && StackOk(a, c.stack) && CanReduce(a, c.stack, r)
    ensures StackOk(a, Land(a, c, r, tok).stack)
    ensures Derives(a.grammar, Built(a, c.stack, r))
    ensures GotoAct(a, c.stack, r) > YY_MAX_SHIFTREDUCE ==>
              && Kept(a, c.stack, r) == 1
              && RootedAt(a.grammar, Built(a, c.stack, r), a.grammar.start)
  {
    var lhs := a.grammar.rules[r].lhs;
    var act := GotoAct(a, c.stack, r);
    GotoIsSafe(a, c.stack, r);
    ReducedDerives(a, c.stack, r);
    assert lhs == MajorOf(a.grammar, Built(a, c.stack, r));
    hide WellFormed, StackOk, Settled, EdgeOk, Derives, RootedAt, CanReduce, Built, GotoAct;
    if act <= YY_MAX_SHIFTREDUCE {
      PushOk(a, c.stack[..Kept(a, c.stack, r)], lhs, act, Entry(Encode(act), lhs, Built(a, c.stack, r)));
    }
  }

  /** The stack is within the limit, and consistent unless it has fallen below the base. */
  ghost predicate Upheld(a: Automaton, limit: nat, stack: seq<Entry>, fallen: bool) {
    && |stack| <= limit
    && if fallen then stack == [] else StackOk(a, stack)
  }

  lemma ReduceOk(a: Automaton, limit: nat, c: Config, r: nat, tok: Token)
    requires WellFormed(a) && StackOk(a, c.stack) && CanReduce(a, c.stack, r) && |c.stack| <= limit
    ensures Upheld(a, limit, DoReduce(a, limit, c, r, tok).stack, limit == 1 && |a.grammar.rules[r].rhs| == 0)
  {
    if |a.grammar.rules[r].rhs| == 0 && |c.stack| >= limit {
      BaseOk(a, c.stack[..1]);
    } else {
      LandOk(a, c, r, tok);
    }
  }

  lemma ShiftOk(a: Automaton, limit: nat, c: Config, f: Found, tok: Token)
    requires WellFormed(a) && StackOk(a, c.stack) && |c.stack| <= limit
    requires Settled(a, c.stack, |c.stack| - 1)
    requires EdgeOk(a, c.stack[|c.stack| - 1].stateno, f.readAs, f.act) && Reads(a.grammar, tok.code, f.readAs)
    ensures Upheld(a, limit, DoShift(limit, c, f.act, tok).stack, false)
  {
    if |c.stack| >= limit {
      BaseOk(a, c.stack[..1]);
    } else {
      PushOk(a, c.stack, f.readAs, f.act, Entry(Encode(f.act), tok.code, Tok(tok)));
    }
  }

  /** The pass reduces by an empty rule. */
  predicate ReducesEmpty(a: Automaton, c: Config, tok: Token)
    requires WellFormed(a) && StackOk(a, c.stack) && tok.code < YYNTOKEN
  {
    ActionIsSafe(a, c.stack, tok.code);
    var act := ActionFor(a, c.stack, tok.code).act;
    YY_MIN_REDUCE <= act <= YY_MAX_REDUCE && |a.grammar.rules[act - YY_MIN_REDUCE].rhs| == 0
  }

  /** Every pass of the loop keeps the depth limit, and the stack invariant with it, unless the
      top index goes below the base. That happens exactly when an empty rule is reduced on a
      stack that has room for one entry only. */
  lemma StepKeepsStack(a: Automaton, limit: nat, c: Config, tok: Token)
    requires WellFormed(a) && StackOk(a, c.stack) && limit >= 1 && |c.stack| <= limit && tok.code < YYNTOKEN
    ensures Upheld(a, limit, Step(a, limit, c, tok).c.stack, limit == 1 && ReducesEmpty(a, c, tok))
  {
    ActionIsSafe(a, c.stack, tok.code);
    assert Upheld(a, limit, c.stack, false);
    hide WellFormed, StackOk, ActionFor, CanReduce, EdgeOk, Settled, DoShift, DoReduce, Upheld;
    var f, s := ActionFor(a, c.stack, tok.code), Step(a, limit, c, tok).c;
    var empty := ReducesEmpty(a, c, tok);
    if f.act <= YY_MAX_SHIFTREDUCE {
      assert s == DoShift(limit, c, f.act, tok) && !empty;
      hide Step, ReducesEmpty;
      ShiftOk(a, limit, c, f, tok);
    } else if f.act <= YY_MAX_REDUCE {
      var r := f.act - YY_MIN_REDUCE;
      assert s == DoReduce(a, limit, c, r, tok) && (empty <==> |a.grammar.rules[r].rhs| == 0);
      hide Step, ReducesEmpty;
      ReduceOk(a, limit, c, r, tok);
    } else {
      assert s.stack == c.stack && !empty;
      hide Step, ReducesEmpty;
    }
  }
}
