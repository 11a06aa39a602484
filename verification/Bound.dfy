/** How large a derivation can be for a given number of tokens, when no symbol derives
    exactly itself. The rank certificate makes that condition locally checkable. */
module Bound {
  import opened Grammar

  /** `nullable` contains every symbol that derives the empty string, and `rank` drops along
      every path on which all the siblings are nullable. */
  datatype Ranking = Ranking(nullable: set<Symbol>, rank: seq<nat>, top: nat, arity: nat)

  function RankOf(k: Ranking, s: Symbol): nat {
    if s < |k.rank| then k.rank[s] else 0
  }

  ghost predicate Skippable(k: Ranking, position: set<Symbol>) {
    exists s: Symbol :: s in position && s in k.nullable
  }

  ghost predicate OthersSkippable(k: Ranking, rhs: seq<set<Symbol>>, i: nat) {
    forall j :: 0 <= j < |rhs| && j != i ==> Skippable(k, rhs[j])
  }

  ghost predicate RankedRule(k: Ranking, rule: Rule) {
    && |rule.rhs| <= k.arity
    && ((forall j :: 0 <= j < |rule.rhs| ==> Skippable(k, rule.rhs[j])) ==> rule.lhs in k.nullable)
    && (forall i, s :: 0 <= i < |rule.rhs| && OthersSkippable(k, rule.rhs, i) && s in rule.rhs[i] ==>
                         RankOf(k, s) < RankOf(k, rule.lhs))
  }

  ghost predicate Ranked(g: Grammar, k: Ranking) {
    && (forall r :: 0 <= r < |g.rules| ==> RankedRule(k, g.rules[r]))
    && (forall s: Symbol :: RankOf(k, s) <= k.top)
  }

  // ---- the bound ----

  /** A product, named so that proofs use its laws and not nonlinear arithmetic. */
  function Mul(x: int, y: int): (r: int)
    ensures 0 <= x && 0 <= y ==> 0 <= r
  {
    x * y
  }

  lemma MulAdd(x: int, a: int, b: int)
    ensures Mul(x, a + b) == Mul(x, a) + Mul(x, b)
    ensures Mul(x, 0) == 0 && Mul(x, 1) == x
  {
  }

  lemma MulMonotone(x: nat, a: int, b: int)
    requires a <= b
    ensures Mul(x, a) <= Mul(x, b) && Mul(a, x) <= Mul(b, x)
  {
  }

  lemma MulCommutes(x: int, y: int)
    ensures Mul(x, y) == Mul(y, x)
  {
  }

  /** Nodes in a derivation of the empty string from a symbol of rank `rank`. */
  function EmptyBound(k: Ranking, rank: nat): nat {
    if rank == 0 then 1 else 1 + Mul(k.arity, EmptyBound(k, rank - 1))
  }

  function Empties(k: Ranking): nat { EmptyBound(k, k.top) }

  function Step(k: Ranking): nat { 1 + Mul(k.arity, Empties(k)) }

  function Width(k: Ranking): nat { Mul(Step(k), k.top + 1) }

  /** Nodes in any forest of `roots` derivations over `tokens` tokens. */
  function ForestBound(k: Ranking, roots: nat, tokens: nat): nat {
    Mul(Empties(k), roots) + 2 * Mul(Width(k), tokens)
  }

  lemma {:induction false} EmptyBoundMonotone(k: Ranking, m: nat, n: nat)
    requires m <= n
    ensures 1 <= EmptyBound(k, m) <= EmptyBound(k, n)
    decreases n
  {
    hide Mul;
    if m != 0 {
      EmptyBoundMonotone(k, m - 1, n - 1);
      MulMonotone(k.arity, EmptyBound(k, m - 1), EmptyBound(k, n - 1));
    }
  }

  /** A chain of removed unit rules never raises the rank, and keeps nullability. */
  lemma {:induction false} ChainRank(g: Grammar, k: Ranking, a: Symbol, chain: seq<nat>, b: Symbol)
    requires Ranked(g, k) && UnitChain(g, a, chain, b)
    ensures RankOf(k, b) <= RankOf(k, a)
    ensures b in k.nullable ==> a in k.nullable
    decreases |chain|
  {
    if chain != [] {
      var rule := g.rules[chain[0]];
      var next: Symbol :| next in rule.rhs[0] && UnitChain(g, next, chain[1..], b);
      ChainRank(g, k, next, chain[1..], b);
      assert RankedRule(k, rule) && OthersSkippable(k, rule.rhs, 0);
      if b in k.nullable {
        assert Skippable(k, rule.rhs[0]);
      }
    }
  }

  /** The symbol that fills position `i` of `v`'s rule, and what its rank and nullability say. */
  lemma {:induction false} Filler(g: Grammar, k: Ranking, v: Value, i: nat) returns (b: Symbol)
    requires Ranked(g, k) && v.App? && Derives(g, v) && i < |v.args|
    ensures RootedAt(g, v.args[i], b)
    ensures OthersSkippable(k, g.rules[v.rule].rhs, i) ==> RankOf(k, b) < RankOf(k, g.rules[v.rule].lhs)
    ensures b in k.nullable ==> Skippable(k, g.rules[v.rule].rhs[i])
  {
    var rhs := g.rules[v.rule].rhs;
    assert Fills(g, v.args[i], rhs[i]);
    var a: Symbol, b': Symbol :| a in rhs[i] && Unit(g, a, b') && RootedAt(g, v.args[i], b');
    var chain: seq<nat> :| UnitChain(g, a, chain, b');
    ChainRank(g, k, a, chain, b');
    assert RankedRule(k, g.rules[v.rule]);
    b := b';
  }

  lemma {:induction false} YieldPart(vs: seq<Value>, i: nat)
    requires i < |vs|
    ensures |Yield(vs[i])| <= |YieldAll(vs)|
    decreases |vs|
  {
    var n := |vs| - 1;
    if i < n {
      YieldPart(vs[..n], i);
    }
  }

  /** A derivation without tokens comes from a nullable symbol. */
  lemma {:induction false} EmptyIsNullable(g: Grammar, k: Ranking, v: Value, s: Symbol)
    requires Ranked(g, k) && Derives(g, v) && RootedAt(g, v, s) && Yield(v) == []
    ensures s in k.nullable && v.App?
    decreases v
  {
    forall i | 0 <= i < |v.args| ensures Skippable(k, g.rules[v.rule].rhs[i]) {
      YieldPart(v.args, i);
      var b := Filler(g, k, v, i);
      EmptyIsNullable(g, k, v.args[i], b);
    }
    assert RankedRule(k, g.rules[v.rule]);
  }

  lemma {:induction false} EmptyPosition(g: Grammar, k: Ranking, v: Value, i: nat)
    requires Ranked(g, k) && v.App? && Derives(g, v) && i < |v.args| && Yield(v.args[i]) == []
    ensures Skippable(k, g.rules[v.rule].rhs[i])
  {
    var b := Filler(g, k, v, i);
    EmptyIsNullable(g, k, v.args[i], b);
  }

  /** A token-free derivation has at most `EmptyBound` nodes for the rank of its symbol. */
  lemma {:induction false} EmptySize(g: Grammar, k: Ranking, v: Value, s: Symbol)
    requires Ranked(g, k) && Derives(g, v) && RootedAt(g, v, s) && Yield(v) == []
    ensures Nodes(v) <= EmptyBound(k, RankOf(k, s))
    decreases v, 1
  {
    hide Mul;
    EmptyIsNullable(g, k, v, s);
    var n := |v.args|;
    assert RankedRule(k, g.rules[v.rule]);
    assert v.args[..n] == v.args;
    if n == 0 {
      EmptyBoundMonotone(k, 0, RankOf(k, s));
    } else {
      EmptySizeArgs(g, k, v, n);
      MulMonotone(EmptyBound(k, RankOf(k, s) - 1), n, k.arity);
    }
  }

  lemma {:induction false} AllSkippable(g: Grammar, k: Ranking, v: Value)
    requires Ranked(g, k) && v.App? && Derives(g, v) && Yield(v) == []
    ensures forall j :: 0 <= j < |v.args| ==> Skippable(k, g.rules[v.rule].rhs[j])
  {
    forall j | 0 <= j < |v.args| ensures Skippable(k, g.rules[v.rule].rhs[j]) {
      YieldPart(v.args, j);
      EmptyPosition(g, k, v, j);
    }
  }

  lemma {:induction false} EmptySizeArg(g: Grammar, k: Ranking, v: Value, i: nat)
    requires Ranked(g, k) && v.App? && Derives(g, v) && i < |v.args| && Yield(v) == []
    ensures RankOf(k, g.rules[v.rule].lhs) > 0
    ensures Nodes(v.args[i]) <= EmptyBound(k, RankOf(k, g.rules[v.rule].lhs) - 1)
    decreases v, 0, 0
  {
    hide EmptyBound;
    AllSkippable(g, k, v);
    YieldPart(v.args, i);
    var b := Filler(g, k, v, i);
    EmptySize(g, k, v.args[i], b);
    EmptyBoundMonotone(k, RankOf(k, b), RankOf(k, g.rules[v.rule].lhs) - 1);
  }

  lemma {:induction false} EmptySizeArgs(g: Grammar, k: Ranking, v: Value, n: nat)
    requires Ranked(g, k) && v.App? && Derives(g, v) && 0 < n <= |v.args| && Yield(v) == []
    ensures RankOf(k, g.rules[v.rule].lhs) > 0
    ensures NodesAll(v.args[..n]) <= Mul(n, EmptyBound(k, RankOf(k, g.rules[v.rule].lhs) - 1))
    decreases v, 0, n
  {
    hide Ranked, Yield, EmptyBound, Mul;
    EmptySizeArg(g, k, v, n - 1);
    if n > 1 {
      EmptySizeArgs(g, k, v, n - 1);
    }
    assert v.args[..n][..n - 1] == v.args[..n - 1];
    assert NodesAll(v.args[..n]) == NodesAll(v.args[..n - 1]) + Nodes(v.args[n - 1]);
    var e := EmptyBound(k, RankOf(k, g.rules[v.rule].lhs) - 1);
    MulAdd(e, n - 1, 1);
    MulCommutes(e, n - 1);
    MulCommutes(e, n);
  }

  // ---- derivations with tokens ----

  /** Positions of a forest that hold at least one token. */
  function Bearing(vs: seq<Value>): nat {
    if vs == [] then 0 else Bearing(vs[..|vs| - 1]) + if Yield(vs[|vs| - 1]) == [] then 0 else 1
  }

  /** The bound for one derivation with `m` tokens from a symbol of rank `rank`. */
  function TreeBound(k: Ranking, rank: nat, m: nat): int {
    Mul(Step(k), rank + 1) + 2 * Mul(Width(k), m) - 2 * Width(k)
  }

  /** A derivation with tokens is within `TreeBound` of its rank. Along nodes with a single
      token-bearing child the rank drops; a node with several splits the tokens. */
  lemma {:induction false} TreeSize(g: Grammar, k: Ranking, v: Value, s: Symbol)
    requires Ranked(g, k) && Derives(g, v) && RootedAt(g, v, s) && Yield(v) != []
    ensures Nodes(v) <= TreeBound(k, RankOf(k, s), |Yield(v)|)
    decreases v, 1
  {
    hide Mul, Step, Width;
    if v.App? {
      var n := |v.args|;
      assert v.args[..n] == v.args;
      assert RankedRule(k, g.rules[v.rule]);
      BearingSome(v.args);
      hide TreeBound, RankedRule;
      if Bearing(v.args) == 1 {
        SingleSize(g, k, v, s);
      } else {
        SplitSize(g, k, v, n);
        SplitArithmetic(k, RankOf(k, s), n, Bearing(v.args), |Yield(v)|, NodesAll(v.args));
      }
    } else {
      MulAdd(Width(k), 0, 1);
    }
  }

  lemma SplitArithmetic(k: Ranking, rank: nat, n: nat, bearing: nat, m: nat, nodes: nat)
    requires n <= k.arity && bearing >= 2
    requires nodes <= Mul(Empties(k), n) + 2 * Mul(Width(k), m) - Mul(Width(k), bearing)
    ensures 1 + nodes <= TreeBound(k, rank, m)
  {
    hide Mul, Width, EmptyBound;
    MulMonotone(Empties(k), n, k.arity);
    MulCommutes(Empties(k), k.arity);
    MulMonotone(Width(k), 2, bearing);
    MulAdd(Width(k), 1, 1);
    MulMonotone(Step(k), 1, rank + 1);
    MulAdd(Step(k), 0, 1);
  }

  lemma {:induction false} BearingSome(vs: seq<Value>)
    requires YieldAll(vs) != []
    ensures Bearing(vs) >= 1
    decreases |vs|
  {
    if vs != [] && Yield(vs[|vs| - 1]) == [] {
      BearingSome(vs[..|vs| - 1]);
    }
  }

  lemma {:induction false} BearingNone(vs: seq<Value>)
    requires Bearing(vs) == 0
    ensures YieldAll(vs) == []
    decreases |vs|
  {
    if vs != [] {
      BearingNone(vs[..|vs| - 1]);
    }
  }

  lemma TreeBoundAtTop(k: Ranking, rank: nat, m: nat)
    requires rank <= k.top
    ensures TreeBound(k, rank, m) <= 2 * Mul(Width(k), m) - Width(k)
  {
    hide Mul, Step;
    MulMonotone(Step(k), rank + 1, k.top + 1);
  }

  /** The bound on any one child, whether or not it bears tokens. */
  lemma {:induction false} ChildSize(g: Grammar, k: Ranking, v: Value, i: nat)
    requires Ranked(g, k) && v.App? && Derives(g, v) && i < |v.args|
    ensures Yield(v.args[i]) == [] ==> Nodes(v.args[i]) <= Empties(k)
    ensures Yield(v.args[i]) != [] ==>
              Nodes(v.args[i]) <= 2 * Mul(Width(k), |Yield(v.args[i])|) - Width(k)
    decreases v, 0, 0
  {
    hide TreeBound, Width, EmptyBound, RankedRule, Mul;
    var b := Filler(g, k, v, i);
    assert RankOf(k, b) <= k.top;
    if Yield(v.args[i]) == [] {
      EmptySize(g, k, v.args[i], b);
      EmptyBoundMonotone(k, RankOf(k, b), k.top);
    } else {
      TreeSize(g, k, v.args[i], b);
      TreeBoundAtTop(k, RankOf(k, b), |Yield(v.args[i])|);
    }
  }

  lemma {:induction false} SplitSize(g: Grammar, k: Ranking, v: Value, n: nat)
    requires Ranked(g, k) && v.App? && Derives(g, v) && n <= |v.args|
    ensures NodesAll(v.args[..n]) <= Mul(Empties(k), n)
                                     + 2 * Mul(Width(k), |YieldAll(v.args[..n])|) - Mul(Width(k), Bearing(v.args[..n]))
    decreases v, 0, n + 1
  {
    hide Ranked, Derives, Yield, Nodes, Empties, Width, Mul;
    if n > 0 {
      var front, last := v.args[..n - 1], v.args[n - 1];
      SplitSize(g, k, v, n - 1);
      ChildSize(g, k, v, n - 1);
      assert v.args[..n][..n - 1] == front;
      SplitStep(k, n, |YieldAll(front)|, Bearing(front), |Yield(last)|, NodesAll(front), Nodes(last));
    } else {
      MulAdd(Width(k), 0, 1);
      MulAdd(Empties(k), 0, 1);
    }
  }

  lemma SplitStep(k: Ranking, n: nat, m: nat, bearing: nat, ml: nat, nodes: nat, last: nat)
    requires n >= 1
    requires nodes <= Mul(Empties(k), n - 1) + 2 * Mul(Width(k), m) - Mul(Width(k), bearing)
    requires ml == 0 ==> last <= Empties(k)
    requires ml > 0 ==> last <= 2 * Mul(Width(k), ml) - Width(k)
    ensures nodes + last <= Mul(Empties(k), n) + 2 * Mul(Width(k), m + ml)
                            - Mul(Width(k), bearing + if ml == 0 then 0 else 1)
  {
    hide Mul, Empties, Width;
    MulAdd(Empties(k), n - 1, 1);
    MulAdd(Width(k), m, ml);
    MulAdd(Width(k), bearing, 1);
  }

  /** With one token-bearing child, that child's rank is lower and the others are empty. */
  lemma {:induction false} SingleSize(g: Grammar, k: Ranking, v: Value, s: Symbol)
    requires Ranked(g, k) && v.App? && Derives(g, v) && RootedAt(g, v, s)
    requires Yield(v) != [] && Bearing(v.args) == 1
    ensures Nodes(v) <= TreeBound(k, RankOf(k, s), |Yield(v)|)
    decreases v, 0, |v.args| + 1
  {
    hide TreeBound, EmptyBound, Mul;
    var i := TheBearer(v.args);
    forall j | 0 <= j < |v.args| && j != i ensures Skippable(k, g.rules[v.rule].rhs[j]) {
      EmptyPosition(g, k, v, j);
    }
    var b := Filler(g, k, v, i);
    TreeSize(g, k, v.args[i], b);
    SinglePart(g, k, v, i, |v.args|);
    assert v.args[..|v.args|] == v.args;
    assert RankedRule(k, g.rules[v.rule]);
    SingleArithmetic(k, RankOf(k, s), RankOf(k, b), |v.args|, |Yield(v)|, Nodes(v.args[i]), NodesAll(v.args));
  }

  lemma SingleArithmetic(k: Ranking, rank: nat, below: nat, n: nat, m: nat, child: nat, nodes: nat)
    requires n <= k.arity && below < rank
    requires child <= TreeBound(k, below, m) && nodes <= Mul(Empties(k), n) + child
    ensures 1 + nodes <= TreeBound(k, rank, m)
  {
    hide Mul, Width, EmptyBound;
    MulMonotone(Empties(k), n, k.arity);
    MulCommutes(Empties(k), k.arity);
    MulMonotone(Step(k), below + 2, rank + 1);
    MulAdd(Step(k), below + 1, 1);
  }

  lemma {:induction false} TheBearer(vs: seq<Value>) returns (i: nat)
    requires Bearing(vs) == 1
    ensures i < |vs| && Yield(vs[i]) == YieldAll(vs)
    ensures forall j :: 0 <= j < |vs| && j != i ==> Yield(vs[j]) == []
    decreases |vs|
  {
    var n := |vs| - 1;
    if Yield(vs[n]) == [] {
      i := TheBearer(vs[..n]);
    } else {
      i := n;
      BearingNone(vs[..n]);
      forall j | 0 <= j < n ensures Yield(vs[j]) == [] {
        YieldPart(vs[..n], j);
      }
    }
  }

  lemma {:induction false} SinglePart(g: Grammar, k: Ranking, v: Value, i: nat, n: nat)
    requires Ranked(g, k) && v.App? && Derives(g, v) && i < |v.args| && n <= |v.args|
    requires forall j :: 0 <= j < |v.args| && j != i ==> Yield(v.args[j]) == []
    ensures NodesAll(v.args[..n]) <= Mul(Empties(k), n) + if i < n then Nodes(v.args[i]) else 0
    decreases v, 0, n
  {
    hide Ranked, Derives, Empties, Mul, Nodes;
    MulAdd(Empties(k), n - 1, 1);
    if n > 0 {
      SinglePart(g, k, v, i, n - 1);
      assert v.args[..n][..n - 1] == v.args[..n - 1];
      if n - 1 != i {
        ChildSize(g, k, v, n - 1);
      }
    }
  }

  // ---- the main result ----

  /** A forest of derivations, each from some symbol, is linear in roots and tokens. */
  lemma {:induction false} ForestSize(g: Grammar, k: Ranking, vs: seq<Value>)
    requires Ranked(g, k)
    requires forall v :: v in vs ==> Derives(g, v) && Rooted(g, v)
    ensures NodesAll(vs) <= ForestBound(k, |vs|, |YieldAll(vs)|)
    decreases |vs|
  {
    hide Ranked, Derives, RootedAt, ForestBound, Empties, Width, Mul;
    if vs != [] {
      var n := |vs| - 1;
      var v := vs[n];
      assert v in vs && Rooted(g, v);
      var s: Symbol :| RootedAt(g, v, s);
      ForestSize(g, k, vs[..n]);
      RootSize(g, k, v, s);
      AddRoot(k, n, |YieldAll(vs[..n])|, |Yield(v)|);
    }
  }

  lemma AddRoot(k: Ranking, n: nat, m: nat, ml: nat)
    ensures ForestBound(k, n, m) + Empties(k) + 2 * Mul(Width(k), ml) == ForestBound(k, n + 1, m + ml)
  {
    hide Mul, Empties, Width;
    MulAdd(Empties(k), n, 1);
    MulAdd(Width(k), m, ml);
  }

  lemma {:induction false} RootSize(g: Grammar, k: Ranking, v: Value, s: Symbol)
    requires Ranked(g, k) && Derives(g, v) && RootedAt(g, v, s)
    ensures Nodes(v) <= Empties(k) + 2 * Mul(Width(k), |Yield(v)|)
  {
    hide TreeBound, Width, EmptyBound, RankedRule, Mul;
    assert RankOf(k, s) <= k.top;
    if Yield(v) == [] {
      EmptySize(g, k, v, s);
      EmptyBoundMonotone(k, RankOf(k, s), k.top);
    } else {
      TreeSize(g, k, v, s);
      TreeBoundAtTop(k, RankOf(k, s), |Yield(v)|);
    }
  }
}
