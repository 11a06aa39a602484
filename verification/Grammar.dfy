/** The grammar behind the generated parser: symbols, rules, the values that the reduce
    actions build, and textbook derivation trees.

    A right-hand side position is a set of symbol codes because the grammar file writes
    alternatives such as `ID|INDEXED` in one position. */
module Grammar {

  type Symbol = nat

  /** The wildcard token ANY, which stands for every token but the end of input. */
  const YYWILDCARD: Symbol := 96

  datatype Token = Token(code: Symbol, text: nat)

  datatype Rule = Rule(lhs: Symbol, rhs: seq<set<Symbol>>)

  /** `optimizedOut` are the unit rules that the generator removed from the tables. */
  datatype Grammar = Grammar(rules: seq<Rule>, optimizedOut: set<nat>, start: Symbol, fallback: seq<Symbol>)

  /** A semantic value, kept as the term that names the rule that built it and the values it
      was built from. Any meaning given to the reduce actions factors through this term. */
  datatype Value = Tok(token: Token) | App(rule: nat, args: seq<Value>)

  /** One unit of parsing work, in the order in which it is done. */
  datatype Work = Shifted(token: Token) | Reduced(rule: nat)

  // ---- what a token may be read as ----

  function Fallback(g: Grammar, x: Symbol): Symbol {
    if x < |g.fallback| then g.fallback[x] else 0
  }

  predicate Reads(g: Grammar, x: Symbol, s: Symbol) {
    || s == x
    || (Fallback(g, x) != 0 && s == Fallback(g, x))
    || (s == YYWILDCARD && x > 0)
  }

  // ---- values as derivations in which removed unit rules are implicit ----

  /** The removed unit rules `chain` lead from `top` down to `bottom`. */
  ghost predicate UnitChain(g: Grammar, top: Symbol, chain: seq<nat>, bottom: Symbol)
    decreases |chain|
  {
    if chain == [] then top == bottom
    else
      && chain[0] in g.optimizedOut
      && chain[0] < |g.rules|
      && g.rules[chain[0]].lhs == top
      && |g.rules[chain[0]].rhs| == 1
      && exists next: Symbol :: next in g.rules[chain[0]].rhs[0] && UnitChain(g, next, chain[1..], bottom)
  }

  ghost predicate Unit(g: Grammar, top: Symbol, bottom: Symbol) {
    exists chain: seq<nat> :: UnitChain(g, top, chain, bottom)
  }

  /** The value was pushed as symbol `s`. */
  ghost predicate RootedAt(g: Grammar, v: Value, s: Symbol) {
    match v
    case Tok(x) => Reads(g, x.code, s)
    case App(r, _) => r < |g.rules| && g.rules[r].lhs == s
  }

  ghost predicate Rooted(g: Grammar, v: Value) {
    exists s: Symbol :: RootedAt(g, v, s)
  }

  /** Some symbol of `position` leads, through removed unit rules only, to the value. */
  ghost predicate Fills(g: Grammar, v: Value, position: set<Symbol>) {
    exists a: Symbol, b: Symbol :: a in position && Unit(g, a, b) && RootedAt(g, v, b)
  }

  ghost predicate Derives(g: Grammar, v: Value)
    decreases v
  {
    match v
    case Tok(_) => true
    case App(r, args) =>
      && r < |g.rules|
      && r !in g.optimizedOut
      && |args| == |g.rules[r].rhs|
      && forall i :: 0 <= i < |args| ==> Derives(g, args[i]) && Fills(g, args[i], g.rules[r].rhs[i])
  }

  // ---- reading a value off: its tokens, its work, its size ----

  function PostOrder(v: Value): seq<Work>
    decreases v
  {
    match v
    case Tok(x) => [Shifted(x)]
    case App(r, args) => PostOrderAll(args) + [Reduced(r)]
  }

  function PostOrderAll(vs: seq<Value>): seq<Work>
    decreases vs
  {
    if vs == [] then [] else PostOrderAll(vs[..|vs| - 1]) + PostOrder(vs[|vs| - 1])
  }

  function Yield(v: Value): seq<Token>
    decreases v
  {
    match v
    case Tok(x) => [x]
    case App(_, args) => YieldAll(args)
  }

  function YieldAll(vs: seq<Value>): seq<Token>
    decreases vs
  {
    if vs == [] then [] else YieldAll(vs[..|vs| - 1]) + Yield(vs[|vs| - 1])
  }

  function Nodes(v: Value): nat
    decreases v
  {
    match v
    case Tok(_) => 0
    case App(_, args) => 1 + NodesAll(args)
  }

  function NodesAll(vs: seq<Value>): nat
    decreases vs
  {
    if vs == [] then 0 else NodesAll(vs[..|vs| - 1]) + Nodes(vs[|vs| - 1])
  }

  // ---- work lists ----

  function TokensOf(w: seq<Work>): seq<Token> {
    if w == [] then []
    else TokensOf(w[..|w| - 1]) +
         match w[|w| - 1] { case Shifted(x) => [x] case Reduced(_) => [] }
  }

  function ReductionsOf(w: seq<Work>): nat {
    if w == [] then 0
    else ReductionsOf(w[..|w| - 1]) + if w[|w| - 1].Reduced? then 1 else 0
  }

  lemma {:induction false} WorkConcat(u: seq<Work>, w: seq<Work>)
    ensures TokensOf(u + w) == TokensOf(u) + TokensOf(w)
    ensures ReductionsOf(u + w) == ReductionsOf(u) + ReductionsOf(w)
    decreases |w|
  {
    if w == [] {
      assert u + w == u;
    } else {
      var n := |w| - 1;
      assert (u + w)[..|u + w| - 1] == u + w[..n];
      WorkConcat(u, w[..n]);
    }
  }

  lemma {:induction false} PostOrderConcat(us: seq<Value>, vs: seq<Value>)
    ensures PostOrderAll(us + vs) == PostOrderAll(us) + PostOrderAll(vs)
    decreases |vs|
  {
    if vs == [] {
      assert us + vs == us;
    } else {
      var n := |vs| - 1;
      assert (us + vs)[..|us + vs| - 1] == us + vs[..n];
      PostOrderConcat(us, vs[..n]);
    }
  }

  /** The work list of a value lists its tokens in order and counts its rule nodes. */
  lemma {:induction false} WorkOfValue(v: Value)
    ensures TokensOf(PostOrder(v)) == Yield(v)
    ensures ReductionsOf(PostOrder(v)) == Nodes(v)
    decreases v
  {
    match v
    case Tok(x) =>
    case App(r, args) =>
      WorkOfValues(args);
      WorkConcat(PostOrderAll(args), [Reduced(r)]);
  }

  lemma {:induction false} WorkOfValues(vs: seq<Value>)
    ensures TokensOf(PostOrderAll(vs)) == YieldAll(vs)
    ensures ReductionsOf(PostOrderAll(vs)) == NodesAll(vs)
    decreases vs
  {
    if vs != [] {
      var n := |vs| - 1;
      WorkOfValues(vs[..n]);
      WorkOfValue(vs[n]);
      WorkConcat(PostOrderAll(vs[..n]), PostOrder(vs[n]));
    }
  }

  // ---- textbook derivation trees: every rule is a node, every token says how it is read ----

  datatype Tree = Leaf(readAs: Symbol, token: Token) | Node(rule: nat, kids: seq<Tree>)

  function Root(g: Grammar, t: Tree): Symbol
    requires t.Node? ==> t.rule < |g.rules|
  {
    match t
    case Leaf(s, _) => s
    case Node(r, _) => g.rules[r].lhs
  }

  ghost predicate IsTree(g: Grammar, t: Tree)
    decreases t
  {
    match t
    case Leaf(s, x) => Reads(g, x.code, s)
    case Node(r, kids) =>
      && r < |g.rules|
      && |kids| == |g.rules[r].rhs|
      && forall i :: 0 <= i < |kids| ==> IsTree(g, kids[i]) && Root(g, kids[i]) in g.rules[r].rhs[i]
  }

  function Leaves(t: Tree): seq<Token>
    decreases t
  {
    match t
    case Leaf(_, x) => [x]
    case Node(_, kids) => LeavesAll(kids)
  }

  function LeavesAll(ts: seq<Tree>): seq<Token>
    decreases ts
  {
    if ts == [] then [] else LeavesAll(ts[..|ts| - 1]) + Leaves(ts[|ts| - 1])
  }

  /** Forget how tokens are read and drop the nodes of removed unit rules. */
  ghost function Erase(g: Grammar, t: Tree): Value
    decreases t
  {
    match t
    case Leaf(_, x) => Tok(x)
    case Node(r, kids) =>
      if r in g.optimizedOut && |kids| == 1 then Erase(g, kids[0]) else App(r, EraseAll(g, kids))
  }

  ghost function EraseAll(g: Grammar, ts: seq<Tree>): (vs: seq<Value>)
    ensures |vs| == |ts|
    decreases ts
  {
    if ts == [] then [] else EraseAll(g, ts[..|ts| - 1]) + [Erase(g, ts[|ts| - 1])]
  }

  /** `t` is a full derivation from `s` of which `v` is the erasure. */
  ghost predicate Explains(g: Grammar, t: Tree, s: Symbol, v: Value) {
    IsTree(g, t) && Root(g, t) == s && Leaves(t) == Yield(v) && Erase(g, t) == v
  }

  /** Putting a chain of removed unit rules back on top of a derivation. */
  lemma {:induction false} Reinsert(g: Grammar, s: Symbol, chain: seq<nat>, b: Symbol, t: Tree, v: Value)
      returns (u: Tree)
    requires UnitChain(g, s, chain, b) && Explains(g, t, b, v)
    ensures Explains(g, u, s, v)
    decreases |chain|
  {
    if chain == [] {
      u := t;
    } else {
      var next: Symbol :| next in g.rules[chain[0]].rhs[0] && UnitChain(g, next, chain[1..], b);
      var below := Reinsert(g, next, chain[1..], b, t, v);
      u := Node(chain[0], [below]);
      assert [below][..0] == [];
      assert LeavesAll([below]) == Leaves(below);
    }
  }

  /** Every value that satisfies `Derives` is the erasure of a textbook derivation tree. */
  lemma {:induction false} Elaborate(g: Grammar, v: Value, s: Symbol) returns (t: Tree)
    requires Derives(g, v) && RootedAt(g, v, s)
    ensures Explains(g, t, s, v)
    decreases v, 1
  {
    match v
    case Tok(x) => t := Leaf(s, x);
    case App(r, args) =>
      var kids := ElaborateArgs(g, v, |args|);
      assert args[..|args|] == args;
      t := Node(r, kids);
  }

  lemma {:induction false} ElaborateArg(g: Grammar, v: Value, i: nat) returns (kid: Tree)
    requires v.App? && Derives(g, v) && i < |v.args|
    ensures IsTree(g, kid) && Root(g, kid) in g.rules[v.rule].rhs[i]
    ensures Leaves(kid) == Yield(v.args[i]) && Erase(g, kid) == v.args[i]
    decreases v, 0, 0
  {
    assert Fills(g, v.args[i], g.rules[v.rule].rhs[i]);
    var a: Symbol, b: Symbol :| a in g.rules[v.rule].rhs[i] && Unit(g, a, b) && RootedAt(g, v.args[i], b);
    var chain: seq<nat> :| UnitChain(g, a, chain, b);
    var t := Elaborate(g, v.args[i], b);
    kid := Reinsert(g, a, chain, b, t, v.args[i]);
  }

  ghost predicate IsKid(g: Grammar, r: nat, i: nat, kid: Tree)
    requires r < |g.rules| && i < |g.rules[r].rhs|
  {
    IsTree(g, kid) && Root(g, kid) in g.rules[r].rhs[i]
  }

  lemma SnocTree(g: Grammar, ts: seq<Tree>, t: Tree)
    ensures LeavesAll(ts + [t]) == LeavesAll(ts) + Leaves(t)
    ensures EraseAll(g, ts + [t]) == EraseAll(g, ts) + [Erase(g, t)]
  {
    assert (ts + [t])[..|ts + [t]| - 1] == ts;
  }

  lemma {:induction false} ElaborateArgs(g: Grammar, v: Value, n: nat) returns (kids: seq<Tree>)
    requires v.App? && Derives(g, v) && n <= |v.args|
    ensures |kids| == n
    ensures forall i :: 0 <= i < n ==> IsKid(g, v.rule, i, kids[i])
    ensures LeavesAll(kids) == YieldAll(v.args[..n])
    ensures EraseAll(g, kids) == v.args[..n]
    decreases v, 0, n + 1
  {
    if n == 0 {
      kids := [];
    } else {
      var front := ElaborateArgs(g, v, n - 1);
      var kid := ElaborateArg(g, v, n - 1);
      kids := front + [kid];
      SnocTree(g, front, kid);
      assert v.args[..n][..n - 1] == v.args[..n - 1];
      assert YieldAll(v.args[..n]) == YieldAll(v.args[..n - 1]) + Yield(v.args[n - 1]);
      assert v.args[..n] == v.args[..n - 1] + [v.args[n - 1]];
    }
  }
}
