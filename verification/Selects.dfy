/** Compound SELECT statements: the `pPrior` chain that the reduce actions build on the heap,
    and its meaning as a left-associative compound. */
module Selects {

  type Row = int

  /** `Only` marks a select that is not the right operand of anything. */
  datatype Op = Only | Union | All | Except | Intersect

  // ---- what the SQL text means ----

  /** `SELECT`, `SELECT DISTINCT` or `SELECT ALL`. */
  datatype Quantifier = NoQuantifier | DISTINCT | ALL

  datatype One = Query(id: nat, quantifier: Quantifier) | Values(rows: seq<Row>)

  datatype Source = Source(first: One, rest: seq<(Op, One)>)

  /** The results of the plain SELECT terms, with their quantifier applied. */
  type Database = nat -> multiset<Row>

  predicate Grammatical(s: Source) {
    && (s.first.Values? ==> |s.first.rows| > 0)
    && forall i :: 0 <= i < |s.rest| ==> s.rest[i].0 != Only && (s.rest[i].1.Values? ==> |s.rest[i].1.rows| > 0)
  }

  function Distinct(m: multiset<Row>): multiset<Row> {
    multiset(set x | x in m)
  }

  function Combine(op: Op, l: multiset<Row>, r: multiset<Row>): multiset<Row> {
    match op
    case Union => Distinct(l + r)
    case Except => multiset(set x | x in l && x !in r)
    case Intersect => multiset(set x | x in l && x in r)
    case _ => l + r
  }

  function MeaningOfOne(db: Database, one: One): multiset<Row> {
    match one
    case Query(id, _) => db(id)
    case Values(rows) => multiset(rows)
  }

  /** The terms combine from the left. */
  function Meaning(db: Database, s: Source): multiset<Row>
    decreases |s.rest|
  {
    if s.rest == [] then MeaningOfOne(db, s.first)
    else
      var n := |s.rest| - 1;
      Combine(s.rest[n].0, Meaning(db, s.(rest := s.rest[..n])), MeaningOfOne(db, s.rest[n].1))
  }

  // ---- what the linked structure means ----

  /** `Star(t)` selects everything from the subquery `t`. */
  datatype Core = QueryCore(id: nat) | RowCore(row: Row) | Star(sub: Term)

  datatype Prior = NoPrior | After(term: Term)

  datatype Term = Term(op: Op, core: Core, prior: Prior)

  function Eval(db: Database, t: Term): multiset<Row>
    decreases t
  {
    var here := match t.core
                case QueryCore(id) => db(id)
                case RowCore(row) => multiset{row}
                case Star(sub) => Eval(db, sub);
    match t.prior
    case NoPrior => here
    case After(l) => Combine(t.op, Eval(db, l), here)
  }

  // ---- the reduce actions on terms ----

  function ValuesTerm(rows: seq<Row>): Term
    requires |rows| > 0
  {
    var n := |rows| - 1;
    if n == 0 then Term(Only, RowCore(rows[0]), NoPrior)
    else Term(All, RowCore(rows[n]), After(ValuesTerm(rows[..n])))
  }

  function OneTerm(one: One): Term
    requires one.Values? ==> |one.rows| > 0
  {
    match one
    case Query(id, _) => Term(Only, QueryCore(id), NoPrior)
    case Values(rows) => ValuesTerm(rows)
  }

  /** A right operand that is itself a chain is wrapped in a subquery first. */
  function Join(l: Term, op: Op, r: Term): Term {
    if r.prior.After? then Term(op, Star(r), After(l)) else r.(op := op, prior := After(l))
  }

  function SourceTerm(s: Source): Term
    requires Grammatical(s)
    decreases |s.rest|
  {
    if s.rest == [] then OneTerm(s.first)
    else
      var n := |s.rest| - 1;
      Join(SourceTerm(s.(rest := s.rest[..n])), s.rest[n].0, OneTerm(s.rest[n].1))
  }

  lemma ValuesTermNext(rows: seq<Row>, n: nat)
    requires 0 < n < |rows|
    ensures ValuesTerm(rows[..n + 1]) == Term(All, RowCore(rows[n]), After(ValuesTerm(rows[..n])))
  {
    var upTo := rows[..n + 1];
    assert upTo[..n] == rows[..n] && upTo[n] == rows[n];
  }

  lemma {:induction false} ValuesMeaning(db: Database, rows: seq<Row>)
    requires |rows| > 0
    ensures Eval(db, ValuesTerm(rows)) == multiset(rows)
    decreases |rows|
  {
    var n := |rows| - 1;
    if n == 0 {
      assert rows == [rows[0]];
    } else {
      ValuesMeaning(db, rows[..n]);
      assert rows == rows[..n] + [rows[n]];
    }
  }

  lemma OneMeaning(db: Database, one: One)
    requires one.Values? ==> |one.rows| > 0
    ensures Eval(db, OneTerm(one)) == MeaningOfOne(db, one)
  {
    if one.Values? {
      ValuesMeaning(db, one.rows);
    }
  }

  /** The chain built for any compound means what the text means, over every database. */
  lemma {:induction false} LoweringKeepsMeaning(db: Database, s: Source)
    requires Grammatical(s)
    ensures Eval(db, SourceTerm(s)) == Meaning(db, s)
    decreases |s.rest|
  {
    if s.rest == [] {
      OneMeaning(db, s.first);
    } else {
      var n := |s.rest| - 1;
      LoweringKeepsMeaning(db, s.(rest := s.rest[..n]));
      OneMeaning(db, s.rest[n].1);
    }
  }

  /** When it would do to keep only the last row of a VALUES right operand. */
  predicate LastRowDoes(op: Op, left: multiset<Row>, rows: seq<Row>)
    requires |rows| > 0
  {
    var last := rows[|rows| - 1];
    match op
    case Union => forall r :: r in rows ==> r == last || r in left
    case Except => forall r :: r in rows && r in left ==> r == last
    case Intersect => forall r :: r in rows && r in left ==> r == last
    case _ => |rows| == 1
  }

  lemma SameSets(x: set<Row>, y: set<Row>)
    ensures multiset(x) == multiset(y) <==> x == y
  {
    if multiset(x) == multiset(y) {
      forall r ensures r in x <==> r in y {
        assert r in multiset(x) <==> r in multiset(y);
      }
    }
  }

  lemma LastRow(op: Op, left: multiset<Row>, rows: seq<Row>)
    requires |rows| > 0
    ensures Combine(op, left, multiset{rows[|rows| - 1]}) == Combine(op, left, multiset(rows))
            <==> LastRowDoes(op, left, rows)
  {
    var last, all := rows[|rows| - 1], multiset(rows);
    match op
    case Union =>
      var x, y := (set r | r in left + multiset{last}), (set r | r in left + all);
      SameSets(x, y);
      assert forall r :: r in rows ==> r in y;
      assert forall r :: r in x <==> r in left || r == last;
    case Except =>
      var x, y := (set r | r in left && r !in multiset{last}), (set r | r in left && r !in all);
      SameSets(x, y);
      assert forall r :: r in left ==> (r in x <==> r != last) && (r in y <==> r !in rows);
    case Intersect =>
      var x, y := (set r | r in left && r in multiset{last}), (set r | r in left && r in all);
      SameSets(x, y);
      assert forall r :: r in left ==> (r in x <==> r == last) && (r in y <==> r in rows);
    case _ =>
      assert |left + multiset{last}| == |left| + 1 && |left + all| == |left| + |rows|;
      if |rows| == 1 {
        assert rows == [last];
      }
  }

  /** Without the subquery a VALUES right operand would lose every row but its last. Exactly when
      the plain link would keep the meaning all the same: under UNION ALL when there is one row,
      under UNION when the others are in the left operand, under EXCEPT and INTERSECT when none of
      the others is. */
  lemma WrappingIsNeeded(db: Database, l: Term, op: Op, rows: seq<Row>)
    requires |rows| > 0
    ensures var plain := ValuesTerm(rows).(op := op, prior := After(l));
            && Eval(db, plain) == Combine(op, Eval(db, l), multiset{rows[|rows| - 1]})
            && (Eval(db, plain) == Combine(op, Eval(db, l), multiset(rows)) <==> LastRowDoes(op, Eval(db, l), rows))
  {
    hide Combine, LastRowDoes;
    LastRow(op, Eval(db, l), rows);
  }

  // ---- the heap ----

  datatype Flag = SF_Values | SF_MultiValue | SF_Compound | SF_Distinct | SF_All

  /** A VALUES clause counts one select a row. */
  function Terms(s: Source): nat {
    (if s.first.Values? then |s.first.rows| else 1) + |s.rest|
  }

  predicate PureMultiRow(s: Source) {
    s.rest == [] && MultiRow(s.first)
  }

  // ---- the flags that the text calls for ----

  function QuantifierFlags(q: Quantifier): set<Flag> {
    (if q == DISTINCT then {SF_Distinct} else {}) + if q == ALL then {SF_All} else {}
  }

  /** Only the selects of a VALUES clause are marked as such; a SELECT has its quantifier. */
  function Mark(one: One): set<Flag> {
    if one.Values? then {SF_Values} else QuantifierFlags(one.quantifier)
  }

  predicate MultiRow(one: One) {
    one.Values? && |one.rows| > 1
  }

  function TermMarks(one: One): seq<set<Flag>> {
    seq(if one.Values? then |one.rows| else 1, _ => Mark(one))
  }

  /** A multi-row right operand is inside a fresh select, which has no mark. */
  function HeadMark(one: One): set<Flag> {
    if MultiRow(one) then {} else Mark(one)
  }

  /** The marks along the chain, head first. */
  function Marks(s: Source): seq<set<Flag>>
    decreases |s.rest|
  {
    if s.rest == [] then TermMarks(s.first)
    else
      var n, one := |s.rest| - 1, s.rest[|s.rest| - 1].1;
      [HeadMark(one)] + Marks(s.(rest := s.rest[..n]))
  }

  function RowMarks(n: nat): seq<set<Flag>> { seq(n, _ => {SF_Values}) }

  /** No mark of the whole chain among those of its members. */
  predicate Plain(marks: seq<set<Flag>>) {
    forall i :: 0 <= i < |marks| ==> SF_MultiValue !in marks[i] && SF_Compound !in marks[i]
  }

  lemma {:induction false} MarksArePlain(s: Source)
    ensures |Marks(s)| == Terms(s)
    ensures Plain(Marks(s))
    decreases |s.rest|
  {
    if s.rest != [] {
      MarksArePlain(s.(rest := s.rest[..|s.rest| - 1]));
    }
  }

  /** The marks, with the head of a plain multi-row VALUES and the members of a linked chain marked
      as such too. */
  function FlagsAt(marks: seq<set<Flag>>, i: nat, multi: bool, linked: bool): set<Flag>
    requires i < |marks|
  {
    marks[i] + (if i == 0 && multi then {SF_MultiValue} else {}) + if linked then {SF_Compound} else {}
  }

  datatype HeapCore = HeapQuery(id: nat) | HeapRow(row: Row) | HeapStar(sub: Select)

  class Select {
    var op: Op
    var pPrior: Select?
    var pNext: Select?
    var selFlags: set<Flag>
    var core: HeapCore

    /** This select and those before it, following `pPrior`. */
    ghost var chain: seq<Select>
    /** Every select reachable from here. */
    ghost var repr: set<Select>
    ghost var term: Term

    ghost predicate Valid()
      reads this`op, this`pPrior, this`core, this`chain, this`repr, this`term
      reads repr`op, repr`pPrior, repr`core, repr`chain, repr`repr, repr`term
      decreases repr
    {
      && this in repr
      && (if pPrior == null then chain == [this] && term.prior == NoPrior
          else
            && pPrior in repr && pPrior.repr <= repr && this !in pPrior.repr && pPrior.Valid()
            && chain == [this] + pPrior.chain
            && term.prior == After(pPrior.term))
      && term.op == op
      && match core
         case HeapQuery(id) => term.core == QueryCore(id)
         case HeapRow(row) => term.core == RowCore(row)
         case HeapStar(sub) =>
           && sub in repr && sub.repr <= repr && this !in sub.repr && sub.Valid()
           && (pPrior != null ==> pPrior.repr !! sub.repr)
           && term.core == Star(sub.term)
    }

    /** A select without prior, as the allocation function makes it. */
    constructor (core: HeapCore, flags: set<Flag>)
      requires core.HeapStar? ==> core.sub.Valid()
      ensures Valid() && op == Only && pPrior == null && pNext == null && selFlags == flags && this.core == core
      ensures repr == {this} + (if core.HeapStar? then core.sub.repr else {})
      ensures term == Term(Only, match core
                                 case HeapQuery(id) => QueryCore(id)
                                 case HeapRow(row) => RowCore(row)
                                 case HeapStar(sub) => Star(sub.term), NoPrior)
    {
      this.op, this.pPrior, this.pNext, this.selFlags, this.core := Only, null, null, flags, core;
      this.chain := [this];
      this.repr := {this} + (if core.HeapStar? then core.sub.repr else {});
      this.term := Term(Only, match core
                              case HeapQuery(id) => QueryCore(id)
                              case HeapRow(row) => RowCore(row)
                              case HeapStar(sub) => Star(sub.term), NoPrior);
    }
  }

  /** Entry `i` of the chain: its own chain is the rest, and `pPrior` leads to the next entry. */
  lemma {:induction false} ChainAt(p: Select, i: nat)
    requires p.Valid() && i < |p.chain|
    ensures p.chain[0] == p
    ensures p.chain[i] in p.repr && p.chain[i].repr <= p.repr
    ensures p.chain[i].Valid() && p.chain[i].chain == p.chain[i..]
    ensures p.chain[i].pPrior == if i + 1 < |p.chain| then p.chain[i + 1] else null
    decreases i
  {
    if i > 0 {
      assert p.chain[i] == p.pPrior.chain[i - 1] && p.chain[i..] == p.pPrior.chain[i - 1..];
      ChainAt(p.pPrior, i - 1);
    } else if p.pPrior != null {
      ChainHead(p.pPrior);
    }
  }

  lemma ChainHead(p: Select)
    requires p.Valid()
    ensures |p.chain| > 0 && p.chain[0] == p
  {
  }

  lemma {:induction false} ChainDistinct(p: Select, i: nat, j: nat)
    requires p.Valid() && i < j < |p.chain|
    ensures p.chain[i] != p.chain[j]
    decreases i
  {
    ChainAt(p.pPrior, j - 1);
    if i > 0 {
      ChainDistinct(p.pPrior, i - 1, j - 1);
    }
  }

  /** `pPrior` of entry `i` is the next entry. */
  ghost predicate PriorAt(nodes: seq<Select>, i: nat)
    requires i < |nodes|
    reads nodes`pPrior
  {
    nodes[i].pPrior == if i + 1 < |nodes| then nodes[i + 1] else null
  }

  ghost predicate NoRepeats(nodes: seq<Select>) {
    forall i, j :: 0 <= i < j < |nodes| ==> nodes[i] != nodes[j]
  }

  lemma ChainInRepr(p: Select)
    requires p.Valid()
    ensures p in p.repr && forall n :: n in p.chain ==> n in p.repr
    ensures forall i :: 0 <= i < |p.chain| ==> p.chain[i] in p.repr
  {
    forall n | n in p.chain ensures n in p.repr {
      var i :| 0 <= i < |p.chain| && p.chain[i] == n;
      ChainAt(p, i);
    }
  }

  lemma ChainFollows(p: Select)
    requires p.Valid()
    ensures NoRepeats(p.chain) && |p.chain| > 0 && p.chain[0] == p
    ensures forall i :: 0 <= i < |p.chain| ==> PriorAt(p.chain, i)
  {
    ChainHead(p);
    forall i | 0 <= i < |p.chain| ensures PriorAt(p.chain, i) {
      ChainAt(p, i);
    }
    forall i, j | 0 <= i < j < |p.chain| ensures p.chain[i] != p.chain[j] {
      ChainDistinct(p, i, j);
    }
  }

  /** `pNext` of entry `i` is the entry whose prior it is. */
  ghost predicate Done(nodes: seq<Select>, i: nat)
    requires i < |nodes|
    reads nodes`pNext
  {
    nodes[i].pNext == if i == 0 then null else nodes[i - 1]
  }

  /** Walks down `pPrior` from `p`, linking each select to its successor and counting. */
  method LinkLoop(p: Select, ghost nodes: seq<Select>) returns (cnt: nat)
    requires |nodes| > 0 && nodes[0] == p && NoRepeats(nodes)
    requires forall i :: 0 <= i < |nodes| ==> PriorAt(nodes, i)
    modifies nodes`pNext, nodes`selFlags
    ensures cnt == |nodes|
    ensures forall i :: 0 <= i < |nodes| ==>
              Done(nodes, i) && nodes[i].selFlags == old(nodes[i].selFlags) + {SF_Compound}
  {
    ghost var was := seq(|nodes|, i requires 0 <= i < |nodes| reads nodes => nodes[i].selFlags);
    var pNext: Select?, pLoop: Select? := null, p;
    cnt := 0;
    while pLoop != null
      invariant 0 <= cnt <= |nodes|
      invariant pLoop == if cnt < |nodes| then nodes[cnt] else null
      invariant pNext == if cnt == 0 then null else nodes[cnt - 1]
      invariant forall i :: 0 <= i < cnt ==> Done(nodes, i)
      invariant forall i :: 0 <= i < |nodes| ==> nodes[i].selFlags == was[i] + if i < cnt then {SF_Compound} else {}
      decreases |nodes| - cnt
    {
      assert PriorAt(nodes, cnt);
      label before:
      pLoop.pNext := pNext;
      pLoop.selFlags := pLoop.selFlags + {SF_Compound};
      forall i | 0 <= i <= cnt ensures Done(nodes, i) {
        if i < cnt {
          assert nodes[i] != nodes[cnt] && old@before(Done(nodes, i));
        }
      }
      pNext := pLoop;
      pLoop := pLoop.pPrior;
      cnt := cnt + 1;
    }
  }

  /** Links a chain of at least two selects both ways. The error is raised exactly for a chain
      over a positive limit whose head is not a multi-row VALUES. */
  method DoubleLinkSelect(p: Select, mxSelect: int) returns (tooMany: bool)
    requires p.Valid()
    modifies p.chain`pNext, p.chain`selFlags
    ensures p.Valid()
    ensures |p.chain| == 1 ==> p.pNext == old(p.pNext) && p.selFlags == old(p.selFlags)
    ensures |p.chain| > 1 ==> forall i :: 0 <= i < |p.chain| ==>
              Done(p.chain, i) && p.chain[i].selFlags == old(p.chain[i].selFlags) + {SF_Compound}
    ensures tooMany <==> SF_MultiValue !in old(p.selFlags) && |p.chain| > 1 && 0 < mxSelect < |p.chain|
  {
    ChainFollows(p);
    assert PriorAt(p.chain, 0);
    hide Select.Valid;
    tooMany := false;
    if p.pPrior != null {
      var cnt := LinkLoop(p, p.chain);
      assert Done(p.chain, 0);
      tooMany := SF_MultiValue !in p.selFlags && mxSelect > 0 && cnt > mxSelect;
    }
  }

  /** All of a chain points back and is marked as part of a compound. */
  ghost predicate Linked(nodes: seq<Select>)
    reads nodes`pNext, nodes`selFlags
  {
    forall i :: 0 <= i < |nodes| ==> Done(nodes, i) && SF_Compound in nodes[i].selFlags
  }

  /** Entry by entry the flags are those that the text calls for, and no others. */
  ghost predicate Flagged(nodes: seq<Select>, marks: seq<set<Flag>>, multi: bool, linked: bool)
    reads nodes`selFlags
  {
    && |nodes| == |marks|
    && forall i :: 0 <= i < |nodes| ==> nodes[i].selFlags == FlagsAt(marks, i, multi, linked)
  }

  /** A wrapped VALUES clause: linked both ways, and flagged as rows. */
  ghost predicate Whole(nodes: seq<Select>)
    reads nodes`pNext, nodes`selFlags
  {
    Linked(nodes) && Flagged(nodes, RowMarks(|nodes|), true, true)
  }

  // ---- the subqueries inside a chain ----

  /** The selects of the subquery that entry `i` wraps, if it wraps one. */
  ghost function Inner(p: Select, i: nat): (nodes: seq<Select>)
    requires p.Valid() && i < |p.chain|
    ensures forall n :: n in nodes ==> n in p.repr
    reads p`op, p`pPrior, p`core, p`chain, p`repr, p`term
    reads p.repr`op, p.repr`pPrior, p.repr`core, p.repr`chain, p.repr`repr, p.repr`term
  {
    ChainAt(p, i);
    match p.chain[i].core
    case HeapStar(sub) => ChainInRepr(sub); sub.chain
    case _ => []
  }

  /** No select of the chain is inside a subquery of the chain. */
  lemma {:induction false} InnerApart(p: Select, i: nat, j: nat)
    requires p.Valid() && i < |p.chain| && j < |p.chain|
    ensures p.chain[j] !in Inner(p, i)
    decreases i + j
  {
    ChainAt(p, i);
    ChainAt(p, j);
    var node := p.chain[i];
    if node.core.HeapStar? {
      ChainInRepr(node.core.sub);
      if i == 0 && j > 0 {
        ChainAt(p.pPrior, j - 1);
      } else if j == 0 && i > 0 {
        ChainAt(p.pPrior, i - 1);
      } else if i > 0 {
        InnerApart(p.pPrior, i - 1, j - 1);
      }
    }
  }

  /** Every subquery inside the chain is a whole VALUES clause. */
  ghost predicate InnerWhole(p: Select)
    requires p.Valid()
    reads p, p.repr
  {
    forall i :: 0 <= i < |p.chain| ==> Whole(Inner(p, i))
  }

  /** A select in front of a chain adds its own subquery to those of the chain. */
  lemma InnerPrepend(p: Select, l: Select)
    requires p.Valid() && l.Valid() && p.pPrior == l
    requires InnerWhole(l) && Whole(Inner(p, 0))
    ensures InnerWhole(p)
  {
    ChainHead(l);
    forall i | 0 <= i < |p.chain| ensures Whole(Inner(p, i)) {
      if i > 0 {
        ChainAt(p, i);
        ChainAt(l, i - 1);
        assert Inner(p, i) == Inner(l, i - 1);
      }
    }
  }

  /** One more row of a VALUES clause. */
  method AppendRow(pLeft: Select, row: Row) returns (pRight: Select)
    requires pLeft.Valid()
    modifies pLeft`selFlags
    ensures pRight.Valid() && fresh(pRight) && pRight.repr == {pRight} + pLeft.repr
    ensures pRight.chain == [pRight] + pLeft.chain && pRight.pNext == null && pRight.core == HeapRow(row)
    ensures pRight.pPrior == pLeft
    ensures pRight.term == Term(All, RowCore(row), After(pLeft.term))
    ensures pRight.selFlags == {SF_Values, SF_MultiValue}
    ensures pLeft.selFlags == old(pLeft.selFlags) - {SF_MultiValue}
  {
    pRight := new Select(HeapRow(row), {SF_Values, SF_MultiValue});
    assert pRight !in pLeft.repr;
    pLeft.selFlags := pLeft.selFlags - {SF_MultiValue};
    pRight.op := All;
    pRight.pPrior := pLeft;
    pRight.chain := [pRight] + pLeft.chain;
    pRight.repr := {pRight} + pLeft.repr;
    pRight.term := Term(All, RowCore(row), After(pLeft.term));
  }

  /** Puts a single select in front of the chain of its left operand. */
  method Attach(pLhs: Select, op: Op, pRhs: Select)
    requires pLhs.Valid() && pRhs.Valid() && pLhs.repr !! pRhs.repr && pRhs.pPrior == null
    modifies pLhs`selFlags, pRhs`op, pRhs`pPrior, pRhs`chain, pRhs`repr, pRhs`term, pRhs`selFlags
    ensures pRhs.Valid() && pRhs.repr == old(pRhs.repr) + pLhs.repr
    ensures pRhs.term == old(pRhs.term).(op := op, prior := After(pLhs.term))
    ensures pRhs.chain == [pRhs] + pLhs.chain && pRhs.pPrior == pLhs
    ensures pRhs.selFlags == old(pRhs.selFlags) - {SF_MultiValue}
    ensures pLhs.selFlags == old(pLhs.selFlags) - {SF_MultiValue}
  {
    pRhs.op := op;
    pRhs.pPrior := pLhs;
    pRhs.chain := [pRhs] + pLhs.chain;
    pRhs.repr := pRhs.repr + pLhs.repr;
    pRhs.term := pRhs.term.(op := op, prior := After(pLhs.term));
    pLhs.selFlags := pLhs.selFlags - {SF_MultiValue};
    pRhs.selFlags := pRhs.selFlags - {SF_MultiValue};
  }

  /** A right operand that is a chain itself is linked, then wrapped in a subquery. */
  method WrapOperand(rhs: Select, mxSelect: int) returns (pRhs: Select, tooMany: bool)
    requires rhs.Valid()
    modifies rhs.chain`pNext, rhs.chain`selFlags
    ensures rhs.Valid() && pRhs.Valid() && pRhs.pPrior == null
    ensures tooMany <==> SF_MultiValue !in old(rhs.selFlags) && 1 < |rhs.chain| && 0 < mxSelect < |rhs.chain|
    ensures if |rhs.chain| > 1 then
              && fresh(pRhs) && pRhs.repr == {pRhs} + rhs.repr
              && pRhs.term == Term(Only, Star(rhs.term), NoPrior)
              && pRhs.core == HeapStar(rhs) && Linked(rhs.chain)
              && pRhs.pNext == null && pRhs.selFlags == {}
              && (forall i :: 0 <= i < |rhs.chain| ==>
                    rhs.chain[i].selFlags == old(rhs.chain[i].selFlags) + {SF_Compound})
            else
              pRhs == rhs && rhs.pNext == old(rhs.pNext) && rhs.selFlags == old(rhs.selFlags)
    ensures |rhs.chain| > 1 <==> rhs.term.prior.After?
  {
    pRhs, tooMany := rhs, false;
    ChainFollows(rhs);
    assert PriorAt(rhs.chain, 0);
    if pRhs.pPrior != null {
      tooMany := DoubleLinkSelect(rhs, mxSelect);
      pRhs := new Select(HeapStar(rhs), {});
    }
  }

  /** The right operand of a compound operator becomes the head of the chain. */
  method JoinSelect(pLhs: Select, op: Op, rhs: Select, mxSelect: int) returns (pRhs: Select, tooMany: bool)
    requires pLhs.Valid() && rhs.Valid() && pLhs.repr !! rhs.repr
    modifies pLhs`selFlags, rhs`op, rhs`pPrior, rhs`chain, rhs`repr, rhs`term, rhs.chain`pNext, rhs.chain`selFlags
    ensures pRhs.Valid() && pLhs.repr <= pRhs.repr <= pLhs.repr + old(rhs.repr) + {pRhs}
    ensures pRhs == rhs || fresh(pRhs)
    ensures pRhs.term == Join(pLhs.term, op, old(rhs.term))
    ensures pRhs.chain == [pRhs] + pLhs.chain && pRhs.pPrior == pLhs && pLhs.Valid()
    ensures pRhs.selFlags == if old(rhs.term.prior.After?) then {} else old(rhs.selFlags) - {SF_MultiValue}
    ensures pLhs.selFlags == old(pLhs.selFlags) - {SF_MultiValue}
    ensures tooMany <==> SF_MultiValue !in old(rhs.selFlags) && 1 < |old(rhs.chain)| && 0 < mxSelect < |old(rhs.chain)|
    ensures old(rhs.term.prior.After?) ==>
              && pRhs.core == HeapStar(rhs) && rhs.chain == old(rhs.chain) && Linked(rhs.chain)
              && forall i :: 0 <= i < |rhs.chain| ==>
                   rhs.chain[i].selFlags == old(rhs.chain[i].selFlags) + {SF_Compound}
    ensures !old(rhs.term.prior.After?) ==> pRhs == rhs && pRhs.core == old(rhs.core)
  {
    ChainHead(rhs);
    ChainInRepr(rhs);
    pRhs, tooMany := WrapOperand(rhs, mxSelect);
    Attach(pLhs, op, pRhs);
  }

  // ---- a whole statement ----

  ghost predicate NothingInside(p: Select)
    requires p.Valid()
    reads p, p.repr
  {
    forall i :: 0 <= i < |p.chain| ==> Inner(p, i) == []
  }

  lemma NoInner(p: Select)
    requires p.Valid() && !p.core.HeapStar? && (p.pPrior != null ==> NothingInside(p.pPrior))
    ensures NothingInside(p)
  {
    ChainHead(p);
    forall i | 0 <= i < |p.chain| ensures Inner(p, i) == [] {
      if i > 0 {
        ChainAt(p, i);
        ChainAt(p.pPrior, i - 1);
        assert Inner(p, i) == Inner(p.pPrior, i - 1);
      }
    }
  }

  /** A head in front of a chain whose own head has lost its multi-row mark. */
  twostate lemma FlaggedPrepend(
    new p: Select, nodes: seq<Select>, new head: set<Flag>, new marks: seq<set<Flag>>, new was: bool, new multi: bool)
    requires |nodes| > 0 && NoRepeats(nodes) && Plain(marks)
    requires old(Flagged(nodes, marks, was, false))
    requires nodes[0].selFlags == old(nodes[0].selFlags) - {SF_MultiValue}
    requires forall n :: n in nodes && n != nodes[0] ==> n.selFlags == old(n.selFlags)
    requires p.selFlags == head + if multi then {SF_MultiValue} else {}
    ensures Flagged([p] + nodes, [head] + marks, multi, false)
  {
    forall i | 0 <= i <= |nodes| ensures ([p] + nodes)[i].selFlags == FlagsAt([head] + marks, i, multi, false) {
      if i > 0 {
        assert ([p] + nodes)[i] == nodes[i - 1] && ([head] + marks)[i] == marks[i - 1];
        assert old(nodes[i - 1].selFlags) == FlagsAt(marks, i - 1, was, false);
        assert i > 1 ==> nodes[i - 1] in nodes && nodes[i - 1] != nodes[0];
      }
    }
  }

  /** The flags of a chain that is not linked yet. */
  ghost predicate ChainFlagged(p: Select, marks: seq<set<Flag>>, multi: bool)
    requires p.Valid()
    reads p, p.repr
  {
    ChainInRepr(p);
    Flagged(p.chain, marks, multi, false)
  }

  /** Linking marks every member and takes no mark away. */
  twostate lemma FlaggedLinked(nodes: seq<Select>, new marks: seq<set<Flag>>, new multi: bool)
    requires old(Flagged(nodes, marks, multi, false))
    requires forall i :: 0 <= i < |nodes| ==> nodes[i].selFlags == old(nodes[i].selFlags) + {SF_Compound}
    ensures Flagged(nodes, marks, multi, true)
  {
    forall i | 0 <= i < |nodes| ensures nodes[i].selFlags == FlagsAt(marks, i, multi, true) {
      assert old(nodes[i].selFlags) == FlagsAt(marks, i, multi, false);
    }
  }

  /** The head tells a plain multi-row VALUES. */
  lemma HeadFlags(p: Select, marks: seq<set<Flag>>, multi: bool)
    requires p.Valid() && ChainFlagged(p, marks, multi) && Plain(marks)
    ensures |marks| > 0 && p.selFlags == marks[0] + if multi then {SF_MultiValue} else {}
    ensures SF_MultiValue in p.selFlags <==> multi
    ensures SF_Compound !in p.selFlags
  {
    ChainHead(p);
    assert p.chain[0].selFlags == FlagsAt(marks, 0, multi, false);
  }

  /** The first `n` rows of a VALUES clause. */
  ghost predicate HoldsRows(p: Select, rows: seq<Row>, n: nat)
    requires 0 < n <= |rows|
    reads p, p.repr
  {
    && p.Valid() && p.term == ValuesTerm(rows[..n]) && |p.chain| == n
    && ChainFlagged(p, RowMarks(n), n > 1) && p.pNext == null && !p.core.HeapStar?
    && NothingInside(p)
  }

  method BuildRow(l: Select, rows: seq<Row>, n: nat) returns (p: Select)
    requires 0 < n < |rows| && HoldsRows(l, rows, n)
    modifies l`selFlags
    ensures fresh(p) && p.repr == {p} + old(l.repr) && HoldsRows(p, rows, n + 1)
  {
    ChainFollows(l);
    ChainInRepr(l);
    hide Select.Valid, Inner;
    p := AppendRow(l, rows[n]);
    assert [{SF_Values}] + RowMarks(n) == RowMarks(n + 1);
    FlaggedPrepend(p, l.chain, {SF_Values}, RowMarks(n), n > 1, true);
    NoInner(p);
    ValuesTermNext(rows, n);
  }

  method BuildValues(rows: seq<Row>) returns (p: Select)
    requires |rows| > 0
    ensures fresh(p.repr) && HoldsRows(p, rows, |rows|)
  {
    p := new Select(HeapRow(rows[0]), {SF_Values});
    assert Inner(p, 0) == [];
    for n := 1 to |rows|
      invariant fresh(p.repr) && HoldsRows(p, rows, n)
    {
      p := BuildRow(p, rows, n);
    }
  }

  /** The flag that the quantifier of a SELECT brings. */
  method Quantify(quantifier: Quantifier) returns (distinct: set<Flag>)
    ensures SF_Distinct in distinct <==> quantifier == DISTINCT
    ensures SF_All in distinct <==> quantifier == ALL
    ensures SF_Values !in distinct && SF_MultiValue !in distinct && SF_Compound !in distinct
    ensures distinct == QuantifierFlags(quantifier)
  {
    match quantifier
    case DISTINCT => distinct := {SF_Distinct};
    case ALL => distinct := {SF_All};
    case NoQuantifier => distinct := {};
  }

  method BuildOne(one: One) returns (p: Select)
    requires one.Values? ==> |one.rows| > 0
    ensures p.Valid() && fresh(p.repr) && p.term == OneTerm(one)
    ensures |p.chain| == if one.Values? then |one.rows| else 1
    ensures ChainFlagged(p, TermMarks(one), MultiRow(one)) && p.pNext == null
    ensures !p.core.HeapStar? && InnerWhole(p)
  {
    match one
    case Query(id, quantifier) =>
      var distinct := Quantify(quantifier);
      p := new Select(HeapQuery(id), distinct);
      assert Inner(p, 0) == [];
    case Values(rows) =>
      p := BuildValues(rows);
      assert rows[..|rows|] == rows;
      assert TermMarks(one) == RowMarks(|rows|);
  }

  /** What holds of the head of a statement that is still being read. */
  ghost predicate Denotes(p: Select, s: Source)
    reads p, p.repr
  {
    && Grammatical(s)
    && p.Valid() && p.term == SourceTerm(s) && |p.chain| == Terms(s)
    && ChainFlagged(p, Marks(s), PureMultiRow(s))
    && InnerWhole(p)
  }

  lemma SourceStep(s: Source, op: Op, one: One)
    requires Grammatical(s) && op != Only && (one.Values? ==> |one.rows| > 0)
    ensures var longer := s.(rest := s.rest + [(op, one)]);
            && Grammatical(longer) && !PureMultiRow(longer)
            && Terms(longer) == Terms(s) + 1
            && SourceTerm(longer) == Join(SourceTerm(s), op, OneTerm(one))
            && Marks(longer) == [HeadMark(one)] + Marks(s)
  {
    var longer := s.(rest := s.rest + [(op, one)]);
    assert longer.rest[..|longer.rest| - 1] == s.rest;
  }

  lemma OneShape(p: Select, one: One)
    requires one.Values? ==> |one.rows| > 0
    requires p.Valid() && p.term == OneTerm(one) && ChainFlagged(p, TermMarks(one), MultiRow(one))
    ensures p.term.prior.After? <==> MultiRow(one)
    ensures MultiRow(one) ==> |p.chain| == |one.rows| && TermMarks(one) == RowMarks(|one.rows|)
    ensures p.selFlags - {SF_MultiValue} == Mark(one)
    ensures SF_MultiValue in p.selFlags <==> MultiRow(one)
  {
    HeadFlags(p, TermMarks(one), MultiRow(one));
  }

  /** One more operator and its right operand. */
  method BuildNext(l: Select, op: Op, one: One, mxSelect: int, ghost s: Source) returns (p: Select, tooMany: bool)
    requires Denotes(l, s) && op != Only && (one.Values? ==> |one.rows| > 0)
    modifies l`selFlags
    ensures fresh(p.repr - old(l.repr)) && Denotes(p, s.(rest := s.rest + [(op, one)])) && !tooMany
  {
    hide Select.Valid, OneTerm, SourceTerm, Terms, PureMultiRow, Grammatical, Join, InnerWhole, Inner, Marks;
    SourceStep(s, op, one);
    ChainInRepr(l);
    ChainFollows(l);
    MarksArePlain(s);
    var right := BuildOne(one);
    ChainInRepr(right);
    OneShape(right, one);
    assert forall i :: 0 <= i < |right.chain| ==> fresh(right.chain[i]);
    label before:
    p, tooMany := JoinSelect(l, op, right, mxSelect);
    FlaggedPrepend@before(p, l.chain, HeadMark(one), Marks(s), PureMultiRow(s), false);
    InnerStays@before(l);
    if MultiRow(one) {
      FlaggedLinked@before(right.chain, TermMarks(one), true);
    }
    InnerOfHead(p, right);
    InnerPrepend(p, l);
  }

  /** Changing the flags of the head alone leaves the subqueries of a chain linked. */
  twostate lemma InnerStays(l: Select)
    requires old(l.Valid()) && old(InnerWhole(l)) && l.Valid()
    requires l.chain == old(l.chain) && l.repr == old(l.repr)
    requires forall i :: 0 <= i < |l.chain| ==> Inner(l, i) == old(Inner(l, i))
    requires forall n :: n in l.repr && n != l ==> n.pNext == old(n.pNext) && n.selFlags == old(n.selFlags)
    ensures InnerWhole(l)
  {
    hide Select.Valid, Inner;
    ChainHead(l);
    forall i | 0 <= i < |l.chain| ensures Whole(Inner(l, i)) {
      InnerApart(l, i, 0);
      assert old(Whole(Inner(l, i)));
      assert forall k :: 0 <= k < |Inner(l, i)| ==> old(Done(Inner(l, i), k));
    }
  }

  lemma InnerOfHead(p: Select, right: Select)
    requires p.Valid() && if p.core.HeapStar? then p.core.sub == right && right.Valid() && Whole(right.chain) else true
    ensures Whole(Inner(p, 0))
  {
    ChainAt(p, 0);
  }

  /** Linking the chain itself leaves its subqueries linked. */
  twostate lemma InnerOutlives(p: Select)
    requires old(p.Valid()) && old(InnerWhole(p)) && p.Valid()
    requires p.chain == old(p.chain) && p.repr == old(p.repr)
    requires forall i :: 0 <= i < |p.chain| ==> Inner(p, i) == old(Inner(p, i))
    requires forall n :: n in p.repr && n !in p.chain ==> n.pNext == old(n.pNext) && n.selFlags == old(n.selFlags)
    ensures InnerWhole(p)
  {
    hide Select.Valid, Inner;
    forall i | 0 <= i < |p.chain| ensures Whole(Inner(p, i)) {
      forall n | n in Inner(p, i) ensures n !in p.chain {
        if n in p.chain {
          var j :| 0 <= j < |p.chain| && p.chain[j] == n;
          InnerApart(p, i, j);
        }
      }
      assert old(Whole(Inner(p, i)));
      assert forall k :: 0 <= k < |Inner(p, i)| ==> old(Done(Inner(p, i), k));
    }
  }

  /** The terms and operators of a statement, before the whole is linked. */
  method BuildTerms(s: Source, mxSelect: int) returns (p: Select)
    requires Grammatical(s)
    ensures fresh(p.repr) && Denotes(p, s)
    ensures s.rest == [] ==> p.pNext == null
  {
    p := BuildOne(s.first);
    ghost var prefix := s.(rest := []);
    assert p.term == SourceTerm(prefix);
    hide Select.Valid, OneTerm, SourceTerm, InnerWhole, Inner;
    for n := 0 to |s.rest|
      invariant prefix == s.(rest := s.rest[..n])
      invariant fresh(p.repr) && p in p.repr && Denotes(p, prefix)
      invariant n == 0 ==> p.pNext == null
    {
      var tooMany;
      p, tooMany := BuildNext(p, s.rest[n].0, s.rest[n].1, mxSelect, prefix);
      prefix := s.(rest := s.rest[..n + 1]);
      assert s.rest[..n] + [s.rest[n]] == s.rest[..n + 1];
      ChainInRepr(p);
    }
    assert s.rest[..|s.rest|] == s.rest;
  }

  /** Linking a chain leaves the subqueries inside it as they are. */
  method LinkOuter(p: Select, mxSelect: int) returns (tooMany: bool)
    requires p.Valid() && InnerWhole(p)
    modifies p.chain`pNext, p.chain`selFlags
    ensures p.Valid() && InnerWhole(p)
    ensures if |p.chain| > 1 then Linked(p.chain) else p.pNext == old(p.pNext) && p.selFlags == old(p.selFlags)
    ensures |p.chain| > 1 ==> forall i :: 0 <= i < |p.chain| ==>
              p.chain[i].selFlags == old(p.chain[i].selFlags) + {SF_Compound}
    ensures tooMany <==> SF_MultiValue !in old(p.selFlags) && |p.chain| > 1 && 0 < mxSelect < |p.chain|
  {
    hide Select.Valid, InnerWhole, Inner;
    ChainInRepr(p);
    label before:
    tooMany := DoubleLinkSelect(p, mxSelect);
    InnerOutlives@before(p);
  }

  /** The actions of a whole compound statement: the result denotes the statement, is linked
      both ways, inside its subqueries too, and is rejected exactly when it has more terms than a
      positive limit and is not a plain multi-row VALUES. */
  method BuildStatement(s: Source, mxSelect: int) returns (p: Select, tooMany: bool)
    requires Grammatical(s)
    ensures p.Valid() && p.term == SourceTerm(s) && |p.chain| == Terms(s)
    ensures if Terms(s) > 1 then Linked(p.chain) else p.pNext == null
    ensures Flagged(p.chain, Marks(s), PureMultiRow(s), Terms(s) > 1)
    ensures InnerWhole(p)
    ensures tooMany <==> 0 < mxSelect < Terms(s) && !PureMultiRow(s)
  {
    assert Terms(s) <= 1 ==> s.rest == [];
    hide Select.Valid, OneTerm, SourceTerm, InnerWhole, Inner, Grammatical, Terms, Marks, PureMultiRow;
    p := BuildTerms(s, mxSelect);
    ChainInRepr(p);
    MarksArePlain(s);
    HeadFlags(p, Marks(s), PureMultiRow(s));
    label before:
    tooMany := LinkOuter(p, mxSelect);
    if Terms(s) > 1 {
      FlaggedLinked@before(p.chain, Marks(s), PureMultiRow(s));
    }
  }

  /** A VALUES clause with more rows than the limit is not rejected. */
  method BuildLongValues(rows: seq<Row>, mxSelect: int) returns (p: Select, tooMany: bool)
    requires 1 < |rows| && 0 < mxSelect < |rows|
    ensures p.Valid() && |p.chain| == |rows| > mxSelect && !tooMany
  {
    p, tooMany := BuildStatement(Source(Values(rows), []), mxSelect);
  }
}
