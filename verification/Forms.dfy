/** The form of the trees that the actions build, apart from what they mean: which nodes each
    construct becomes, and which simplifications are always made. */
module Forms {
  import opened Exprs

  // ---- normal form ----

  /** What each kind of node may have below it. Membership in a list has at least two values, IS
      never has a NULL on its right, and a unary test has no right operand. */
  predicate NodeForm(e: Expr) {
    match e.op
    case TK_IN =>
      e.pLeft.Some? && e.pRight.NoExpr? && if e.pSelect.NoSub? then |e.pList| >= 2 else e.pList == []
    case TK_IS => e.pLeft.Some? && e.pRight.Some? && e.pRight.e.op != TK_NULL && e.pList == []
    case TK_ISNOT => e.pLeft.Some? && e.pRight.Some? && e.pRight.e.op != TK_NULL && e.pList == []
    case TK_BETWEEN => e.pLeft.Some? && e.pRight.NoExpr? && |e.pList| == 2
    case TK_BINARY(_) => e.pLeft.Some? && e.pRight.Some? && e.pList == []
    case TK_DOT => e.pLeft.Some? && e.pRight.Some? && e.pList == []
    case TK_CASE => e.pRight.NoExpr?
    case TK_FUNCTION => e.pLeft.NoExpr? && e.pRight.NoExpr?
    case TK_VECTOR => e.pLeft.NoExpr? && e.pRight.NoExpr?
    case _ => e.pRight.NoExpr? && e.pList == [] && (e.pLeft.Some? <==> Unary(e.op))
  }

  /** The nodes with one operand. */
  predicate Unary(op: Op) {
    op.TK_ISNULL? || op.TK_NOTNULL? || op.TK_NOT? || op.TK_SIGN? || op.TK_COLLATE? || op.TK_CAST?
  }

  predicate Normal(e: Expr)
    decreases e
  {
    && NodeForm(e)
    && (e.pLeft.Some? ==> Normal(e.pLeft.e))
    && (e.pRight.Some? ==> Normal(e.pRight.e))
    && AllNormal(e.pList)
    && (e.pSelect.SubTable? ==> AllNormal(e.pSelect.args))
  }

  predicate AllNormal(es: seq<Expr>)
    decreases es
  {
    es != [] ==> Normal(es[0]) && AllNormal(es[1..])
  }

  lemma {:induction false} AllNormalConcat(es: seq<Expr>, fs: seq<Expr>)
    requires AllNormal(es) && AllNormal(fs)
    ensures AllNormal(es + fs)
    decreases |es|
  {
    if es == [] {
      assert es + fs == fs;
    } else {
      assert (es + fs)[1..] == es[1..] + fs;
      AllNormalConcat(es[1..], fs);
    }
  }

  lemma PairNormal(x: Expr, y: Expr)
    requires Normal(x) && Normal(y)
    ensures AllNormal([x]) && AllNormal([x, y])
  {
    assert [x, y][1..] == [y] && [y][1..] == [];
  }

  lemma TripleNormal(x: Expr, y: Expr, z: Expr)
    requires Normal(x) && Normal(y) && Normal(z)
    ensures AllNormal([x, y, z])
  {
    PairNormal(y, z);
    assert [x, y, z][1..] == [y, z];
  }

  /** Every tree that the actions build is in normal form. */
  lemma {:induction false} LoweringIsNormal(s: Src)
    ensures Normal(Lower(s).pExpr)
    decreases s, 1
  {
    hide Normal, Lower;
    if Atom(s) {
      AtomIsNormal(s);
    } else if Wrapper(s) || CallForm(s) {
      PlainIsNormal(s);
    } else if Membership(s) {
      MembershipIsNormal(s);
    } else if Rewritten(s) {
      RewrittenIsNormal(s);
    } else {
      CaseIsNormal(s);
    }
  }

  lemma AtomIsNormal(s: Src)
    requires Atom(s)
    ensures Normal(Lower(s).pExpr)
  {
  }

  lemma {:induction false} PlainIsNormal(s: Src)
    requires Wrapper(s) || CallForm(s)
    ensures Normal(Lower(s).pExpr)
    decreases s, 0
  {
    match s
    case Paren(_, e, _) => LoweringIsNormal(e);
    case Collate(e, _, _, _) => LoweringIsNormal(e);
    case Binary(l, _, _, r) => LoweringIsNormal(l); LoweringIsNormal(r);
    case PostNull(e, _, _, _) => LoweringIsNormal(e);
    case Unary(_, _, e) => LoweringIsNormal(e);
    case Cast(_, _, e, _, _, _) => LoweringIsNormal(e);
    case Call(_, _, args, _, _, _) => ListIsNormal(args);
    case Vector(_, list, _, _) => ListIsNormal(list);
  }

  lemma NotIsNormal(neg: bool, e: Expr)
    requires Normal(e)
    ensures Normal(ExprNot(neg, e))
  {
  }

  lemma FunctionIsNormal(neg: bool, id: nat, list: seq<Expr>)
    requires AllNormal(list)
    ensures Normal(ExprNot(neg, Function(id, list)))
  {
    NotIsNormal(neg, Function(id, list));
  }

  lemma InIsNormal(neg: bool, e: Expr, list: seq<Expr>, sub: Sub)
    requires Normal(e) && AllNormal(list) && (sub.SubTable? ==> AllNormal(sub.args))
    requires if sub.NoSub? then |list| >= 2 else list == []
    ensures Normal(ExprNot(neg, PExpr(TK_IN, Some(e), NoExpr).(pList := list, pSelect := sub)))
  {
    NotIsNormal(neg, PExpr(TK_IN, Some(e), NoExpr).(pList := list, pSelect := sub));
  }

  lemma InListIsNormal(e: ExprSpan, neg: bool, list: seq<Expr>, rp: Lex)
    requires Normal(e.pExpr) && AllNormal(list)
    ensures Normal(ReduceInList(e, neg, list, rp).pExpr)
  {
    if |list| >= 2 {
      hide Normal, AllNormal;
      InIsNormal(neg, e.pExpr, list, NoSub);
    }
  }

  lemma InSelectIsNormal(e: ExprSpan, neg: bool, sub: Sub, zEnd: nat)
    requires Normal(e.pExpr) && !sub.NoSub? && (sub.SubTable? ==> AllNormal(sub.args))
    ensures Normal(ReduceInSelect(e, neg, sub, zEnd).pExpr)
  {
    assert AllNormal([]);
    hide Normal, AllNormal;
    InIsNormal(neg, e.pExpr, [], sub);
  }

  lemma {:induction false} MembershipIsNormal(s: Src)
    requires Membership(s)
    ensures Normal(Lower(s).pExpr)
    decreases s, 0
  {
    hide ReduceInList, ReduceInSelect, Normal;
    LoweringIsNormal(s.e);
    match s
    case InList(e, neg, _, list, _, rp) =>
      ListIsNormal(list);
      InListIsNormal(Lower(e), neg, LowerAll(list), rp);
    case InQuery(e, neg, _, q, _, rp) => InSelectIsNormal(Lower(e), neg, SubQuery(q), rp.End());
    case InTable(e, neg, _, nm, id, db, parens) =>
      if parens.Parens? {
        ListIsNormal(parens.args);
      }
      var sub := SubTable(id, if db.DotName? then db.id + 1 else 0,
                          if parens.Parens? then LowerAll(parens.args) else []);
      InSelectIsNormal(Lower(e), neg, sub, if db.DotName? then db.name.End() else nm.End());
  }

  /** IS with a literal NULL on the right has become a unary test. */
  lemma IsIsNormal(l: ExprSpan, neg: bool, r: ExprSpan)
    requires Normal(l.pExpr) && Normal(r.pExpr)
    ensures Normal(ReduceIs(l, neg, r).pExpr)
  {
  }

  lemma BetweenIsNormal(e: ExprSpan, neg: bool, lo: ExprSpan, hi: ExprSpan)
    requires Normal(e.pExpr) && Normal(lo.pExpr) && Normal(hi.pExpr)
    ensures Normal(ReduceBetween(e, neg, lo, hi).pExpr)
  {
    PairNormal(lo.pExpr, hi.pExpr);
    NotIsNormal(neg, PExpr(TK_BETWEEN, Some(e.pExpr), NoExpr).(pList := [lo.pExpr, hi.pExpr]));
  }

  lemma {:induction false} RewrittenIsNormal(s: Src)
    requires Rewritten(s)
    ensures Normal(Lower(s).pExpr)
    decreases s, 0
  {
    hide Normal, AllNormal, ReduceIs, ReduceBetween;
    match s
    case Like(l, neg, _, id, r) =>
      LoweringIsNormal(l); LoweringIsNormal(r);
      PairNormal(Lower(r).pExpr, Lower(l).pExpr);
      FunctionIsNormal(neg, id, [Lower(r).pExpr, Lower(l).pExpr]);
    case LikeEscape(l, neg, _, id, r, _, c) =>
      LoweringIsNormal(l); LoweringIsNormal(r); LoweringIsNormal(c);
      TripleNormal(Lower(r).pExpr, Lower(l).pExpr, Lower(c).pExpr);
      FunctionIsNormal(neg, id, [Lower(r).pExpr, Lower(l).pExpr, Lower(c).pExpr]);
    case IsExpr(l, neg, _, r) =>
      LoweringIsNormal(l); LoweringIsNormal(r);
      IsIsNormal(Lower(l), neg, Lower(r));
    case Between(e, neg, _, lo, _, hi) =>
      LoweringIsNormal(e); LoweringIsNormal(lo); LoweringIsNormal(hi);
      BetweenIsNormal(Lower(e), neg, Lower(lo), Lower(hi));
  }

  lemma {:induction false} CaseIsNormal(s: Src)
    requires s.Case?
    ensures Normal(Lower(s).pExpr)
    decreases s, 0
  {
    if s.operand.Operand? {
      LoweringIsNormal(s.operand.e);
    }
    WhensAreNormal(s.whens);
    if s.els.Else? {
      LoweringIsNormal(s.els.e);
      PairNormal(Lower(s.els.e).pExpr, Lower(s.els.e).pExpr);
      AllNormalConcat(LowerWhens(s.whens), [Lower(s.els.e).pExpr]);
    }
  }

  lemma {:induction false} ListIsNormal(ss: seq<Src>)
    ensures AllNormal(LowerAll(ss))
    decreases ss
  {
    if ss != [] {
      LoweringIsNormal(ss[0]);
      ListIsNormal(ss[1..]);
      assert LowerAll(ss)[1..] == LowerAll(ss[1..]);
    }
  }

  lemma {:induction false} WhensAreNormal(whens: Whens)
    ensures AllNormal(LowerWhens(whens))
    decreases whens
  {
    if whens.When? {
      LoweringIsNormal(whens.cond);
      LoweringIsNormal(whens.result);
      WhensAreNormal(whens.rest);
      PairNormal(Lower(whens.cond).pExpr, Lower(whens.result).pExpr);
      AllNormalConcat([Lower(whens.cond).pExpr, Lower(whens.result).pExpr], LowerWhens(whens.rest));
    }
  }

  // ---- which nodes each construct becomes ----

  function One(k: Op, op: Op): nat {
    if k == op then 1 else 0
  }

  /** How many nodes of kind `k` a tree has. */
  function Ops(k: Op, e: Expr): nat
    decreases e
  {
    One(k, e.op)
    + (if e.pLeft.Some? then Ops(k, e.pLeft.e) else 0)
    + (if e.pRight.Some? then Ops(k, e.pRight.e) else 0)
    + AllOps(k, e.pList)
    + (if e.pSelect.SubTable? then AllOps(k, e.pSelect.args) else 0)
  }

  function AllOps(k: Op, es: seq<Expr>): nat
    decreases es
  {
    if es == [] then 0 else Ops(k, es[0]) + AllOps(k, es[1..])
  }

  /** The text is a NULL, possibly in parentheses. */
  predicate IsNullText(s: Src)
    decreases s
  {
    match s
    case Literal(_, v) => v == Null
    case Paren(_, e, _) => IsNullText(e)
    case _ => false
  }

  function Negation(k: Op, neg: bool): nat {
    if neg then One(k, TK_NOT) else 0
  }

  /** How many nodes of kind `k` the text becomes: one for each construct and one TK_NOT for a negated one,
      except that NOT is part of IS NOT, NOT NULL and the comparison that `NOT IN (x)` becomes, that
      a NULL on the right of IS goes away, and that the operand of `IN ()` does. */
  function SrcOps(k: Op, s: Src): nat
    decreases s
  {
    match s
    case Paren(_, e, _) => SrcOps(k, e)
    case Literal(_, v) => One(k, if v == Null then TK_NULL else TK_LITERAL)
    case Name(_, _) => One(k, TK_ID)
    case Variable(_, _) => One(k, TK_VARIABLE)
    case Register(_, _) => One(k, TK_REGISTER)
    case CurrentTime(_, _) => One(k, TK_FUNCTION)
    case Dot2(_, _, _, _, _) => One(k, TK_DOT) + 2 * One(k, TK_ID)
    case Dot3(_, _, _, _, _, _, _, _) => 2 * One(k, TK_DOT) + 3 * One(k, TK_ID)
    case Collate(e, _, _, _) => One(k, TK_COLLATE) + SrcOps(k, e)
    case Cast(_, _, e, _, _, _) => One(k, TK_CAST) + SrcOps(k, e)
    case Call(_, _, args, _, _, _) => One(k, TK_FUNCTION) + ListOps(k, args)
    case CallStar(_, _, _, _, _) => One(k, TK_FUNCTION)
    case Vector(_, list, _, _) => One(k, TK_VECTOR) + ListOps(k, list)
    case Raise(_, _, _, _) => One(k, TK_RAISE)
    case Binary(l, op, _, r) => One(k, TK_BINARY(op)) + SrcOps(k, l) + SrcOps(k, r)
    case Like(l, neg, _, _, r) => Negation(k, neg) + One(k, TK_FUNCTION) + SrcOps(k, l) + SrcOps(k, r)
    case LikeEscape(l, neg, _, _, r, _, c) =>
      Negation(k, neg) + One(k, TK_FUNCTION) + SrcOps(k, l) + SrcOps(k, r) + SrcOps(k, c)
    case PostNull(e, neg, _, _) => One(k, if neg then TK_NOTNULL else TK_ISNULL) + SrcOps(k, e)
    case IsExpr(l, neg, _, r) =>
      if IsNullText(r) then One(k, if neg then TK_NOTNULL else TK_ISNULL) + SrcOps(k, l)
      else One(k, if neg then TK_ISNOT else TK_IS) + SrcOps(k, l) + SrcOps(k, r)
    case Unary(pre, _, e) => One(k, PrefixOp(pre)) + SrcOps(k, e)
    case Between(e, neg, _, lo, _, hi) =>
      Negation(k, neg) + One(k, TK_BETWEEN) + SrcOps(k, e) + SrcOps(k, lo) + SrcOps(k, hi)
    case InList(e, neg, _, list, _, _) =>
      if list == [] then One(k, TK_INTEGER)
      else if |list| == 1 then One(k, TK_BINARY(Cmp(if neg then NE else EQ))) + SrcOps(k, e) + SrcOps(k, list[0])
      else Negation(k, neg) + One(k, TK_IN) + SrcOps(k, e) + ListOps(k, list)
    case InQuery(e, neg, _, _, _, _) => Negation(k, neg) + One(k, TK_IN) + SrcOps(k, e)
    case InTable(e, neg, _, _, _, _, parens) =>
      Negation(k, neg) + One(k, TK_IN) + SrcOps(k, e) + if parens.Parens? then ListOps(k, parens.args) else 0
    case Query(_, _, _, _) => One(k, TK_SELECT)
    case Exists(_, _, _, _) => One(k, TK_EXISTS)
    case Case(_, operand, whens, els, _) =>
      One(k, TK_CASE) + (if operand.Operand? then SrcOps(k, operand.e) else 0) + WhenOps(k, whens)
      + if els.Else? then SrcOps(k, els.e) else 0
  }

  function PrefixOp(pre: Prefix): Op {
    match pre case NOT => TK_NOT case Sign(k) => TK_SIGN(k)
  }

  function ListOps(k: Op, ss: seq<Src>): nat
    decreases ss
  {
    if ss == [] then 0 else SrcOps(k, ss[0]) + ListOps(k, ss[1..])
  }

  function WhenOps(k: Op, whens: Whens): nat
    decreases whens
  {
    match whens
    case NoWhen => 0
    case When(_, cond, _, result, rest) => SrcOps(k, cond) + SrcOps(k, result) + WhenOps(k, rest)
  }

  lemma {:induction false} NullText(s: Src)
    ensures Lower(s).pExpr.op == TK_NULL <==> IsNullText(s)
    decreases s
  {
    if s.Paren? {
      NullText(s.e);
    }
  }

  lemma {:induction false} AllOpsConcat(k: Op, es: seq<Expr>, fs: seq<Expr>)
    ensures AllOps(k, es + fs) == AllOps(k, es) + AllOps(k, fs)
    decreases |es|
  {
    if es == [] {
      assert es + fs == fs;
    } else {
      assert (es + fs)[1..] == es[1..] + fs;
      AllOpsConcat(k, es[1..], fs);
    }
  }

  lemma OneOps(k: Op, x: Expr)
    ensures AllOps(k, [x]) == Ops(k, x)
  {
    assert [x][1..] == [];
  }

  lemma TwoOps(k: Op, x: Expr, y: Expr)
    ensures AllOps(k, [x, y]) == Ops(k, x) + Ops(k, y)
  {
    OneOps(k, y);
    assert [x, y][1..] == [y];
  }

  lemma ThreeOps(k: Op, x: Expr, y: Expr, z: Expr)
    ensures AllOps(k, [x, y, z]) == Ops(k, x) + Ops(k, y) + Ops(k, z)
  {
    TwoOps(k, y, z);
    assert [x, y, z][1..] == [y, z];
  }

  lemma NotOps(k: Op, neg: bool, e: Expr)
    ensures Ops(k, ExprNot(neg, e)) == Negation(k, neg) + Ops(k, e)
  {
  }

  lemma UnaryOps(k: Op, op: Op, l: Expr, id: nat)
    ensures Ops(k, PExpr(op, Some(l), NoExpr).(id := id)) == One(k, op) + Ops(k, l)
  {
  }

  lemma BinaryOps(k: Op, op: Op, l: Expr, r: Expr)
    ensures Ops(k, PExpr(op, Some(l), Some(r))) == One(k, op) + Ops(k, l) + Ops(k, r)
  {
  }

  lemma LeafOps(k: Op, op: Op, v: Val, id: nat)
    ensures Ops(k, PExpr(op, NoExpr, NoExpr).(v := v, id := id)) == One(k, op)
  {
  }

  lemma ListNodeOps(k: Op, op: Op, l: OptExpr, list: seq<Expr>, sub: Sub, id: nat)
    ensures Ops(k, PExpr(op, l, NoExpr).(pList := list, pSelect := sub, id := id)) ==
            One(k, op) + (if l.Some? then Ops(k, l.e) else 0) + AllOps(k, list)
            + if sub.SubTable? then AllOps(k, sub.args) else 0
  {
  }

  lemma CallOps(k: Op, neg: bool, id: nat, list: seq<Expr>)
    ensures Ops(k, ExprNot(neg, Function(id, list))) == Negation(k, neg) + One(k, TK_FUNCTION) + AllOps(k, list)
  {
    NotOps(k, neg, Function(id, list));
    ListNodeOps(k, TK_FUNCTION, NoExpr, list, NoSub, id);
    hide Ops;
  }

  lemma InOps(k: Op, neg: bool, e: Expr, list: seq<Expr>, sub: Sub)
    ensures Ops(k, ExprNot(neg, PExpr(TK_IN, Some(e), NoExpr).(pList := list, pSelect := sub))) ==
            Negation(k, neg) + One(k, TK_IN) + Ops(k, e) + AllOps(k, list)
            + if sub.SubTable? then AllOps(k, sub.args) else 0
  {
    NotOps(k, neg, PExpr(TK_IN, Some(e), NoExpr).(pList := list, pSelect := sub));
    ListNodeOps(k, TK_IN, Some(e), list, sub, 0);
    hide Ops;
  }

  /** The tree has exactly the nodes that the text becomes, kind by kind. */
  lemma {:induction false} LoweringKeepsOps(k: Op, s: Src)
    ensures Ops(k, Lower(s).pExpr) == SrcOps(k, s)
    decreases s, 1
  {
    hide Ops, SrcOps, Lower;
    if s.Dot2? || s.Dot3? {
      DotsKeepOps(k, s);
    } else if Atom(s) {
      AtomKeepsOps(k, s);
    } else if Wrapper(s) || s.Cast? {
      WrapperKeepsOps(k, s);
    } else if CallForm(s) {
      CallFormKeepsOps(k, s);
    } else if s.InList? {
      InListKeepsOps(k, s);
    } else if Membership(s) {
      InSelectKeepsOps(k, s);
    } else if s.IsExpr? {
      IsKeepsOps(k, s);
    } else if s.Between? {
      BetweenKeepsOps(k, s);
    } else if Rewritten(s) {
      RewrittenKeepsOps(k, s);
    } else {
      CaseKeepsOps(k, s);
    }
  }

  lemma DotsKeepOps(k: Op, s: Src)
    requires s.Dot2? || s.Dot3?
    ensures Ops(k, Lower(s).pExpr) == SrcOps(k, s)
  {
    hide Ops;
    match s
    case Dot2(_, id, _, _, id2) =>
      LeafOps(k, TK_ID, Null, id);
      LeafOps(k, TK_ID, Null, id2);
      BinaryOps(k, TK_DOT, Id(id), Id(id2));
    case Dot3(_, id, _, _, id2, _, _, id3) =>
      LeafOps(k, TK_ID, Null, id);
      LeafOps(k, TK_ID, Null, id2);
      LeafOps(k, TK_ID, Null, id3);
      BinaryOps(k, TK_DOT, Id(id2), Id(id3));
      BinaryOps(k, TK_DOT, Id(id), PExpr(TK_DOT, Some(Id(id2)), Some(Id(id3))));
  }

  lemma AtomKeepsOps(k: Op, s: Src)
    requires Atom(s) && !s.Dot2? && !s.Dot3?
    ensures Ops(k, Lower(s).pExpr) == SrcOps(k, s)
  {
  }

  lemma {:induction false} WrapperKeepsOps(k: Op, s: Src)
    requires Wrapper(s) || s.Cast?
    ensures Ops(k, Lower(s).pExpr) == SrcOps(k, s)
    decreases s, 0
  {
    hide Ops, AllOps, One;
    if s.Binary? {
      LoweringKeepsOps(k, s.l);
      LoweringKeepsOps(k, s.r);
      BinaryOps(k, TK_BINARY(s.op), Lower(s.l).pExpr, Lower(s.r).pExpr);
    } else {
      hide Lower, SrcOps;
      LoweringKeepsOps(k, s.e);
      if s.PostNull? || s.Unary? {
        TestKeepsOps(k, s);
      } else {
        EnvelopeKeepsOps(k, s);
      }
    }
  }

  lemma TestKeepsOps(k: Op, s: Src)
    requires s.PostNull? || s.Unary?
    requires Ops(k, Lower(s.e).pExpr) == SrcOps(k, s.e)
    ensures Ops(k, Lower(s).pExpr) == SrcOps(k, s)
  {
    hide Ops, AllOps, One;
    match s
    case PostNull(e, neg, _, _) => UnaryOps(k, if neg then TK_NOTNULL else TK_ISNULL, Lower(e).pExpr, 0);
    case Unary(pre, _, e) => UnaryOps(k, PrefixOp(pre), Lower(e).pExpr, 0);
  }

  lemma EnvelopeKeepsOps(k: Op, s: Src)
    requires s.Paren? || s.Collate? || s.Cast?
    requires Ops(k, Lower(s.e).pExpr) == SrcOps(k, s.e)
    ensures Ops(k, Lower(s).pExpr) == SrcOps(k, s)
  {
    hide Ops, AllOps, One;
    match s
    case Paren(_, _, _) =>
    case Collate(e, _, _, id) => UnaryOps(k, TK_COLLATE, Lower(e).pExpr, id);
    case Cast(_, _, e, _, _, id) => UnaryOps(k, TK_CAST, Lower(e).pExpr, id);
  }

  lemma {:induction false} CallFormKeepsOps(k: Op, s: Src)
    requires s.Call? || s.Vector?
    ensures Ops(k, Lower(s).pExpr) == SrcOps(k, s)
    decreases s, 0
  {
    hide Ops, AllOps, One, LowerAll, ListOps;
    match s
    case Call(_, _, args, _, _, id) =>
      ListKeepsOps(k, args);
      CallOps(k, false, id, LowerAll(args));
    case Vector(_, list, _, _) =>
      ListKeepsOps(k, list);
      ListNodeOps(k, TK_VECTOR, NoExpr, LowerAll(list), NoSub, 0);
  }

  lemma ReduceInListOps(k: Op, e: ExprSpan, neg: bool, list: seq<Expr>, rp: Lex)
    ensures Ops(k, ReduceInList(e, neg, list, rp).pExpr) ==
            if |list| == 0 then One(k, TK_INTEGER)
            else if |list| == 1 then
              One(k, TK_BINARY(Cmp(if neg then NE else EQ))) + Ops(k, e.pExpr) + Ops(k, list[0])
            else Negation(k, neg) + One(k, TK_IN) + Ops(k, e.pExpr) + AllOps(k, list)
  {
    hide Ops, AllOps, One;
    if |list| == 0 {
      LeafOps(k, TK_INTEGER, Int(if neg then 1 else 0), 0);
    } else if |list| == 1 {
      BinaryOps(k, TK_BINARY(Cmp(if neg then NE else EQ)), e.pExpr, list[0]);
    } else {
      InOps(k, neg, e.pExpr, list, NoSub);
    }
  }

  lemma UnfoldInList(k: Op, s: Src)
    requires s.InList?
    ensures Lower(s) == ReduceInList(Lower(s.e), s.neg, LowerAll(s.list), s.rp)
    ensures SrcOps(k, s) ==
            if s.list == [] then One(k, TK_INTEGER)
            else if |s.list| == 1 then
              One(k, TK_BINARY(Cmp(if s.neg then NE else EQ))) + SrcOps(k, s.e) + SrcOps(k, s.list[0])
            else Negation(k, s.neg) + One(k, TK_IN) + SrcOps(k, s.e) + ListOps(k, s.list)
  {
    hide ReduceInList, One, Negation, LowerAll, ListOps;
  }

  lemma {:induction false} InListKeepsOps(k: Op, s: Src)
    requires s.InList?
    ensures Ops(k, Lower(s).pExpr) == SrcOps(k, s)
    decreases s, 0
  {
    hide Ops, AllOps, One, ReduceInList, Lower, SrcOps, ListOps, Negation;
    UnfoldInList(k, s);
    assert |s.list| == 1 ==> LowerAll(s.list)[0] == Lower(s.list[0]).pExpr;
    hide LowerAll;
    LoweringKeepsOps(k, s.e);
    ReduceInListOps(k, Lower(s.e), s.neg, LowerAll(s.list), s.rp);
    if |s.list| == 1 {
      LoweringKeepsOps(k, s.list[0]);
    } else {
      ListKeepsOps(k, s.list);
    }
  }

  lemma ReduceInSelectOps(k: Op, e: ExprSpan, neg: bool, sub: Sub, zEnd: nat)
    ensures Ops(k, ReduceInSelect(e, neg, sub, zEnd).pExpr) ==
            Negation(k, neg) + One(k, TK_IN) + Ops(k, e.pExpr)
            + if sub.SubTable? then AllOps(k, sub.args) else 0
  {
    InOps(k, neg, e.pExpr, [], sub);
    hide Ops;
  }

  lemma {:induction false} InSelectKeepsOps(k: Op, s: Src)
    requires s.InQuery? || s.InTable?
    ensures Ops(k, Lower(s).pExpr) == SrcOps(k, s)
    decreases s, 0
  {
    hide Ops, AllOps, One, ReduceInSelect, Negation, ListOps, LowerAll;
    LoweringKeepsOps(k, s.e);
    if s.InQuery? {
      assert Lower(s) == ReduceInSelect(Lower(s.e), s.neg, SubQuery(s.q), s.rp.End());
      ReduceInSelectOps(k, Lower(s.e), s.neg, SubQuery(s.q), s.rp.End());
    } else {
      TableKeepsOps(k, s);
    }
  }

  lemma {:induction false} TableKeepsOps(k: Op, s: Src)
    requires s.InTable? && Ops(k, Lower(s.e).pExpr) == SrcOps(k, s.e)
    ensures Ops(k, Lower(s).pExpr) == SrcOps(k, s)
    decreases s, 0, 0
  {
    hide Ops, One, ReduceInSelect, Negation;
    var args := if s.parens.Parens? then LowerAll(s.parens.args) else [];
    var sub := SubTable(s.id, if s.db.DotName? then s.db.id + 1 else 0, args);
    var zEnd := if s.db.DotName? then s.db.name.End() else s.nm.End();
    assert Lower(s) == ReduceInSelect(Lower(s.e), s.neg, sub, zEnd);
    assert SrcOps(k, s) == Negation(k, s.neg) + One(k, TK_IN) + SrcOps(k, s.e)
                           + if s.parens.Parens? then ListOps(k, s.parens.args) else 0;
    hide Lower, SrcOps, LowerAll, ListOps;
    if s.parens.Parens? {
      ListKeepsOps(k, s.parens.args);
    }
    ReduceInSelectOps(k, Lower(s.e), s.neg, sub, zEnd);
  }

  lemma ReduceIsOps(k: Op, l: ExprSpan, neg: bool, r: ExprSpan)
    ensures Ops(k, ReduceIs(l, neg, r).pExpr) ==
            if r.pExpr.op == TK_NULL then One(k, if neg then TK_NOTNULL else TK_ISNULL) + Ops(k, l.pExpr)
            else One(k, if neg then TK_ISNOT else TK_IS) + Ops(k, l.pExpr) + Ops(k, r.pExpr)
  {
    hide Ops, AllOps, One;
    BinaryOps(k, if neg then TK_ISNOT else TK_IS, l.pExpr, r.pExpr);
    UnaryOps(k, if neg then TK_NOTNULL else TK_ISNULL, l.pExpr, 0);
  }

  lemma {:induction false} IsKeepsOps(k: Op, s: Src)
    requires s.IsExpr?
    ensures Ops(k, Lower(s).pExpr) == SrcOps(k, s)
    decreases s, 0
  {
    hide Ops, AllOps, One, ReduceIs, IsNullText;
    LoweringKeepsOps(k, s.l);
    LoweringKeepsOps(k, s.r);
    NullText(s.r);
    ReduceIsOps(k, Lower(s.l), s.neg, Lower(s.r));
  }

  lemma LikeOps(k: Op, l: ExprSpan, neg: bool, id: nat, r: ExprSpan)
    ensures Ops(k, ReduceLike(l, neg, id, r).pExpr) ==
            Negation(k, neg) + One(k, TK_FUNCTION) + Ops(k, l.pExpr) + Ops(k, r.pExpr)
  {
    hide Ops, AllOps, One;
    TwoOps(k, r.pExpr, l.pExpr);
    CallOps(k, neg, id, [r.pExpr, l.pExpr]);
  }

  lemma LikeEscapeOps(k: Op, l: ExprSpan, neg: bool, id: nat, r: ExprSpan, c: ExprSpan)
    ensures Ops(k, ReduceLikeEscape(l, neg, id, r, c).pExpr) ==
            Negation(k, neg) + One(k, TK_FUNCTION) + Ops(k, l.pExpr) + Ops(k, r.pExpr) + Ops(k, c.pExpr)
  {
    hide Ops, AllOps, One;
    ThreeOps(k, r.pExpr, l.pExpr, c.pExpr);
    CallOps(k, neg, id, [r.pExpr, l.pExpr, c.pExpr]);
  }

  lemma BetweenOps(k: Op, e: ExprSpan, neg: bool, lo: ExprSpan, hi: ExprSpan)
    ensures Ops(k, ReduceBetween(e, neg, lo, hi).pExpr) ==
            Negation(k, neg) + One(k, TK_BETWEEN) + Ops(k, e.pExpr) + Ops(k, lo.pExpr) + Ops(k, hi.pExpr)
  {
    hide Ops, AllOps, One;
    var list := [lo.pExpr, hi.pExpr];
    TwoOps(k, lo.pExpr, hi.pExpr);
    ListNodeOps(k, TK_BETWEEN, Some(e.pExpr), list, NoSub, 0);
    NotOps(k, neg, PExpr(TK_BETWEEN, Some(e.pExpr), NoExpr).(pList := list));
  }

  lemma {:induction false} RewrittenKeepsOps(k: Op, s: Src)
    requires s.Like? || s.LikeEscape?
    ensures Ops(k, Lower(s).pExpr) == SrcOps(k, s)
    decreases s, 0
  {
    hide Ops, AllOps, One, ReduceLike, ReduceLikeEscape, Negation;
    match s
    case Like(l, neg, _, id, r) =>
      LoweringKeepsOps(k, l); LoweringKeepsOps(k, r);
      LikeOps(k, Lower(l), neg, id, Lower(r));
    case LikeEscape(l, neg, _, id, r, _, c) =>
      LoweringKeepsOps(k, l); LoweringKeepsOps(k, r); LoweringKeepsOps(k, c);
      LikeEscapeOps(k, Lower(l), neg, id, Lower(r), Lower(c));
  }

  lemma {:induction false} BetweenKeepsOps(k: Op, s: Src)
    requires s.Between?
    ensures Ops(k, Lower(s).pExpr) == SrcOps(k, s)
    decreases s, 0
  {
    hide Ops, AllOps, One, ReduceBetween, Negation;
    LoweringKeepsOps(k, s.e);
    LoweringKeepsOps(k, s.lo);
    LoweringKeepsOps(k, s.hi);
    BetweenOps(k, Lower(s.e), s.neg, Lower(s.lo), Lower(s.hi));
  }

  lemma ReduceCaseOps(k: Op, kw: Lex, operand: OptExpr, list: seq<Expr>, els: OptExpr, end: Lex)
    ensures Ops(k, ReduceCase(kw, operand, list, els, end).pExpr) ==
            One(k, TK_CASE) + (if operand.Some? then Ops(k, operand.e) else 0) + AllOps(k, list)
            + if els.Some? then Ops(k, els.e) else 0
  {
    hide Ops, AllOps;
    if els.Some? {
      OneOps(k, els.e);
      AllOpsConcat(k, list, [els.e]);
    }
    ListNodeOps(k, TK_CASE, operand, if els.Some? then list + [els.e] else list, NoSub, 0);
  }

  function LowerOperand(operand: Operand): OptExpr {
    if operand.Operand? then Some(Lower(operand.e).pExpr) else NoExpr
  }

  function LowerElse(els: Else): OptExpr {
    if els.Else? then Some(Lower(els.e).pExpr) else NoExpr
  }

  lemma UnfoldCase(k: Op, s: Src)
    requires s.Case?
    ensures Lower(s) == ReduceCase(s.kw, LowerOperand(s.operand), LowerWhens(s.whens), LowerElse(s.els), s.end)
    ensures SrcOps(k, s) == One(k, TK_CASE) + (if s.operand.Operand? then SrcOps(k, s.operand.e) else 0)
                            + WhenOps(k, s.whens) + if s.els.Else? then SrcOps(k, s.els.e) else 0
  {
    hide ReduceCase, One, LowerWhens, WhenOps;
  }

  lemma {:induction false} CaseKeepsOps(k: Op, s: Src)
    requires s.Case?
    ensures Ops(k, Lower(s).pExpr) == SrcOps(k, s)
    decreases s, 0
  {
    hide Ops, AllOps, One, ReduceCase, LowerWhens, WhenOps, Lower, SrcOps;
    UnfoldCase(k, s);
    if s.operand.Operand? {
      LoweringKeepsOps(k, s.operand.e);
    }
    WhensKeepOps(k, s.whens);
    if s.els.Else? {
      LoweringKeepsOps(k, s.els.e);
    }
    ReduceCaseOps(k, s.kw, LowerOperand(s.operand), LowerWhens(s.whens), LowerElse(s.els), s.end);
  }

  lemma {:induction false} ListKeepsOps(k: Op, ss: seq<Src>)
    ensures AllOps(k, LowerAll(ss)) == ListOps(k, ss)
    decreases ss
  {
    if ss != [] {
      LoweringKeepsOps(k, ss[0]);
      ListKeepsOps(k, ss[1..]);
      assert LowerAll(ss)[1..] == LowerAll(ss[1..]);
    }
  }

  lemma {:induction false} WhensKeepOps(k: Op, whens: Whens)
    ensures AllOps(k, LowerWhens(whens)) == WhenOps(k, whens)
    decreases whens
  {
    hide Ops, Lower, SrcOps;
    if whens.When? {
      var c, r := Lower(whens.cond).pExpr, Lower(whens.result).pExpr;
      assert LowerWhens(whens) == [c, r] + LowerWhens(whens.rest);
      hide AllOps, LowerWhens;
      LoweringKeepsOps(k, whens.cond);
      LoweringKeepsOps(k, whens.result);
      WhensKeepOps(k, whens.rest);
      TwoOps(k, c, r);
      AllOpsConcat(k, [c, r], LowerWhens(whens.rest));
    }
  }
}
