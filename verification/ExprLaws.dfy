/** What SQL promises of the meaning of expressions: laws that relate texts to each other and fix
    the truth tables, whatever the meaning is defined by. */
module ExprLaws {
  import opened Exprs

  const ONE: Val := Int(1)
  const ZERO: Val := Int(0)

  // ---- truth values and connectives ----

  /** NOT, and with it what counts as true: NULL is unknown, zero is false, other numbers are true. */
  lemma NotLaw(env: Env, t: Lex, e: Src)
    ensures var v := Meaning(env, Unary(NOT, t, e));
            match Meaning(env, e)
            case Null => v == Null
            case Int(n) => v == if n == 0 then ONE else ZERO
            case Other(k) => v == if env.truthy(k) then ZERO else ONE
  {
  }

  /** `e` is true, false or unknown: NOT of it is 0, 1 or NULL. */
  ghost function Judged(env: Env, e: Src): Val {
    Meaning(env, Unary(NOT, Lex(0, 0), e))
  }

  /** The truth table of AND: false wins, then unknown. */
  lemma AndLaw(env: Env, l: Src, t: Lex, r: Src)
    ensures var v := Meaning(env, Binary(l, AND, t, r));
            && (v == ZERO <==> Judged(env, l) == ONE || Judged(env, r) == ONE)
            && (v == ONE <==> Judged(env, l) == ZERO && Judged(env, r) == ZERO)
            && (v == ZERO || v == ONE || v == Null)
  {
    assert Judged(env, l) == ValOf(Not(Truth(env, Meaning(env, l))));
    assert Judged(env, r) == ValOf(Not(Truth(env, Meaning(env, r))));
    hide Judged, Truth;
  }

  /** The truth table of OR: true wins, then unknown. */
  lemma OrLaw(env: Env, l: Src, t: Lex, r: Src)
    ensures var v := Meaning(env, Binary(l, OR, t, r));
            && (v == ONE <==> Judged(env, l) == ZERO || Judged(env, r) == ZERO)
            && (v == ZERO <==> Judged(env, l) == ONE && Judged(env, r) == ONE)
            && (v == ZERO || v == ONE || v == Null)
  {
    assert Judged(env, l) == ValOf(Not(Truth(env, Meaning(env, l))));
    assert Judged(env, r) == ValOf(Not(Truth(env, Meaning(env, r))));
    hide Judged, Truth;
  }

  // ---- comparisons ----

  /** A comparison with NULL is NULL. */
  lemma NullComparison(env: Env, c: Compare, l: Src, t: Lex, r: Src)
    requires Meaning(env, l) == Null || Meaning(env, r) == Null
    ensures Meaning(env, Binary(l, Cmp(c), t, r)) == Null
  {
  }

  function Opposite(c: Compare): Compare {
    match c case EQ => NE case NE => EQ case LT => GE case GE => LT case GT => LE case LE => GT
  }

  function Mirrored(c: Compare): Compare {
    match c case EQ => EQ case NE => NE case LT => GT case GT => LT case LE => GE case GE => LE
  }

  /** Each comparison is the negation of its opposite, and an order comparison that of its mirror. */
  lemma ComparisonLaws(env: Env, c: Compare, l: Src, t: Lex, r: Src)
    ensures Meaning(env, Binary(l, Cmp(Opposite(c)), t, r)) == Judged(env, Binary(l, Cmp(c), t, r))
    ensures c != EQ && c != NE ==>
              Meaning(env, Binary(r, Cmp(Mirrored(c)), t, l)) == Meaning(env, Binary(l, Cmp(c), t, r))
  {
    var x, y := Meaning(env, l), Meaning(env, r);
    assert Meaning(env, Binary(l, Cmp(c), t, r)) == ValOf(Holds(env, c, x, y));
    assert Holds(env, Opposite(c), x, y) == Not(Holds(env, c, x, y));
    TruthOfTri(env, Holds(env, c, x, y));
  }

  /** Equality and order are those of the environment. */
  lemma ComparisonValues(env: Env, l: Src, t: Lex, r: Src)
    requires Meaning(env, l) != Null && Meaning(env, r) != Null
    ensures var x, y := Meaning(env, l), Meaning(env, r);
            && (Meaning(env, Binary(l, Cmp(EQ), t, r)) == ONE <==> env.same(x, y) == True)
            && (Meaning(env, Binary(l, Cmp(EQ), t, r)) == ZERO <==> env.same(x, y) == False)
            && (Meaning(env, Binary(l, Cmp(LT), t, r)) == ONE <==> env.before(x, y) == True)
            && (Meaning(env, Binary(l, Cmp(LT), t, r)) == ZERO <==> env.before(x, y) == False)
  {
  }

  /** IS is never NULL: NULL is itself only, IS NOT is the opposite, and the postfix tests are IS
      and IS NOT with NULL. */
  lemma IsLaws(env: Env, l: Src, ops: seq<Lex>, r: Src, t: Lex)
    ensures var v, n := Meaning(env, IsExpr(l, false, ops, r)), Meaning(env, IsExpr(l, true, ops, r));
            && ((v == ONE && n == ZERO) || (v == ZERO && n == ONE))
            && (Meaning(env, l) == Null ==> (v == ONE <==> Meaning(env, r) == Null))
            && (Meaning(env, l) != Null && Meaning(env, r) == Null ==> v == ZERO)
    ensures Meaning(env, r) == Null ==>
              && Meaning(env, PostNull(l, false, ops, t)) == Meaning(env, IsExpr(l, false, ops, r))
              && Meaning(env, PostNull(l, true, ops, t)) == Meaning(env, IsExpr(l, true, ops, r))
  {
  }

  // ---- BETWEEN, LIKE, IN ----

  /** BETWEEN is the conjunction of two comparisons, and NOT BETWEEN its negation. */
  lemma BetweenLaws(env: Env, e: Src, ops: seq<Lex>, lo: Src, t: Lex, hi: Src)
    ensures Meaning(env, Between(e, false, ops, lo, t, hi)) ==
            Meaning(env, Binary(Binary(e, Cmp(GE), t, lo), AND, t, Binary(e, Cmp(LE), t, hi)))
    ensures Meaning(env, Between(e, true, ops, lo, t, hi)) == Judged(env, Between(e, false, ops, lo, t, hi))
  {
    var a, b := Holds(env, GE, Meaning(env, e), Meaning(env, lo)), Holds(env, LE, Meaning(env, e), Meaning(env, hi));
    TruthOfTri(env, a);
    TruthOfTri(env, b);
    hide Holds, And, Truth;
  }

  /** NOT LIKE is the negation of LIKE. */
  lemma NotLikeLaw(env: Env, l: Src, ops: seq<Lex>, id: nat, r: Src)
    ensures Meaning(env, Like(l, true, ops, id, r)) == Judged(env, Like(l, false, ops, id, r))
  {
    assert Meaning(env, Like(l, false, ops, id, r)) == env.call(id, [Meaning(env, r), Meaning(env, l)]);
  }

  lemma MembersCons(env: Env, y: Src, ys: seq<Src>)
    ensures Meanings(env, [y] + ys) == [Meaning(env, y)] + Meanings(env, ys)
  {
    assert ([y] + ys)[1..] == ys;
  }

  lemma InCons(env: Env, x: Val, y: Val, ys: seq<Val>)
    ensures In(env, x, [y] + ys) == Or(Holds(env, EQ, x, y), In(env, x, ys))
  {
    var all := [y] + ys;
    hide Holds;
    assert all[0] == y && forall i :: 0 <= i < |ys| ==> all[i + 1] == ys[i];
    assert forall i :: 1 <= i < |all| ==> all[i] == ys[i - 1];
  }

  /** IN of nothing is false, and NOT IN is the negation of IN. */
  lemma InLaws(env: Env, e: Src, ops: seq<Lex>, ys: seq<Src>, commas: seq<Lex>, rp: Lex)
    ensures Meaning(env, InList(e, false, ops, [], commas, rp)) == ZERO
    ensures Meaning(env, InList(e, true, ops, ys, commas, rp)) == Judged(env, InList(e, false, ops, ys, commas, rp))
  {
    InNone(env, Meaning(env, e));
    hide In, Truth;
    var v := ValOf(In(env, Meaning(env, e), Meanings(env, ys)));
    assert Meaning(env, InList(e, false, ops, ys, commas, rp)) == v;
  }

  /** IN of more is a disjunction of equalities. */
  lemma InFirst(env: Env, e: Src, ops: seq<Lex>, y: Src, ys: seq<Src>, commas: seq<Lex>, rp: Lex)
    ensures Meaning(env, InList(e, false, ops, [y] + ys, commas, rp)) ==
            Meaning(env, Binary(Binary(e, Cmp(EQ), rp, y), OR, rp, InList(e, false, ops, ys, commas, rp)))
  {
    var x := Meaning(env, e);
    hide In, Holds, Or, Truth, Meanings;
    MembersCons(env, y, ys);
    InCons(env, x, Meaning(env, y), Meanings(env, ys));
    TruthOfTri(env, Holds(env, EQ, x, Meaning(env, y)));
    TruthOfTri(env, In(env, x, Meanings(env, ys)));
  }

  // ---- CASE, subqueries ----

  /** A CASE without arms is its ELSE. */
  lemma CaseElse(env: Env, kw: Lex, els: Else, end: Lex)
    ensures Meaning(env, Case(kw, NoOperand, NoWhen, els, end)) == if els.Else? then Meaning(env, els.e) else Null
  {
  }

  lemma SearchedCase(env: Env, kw: Lex, whens: Whens, els: Else, end: Lex)
    ensures Meaning(env, Case(kw, NoOperand, whens, els, end)) ==
            MeaningOfCase(env, false, Null, whens, if els.Else? then Meaning(env, els.e) else Null)
  {
    hide MeaningOfCase;
  }

  /** A true first condition chooses the first arm, any other passes over it. */
  lemma CaseArm(env: Env, kw: Lex, c: Src, t: Lex, r: Src, rest: Whens, els: Else, end: Lex)
    ensures Meaning(env, Case(kw, NoOperand, When(kw, c, t, r, rest), els, end)) ==
            if Judged(env, c) == ZERO then Meaning(env, r)
            else Meaning(env, Case(kw, NoOperand, rest, els, end))
  {
    assert Judged(env, c) == ValOf(Not(Truth(env, Meaning(env, c))));
    SearchedCase(env, kw, When(kw, c, t, r, rest), els, end);
    SearchedCase(env, kw, rest, els, end);
    hide Judged, Truth, Meaning;
  }

  /** The arms of a CASE with an operand, as equalities. */
  function Equalities(x: Src, whens: Whens): Whens {
    match whens
    case NoWhen => NoWhen
    case When(kw, cond, t, result, rest) => When(kw, Binary(x, Cmp(EQ), t, cond), t, result, Equalities(x, rest))
  }

  /** CASE with an operand compares it with each arm. */
  lemma {:induction false} CaseOperandLaw(env: Env, kw: Lex, x: Src, whens: Whens, els: Else, end: Lex)
    ensures Meaning(env, Case(kw, Operand(x), whens, els, end)) ==
            Meaning(env, Case(kw, NoOperand, Equalities(x, whens), els, end))
    decreases whens
  {
    var otherwise := if els.Else? then Meaning(env, els.e) else Null;
    ArmsLaw(env, x, whens, otherwise);
    hide MeaningOfCase;
  }

  lemma {:induction false} ArmsLaw(env: Env, x: Src, whens: Whens, otherwise: Val)
    ensures MeaningOfCase(env, true, Meaning(env, x), whens, otherwise) ==
            MeaningOfCase(env, false, Null, Equalities(x, whens), otherwise)
    decreases whens
  {
    hide Holds, Truth;
    if whens.When? {
      TruthOfTri(env, Holds(env, EQ, Meaning(env, x), Meaning(env, whens.cond)));
      ArmsLaw(env, x, whens.rest, otherwise);
    }
  }

  /** A scalar subquery is its first value, or NULL; EXISTS is whether it has rows. */
  lemma QueryLaws(env: Env, lp: Lex, q: nat, qtoks: seq<Lex>, rp: Lex)
    ensures env.query(q) == [] ==>
              Meaning(env, Query(lp, q, qtoks, rp)) == Null && Meaning(env, Exists(lp, q, qtoks, rp)) == ZERO
    ensures env.query(q) != [] ==>
              && Meaning(env, Query(lp, q, qtoks, rp)) == env.query(q)[0]
              && Meaning(env, Exists(lp, q, qtoks, rp)) == ONE
  {
  }
}
