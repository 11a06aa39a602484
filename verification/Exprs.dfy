/** Expressions: SQL text as it is written, the trees and source spans that the reduce actions
    build, and the three-valued meaning of both. */
module Exprs {

  // ---- values and three-valued logic ----

  datatype Val = Null | Int(n: int) | Other(k: nat)

  datatype Tri = True | False | Unknown

  datatype Compare = EQ | NE | LT | GT | LE | GE

  /** A database row and everything the expression rules leave open. Collation and affinity are
      one equality `same` and one order `before`, which may be unknown for row values, and one
      null-safe equality `alike`. */
  datatype Env = Env(
    column: nat -> Val,
    field: seq<nat> -> Val,
    collate: (nat, Val) -> Val,
    param: nat -> Val,
    register: nat -> Val,
    call: (nat, seq<Val>) -> Val,
    vector: seq<Val> -> Val,
    raised: nat -> Val,
    arith: (nat, Val, Val) -> Val,
    same: (Val, Val) -> Tri,
    before: (Val, Val) -> Tri,
    alike: (Val, Val) -> bool,
    truthy: nat -> bool,
    query: nat -> seq<Val>,
    table: (nat, nat, seq<Val>) -> seq<Val>)

  function Truth(env: Env, v: Val): Tri {
    match v
    case Null => Unknown
    case Int(n) => if n != 0 then True else False
    case Other(k) => if env.truthy(k) then True else False
  }

  function ValOf(t: Tri): Val {
    match t case True => Int(1) case False => Int(0) case Unknown => Null
  }

  function Not(t: Tri): Tri {
    match t case True => False case False => True case Unknown => Unknown
  }

  function And(s: Tri, t: Tri): Tri {
    if s == False || t == False then False else if s == True && t == True then True else Unknown
  }

  function Or(s: Tri, t: Tri): Tri {
    Not(And(Not(s), Not(t)))
  }

  function Holds(env: Env, c: Compare, x: Val, y: Val): Tri {
    if x == Null || y == Null then Unknown
    else
      match c
      case EQ => env.same(x, y)
      case NE => Not(env.same(x, y))
      case LT => env.before(x, y)
      case GT => env.before(y, x)
      case LE => Not(env.before(y, x))
      case GE => Not(env.before(x, y))
  }

  /** Null-safe equality. */
  function Is(env: Env, x: Val, y: Val): bool {
    if x == Null || y == Null then x == y else env.alike(x, y)
  }

  /** Membership: true if some value is equal, else unknown if some comparison is, else false.
      Membership in nothing is false, even for NULL. */
  ghost function In(env: Env, x: Val, ys: seq<Val>): Tri {
    if exists i :: 0 <= i < |ys| && Holds(env, EQ, x, ys[i]) == True then True
    else if exists i :: 0 <= i < |ys| && Holds(env, EQ, x, ys[i]) == Unknown then Unknown
    else False
  }

  // ---- the text ----

  /** A token: where it starts and how long it is. */
  datatype Lex = Lex(z: nat, n: nat) {
    function End(): nat { z + n }
  }

  datatype Logic = AND | OR | Cmp(c: Compare) | Arith(k: nat)
  datatype Prefix = NOT | Sign(k: nat)

  datatype Src =
    | Paren(lp: Lex, e: Src, rp: Lex)
    | Literal(t: Lex, v: Val)
    | Name(t: Lex, id: nat)
    | Variable(t: Lex, id: nat)
    | Register(t: Lex, id: nat)
    | CurrentTime(t: Lex, id: nat)
    | Dot2(t: Lex, id: nat, dot: Lex, t2: Lex, id2: nat)
    | Dot3(t: Lex, id: nat, dot: Lex, t2: Lex, id2: nat, dot2: Lex, t3: Lex, id3: nat)
    | Collate(e: Src, kw: Lex, name: Lex, id: nat)
    | Cast(kw: Lex, lp: Lex, e: Src, typ: seq<Lex>, rp: Lex, id: nat)
    | Call(name: Lex, lp: Lex, args: seq<Src>, commas: seq<Lex>, rp: Lex, id: nat)
    | CallStar(name: Lex, lp: Lex, star: Lex, rp: Lex, id: nat)
    | Vector(lp: Lex, list: seq<Src>, commas: seq<Lex>, rp: Lex)
    | Raise(kw: Lex, inner: seq<Lex>, rp: Lex, id: nat)
    | Binary(l: Src, op: Logic, t: Lex, r: Src)
    | Like(l: Src, neg: bool, ops: seq<Lex>, id: nat, r: Src)
    | LikeEscape(l: Src, neg: bool, ops: seq<Lex>, id: nat, r: Src, esc: Lex, c: Src)
    | PostNull(e: Src, neg: bool, ops: seq<Lex>, t: Lex)
    | IsExpr(l: Src, neg: bool, ops: seq<Lex>, r: Src)
    | Unary(pre: Prefix, t: Lex, e: Src)
    | Between(e: Src, neg: bool, ops: seq<Lex>, lo: Src, t: Lex, hi: Src)
    | InList(e: Src, neg: bool, ops: seq<Lex>, list: seq<Src>, commas: seq<Lex>, rp: Lex)
    | InQuery(e: Src, neg: bool, ops: seq<Lex>, q: nat, qtoks: seq<Lex>, rp: Lex)
    | InTable(e: Src, neg: bool, ops: seq<Lex>, nm: Lex, id: nat, db: Schema, parens: Parens)
    | Query(lp: Lex, q: nat, qtoks: seq<Lex>, rp: Lex)
    | Exists(kw: Lex, q: nat, qtoks: seq<Lex>, rp: Lex)
    | Case(kw: Lex, operand: Operand, whens: Whens, els: Else, end: Lex)

  /** `dbnm`: the table name after a dot, when the first name is a schema. */
  datatype Schema = NoSchema | DotName(dot: Lex, name: Lex, id: nat)
  /** `paren_exprlist`: the arguments of a table-valued function. */
  datatype Parens = NoParens | Parens(lp: Lex, args: seq<Src>, commas: seq<Lex>, rp: Lex)
  datatype Operand = NoOperand | Operand(e: Src)
  datatype Whens = NoWhen | When(kw: Lex, cond: Src, then_: Lex, result: Src, rest: Whens)
  datatype Else = NoElse | Else(kw: Lex, e: Src)

  // ---- what the text means ----

  ghost function Meaning(env: Env, s: Src): Val
    decreases s
  {
    match s
    case Paren(_, e, _) => Meaning(env, e)
    case Literal(_, v) => v
    case Name(_, id) => env.column(id)
    case Variable(_, id) => env.param(id)
    case Register(_, id) => env.register(id)
    case CurrentTime(_, id) => env.call(id, [])
    case Dot2(_, id, _, _, id2) => env.field([id, id2])
    case Dot3(_, id, _, _, id2, _, _, id3) => env.field([id, id2, id3])
    case Collate(e, _, _, id) => env.collate(id, Meaning(env, e))
    case Cast(_, _, e, _, _, id) => env.call(id, [Meaning(env, e)])
    case Call(_, _, args, _, _, id) => env.call(id, Meanings(env, args))
    case CallStar(_, _, _, _, id) => env.call(id, [])
    case Vector(_, list, _, _) => env.vector(Meanings(env, list))
    case Raise(_, _, _, id) => env.raised(id)
    case Binary(l, op, _, r) => MeaningOfBinary(env, op, Meaning(env, l), Meaning(env, r))
    case Like(l, neg, _, id, r) => Negated(env, neg, env.call(id, [Meaning(env, r), Meaning(env, l)]))
    case LikeEscape(l, neg, _, id, r, _, c) =>
      Negated(env, neg, env.call(id, [Meaning(env, r), Meaning(env, l), Meaning(env, c)]))
    case PostNull(e, neg, _, _) => ValOf(if (Meaning(env, e) == Null) != neg then True else False)
    case IsExpr(l, neg, _, r) => ValOf(if Is(env, Meaning(env, l), Meaning(env, r)) != neg then True else False)
    case Unary(pre, _, e) =>
      (match pre
       case NOT => ValOf(Not(Truth(env, Meaning(env, e))))
       case Sign(k) => env.arith(k, Null, Meaning(env, e)))
    case Between(e, neg, _, lo, _, hi) =>
      var x := Meaning(env, e);
      Negated(env, neg, ValOf(And(Holds(env, GE, x, Meaning(env, lo)), Holds(env, LE, x, Meaning(env, hi)))))
    case InList(e, neg, _, list, _, _) => Negated(env, neg, ValOf(In(env, Meaning(env, e), Meanings(env, list))))
    case InQuery(e, neg, _, q, _, _) => Negated(env, neg, ValOf(In(env, Meaning(env, e), env.query(q))))
    case InTable(e, neg, _, _, id, db, parens) =>
      var args := if parens.Parens? then Meanings(env, parens.args) else [];
      Negated(env, neg, ValOf(In(env, Meaning(env, e), env.table(id, if db.DotName? then db.id + 1 else 0, args))))
    case Query(_, q, _, _) => Scalar(env.query(q))
    case Exists(_, q, _, _) => ValOf(if |env.query(q)| > 0 then True else False)
    case Case(_, operand, whens, els, _) =>
      var otherwise := if els.Else? then Meaning(env, els.e) else Null;
      if operand.Operand? then MeaningOfCase(env, true, Meaning(env, operand.e), whens, otherwise)
      else MeaningOfCase(env, false, Null, whens, otherwise)
  }

  ghost function Meanings(env: Env, ss: seq<Src>): (vs: seq<Val>)
    ensures |vs| == |ss|
    decreases ss
  {
    if ss == [] then [] else [Meaning(env, ss[0])] + Meanings(env, ss[1..])
  }

  /** The first arm whose condition is true, or equals the operand when there is one. */
  ghost function MeaningOfCase(env: Env, based: bool, base: Val, whens: Whens, otherwise: Val): Val
    decreases whens
  {
    match whens
    case NoWhen => otherwise
    case When(_, cond, _, result, rest) =>
      if Chosen(env, based, base, Meaning(env, cond)) then Meaning(env, result)
      else MeaningOfCase(env, based, base, rest, otherwise)
  }

  function Chosen(env: Env, based: bool, base: Val, v: Val): bool {
    (if based then Holds(env, EQ, base, v) else Truth(env, v)) == True
  }

  function MeaningOfBinary(env: Env, op: Logic, x: Val, y: Val): Val {
    match op
    case AND => ValOf(And(Truth(env, x), Truth(env, y)))
    case OR => ValOf(Or(Truth(env, x), Truth(env, y)))
    case Cmp(c) => ValOf(Holds(env, c, x, y))
    case Arith(k) => env.arith(k, x, y)
  }

  function Negated(env: Env, neg: bool, v: Val): Val {
    if neg then ValOf(Not(Truth(env, v))) else v
  }

  function Scalar(rows: seq<Val>): Val {
    if rows == [] then Null else rows[0]
  }

  // ---- the tree ----

  datatype Op =
    | TK_NULL | TK_LITERAL | TK_INTEGER | TK_ID | TK_DOT | TK_VARIABLE | TK_REGISTER | TK_COLLATE | TK_CAST
    | TK_FUNCTION | TK_VECTOR | TK_RAISE
    | TK_BINARY(op: Logic) | TK_NOT | TK_SIGN(k: nat)
    | TK_IS | TK_ISNOT | TK_ISNULL | TK_NOTNULL | TK_BETWEEN | TK_IN | TK_SELECT | TK_EXISTS | TK_CASE

  datatype OptExpr = NoExpr | Some(e: Expr)

  /** `x.pSelect` of an expression node. */
  datatype Sub = NoSub | SubQuery(q: nat) | SubTable(id: nat, db: nat, args: seq<Expr>)

  datatype Expr = Expr(op: Op, pLeft: OptExpr, pRight: OptExpr, pList: seq<Expr>, pSelect: Sub, v: Val, id: nat)

  function PExpr(op: Op, l: OptExpr, r: OptExpr): Expr {
    Expr(op, l, r, [], NoSub, Null, 0)
  }

  /** The names that a dotted name is made of. */
  function Path(e: Expr): seq<nat>
    decreases e
  {
    if e.op == TK_ID then [e.id]
    else if e.op == TK_DOT && e.pLeft.Some? && e.pRight.Some? then Path(e.pLeft.e) + Path(e.pRight.e)
    else []
  }

  /** What executing the tree yields. */
  ghost function Eval(env: Env, e: Expr): Val
    decreases e
  {
    var l := if e.pLeft.Some? then Eval(env, e.pLeft.e) else Null;
    var r := if e.pRight.Some? then Eval(env, e.pRight.e) else Null;
    match e.op
    case TK_NULL => Null
    case TK_LITERAL => e.v
    case TK_INTEGER => e.v
    case TK_ID => env.column(e.id)
    case TK_VARIABLE => env.param(e.id)
    case TK_REGISTER => env.register(e.id)
    case TK_DOT => env.field(Path(e))
    case TK_COLLATE => env.collate(e.id, l)
    case TK_CAST => env.call(e.id, [l])
    case TK_FUNCTION => env.call(e.id, EvalAll(env, e.pList))
    case TK_VECTOR => env.vector(EvalAll(env, e.pList))
    case TK_RAISE => env.raised(e.id)
    case TK_BINARY(op) => MeaningOfBinary(env, op, l, r)
    case TK_NOT => ValOf(Not(Truth(env, l)))
    case TK_SIGN(k) => env.arith(k, Null, l)
    case TK_IS => ValOf(if Is(env, l, r) then True else False)
    case TK_ISNOT => ValOf(if Is(env, l, r) then False else True)
    case TK_ISNULL => ValOf(if l == Null then True else False)
    case TK_NOTNULL => ValOf(if l == Null then False else True)
    case TK_BETWEEN =>
      if |e.pList| == 2 then
        ValOf(And(Holds(env, GE, l, Eval(env, e.pList[0])), Holds(env, LE, l, Eval(env, e.pList[1]))))
      else Null
    case TK_IN =>
      ValOf(In(env, l, if e.pSelect.NoSub? then EvalAll(env, e.pList) else Rows(env, e.pSelect)))
    case TK_SELECT => Scalar(Rows(env, e.pSelect))
    case TK_EXISTS => ValOf(if |Rows(env, e.pSelect)| > 0 then True else False)
    case TK_CASE => EvalCase(env, e.pLeft.Some?, l, e.pList)
  }

  ghost function EvalAll(env: Env, es: seq<Expr>): (vs: seq<Val>)
    ensures |vs| == |es|
    decreases es
  {
    if es == [] then [] else [Eval(env, es[0])] + EvalAll(env, es[1..])
  }

  ghost function Rows(env: Env, s: Sub): seq<Val>
    decreases s
  {
    match s
    case NoSub => []
    case SubQuery(q) => env.query(q)
    case SubTable(id, db, args) => env.table(id, db, EvalAll(env, args))
  }

  /** WHEN and THEN values alternate; an odd one at the end is the ELSE. */
  ghost function EvalCase(env: Env, based: bool, base: Val, list: seq<Expr>): Val
    decreases list
  {
    if list == [] then Null
    else if |list| == 1 then Eval(env, list[0])
    else if Chosen(env, based, base, Eval(env, list[0])) then Eval(env, list[1])
    else EvalCase(env, based, base, list[2..])
  }

  // ---- the reduce actions ----

  datatype ExprSpan = ExprSpan(pExpr: Expr, zStart: nat, zEnd: nat)

  function SpanSet(e: Expr, first: Lex, last: Lex): ExprSpan {
    ExprSpan(e, first.z, last.End())
  }

  function SpanBinaryExpr(op: Op, l: ExprSpan, r: ExprSpan): ExprSpan {
    l.(pExpr := PExpr(op, Some(l.pExpr), Some(r.pExpr)), zEnd := r.zEnd)
  }

  function ExprNot(doNot: bool, e: Expr): Expr {
    if doNot then PExpr(TK_NOT, Some(e), NoExpr) else e
  }

  function SpanUnaryPostfix(op: Op, l: ExprSpan, t: Lex): ExprSpan {
    l.(pExpr := PExpr(op, Some(l.pExpr), NoExpr), zEnd := t.End())
  }

  /** IS or IS NOT with the literal NULL on the right becomes a unary test. */
  function BinaryToUnaryIfNull(y: Expr, a: Expr, op: Op): Expr {
    if y.op == TK_NULL then a.(op := op, pRight := NoExpr) else a
  }

  function SpanUnaryPrefix(op: Op, e: ExprSpan, t: Lex): ExprSpan {
    ExprSpan(PExpr(op, Some(e.pExpr), NoExpr), t.z, e.zEnd)
  }

  function ReduceIs(l: ExprSpan, neg: bool, r: ExprSpan): ExprSpan {
    var s := SpanBinaryExpr(if neg then TK_ISNOT else TK_IS, l, r);
    s.(pExpr := BinaryToUnaryIfNull(r.pExpr, s.pExpr, if neg then TK_NOTNULL else TK_ISNULL))
  }

  function Function(id: nat, list: seq<Expr>): Expr {
    PExpr(TK_FUNCTION, NoExpr, NoExpr).(id := id, pList := list)
  }

  function ReduceLike(l: ExprSpan, neg: bool, id: nat, r: ExprSpan): ExprSpan {
    l.(pExpr := ExprNot(neg, Function(id, [r.pExpr, l.pExpr])), zEnd := r.zEnd)
  }

  function ReduceLikeEscape(l: ExprSpan, neg: bool, id: nat, r: ExprSpan, c: ExprSpan): ExprSpan {
    l.(pExpr := ExprNot(neg, Function(id, [r.pExpr, l.pExpr, c.pExpr])), zEnd := c.zEnd)
  }

  function ReduceBetween(e: ExprSpan, neg: bool, lo: ExprSpan, hi: ExprSpan): ExprSpan {
    var b := PExpr(TK_BETWEEN, Some(e.pExpr), NoExpr).(pList := [lo.pExpr, hi.pExpr]);
    e.(pExpr := ExprNot(neg, b), zEnd := hi.zEnd)
  }

  /** No values: a constant. One value: a comparison. More: a membership test. */
  function ReduceInList(e: ExprSpan, neg: bool, list: seq<Expr>, rp: Lex): ExprSpan {
    var x := if |list| == 0 then PExpr(TK_INTEGER, NoExpr, NoExpr).(v := Int(if neg then 1 else 0))
             else if |list| == 1 then PExpr(TK_BINARY(Cmp(if neg then NE else EQ)), Some(e.pExpr), Some(list[0]))
             else ExprNot(neg, PExpr(TK_IN, Some(e.pExpr), NoExpr).(pList := list));
    e.(pExpr := x, zEnd := rp.End())
  }

  function ReduceInSelect(e: ExprSpan, neg: bool, sub: Sub, zEnd: nat): ExprSpan {
    e.(pExpr := ExprNot(neg, PExpr(TK_IN, Some(e.pExpr), NoExpr).(pSelect := sub)), zEnd := zEnd)
  }

  function ReduceCase(kw: Lex, operand: OptExpr, list: seq<Expr>, els: OptExpr, end: Lex): ExprSpan {
    var all := if els.Some? then list + [els.e] else list;
    SpanSet(PExpr(TK_CASE, operand, NoExpr).(pList := all), kw, end)
  }

  function Id(id: nat): Expr {
    PExpr(TK_ID, NoExpr, NoExpr).(id := id)
  }

  /** The value on the parser stack after the text has been reduced. */
  function Lower(s: Src): ExprSpan
    decreases s
  {
    match s
    case Paren(lp, e, rp) => SpanSet(Lower(e).pExpr, lp, rp)
    case Literal(t, v) =>
      SpanSet(PExpr(if v == Null then TK_NULL else TK_LITERAL, NoExpr, NoExpr).(v := v), t, t)
    case Name(t, id) => SpanSet(Id(id), t, t)
    case Variable(t, id) => SpanSet(PExpr(TK_VARIABLE, NoExpr, NoExpr).(id := id), t, t)
    case Register(t, id) => SpanSet(PExpr(TK_REGISTER, NoExpr, NoExpr).(id := id), t, t)
    case CurrentTime(t, id) => SpanSet(Function(id, []), t, t)
    case Dot2(t, id, _, t2, id2) => SpanSet(PExpr(TK_DOT, Some(Id(id)), Some(Id(id2))), t, t2)
    case Dot3(t, id, _, _, id2, _, t3, id3) =>
      SpanSet(PExpr(TK_DOT, Some(Id(id)), Some(PExpr(TK_DOT, Some(Id(id2)), Some(Id(id3))))), t, t3)
    case Collate(e, _, name, id) =>
      var l := SpanUnaryPostfix(TK_COLLATE, Lower(e), name);
      l.(pExpr := l.pExpr.(id := id))
    case Cast(kw, _, e, _, rp, id) => SpanSet(PExpr(TK_CAST, Some(Lower(e).pExpr), NoExpr).(id := id), kw, rp)
    case Call(name, _, args, _, rp, id) => SpanSet(Function(id, LowerAll(args)), name, rp)
    case CallStar(name, _, _, rp, id) => SpanSet(Function(id, []), name, rp)
    case Vector(lp, list, _, rp) => SpanSet(PExpr(TK_VECTOR, NoExpr, NoExpr).(pList := LowerAll(list)), lp, rp)
    case Raise(kw, _, rp, id) => SpanSet(PExpr(TK_RAISE, NoExpr, NoExpr).(id := id), kw, rp)
    case Binary(l, op, _, r) => SpanBinaryExpr(TK_BINARY(op), Lower(l), Lower(r))
    case Like(l, neg, _, id, r) => ReduceLike(Lower(l), neg, id, Lower(r))
    case LikeEscape(l, neg, _, id, r, _, c) => ReduceLikeEscape(Lower(l), neg, id, Lower(r), Lower(c))
    case PostNull(e, neg, _, t) => SpanUnaryPostfix(if neg then TK_NOTNULL else TK_ISNULL, Lower(e), t)
    case IsExpr(l, neg, _, r) => ReduceIs(Lower(l), neg, Lower(r))
    case Unary(pre, t, e) =>
      SpanUnaryPrefix(match pre { case NOT => TK_NOT case Sign(k) => TK_SIGN(k) }, Lower(e), t)
    case Between(e, neg, _, lo, _, hi) => ReduceBetween(Lower(e), neg, Lower(lo), Lower(hi))
    case InList(e, neg, _, list, _, rp) => ReduceInList(Lower(e), neg, LowerAll(list), rp)
    case InQuery(e, neg, _, q, _, rp) => ReduceInSelect(Lower(e), neg, SubQuery(q), rp.End())
    case InTable(e, neg, _, nm, id, db, parens) =>
      var args := if parens.Parens? then LowerAll(parens.args) else [];
      var sub := SubTable(id, if db.DotName? then db.id + 1 else 0, args);
      ReduceInSelect(Lower(e), neg, sub, if db.DotName? then db.name.End() else nm.End())
    case Query(lp, q, _, rp) => SpanSet(PExpr(TK_SELECT, NoExpr, NoExpr).(pSelect := SubQuery(q)), lp, rp)
    case Exists(kw, q, _, rp) => SpanSet(PExpr(TK_EXISTS, NoExpr, NoExpr).(pSelect := SubQuery(q)), kw, rp)
    case Case(kw, operand, whens, els, end) =>
      ReduceCase(kw, if operand.Operand? then Some(Lower(operand.e).pExpr) else NoExpr, LowerWhens(whens),
                 if els.Else? then Some(Lower(els.e).pExpr) else NoExpr, end)
  }

  function LowerAll(ss: seq<Src>): (es: seq<Expr>)
    ensures |es| == |ss|
    decreases ss
  {
    if ss == [] then [] else [Lower(ss[0]).pExpr] + LowerAll(ss[1..])
  }

  function LowerWhens(whens: Whens): seq<Expr>
    decreases whens
  {
    match whens
    case NoWhen => []
    case When(_, cond, _, result, rest) => [Lower(cond).pExpr, Lower(result).pExpr] + LowerWhens(rest)
  }

  // ---- lowering keeps the meaning ----

  /** The expressions without operands. */
  predicate Atom(s: Src) {
    || s.Literal? || s.Name? || s.Variable? || s.Register? || s.CurrentTime? || s.CallStar? || s.Raise?
    || s.Dot2? || s.Dot3? || s.Query? || s.Exists?
  }

  /** The operators that are copied. */
  predicate Wrapper(s: Src) { s.Paren? || s.Collate? || s.Binary? || s.PostNull? || s.Unary? }

  predicate CallForm(s: Src) { s.Cast? || s.Call? || s.Vector? }

  /** The operators that are rewritten, but for membership and CASE. */
  predicate Rewritten(s: Src) { s.Like? || s.LikeEscape? || s.IsExpr? || s.Between? }

  predicate Membership(s: Src) { s.InList? || s.InQuery? || s.InTable? }

  lemma PathOfDot(a: Expr, b: Expr)
    ensures Path(PExpr(TK_DOT, Some(a), Some(b))) == Path(a) + Path(b)
  {
  }

  lemma DotsKeepMeaning(env: Env, s: Src)
    requires s.Dot2? || s.Dot3?
    ensures Eval(env, Lower(s).pExpr) == Meaning(env, s)
  {
    match s
    case Dot2(_, id, _, _, id2) =>
      PathOfDot(Id(id), Id(id2));
      assert [id] + [id2] == [id, id2];
    case Dot3(_, id, _, _, id2, _, _, id3) =>
      PathOfDot(Id(id2), Id(id3));
      PathOfDot(Id(id), PExpr(TK_DOT, Some(Id(id2)), Some(Id(id3))));
      assert [id] + ([id2] + [id3]) == [id, id2, id3];
  }

  lemma AtomKeepsMeaning(env: Env, s: Src)
    requires Atom(s)
    ensures Eval(env, Lower(s).pExpr) == Meaning(env, s)
  {
    if s.Dot2? || s.Dot3? {
      hide Eval, Lower, Meaning;
      DotsKeepMeaning(env, s);
    }
  }

  /** Lowering preserves the three-valued meaning of every expression in every environment. */
  lemma {:induction false} LoweringKeepsMeaning(env: Env, s: Src)
    ensures Eval(env, Lower(s).pExpr) == Meaning(env, s)
    decreases s, 1
  {
    hide Eval, Meaning, Lower;
    if Atom(s) {
      AtomKeepsMeaning(env, s);
    } else if Wrapper(s) {
      WrapperKeepsMeaning(env, s);
    } else if CallForm(s) {
      CallFormKeepsMeaning(env, s);
    } else if Membership(s) {
      MembershipKeepsMeaning(env, s);
    } else if Rewritten(s) {
      OperatorKeepsMeaning(env, s);
    } else {
      CaseFormKeepsMeaning(env, s);
    }
  }

  lemma {:induction false} WrapperKeepsMeaning(env: Env, s: Src)
    requires Wrapper(s)
    ensures Eval(env, Lower(s).pExpr) == Meaning(env, s)
    decreases s, 0
  {
    hide In, Holds, Is, Truth, And, MeaningOfBinary;
    if s.Binary? {
      LoweringKeepsMeaning(env, s.l);
      LoweringKeepsMeaning(env, s.r);
    } else {
      LoweringKeepsMeaning(env, s.e);
    }
  }

  lemma {:induction false} CallFormKeepsMeaning(env: Env, s: Src)
    requires CallForm(s)
    ensures Eval(env, Lower(s).pExpr) == Meaning(env, s)
    decreases s, 0
  {
    match s
    case Cast(_, _, e, _, _, _) => LoweringKeepsMeaning(env, e);
    case Call(_, _, args, _, _, _) => ListKeepsMeaning(env, args);
    case Vector(_, list, _, _) => ListKeepsMeaning(env, list);
  }

  lemma {:induction false} OperatorKeepsMeaning(env: Env, s: Src)
    requires Rewritten(s)
    ensures Eval(env, Lower(s).pExpr) == Meaning(env, s)
    decreases s, 0
  {
    hide In, Holds, Is, Truth, And, MeaningOfBinary, Eval;
    hide ReduceLike, ReduceLikeEscape, ReduceIs, ReduceBetween, ReduceCase, EvalCase, MeaningOfCase, Negated;
    match s
    case Like(l, neg, _, id, r) =>
      LoweringKeepsMeaning(env, l); LoweringKeepsMeaning(env, r);
      LikeKeepsMeaning(env, Lower(l), neg, id, Lower(r));
    case LikeEscape(l, neg, _, id, r, _, c) =>
      LoweringKeepsMeaning(env, l); LoweringKeepsMeaning(env, r); LoweringKeepsMeaning(env, c);
      LikeEscapeKeepsMeaning(env, Lower(l), neg, id, Lower(r), Lower(c));
    case IsExpr(l, neg, _, r) =>
      LoweringKeepsMeaning(env, l); LoweringKeepsMeaning(env, r);
      IsKeepsMeaning(env, Lower(l), neg, Lower(r));
    case Between(e, neg, _, lo, _, hi) =>
      LoweringKeepsMeaning(env, e); LoweringKeepsMeaning(env, lo); LoweringKeepsMeaning(env, hi);
      BetweenKeepsMeaning(env, Lower(e), neg, Lower(lo), Lower(hi));
  }

  lemma {:induction false} CaseFormKeepsMeaning(env: Env, s: Src)
    requires s.Case?
    ensures Eval(env, Lower(s).pExpr) == Meaning(env, s)
    decreases s, 0
  {
    hide Truth, Eval, ReduceCase, EvalCase, MeaningOfCase;
    var based, els := s.operand.Operand?, s.els;
    if based {
      LoweringKeepsMeaning(env, s.operand.e);
    }
    if els.Else? {
      LoweringKeepsMeaning(env, els.e);
    }
    WhensKeepMeaning(env, based, if based then Meaning(env, s.operand.e) else Null, s.whens, els);
    CaseKeepsMeaning(env, s.kw, if based then Some(Lower(s.operand.e).pExpr) else NoExpr, LowerWhens(s.whens),
                     if els.Else? then Some(Lower(els.e).pExpr) else NoExpr, s.end);
  }

  lemma {:induction false} MembershipKeepsMeaning(env: Env, s: Src)
    requires Membership(s)
    ensures Eval(env, Lower(s).pExpr) == Meaning(env, s)
    decreases s, 0
  {
    hide In, Holds, Is, Truth, And, MeaningOfBinary, Eval;
    match s
    case InList(e, neg, _, list, _, rp) =>
      LoweringKeepsMeaning(env, e); ListKeepsMeaning(env, list);
      InListKeepsMeaning(env, Lower(e), neg, LowerAll(list), rp);
    case InQuery(e, neg, _, q, _, rp) =>
      LoweringKeepsMeaning(env, e);
      InSelectKeepsMeaning(env, Lower(e), neg, SubQuery(q), rp.End());
    case InTable(_, _, _, _, _, _, _) => InTableKeepsMeaning(env, s);
  }

  lemma {:induction false} InTableKeepsMeaning(env: Env, s: Src)
    requires s.InTable?
    ensures Eval(env, Lower(s).pExpr) == Meaning(env, s)
    decreases s, 0, 0
  {
    hide In, Truth, Eval, ReduceInSelect;
    LoweringKeepsMeaning(env, s.e);
    if s.parens.Parens? {
      ListKeepsMeaning(env, s.parens.args);
    }
    var sub := SubTable(s.id, if s.db.DotName? then s.db.id + 1 else 0,
                        if s.parens.Parens? then LowerAll(s.parens.args) else []);
    InSelectKeepsMeaning(env, Lower(s.e), s.neg, sub, if s.db.DotName? then s.db.name.End() else s.nm.End());
  }

  /** IS is null-safe equality, also when a literal NULL turned it into a unary test. */
  lemma IsKeepsMeaning(env: Env, l: ExprSpan, neg: bool, r: ExprSpan)
    ensures Eval(env, ReduceIs(l, neg, r).pExpr)
         == ValOf(if Is(env, Eval(env, l.pExpr), Eval(env, r.pExpr)) != neg then True else False)
  {
    assert r.pExpr.op == TK_NULL ==> Eval(env, r.pExpr) == Null;
  }

  lemma BetweenKeepsMeaning(env: Env, e: ExprSpan, neg: bool, lo: ExprSpan, hi: ExprSpan)
    ensures var x := Eval(env, e.pExpr);
            var inside := And(Holds(env, GE, x, Eval(env, lo.pExpr)), Holds(env, LE, x, Eval(env, hi.pExpr)));
            Eval(env, ReduceBetween(e, neg, lo, hi).pExpr) == Negated(env, neg, ValOf(inside))
  {
    hide Holds, And, Truth;
    var b := PExpr(TK_BETWEEN, Some(e.pExpr), NoExpr).(pList := [lo.pExpr, hi.pExpr]);
    assert Eval(env, b) == ValOf(And(Holds(env, GE, Eval(env, e.pExpr), Eval(env, lo.pExpr)),
                                     Holds(env, LE, Eval(env, e.pExpr), Eval(env, hi.pExpr))));
  }

  lemma InSelectKeepsMeaning(env: Env, e: ExprSpan, neg: bool, sub: Sub, zEnd: nat)
    requires !sub.NoSub?
    ensures Eval(env, ReduceInSelect(e, neg, sub, zEnd).pExpr)
         == Negated(env, neg, ValOf(In(env, Eval(env, e.pExpr), Rows(env, sub))))
  {
    hide In, Truth, Rows;
    var f := PExpr(TK_IN, Some(e.pExpr), NoExpr).(pSelect := sub);
    assert Eval(env, f) == ValOf(In(env, Eval(env, e.pExpr), Rows(env, sub)));
  }

  lemma CaseKeepsMeaning(env: Env, kw: Lex, operand: OptExpr, list: seq<Expr>, els: OptExpr, end: Lex)
    ensures Eval(env, ReduceCase(kw, operand, list, els, end).pExpr)
         == EvalCase(env, operand.Some?, if operand.Some? then Eval(env, operand.e) else Null,
                     list + if els.Some? then [els.e] else [])
  {
    hide EvalCase;
    assert list + [] == list;
  }

  lemma {:induction false} ListKeepsMeaning(env: Env, ss: seq<Src>)
    ensures EvalAll(env, LowerAll(ss)) == Meanings(env, ss)
    decreases ss
  {
    if ss != [] {
      LoweringKeepsMeaning(env, ss[0]);
      ListKeepsMeaning(env, ss[1..]);
      assert LowerAll(ss)[1..] == LowerAll(ss[1..]);
    }
  }

  lemma CallKeepsMeaning(env: Env, neg: bool, id: nat, list: seq<Expr>)
    ensures Eval(env, ExprNot(neg, Function(id, list))) == Negated(env, neg, env.call(id, EvalAll(env, list)))
  {
    var f := Function(id, list);
    assert Eval(env, f) == env.call(id, EvalAll(env, list));
  }

  lemma EvalOne(env: Env, a: Expr)
    ensures EvalAll(env, [a]) == [Eval(env, a)]
  {
    assert [a][1..] == [];
  }

  lemma EvalCons(env: Env, a: Expr, es: seq<Expr>)
    ensures EvalAll(env, [a] + es) == [Eval(env, a)] + EvalAll(env, es)
  {
    assert ([a] + es)[1..] == es;
  }

  /** The pattern is the function's first argument, the text its second. */
  lemma LikeKeepsMeaning(env: Env, l: ExprSpan, neg: bool, id: nat, r: ExprSpan)
    ensures Eval(env, ReduceLike(l, neg, id, r).pExpr)
         == Negated(env, neg, env.call(id, [Eval(env, r.pExpr), Eval(env, l.pExpr)]))
  {
    hide Eval;
    CallKeepsMeaning(env, neg, id, [r.pExpr, l.pExpr]);
    EvalOne(env, l.pExpr);
    EvalCons(env, r.pExpr, [l.pExpr]);
    assert [r.pExpr] + [l.pExpr] == [r.pExpr, l.pExpr];
    assert EvalAll(env, [r.pExpr, l.pExpr]) == [Eval(env, r.pExpr), Eval(env, l.pExpr)];
  }

  lemma LikeEscapeKeepsMeaning(env: Env, l: ExprSpan, neg: bool, id: nat, r: ExprSpan, c: ExprSpan)
    ensures Eval(env, ReduceLikeEscape(l, neg, id, r, c).pExpr)
         == Negated(env, neg, env.call(id, [Eval(env, r.pExpr), Eval(env, l.pExpr), Eval(env, c.pExpr)]))
  {
    hide Eval;
    CallKeepsMeaning(env, neg, id, [r.pExpr, l.pExpr, c.pExpr]);
    EvalOne(env, c.pExpr);
    EvalCons(env, l.pExpr, [c.pExpr]);
    EvalCons(env, r.pExpr, [l.pExpr, c.pExpr]);
    assert [l.pExpr] + [c.pExpr] == [l.pExpr, c.pExpr];
    assert [r.pExpr] + [l.pExpr, c.pExpr] == [r.pExpr, l.pExpr, c.pExpr];
    assert EvalAll(env, [r.pExpr, l.pExpr, c.pExpr]) == [Eval(env, r.pExpr), Eval(env, l.pExpr), Eval(env, c.pExpr)];
  }

  lemma TruthOfTri(env: Env, t: Tri)
    ensures Truth(env, ValOf(t)) == t
  {
  }

  lemma InNone(env: Env, x: Val)
    ensures In(env, x, []) == False
  {
  }

  lemma InOne(env: Env, x: Val, y: Val)
    ensures In(env, x, [y]) == Holds(env, EQ, x, y)
  {
    assert [y][0] == y;
  }

  lemma InListOfNone(env: Env, e: ExprSpan, neg: bool, rp: Lex)
    ensures Eval(env, ReduceInList(e, neg, [], rp).pExpr) == Negated(env, neg, ValOf(In(env, Eval(env, e.pExpr), [])))
  {
    InNone(env, Eval(env, e.pExpr));
  }

  lemma InListOfOne(env: Env, e: ExprSpan, neg: bool, y: Expr, rp: Lex)
    ensures Eval(env, ReduceInList(e, neg, [y], rp).pExpr)
         == Negated(env, neg, ValOf(Holds(env, EQ, Eval(env, e.pExpr), Eval(env, y))))
  {
    var x := Eval(env, e.pExpr);
    var c := PExpr(TK_BINARY(Cmp(if neg then NE else EQ)), Some(e.pExpr), Some(y));
    assert Eval(env, c) == ValOf(Holds(env, if neg then NE else EQ, x, Eval(env, y)));
    assert Holds(env, NE, x, Eval(env, y)) == Not(Holds(env, EQ, x, Eval(env, y)));
    hide Holds, Eval;
    TruthOfTri(env, Holds(env, EQ, x, Eval(env, y)));
  }

  lemma InListOfMany(env: Env, e: ExprSpan, neg: bool, list: seq<Expr>, rp: Lex)
    requires |list| > 1
    ensures Eval(env, ReduceInList(e, neg, list, rp).pExpr)
         == Negated(env, neg, ValOf(In(env, Eval(env, e.pExpr), EvalAll(env, list))))
  {
    hide In;
    var f := PExpr(TK_IN, Some(e.pExpr), NoExpr).(pList := list);
    assert Eval(env, f) == ValOf(In(env, Eval(env, e.pExpr), EvalAll(env, list)));
  }

  /** The three shapes of IN all mean membership, negated or not, also when NULL is involved. */
  lemma InListKeepsMeaning(env: Env, e: ExprSpan, neg: bool, list: seq<Expr>, rp: Lex)
    ensures Eval(env, ReduceInList(e, neg, list, rp).pExpr)
         == Negated(env, neg, ValOf(In(env, Eval(env, e.pExpr), EvalAll(env, list))))
  {
    hide Eval, ReduceInList, Negated, In;
    if |list| == 0 {
      InListOfNone(env, e, neg, rp);
    } else if |list| == 1 {
      EvalOne(env, list[0]);
      assert list == [list[0]];
      InOne(env, Eval(env, e.pExpr), Eval(env, list[0]));
      InListOfOne(env, e, neg, list[0], rp);
    } else {
      InListOfMany(env, e, neg, list, rp);
    }
  }

  /** The flat WHEN/THEN list picks the same arm, and its odd last entry is the ELSE. */
  lemma {:induction false} WhensKeepMeaning(env: Env, based: bool, base: Val, whens: Whens, els: Else)
    requires els.Else? ==> Eval(env, Lower(els.e).pExpr) == Meaning(env, els.e)
    ensures EvalCase(env, based, base, LowerWhens(whens) + (if els.Else? then [Lower(els.e).pExpr] else []))
         == MeaningOfCase(env, based, base, whens, if els.Else? then Meaning(env, els.e) else Null)
    decreases whens
  {
    if whens.When? {
      LoweringKeepsMeaning(env, whens.cond);
      LoweringKeepsMeaning(env, whens.result);
      WhensKeepMeaning(env, based, base, whens.rest, els);
      var tail := if els.Else? then [Lower(els.e).pExpr] else [];
      assert (LowerWhens(whens) + tail)[2..] == LowerWhens(whens.rest) + tail;
    }
  }
}
