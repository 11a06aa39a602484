/** The source text that an expression's span covers. */
module Spans {
  import opened Exprs

  // ---- the tokens of an expression, as they are written ----

  function Toks(s: Src): seq<Lex>
    decreases s
  {
    match s
    case Paren(lp, e, rp) => [lp] + Toks(e) + [rp]
    case Literal(t, _) => [t]
    case Name(t, _) => [t]
    case Variable(t, _) => [t]
    case Register(t, _) => [t]
    case CurrentTime(t, _) => [t]
    case Dot2(t, _, dot, t2, _) => [t, dot, t2]
    case Dot3(t, _, dot, t2, _, dot2, t3, _) => [t, dot, t2, dot2, t3]
    case Collate(e, kw, name, _) => Toks(e) + [kw, name]
    case Cast(kw, lp, e, typ, rp, _) => [kw, lp] + Toks(e) + typ + [rp]
    case Call(name, lp, args, commas, rp, _) => [name, lp] + ListToks(args, commas) + [rp]
    case CallStar(name, lp, star, rp, _) => [name, lp, star, rp]
    case Vector(lp, list, commas, rp) => [lp] + ListToks(list, commas) + [rp]
    case Raise(kw, inner, rp, _) => [kw] + inner + [rp]
    case Binary(l, _, t, r) => Toks(l) + [t] + Toks(r)
    case Like(l, _, ops, _, r) => Toks(l) + ops + Toks(r)
    case LikeEscape(l, _, ops, _, r, esc, c) => Toks(l) + ops + Toks(r) + [esc] + Toks(c)
    case PostNull(e, _, ops, t) => Toks(e) + ops + [t]
    case IsExpr(l, _, ops, r) => Toks(l) + ops + Toks(r)
    case Unary(_, t, e) => [t] + Toks(e)
    case Between(e, _, ops, lo, t, hi) => Toks(e) + ops + Toks(lo) + [t] + Toks(hi)
    case InList(e, _, ops, list, commas, rp) => Toks(e) + ops + ListToks(list, commas) + [rp]
    case InQuery(e, _, ops, _, qtoks, rp) => Toks(e) + ops + qtoks + [rp]
    case InTable(e, _, ops, nm, _, db, parens) => Toks(e) + ops + [nm] + SchemaToks(db) + ParenToks(parens)
    case Query(lp, _, qtoks, rp) => [lp] + qtoks + [rp]
    case Exists(kw, _, qtoks, rp) => [kw] + qtoks + [rp]
    case Case(kw, operand, whens, els, end) =>
      [kw] + (if operand.Operand? then Toks(operand.e) else []) + WhenToks(whens) +
      (if els.Else? then [els.kw] + Toks(els.e) else []) + [end]
  }

  function ListToks(ss: seq<Src>, commas: seq<Lex>): seq<Lex>
    decreases ss
  {
    if ss == [] then []
    else
      var n := if commas == [] then 0 else 1;
      Toks(ss[0]) + commas[..n] + ListToks(ss[1..], commas[n..])
  }

  function WhenToks(whens: Whens): seq<Lex>
    decreases whens
  {
    match whens
    case NoWhen => []
    case When(kw, cond, then_, result, rest) => [kw] + Toks(cond) + [then_] + Toks(result) + WhenToks(rest)
  }

  function SchemaToks(db: Schema): seq<Lex> {
    match db
    case NoSchema => []
    case DotName(dot, name, _) => [dot, name]
  }

  function ParenToks(p: Parens): seq<Lex>
    decreases p
  {
    match p
    case NoParens => []
    case Parens(lp, args, commas, rp) => [lp] + ListToks(args, commas) + [rp]
  }

  /** The operand that an expression ends with, when it ends with one. */
  function RightOperand(s: Src): Operand {
    match s
    case Binary(_, _, _, r) => Operand(r)
    case Like(_, _, _, _, r) => Operand(r)
    case LikeEscape(_, _, _, _, _, _, c) => Operand(c)
    case IsExpr(_, _, _, r) => Operand(r)
    case Unary(_, _, e) => Operand(e)
    case Between(_, _, _, _, _, hi) => Operand(hi)
    case _ => NoOperand
  }

  /** The right edge ends in `expr IN name(args)`. */
  predicate EndsInTableFunction(s: Src)
    decreases s
  {
    || (s.InTable? && s.parens.Parens?)
    || (RightOperand(s).Operand? && EndsInTableFunction(RightOperand(s).e))
  }

  /** The table name at the right edge. */
  function EdgeName(s: Src): Lex
    requires EndsInTableFunction(s)
    decreases s
  {
    if s.InTable? then (if s.db.DotName? then s.db.name else s.nm) else EdgeName(RightOperand(s).e)
  }

  function Last(ts: seq<Lex>): Lex
    requires ts != []
  {
    ts[|ts| - 1]
  }

  lemma {:induction false} RightToks(s: Src)
    requires RightOperand(s).Operand?
    ensures var r := Toks(RightOperand(s).e);
            |r| <= |Toks(s)| && Toks(s)[|Toks(s)| - |r|..] == r
            && Lower(s).zEnd == Lower(RightOperand(s).e).zEnd
  {
    var r, ts := Toks(RightOperand(s).e), Toks(s);
    var front := ts[..|ts| - |r|];
    assert ts == front + r;
  }

  /** The operand that an expression starts with, when it starts with one. */
  function LeftOperand(s: Src): Operand {
    match s
    case Collate(e, _, _, _) => Operand(e)
    case Binary(l, _, _, _) => Operand(l)
    case Like(l, _, _, _, _) => Operand(l)
    case LikeEscape(l, _, _, _, _, _, _) => Operand(l)
    case PostNull(e, _, _, _) => Operand(e)
    case IsExpr(l, _, _, _) => Operand(l)
    case Between(e, _, _, _, _, _) => Operand(e)
    case InList(e, _, _, _, _, _) => Operand(e)
    case InQuery(e, _, _, _, _, _) => Operand(e)
    case InTable(e, _, _, _, _, _, _) => Operand(e)
    case _ => NoOperand
  }

  lemma LeftToks(s: Src)
    requires LeftOperand(s).Operand?
    ensures Toks(LeftOperand(s).e) <= Toks(s)
    ensures Lower(s).zStart == Lower(LeftOperand(s).e).zStart
  {
  }

  /** A span starts where the first token of the expression starts. */
  lemma {:induction false} SpanStart(s: Src)
    ensures Toks(s) != [] && Lower(s).zStart == Toks(s)[0].z
    decreases s
  {
    if LeftOperand(s).Operand? {
      SpanStart(LeftOperand(s).e);
      LeftToks(s);
      hide Toks, Lower;
    }
  }

  /** The end of an expression that does not end with an operand. */
  lemma PlainEnd(s: Src)
    requires !RightOperand(s).Operand? && Toks(s) != []
    ensures !EndsInTableFunction(s) ==> Lower(s).zEnd == Last(Toks(s)).End()
    ensures EndsInTableFunction(s) ==> Lower(s).zEnd == EdgeName(s).End()
  {
  }

  /** A span ends where the last token ends, except that the arguments of a table-valued
      function at the right edge are left out. */
  lemma {:induction false} SpanEnd(s: Src)
    ensures Toks(s) != []
    ensures !EndsInTableFunction(s) ==> Lower(s).zEnd == Last(Toks(s)).End()
    ensures EndsInTableFunction(s) ==> Lower(s).zEnd == EdgeName(s).End()
    decreases s
  {
    SpanStart(s);
    if RightOperand(s).Operand? {
      hide Toks, Lower;
      SpanEnd(RightOperand(s).e);
      RightToks(s);
    } else {
      PlainEnd(s);
    }
  }

  // ---- when the recorded end is the real one ----

  /** Tokens are not empty and do not overlap. */
  predicate InOrder(ts: seq<Lex>) {
    && (forall i :: 0 <= i < |ts| ==> ts[i].n > 0)
    && (forall i, j :: 0 <= i < j < |ts| ==> ts[i].End() <= ts[j].z)
  }

  lemma TableNameIsInside(s: Src)
    requires s.InTable? && s.parens.Parens?
    ensures exists i :: 0 <= i < |Toks(s)| - 1 && Toks(s)[i] == EdgeName(s)
  {
    var front := Toks(s.e) + s.ops + [s.nm] + SchemaToks(s.db);
    assert EdgeName(s) == front[|front| - 1];
    assert Toks(s) == front + ParenToks(s.parens);
    assert Toks(s)[|front| - 1] == EdgeName(s);
  }

  /** A table-valued function's name is never its expression's last token. */
  lemma {:induction false} EdgeNameIsInside(s: Src)
    requires EndsInTableFunction(s)
    ensures exists i :: 0 <= i < |Toks(s)| - 1 && Toks(s)[i] == EdgeName(s)
    decreases s
  {
    if s.InTable? {
      TableNameIsInside(s);
    } else {
      var r, ts := Toks(RightOperand(s).e), Toks(s);
      EdgeNameIsInside(RightOperand(s).e);
      RightToks(s);
      hide Toks;
      var i :| 0 <= i < |r| - 1 && r[i] == EdgeName(s);
      assert ts[|ts| - |r|..][i] == ts[|ts| - |r| + i];
    }
  }

  /** For text whose tokens are in order, the recorded end is the end of the last token exactly
      when the right edge is not a table-valued function. */
  lemma SpanEndIsExact(s: Src)
    requires InOrder(Toks(s))
    ensures Toks(s) != []
    ensures Lower(s).zEnd == Last(Toks(s)).End() <==> !EndsInTableFunction(s)
  {
    SpanEnd(s);
    if EndsInTableFunction(s) {
      EdgeNameIsInside(s);
      var ts := Toks(s);
      var i :| 0 <= i < |ts| - 1 && ts[i] == EdgeName(s);
      assert ts[i].End() <= ts[|ts| - 1].z < ts[|ts| - 1].End();
    }
  }

  /** The text `x IN t(y)`, from position 0. */
  const TABLE_FUNCTION: Src :=
    InTable(Name(Lex(0, 1), 0), false, [Lex(2, 2)], Lex(5, 1), 0, NoSchema,
            Parens(Lex(6, 1), [Name(Lex(7, 1), 1)], [], Lex(8, 1)))

  /** Its recorded end is 6, after the table name; the text goes on to 9. */
  lemma ShortSpan()
    ensures InOrder(Toks(TABLE_FUNCTION)) && EndsInTableFunction(TABLE_FUNCTION)
    ensures Lower(TABLE_FUNCTION).zEnd == 6 && Last(Toks(TABLE_FUNCTION)).End() == 9
  {
    var y: Src := Name(Lex(7, 1), 1);
    assert [y][1..] == [] && ListToks([y], []) == [Lex(7, 1)];
    assert Toks(TABLE_FUNCTION) == [Lex(0, 1), Lex(2, 2), Lex(5, 1), Lex(6, 1), Lex(7, 1), Lex(8, 1)];
  }
}
