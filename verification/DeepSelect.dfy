/** Nested subqueries, cut down to `SELECT` and its column list (after rules 80, 85, 91, 92, 96,
    150, 152 and 192), as concrete tables. Every stack of at least seven entries can be filled so
    that the empty `as` rule overflows above an `expr`, which is then lost. */
module DeepSelect {
  import opened Grammar
  import opened ActionTables
  import opened Machine
  import opened Runs
  import opened Ownership
  import opened Conservation
  import opened Limits
  import opened Tokens
  import Bound

  const LP: Symbol := 22
  const RP: Symbol := 23
  const ID: Symbol := 55
  const ABORT: Symbol := 57
  const SELECT: Symbol := 119
  const INPUT: Symbol := 144
  const SELECTNT: Symbol := 163
  const EXPR: Symbol := 173
  const SELCOLLIST: Symbol := 199
  const SCLP: Symbol := 209
  const AS: Symbol := 210

  /** The keyword ABORT may be read as an ID. */
  const FALLBACK: seq<Symbol> := seq(58, i => if i == ABORT then ID else 0)

  const GRAMMAR := Grammar(
    [Rule(INPUT, [{SELECTNT}]), Rule(SELECTNT, [{SELECT}, {SELCOLLIST}]), Rule(SELCOLLIST, [{SCLP}, {EXPR}, {AS}]),
     Rule(SCLP, []), Rule(AS, []),
     Rule(EXPR, [{LP}, {EXPR}, {RP}]), Rule(EXPR, [{LP}, {SELECTNT}, {RP}]), Rule(EXPR, [{ID}])],
    {}, INPUT, FALLBACK)

  /** Five shift rows and five goto rows in one array of 100 cells. */
  function Lookahead(i: nat): Symbol {
    if i == 29 || i == 99 then SELECT
    else if i == 1 || i == 2 then LP
    else if i == 34 || i == 35 then ID
    else if i == 4 || i == 5 then RP
    else if i == 8 then INPUT
    else if i == 27 || i == 13 then SELECTNT
    else if i == 20 then SCLP
    else if i == 10 then SELCOLLIST
    else if i == 7 || i == 23 then EXPR
    else if i == 11 then AS
    else YYNOCODE
  }

  function Cell(i: nat): nat {
    if i == 29 || i == 99 then 1
    else if i == 1 || i == 2 then 3
    else if i == 34 || i == 35 then YY_MIN_SHIFTREDUCE + 7
    else if i == 4 then YY_MIN_SHIFTREDUCE + 5
    else if i == 5 then YY_MIN_SHIFTREDUCE + 6
    else if i == 8 then YY_ACCEPT_ACTION
    else if i == 27 then YY_MIN_SHIFTREDUCE
    else if i == 13 then 6
    else if i == 20 then 2
    else if i == 10 then YY_MIN_SHIFTREDUCE + 1
    else if i == 7 then 4
    else if i == 23 then 5
    else YY_MIN_SHIFTREDUCE + 2
  }

  const TABLES := Tables(
    seq(100, i requires 0 <= i => Cell(i)), seq(100, i requires 0 <= i => Lookahead(i)),
    [-90, 1000, -21, -20, 1000, -19, -18], [-136, -189, -166, -150, -199],
    [YY_ERROR_ACTION, YY_MIN_REDUCE + 3, YY_ERROR_ACTION, YY_ERROR_ACTION, YY_MIN_REDUCE + 4,
     YY_ERROR_ACTION, YY_ERROR_ACTION], FALLBACK,
    [RuleInfo(INPUT, 1), RuleInfo(SELECTNT, 2), RuleInfo(SELCOLLIST, 3), RuleInfo(SCLP, 0), RuleInfo(AS, 0),
     RuleInfo(EXPR, 3), RuleInfo(EXPR, 3), RuleInfo(EXPR, 1)])

  const RANKING := Bound.Ranking(
    {SCLP, AS}, seq(200, i => if i == SELCOLLIST then 2 else if i == EXPR || i == INPUT then 1 else 0), 2, 3)

  /** State 1 follows SELECT, 2 an empty column list, 3 an open parenthesis, 4 a column, 5 an
      expression in parentheses, 6 a subquery in parentheses. */
  const PAST: seq<Past> :=
    [Past([], []), Past([{SELECT}], [{0, 3}]), Past([{SCLP}, {SELECT}], [{1}, {0, 3}]), Past([{LP}], [{2, 3}]),
     Past([{EXPR}, {SCLP}, {SELECT}], [{2}, {1}, {0, 3}]), Past([{EXPR}, {LP}], [{3}, {2, 3}]),
     Past([{SELECTNT}, {LP}], [{3}, {2, 3}])]

  const AUTOMATON := Automaton(TABLES, GRAMMAR, PAST, RANKING)

  // ---- the tables are well formed ----

  lemma DeepNames()
    ensures TokenAt(LP) == "LP" && TokenAt(RP) == "RP" && TokenAt(ID) == "ID"
    ensures TokenAt(ABORT) == "ABORT" && TokenAt(SELECT) == "SELECT"
  {
  }

  lemma DeepRanked()
    ensures Bound.Ranked(GRAMMAR, RANKING)
  {
    var k := RANKING;
    forall r | 0 <= r < 8 ensures Bound.RankedRule(k, GRAMMAR.rules[r]) {
      var rhs := GRAMMAR.rules[r].rhs;
      if r == 2 {
        assert !Bound.Skippable(k, rhs[1]);
      } else if r != 3 && r != 4 {
        assert !Bound.Skippable(k, rhs[0]);
        assert r == 5 || r == 6 ==> !Bound.Skippable(k, rhs[2]);
        assert r == 1 ==> !Bound.Skippable(k, rhs[1]);
      }
    }
  }

  lemma Gotos()
    ensures HasGoto(TABLES, 0, INPUT) && GotoCell(TABLES, 0, INPUT) == YY_ACCEPT_ACTION
    ensures HasGoto(TABLES, 0, SELECTNT) && GotoCell(TABLES, 0, SELECTNT) == YY_MIN_SHIFTREDUCE
    ensures HasGoto(TABLES, 1, SCLP) && GotoCell(TABLES, 1, SCLP) == 2
    ensures HasGoto(TABLES, 1, SELCOLLIST) && GotoCell(TABLES, 1, SELCOLLIST) == YY_MIN_SHIFTREDUCE + 1
    ensures HasGoto(TABLES, 2, EXPR) && GotoCell(TABLES, 2, EXPR) == 4
    ensures HasGoto(TABLES, 3, EXPR) && GotoCell(TABLES, 3, EXPR) == 5
    ensures HasGoto(TABLES, 3, SELECTNT) && GotoCell(TABLES, 3, SELECTNT) == 6
    ensures HasGoto(TABLES, 4, AS) && GotoCell(TABLES, 4, AS) == YY_MIN_SHIFTREDUCE + 2
    ensures forall s, r :: 0 <= s < 5 && 0 <= r < 8 && HasGoto(TABLES, s, GRAMMAR.rules[r].lhs) ==>
              || (s == 0 && r <= 1) || (s == 1 && 2 <= r <= 3) || (s == 2 && r >= 5)
              || (s == 3 && (r == 1 || r >= 5)) || (s == 4 && r == 4)
  {
  }

  lemma Same(x: Symbol)
    ensures Covered(GRAMMAR, {x}, {x})
  {
    assert UnitChain(GRAMMAR, x, [], x);
  }

  lemma EmptyHandles()
    ensures HandleOk(AUTOMATON, PAST[1], 1, 3) && HandleOk(AUTOMATON, PAST[4], 4, 4)
    ensures HandleOk(AUTOMATON, Push(PAST[2], 2, ID), 0, 7) && HandleOk(AUTOMATON, Push(PAST[3], 3, ID), 0, 7)
    ensures HandleOk(AUTOMATON, Push(PAST[0], 0, SELECTNT), 0, 0)
  {
    Gotos();
    Same(ID);
    Same(SELECTNT);
    hide Covered, HasGoto;
  }

  lemma SelectHandles()
    ensures HandleOk(AUTOMATON, Push(PAST[1], 1, SELCOLLIST), 0, 1)
    ensures HandleOk(AUTOMATON, Push(PAST[4], 4, AS), 0, 2)
  {
    Gotos();
    Same(SELECT);
    Same(SELCOLLIST);
    Same(SCLP);
    Same(EXPR);
    Same(AS);
    hide Covered, HasGoto;
  }

  lemma ParenHandles()
    ensures HandleOk(AUTOMATON, Push(PAST[5], 5, RP), 0, 5) && HandleOk(AUTOMATON, Push(PAST[6], 6, RP), 0, 6)
  {
    Gotos();
    Same(LP);
    Same(RP);
    Same(EXPR);
    Same(SELECTNT);
    hide Covered, HasGoto;
  }

  lemma Edges()
    ensures EdgeOk(AUTOMATON, 0, SELECT, 1) && EdgeOk(AUTOMATON, 3, SELECT, 1)
    ensures EdgeOk(AUTOMATON, 2, LP, 3) && EdgeOk(AUTOMATON, 3, LP, 3)
    ensures EdgeOk(AUTOMATON, 2, ID, YY_MIN_SHIFTREDUCE + 7) && EdgeOk(AUTOMATON, 3, ID, YY_MIN_SHIFTREDUCE + 7)
    ensures EdgeOk(AUTOMATON, 5, RP, YY_MIN_SHIFTREDUCE + 5) && EdgeOk(AUTOMATON, 6, RP, YY_MIN_SHIFTREDUCE + 6)
    ensures EdgeOk(AUTOMATON, 0, SELECTNT, YY_MIN_SHIFTREDUCE)
    ensures EdgeOk(AUTOMATON, 1, SCLP, 2) && EdgeOk(AUTOMATON, 1, SELCOLLIST, YY_MIN_SHIFTREDUCE + 1)
    ensures EdgeOk(AUTOMATON, 2, EXPR, 4) && EdgeOk(AUTOMATON, 3, EXPR, 5) && EdgeOk(AUTOMATON, 3, SELECTNT, 6)
    ensures EdgeOk(AUTOMATON, 4, AS, YY_MIN_SHIFTREDUCE + 2)
  {
    EmptyHandles();
    SelectHandles();
    ParenHandles();
    hide HandleOk;
  }

  lemma LowRows()
    ensures forall y: Symbol :: y in ShiftRow(TABLES, 0) <==> y == SELECT
    ensures ShiftRow(TABLES, 0)[SELECT] == 1
    ensures ShiftRow(TABLES, 1) == map[] && ShiftRow(TABLES, 4) == map[]
    ensures forall y: Symbol :: y in ShiftRow(TABLES, 2) <==> y == LP || y == ID
    ensures ShiftRow(TABLES, 2)[LP] == 3 && ShiftRow(TABLES, 2)[ID] == YY_MIN_SHIFTREDUCE + 7
  {
  }

  lemma HighRows()
    ensures forall y: Symbol :: y in ShiftRow(TABLES, 3) <==> y == LP || y == ID || y == SELECT
    ensures ShiftRow(TABLES, 3)[LP] == 3 && ShiftRow(TABLES, 3)[ID] == YY_MIN_SHIFTREDUCE + 7
    ensures ShiftRow(TABLES, 3)[SELECT] == 1
    ensures forall y: Symbol :: y in ShiftRow(TABLES, 5) <==> y == RP
    ensures ShiftRow(TABLES, 5)[RP] == YY_MIN_SHIFTREDUCE + 5
    ensures forall y: Symbol :: y in ShiftRow(TABLES, 6) <==> y == RP
    ensures ShiftRow(TABLES, 6)[RP] == YY_MIN_SHIFTREDUCE + 6
  {
  }

  lemma Lookups(x: Symbol)
    requires x < YYNTOKEN
    ensures ShiftLookup(TABLES, 0, x) == Found(x, if x == SELECT then 1 else YY_ERROR_ACTION)
    ensures ShiftLookup(TABLES, 1, x) == Found(x, YY_MIN_REDUCE + 3)
    ensures ShiftLookup(TABLES, 2, x) ==
            if x == ID || x == ABORT then Found(ID, YY_MIN_SHIFTREDUCE + 7)
            else Found(x, if x == LP then 3 else YY_ERROR_ACTION)
    ensures ShiftLookup(TABLES, 3, x) ==
            if x == ID || x == ABORT then Found(ID, YY_MIN_SHIFTREDUCE + 7)
            else Found(x, if x == LP then 3 else if x == SELECT then 1 else YY_ERROR_ACTION)
    ensures ShiftLookup(TABLES, 4, x) == Found(x, YY_MIN_REDUCE + 4)
    ensures ShiftLookup(TABLES, 5, x) == Found(x, if x == RP then YY_MIN_SHIFTREDUCE + 5 else YY_ERROR_ACTION)
    ensures ShiftLookup(TABLES, 6, x) == Found(x, if x == RP then YY_MIN_SHIFTREDUCE + 6 else YY_ERROR_ACTION)
  {
    LowRows();
    HighRows();
    hide ShiftRow;
  }

  lemma DeepIsWellFormed()
    ensures WellFormed(AUTOMATON)
  {
    DeepRanked();
    EmptyHandles();
    Edges();
    Gotos();
    hide EdgeOk, HandleOk, Bound.Ranked, ShiftLookup, HasGoto, GotoCell;
    var a := AUTOMATON;
    forall s, x: Symbol | 0 <= s < 7 && x < YYNTOKEN ensures ShiftCellOk(a, s, x) {
      Lookups(x);
    }
    forall s, r | 0 <= s < 5 && 0 <= r < 8 ensures GotoCellOk(a, s, GRAMMAR.rules[r].lhs) {
    }
  }

  // ---- filling a stack of any size ----

  const SEL := Token(SELECT, 0)
  const OPEN := Token(LP, 0)
  const COL := Token(ID, 0)
  const END := Token(0, 0)

  /** The column that is lost. */
  const LOST: Value := App(7, [Tok(COL)])

  /** Nothing has leaked, and the column has not been built. */
  ghost predicate Clean(log: seq<Event>) {
    LOST !in BooksOf(log).created && BooksOf(log).leaked == multiset{}
  }

  lemma CleanAfter(log: seq<Event>, e: Event)
    requires Clean(log) && (e.Shift? || (e.Reduce? && e.rule != 7))
    ensures Clean(log + [e])
  {
    BooksLast(log, e);
  }

  /** A shift with room for its token ends the call. */
  lemma ShiftCall(a: Automaton, limit: nat, c: Config, tok: Token, act: nat)
    requires Ready(a, limit, c) && IsToken(tok) && |c.stack| < limit
    requires ActionFor(a, c.stack, tok.code).act == act <= YY_MAX_SHIFTREDUCE
    ensures Feed(a, limit, c, tok) ==
            Config(c.stack + [Entry(Encode(act), tok.code, Tok(tok))], c.log + [Shift(tok)])
    ensures Clean(c.log) ==> Clean(Feed(a, limit, c, tok).log)
  {
    FeedUnfolds(a, limit, c, tok);
    hide WellFormed, StackOk, ActionFor, Fuel, Feed, Clean;
    if Clean(c.log) {
      CleanAfter(c.log, Shift(tok));
    }
  }

  lemma EmptyStep(a: Automaton, limit: nat, c: Config, tok: Token, r: nat)
    requires Ready(a, limit, c) && IsToken(tok)
    requires ActionFor(a, c.stack, tok.code).act == YY_MIN_REDUCE + r <= YY_MAX_REDUCE
    ensures CanReduce(a, c.stack, r) && |c.stack| > 0
    ensures Step(a, limit, c, tok) == Stepped(DoReduce(a, limit, c, r, tok), false)
  {
    ActionIsSafe(a, c.stack, tok.code);
    hide WellFormed, ActionFor, EdgeOk, CanReduce, DoReduce, DoShift;
  }

  /** An empty rule with room for its result goes on with the call. */
  lemma EmptyPass(a: Automaton, limit: nat, c: Config, tok: Token, r: nat, act: nat) returns (next: Config)
    requires Ready(a, limit, c) && IsToken(tok) && |c.stack| < limit
    requires ActionFor(a, c.stack, tok.code).act == YY_MIN_REDUCE + r <= YY_MAX_REDUCE
    requires r < |a.grammar.rules| && a.grammar.rules[r].rhs == [] && r != 7
    requires HasGoto(a.tables, c.stack[|c.stack| - 1].stateno, a.grammar.rules[r].lhs)
    requires GotoCell(a.tables, c.stack[|c.stack| - 1].stateno, a.grammar.rules[r].lhs) == act
    requires act <= YY_MAX_SHIFTREDUCE
    ensures next == Config(c.stack + [Entry(Encode(act), a.grammar.rules[r].lhs, App(r, []))], c.log + [Reduce(r, [])])
    ensures Ready(a, limit, next)
    ensures Feed(a, limit, c, tok) == Feed(a, limit, next, tok)
    ensures Clean(c.log) ==> Clean(next.log)
  {
    EmptyStep(a, limit, c, tok, r);
    FeedUnfolds(a, limit, c, tok);
    hide WellFormed, StackOk, ActionFor, Fuel, Feed, Clean, HasGoto, GotoCell, Step, CanReduce;
    next := DoReduce(a, limit, c, r, tok);
    assert c.stack[..|c.stack|] == c.stack && Minors(c.stack[|c.stack|..]) == [];
    if Clean(c.log) {
      CleanAfter(c.log, Reduce(r, []));
    }
  }

  /** The run on these tokens ends clean, on this stack. */
  ghost predicate Reached(a: Automaton, limit: nat, toks: seq<Token>, stack: seq<Entry>)
    requires WellFormed(a) && limit >= 1 && AreTokens(toks)
  {
    Run(a, limit, toks).stack == stack && Clean(Run(a, limit, toks).log)
  }

  lemma OneMore(limit: nat, toks: seq<Token>, tok: Token)
    requires WellFormed(AUTOMATON) && limit >= 1 && AreTokens(toks) && IsToken(tok)
    requires Run(AUTOMATON, limit, toks).stack != []
    ensures AreTokens(toks + [tok])
    ensures Ready(AUTOMATON, limit, Run(AUTOMATON, limit, toks))
    ensures Run(AUTOMATON, limit, toks + [tok]) == Feed(AUTOMATON, limit, Run(AUTOMATON, limit, toks), tok)
  {
    hide WellFormed, StackOk, Feed;
    assert (toks + [tok])[..|toks + [tok]| - 1] == toks;
    RunUnfolds(AUTOMATON, limit, toks + [tok]);
  }

  const SELENTRY := Entry(1, SELECT, Tok(SEL))
  const SCLPENTRY := Entry(2, SCLP, App(3, []))
  const OPENENTRY := Entry(3, LP, Tok(OPEN))

  function Opens(n: nat): seq<Token> { [SEL] + seq(n, _ => OPEN) }

  /** The stack after SELECT and `n` open parentheses. */
  function Opened(n: nat): seq<Entry> {
    [BASE, SELENTRY, SCLPENTRY] + seq(n, _ => OPENENTRY)
  }

  lemma FirstSelect(limit: nat)
    requires WellFormed(AUTOMATON) && limit >= 2
    ensures Reached(AUTOMATON, limit, [SEL], [BASE, SELENTRY])
  {
    assert Run(AUTOMATON, limit, []) == INITIAL;
    OneMore(limit, [], SEL);
    assert [] + [SEL] == [SEL];
    Lookups(SELECT);
    hide WellFormed, StackOk, ShiftLookup, Run, Feed;
    ShiftCall(AUTOMATON, limit, INITIAL, SEL, 1);
  }

  /** After SELECT a column token first finds the empty column list. */
  lemma ColumnCall(limit: nat, c: Config, tok: Token, act: nat)
    requires Ready(AUTOMATON, limit, c) && IsToken(tok) && |c.stack| + 2 <= limit
    requires c.stack[|c.stack| - 1].stateno == 1
    requires ShiftLookup(TABLES, 2, tok.code).act == act <= YY_MAX_SHIFTREDUCE
    ensures var stack := Feed(AUTOMATON, limit, c, tok).stack;
            stack == c.stack + [SCLPENTRY] + [Entry(Encode(act), tok.code, Tok(tok))]
    ensures Feed(AUTOMATON, limit, c, tok).log == c.log + [Reduce(3, [])] + [Shift(tok)]
    ensures Clean(c.log) ==> Clean(Feed(AUTOMATON, limit, c, tok).log)
  {
    Lookups(tok.code);
    Gotos();
    assert Encode(2) == 2;
    hide WellFormed, StackOk, ShiftLookup, Feed, HasGoto, GotoCell, Clean, Encode;
    assert ActionFor(AUTOMATON, c.stack, tok.code).act == YY_MIN_REDUCE + 3;
    var next := EmptyPass(AUTOMATON, limit, c, tok, 3, 2);
    assert ActionFor(AUTOMATON, next.stack, tok.code).act == act;
    hide ActionFor;
    ShiftCall(AUTOMATON, limit, next, tok, act);
  }

  lemma FirstOpen(limit: nat)
    requires WellFormed(AUTOMATON) && limit >= 4
    ensures Reached(AUTOMATON, limit, [SEL] + [OPEN], [BASE, SELENTRY, SCLPENTRY, OPENENTRY])
  {
    FirstSelect(limit);
    hide WellFormed, StackOk, ShiftLookup, Run, Feed, Clean;
    OneMore(limit, [SEL], OPEN);
    assert ShiftLookup(TABLES, 2, LP).act == 3 by { Lookups(LP); }
    ColumnCall(limit, Run(AUTOMATON, limit, [SEL]), OPEN, 3);
  }

  /** The first parenthesis finds the empty column list, the others are stacked on it. */
  lemma {:induction false} OpenAll(limit: nat, n: nat)
    requires WellFormed(AUTOMATON) && n >= 1 && 3 + n <= limit
    ensures Reached(AUTOMATON, limit, Opens(n), Opened(n))
    decreases n
  {
    hide WellFormed, StackOk, ShiftLookup, Run, Feed, Clean;
    if n == 1 {
      FirstOpen(limit);
      assert Opens(1) == [SEL] + [OPEN] && Opened(1) == [BASE, SELENTRY, SCLPENTRY, OPENENTRY];
    } else {
      OpenAll(limit, n - 1);
      assert Opens(n) == Opens(n - 1) + [OPEN] && Opened(n) == Opened(n - 1) + [OPENENTRY];
      assert Opened(n - 1)[|Opened(n - 1)| - 1].stateno == 3 && |Opened(n - 1)| == 2 + n;
      hide Opens, Opened;
      OneMore(limit, Opens(n - 1), OPEN);
      Lookups(LP);
      ShiftCall(AUTOMATON, limit, Run(AUTOMATON, limit, Opens(n - 1)), OPEN, 3);
    }
  }

  lemma SecondSelect(limit: nat, n: nat)
    requires WellFormed(AUTOMATON) && n >= 1 && 4 + n <= limit
    ensures Reached(AUTOMATON, limit, Opens(n) + [SEL], Opened(n) + [SELENTRY])
  {
    OpenAll(limit, n);
    OneMore(limit, Opens(n), SEL);
    Lookups(SELECT);
    assert Opened(n)[|Opened(n)| - 1].stateno == 3;
    hide WellFormed, StackOk, ShiftLookup, Run, Feed, Opened, Opens, Clean;
    ShiftCall(AUTOMATON, limit, Run(AUTOMATON, limit, Opens(n)), SEL, 1);
  }

  const PENDING := Entry(YY_MIN_REDUCE + 7, ID, Tok(COL))

  lemma Column(limit: nat, n: nat)
    requires WellFormed(AUTOMATON) && n >= 1 && 6 + n <= limit
    ensures Reached(AUTOMATON, limit, Opens(n) + [SEL] + [COL], Opened(n) + [SELENTRY] + [SCLPENTRY] + [PENDING])
  {
    SecondSelect(limit, n);
    var toks, stack := Opens(n) + [SEL], Opened(n) + [SELENTRY];
    assert |stack| == 4 + n && stack[|stack| - 1] == SELENTRY;
    hide Opened, Opens, WellFormed, StackOk, ShiftLookup, Run, Feed, Clean;
    OneMore(limit, toks, COL);
    assert ShiftLookup(TABLES, 2, ID).act == YY_MIN_SHIFTREDUCE + 7 by { Lookups(ID); }
    ColumnCall(limit, Run(AUTOMATON, limit, toks), COL, YY_MIN_SHIFTREDUCE + 7);
  }

  // ---- the overflow ----

  /** An empty rule on a full stack loses the top value and creates nothing. */
  lemma EmptyOverflow(a: Automaton, limit: nat, c: Config, tok: Token, r: nat)
    requires Ready(a, limit, c) && IsToken(tok) && |c.stack| == limit > 1
    requires ActionFor(a, c.stack, tok.code).act == YY_MIN_REDUCE + r <= YY_MAX_REDUCE
    requires r < |a.grammar.rules| && a.grammar.rules[r].rhs == []
    ensures var b, b' := BooksOf(c.log), BooksOf(Feed(a, limit, c, tok).log);
            b'.created == b.created && b'.leaked == b.leaked + multiset{c.stack[|c.stack| - 1].minor}
  {
    EmptyStep(a, limit, c, tok, r);
    FeedUnfolds(a, limit, c, tok);
    assert forall i :: 1 <= i < |c.stack| ==> EntryOk(a, c.stack[i]);
    hide WellFormed, StackOk, Feed, ActionFor, EntryOk, BooksOf, Cleanup, CanReduce, Step, Entered, AllRight;
    var quiet := Cleanup(c.stack, true);
    assert Feed(a, limit, c, tok).log == c.log + quiet + [Overflow(tok)];
    assert Forest(c.stack)[|c.stack| - 2] == c.stack[|c.stack| - 1].minor;
    hide DoReduce, Forest;
    CleanupBooks(a, c.log, c.stack, true);
    OverflowBooks(c.log + quiet, tok);
  }

  lemma OverflowBooks(log: seq<Event>, tok: Token)
    ensures BooksOf(log + [Overflow(tok)]) == BooksOf(log)
  {
    BooksLast(log, Overflow(tok));
  }

  /** The call that overflows: the pending column is reduced on top of the stack, and then the
      empty rule finds no room. */
  lemma LastCall(limit: nat, c: Config, rest: seq<Entry>)
    requires Ready(AUTOMATON, limit, c) && |rest| > 1 && limit == |rest| + 1
    requires c.stack == rest + [PENDING] && rest[|rest| - 1].stateno == 2
    requires Clean(c.log)
    ensures var log := Feed(AUTOMATON, limit, c, END).log;
            BooksOf(log).created[LOST] == 1 && BooksOf(log).leaked == multiset{LOST}
  {
    var s := ReduceColumn(limit, c, rest);
    FeedUnfolds(AUTOMATON, limit, c, END);
    OverflowAs(limit, s, rest);
    hide WellFormed, StackOk, Feed, Step;
  }

  lemma ReduceColumn(limit: nat, c: Config, rest: seq<Entry>) returns (next: Config)
    requires Ready(AUTOMATON, limit, c) && |rest| > 1 && limit == |rest| + 1
    requires c.stack == rest + [PENDING] && rest[|rest| - 1].stateno == 2
    requires Clean(c.log)
    ensures Step(AUTOMATON, limit, c, END) == Stepped(next, false)
    ensures next.stack == rest + [Entry(4, EXPR, LOST)] && Ready(AUTOMATON, limit, next)
    ensures BooksOf(next.log).created[LOST] == 1 && BooksOf(next.log).leaked == multiset{}
  {
    Gotos();
    FeedUnfolds(AUTOMATON, limit, c, END);
    ActionIsSafe(AUTOMATON, c.stack, 0);
    hide WellFormed, StackOk, Feed, HasGoto, GotoCell;
    next := Step(AUTOMATON, limit, c, END).c;
    assert c.stack[..|rest|] == rest && Minors(c.stack[|rest|..]) == [Tok(COL)];
    BooksLast(c.log, Reduce(7, [Tok(COL)]));
  }

  lemma OverflowAs(limit: nat, c: Config, rest: seq<Entry>)
    requires Ready(AUTOMATON, limit, c) && |rest| > 1 && limit == |rest| + 1
    requires c.stack == rest + [Entry(4, EXPR, LOST)]
    requires BooksOf(c.log).created[LOST] == 1 && BooksOf(c.log).leaked == multiset{}
    ensures var log := Feed(AUTOMATON, limit, c, END).log;
            BooksOf(log).created[LOST] == 1 && BooksOf(log).leaked == multiset{LOST}
  {
    Lookups(0);
    assert ActionFor(AUTOMATON, c.stack, 0).act == YY_MIN_REDUCE + 4;
    hide WellFormed, StackOk, Feed, ActionFor, BooksOf;
    EmptyOverflow(AUTOMATON, limit, c, END, 4);
  }

  /** Tokens that fill a stack of `limit` entries and overflow it: SELECT, open parentheses, then
      SELECT and one column, whose alias is empty. */
  function Deep(limit: nat): seq<Token>
    requires limit >= 7
  {
    Opens(limit - 6) + [SEL] + [COL] + [END]
  }

  lemma DeepBooks(limit: nat)
    requires WellFormed(AUTOMATON) && limit >= 7
    ensures AreTokens(Deep(limit))
    ensures var b := BooksOf(Run(AUTOMATON, limit, Deep(limit)).log);
            b.created[LOST] == 1 && b.leaked == multiset{LOST}
  {
    hide WellFormed, StackOk, Feed, Run, Clean, BooksOf;
    var n := limit - 6;
    Column(limit, n);
    var rest := Opened(n) + [SELENTRY] + [SCLPENTRY];
    assert |rest| == limit - 1;
    hide Opened, Opens;
    OneMore(limit, Opens(n) + [SEL] + [COL], END);
    LastCall(limit, Run(AUTOMATON, limit, Opens(n) + [SEL] + [COL]), rest);
  }

  lemma FreedBooks(limit: nat)
    requires limit >= 7 && WellFormed(AUTOMATON) && AreTokens(Deep(limit))
    requires var b := BooksOf(Run(AUTOMATON, limit, Deep(limit)).log);
             b.created[LOST] == 1 && b.leaked == multiset{LOST}
    ensures var c := Run(AUTOMATON, limit, Deep(limit));
            var b := BooksOf(c.log + Destroys(c.stack));
            && b.created[LOST] == 1
            && LOST !in b.consumed && LOST !in b.destroyed && LOST !in b.delivered
  {
    hide WellFormed, Feed, Deep, BooksOf;
    var c := Run(AUTOMATON, limit, Deep(limit));
    assert forall i :: 1 <= i < |c.stack| ==> EntryOk(AUTOMATON, c.stack[i]);
    hide Run, StackOk, EntryOk;
    NothingIsLost(AUTOMATON, limit, Deep(limit));
    DestroysBooks(AUTOMATON, c.log, c.stack);
    var b := BooksOf(c.log + Destroys(c.stack));
    assert b.created[LOST] == b.consumed[LOST] + b.destroyed[LOST] + b.leaked[LOST] + b.delivered[LOST];
  }

  /** For every stack of at least seven entries, whatever its parity and thus also for the fixed
      one of 100, there are tokens on which the parser loses a column expression: the value is made
      once, and neither consumed, destroyed nor delivered, even by the final free. */
  lemma EveryDepthLeaks(limit: nat)
    requires limit >= 7
    ensures WellFormed(AUTOMATON) && AreTokens(Deep(limit))
    ensures var c := Run(AUTOMATON, limit, Deep(limit));
            var b := BooksOf(c.log + Destroys(c.stack));
            && b.created[LOST] == 1
            && LOST !in b.consumed && LOST !in b.destroyed && LOST !in b.delivered
    ensures MajorOf(GRAMMAR, LOST) == EXPR
  {
    DeepIsWellFormed();
    hide WellFormed;
    DeepBooks(limit);
    FreedBooks(limit);
  }
}
