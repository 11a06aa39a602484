/** The rules of `anylist` (329 to 331, renumbered from 1) under a start rule, as concrete tables:
    they use the wildcard and an empty rule, which takes a one-entry stack below its base. */
module AnyList {
  import opened Grammar
  import opened ActionTables
  import opened Machine
  import opened Runs
  import opened Tokens
  import Bound

  const LP: Symbol := 22
  const RP: Symbol := 23
  const INPUT: Symbol := 144
  const ANYLIST: Symbol := 249

  const GRAMMAR := Grammar(
    [Rule(INPUT, [{ANYLIST}]), Rule(ANYLIST, []),
     Rule(ANYLIST, [{ANYLIST}, {LP}, {ANYLIST}, {RP}]), Rule(ANYLIST, [{ANYLIST}, {YYWILDCARD}])],
    {}, INPUT, [])

  /** Four rows and three goto rows in one array of 111 cells. */
  function Lookahead(i: nat): Symbol {
    if i == 0 || i == 2 then LP
    else if i == 3 then RP
    else if i == 74 || i == 76 then YYWILDCARD
    else if i == 4 then INPUT
    else if i == 109 || i == 110 then ANYLIST
    else YYNOCODE
  }

  function Cell(i: nat): nat {
    if i == 0 || i == 2 then 2
    else if i == 3 then YY_MIN_SHIFTREDUCE + 2
    else if i == 74 || i == 76 then YY_MIN_SHIFTREDUCE + 3
    else if i == 4 then YY_ACCEPT_ACTION
    else if i == 109 then 1
    else 3
  }

  const TABLES := Tables(
    seq(111, i requires 0 <= i => Cell(i)), seq(111, i requires 0 <= i => Lookahead(i)),
    [1000, -22, 1000, -20], [-140, 1000, -139],
    [YY_MIN_REDUCE + 1, YY_MIN_REDUCE, YY_MIN_REDUCE + 1, YY_ERROR_ACTION], [],
    [RuleInfo(INPUT, 1), RuleInfo(ANYLIST, 0), RuleInfo(ANYLIST, 4), RuleInfo(ANYLIST, 2)])

  const RANKING := Bound.Ranking(
    {INPUT, ANYLIST}, seq(250, i => if i == INPUT then 2 else if i == ANYLIST then 1 else 0), 2, 4)

  /** State 1 follows a list at the start, state 2 an open parenthesis, state 3 a list inside. */
  const PAST: seq<Past> :=
    [Past([], []), Past([{ANYLIST}], [{0}]), Past([{LP}, {ANYLIST}], [{1, 3}, {0, 2}]),
     Past([{ANYLIST}, {LP}, {ANYLIST}], [{2}, {1, 3}, {0, 2}])]

  const AUTOMATON := Automaton(TABLES, GRAMMAR, PAST, RANKING)

  lemma ListNames()
    ensures TokenAt(LP) == "LP" && TokenAt(RP) == "RP" && TokenAt(YYWILDCARD) == "ANY"
  {
  }

  lemma ListRanked()
    ensures Bound.Ranked(GRAMMAR, RANKING)
  {
    var k := RANKING;
    forall r | 0 <= r < 4 ensures Bound.RankedRule(k, GRAMMAR.rules[r]) {
      var rhs := GRAMMAR.rules[r].rhs;
      if r >= 2 {
        assert !Bound.Skippable(k, rhs[1]);
      }
      if r == 2 {
        assert !Bound.Skippable(k, rhs[3]);
      }
    }
  }

  lemma Gotos()
    ensures HasGoto(TABLES, 0, INPUT) && GotoCell(TABLES, 0, INPUT) == YY_ACCEPT_ACTION
    ensures HasGoto(TABLES, 0, ANYLIST) && GotoCell(TABLES, 0, ANYLIST) == 1
    ensures HasGoto(TABLES, 2, ANYLIST) && GotoCell(TABLES, 2, ANYLIST) == 3
    ensures !HasGoto(TABLES, 1, INPUT) && !HasGoto(TABLES, 1, ANYLIST) && !HasGoto(TABLES, 2, INPUT)
  {
  }

  lemma Same(x: Symbol)
    ensures Covered(GRAMMAR, {x}, {x})
  {
    assert UnitChain(GRAMMAR, x, [], x);
  }

  lemma Handles()
    ensures HandleOk(AUTOMATON, PAST[0], 0, 1) && HandleOk(AUTOMATON, PAST[2], 2, 1)
    ensures HandleOk(AUTOMATON, PAST[1], 1, 0)
    ensures HandleOk(AUTOMATON, Push(PAST[1], 1, YYWILDCARD), 0, 3)
    ensures HandleOk(AUTOMATON, Push(PAST[3], 3, YYWILDCARD), 0, 3)
    ensures HandleOk(AUTOMATON, Push(PAST[3], 3, RP), 0, 2)
  {
    Gotos();
    Same(ANYLIST);
    Same(LP);
    Same(RP);
    Same(YYWILDCARD);
    hide Covered, HasGoto;
  }

  lemma Edges()
    ensures EdgeOk(AUTOMATON, 1, LP, 2) && EdgeOk(AUTOMATON, 3, LP, 2)
    ensures EdgeOk(AUTOMATON, 1, YYWILDCARD, YY_MIN_SHIFTREDUCE + 3)
    ensures EdgeOk(AUTOMATON, 3, YYWILDCARD, YY_MIN_SHIFTREDUCE + 3)
    ensures EdgeOk(AUTOMATON, 3, RP, YY_MIN_SHIFTREDUCE + 2)
    ensures EdgeOk(AUTOMATON, 0, ANYLIST, 1) && EdgeOk(AUTOMATON, 2, ANYLIST, 3)
  {
    Handles();
    hide HandleOk;
  }

  /** What every look-ahead finds: the wildcard takes every token but the end of input. */
  lemma Lookups(x: Symbol)
    requires x < YYNTOKEN
    ensures ShiftLookup(TABLES, 0, x) == Found(x, YY_MIN_REDUCE + 1)
    ensures ShiftLookup(TABLES, 2, x) == Found(x, YY_MIN_REDUCE + 1)
    ensures ShiftLookup(TABLES, 1, x) ==
            if x == LP then Found(x, 2)
            else if x == 0 then Found(x, YY_MIN_REDUCE) else Found(YYWILDCARD, YY_MIN_SHIFTREDUCE + 3)
    ensures ShiftLookup(TABLES, 3, x) ==
            if x == LP then Found(x, 2)
            else if x == RP then Found(x, YY_MIN_SHIFTREDUCE + 2)
            else if x == 0 then Found(x, YY_ERROR_ACTION) else Found(YYWILDCARD, YY_MIN_SHIFTREDUCE + 3)
  {
    assert forall y: Symbol :: y in ShiftRow(TABLES, 1) <==> y == LP || y == YYWILDCARD;
    assert forall y: Symbol :: y in ShiftRow(TABLES, 3) <==> y == LP || y == RP || y == YYWILDCARD;
    assert forall y: Symbol :: y !in ShiftRow(TABLES, 0) && y !in ShiftRow(TABLES, 2);
  }

  lemma ListIsWellFormed()
    ensures WellFormed(AUTOMATON)
  {
    ListRanked();
    Handles();
    Edges();
    Gotos();
    hide EdgeOk, HandleOk, Bound.Ranked, ShiftLookup, HasGoto, GotoCell;
    var a := AUTOMATON;
    forall s, x: Symbol | 0 <= s < 4 && x < YYNTOKEN ensures ShiftCellOk(a, s, x) {
      Lookups(x);
    }
    forall s, r | 0 <= s < 3 && 0 <= r < 4 ensures GotoCellOk(a, s, GRAMMAR.rules[r].lhs) {
    }
  }

  /** With room for one entry only, the first token takes the parser below its base, whatever the
      token is. This is the growable build whose first allocation fails. */
  lemma EveryTokenFalls(tok: Token)
    requires IsToken(tok)
    ensures WellFormed(AUTOMATON)
    ensures Run(AUTOMATON, 1, [tok]) == Config([], [Overflow(tok)])
  {
    ListIsWellFormed();
    hide WellFormed;
    InitialReady(AUTOMATON, 1);
    FallingCall(tok);
    hide Feed;
    assert [tok][..0] == [];
    assert Run(AUTOMATON, 1, []) == INITIAL;
  }

  lemma FallingCall(tok: Token)
    requires Ready(AUTOMATON, 1, INITIAL) && IsToken(tok)
    ensures Feed(AUTOMATON, 1, INITIAL, tok) == Config([], [Overflow(tok)])
  {
    Lookups(tok.code);
    StepBurnsFuel(AUTOMATON, 1, INITIAL, tok);
    ActionIsSafe(AUTOMATON, INITIAL.stack, tok.code);
    hide WellFormed, StackOk, HasGoto, ShiftLookup;
  }
}
