/** The command-list corner of the grammar (rules 276 to 279, renumbered from 0) with packed
    tables for it: the well-formedness conditions can be met, and parsers do accept. */
module Sample {
  import opened Grammar
  import opened ActionTables
  import opened Machine
  import opened Runs
  import opened Tokens
  import Bound

  const SEMI: Symbol := 1
  const INPUT: Symbol := 144
  const CMDLIST: Symbol := 145
  const ECMD: Symbol := 146

  /** cmdlist ::= ecmd is removed from the tables: a goto on ecmd in state 0 acts as one on cmdlist. */
  const GRAMMAR := Grammar(
    [Rule(INPUT, [{CMDLIST}]), Rule(CMDLIST, [{CMDLIST}, {ECMD}]), Rule(CMDLIST, [{ECMD}]), Rule(ECMD, [{SEMI}])],
    {2}, INPUT, [])

  /** Both states share shift offset 0; the two goto rows overlap the same array. */
  const TABLES := Tables(
    [1338, 675, 1337, 1, 1, 673],
    [252, SEMI, INPUT, CMDLIST, ECMD, ECMD],
    [0, 0], [-142, -141], [YY_ERROR_ACTION, YY_MIN_REDUCE], [],
    [RuleInfo(INPUT, 1), RuleInfo(CMDLIST, 2), RuleInfo(CMDLIST, 1), RuleInfo(ECMD, 1)])

  const RANKING := Bound.Ranking({}, seq(147, i => if i < INPUT then 0 else 147 - i), 3, 2)

  const AUTOMATON := Automaton(TABLES, GRAMMAR, [Past([], []), Past([{CMDLIST, ECMD}], [{0}])], RANKING)

  lemma SampleNames()
    ensures TokenAt(SEMI) == "SEMI"
  {
  }

  lemma SampleRanked()
    ensures Bound.Ranked(GRAMMAR, RANKING)
  {
    var k := RANKING;
    forall r | 0 <= r < 4 ensures Bound.RankedRule(k, GRAMMAR.rules[r]) {
      var rhs := GRAMMAR.rules[r].rhs;
      assert !Bound.Skippable(k, rhs[0]);
      if r == 1 {
        assert !Bound.Skippable(k, rhs[1]);
      }
    }
  }

  lemma SampleUnits()
    ensures forall x: Symbol :: Unit(GRAMMAR, x, x)
    ensures Unit(GRAMMAR, CMDLIST, ECMD)
  {
    forall x: Symbol ensures Unit(GRAMMAR, x, x) {
      assert UnitChain(GRAMMAR, x, [], x);
    }
    assert UnitChain(GRAMMAR, ECMD, [2][1..], ECMD);
    assert UnitChain(GRAMMAR, CMDLIST, [2], ECMD);
  }

  lemma SampleEdges()
    ensures EdgeOk(AUTOMATON, 0, SEMI, 675) && EdgeOk(AUTOMATON, 1, SEMI, 675)
    ensures EdgeOk(AUTOMATON, 0, CMDLIST, 1) && EdgeOk(AUTOMATON, 0, ECMD, 1)
    ensures EdgeOk(AUTOMATON, 1, ECMD, 673)
    ensures HandleOk(AUTOMATON, AUTOMATON.past[1], 1, 0)
  {
    SampleUnits();
    hide UnitChain, Unit;
    assert HasGoto(TABLES, 0, INPUT) && HasGoto(TABLES, 0, CMDLIST) && HasGoto(TABLES, 0, ECMD);
    assert HasGoto(TABLES, 1, ECMD);
    var g, rules := GRAMMAR, GRAMMAR.rules;
    assert Covered(g, {CMDLIST}, {CMDLIST, ECMD}) && Covered(g, {ECMD}, {ECMD}) && Covered(g, {SEMI}, {SEMI});
    hide Covered, HasGoto;
    var first := AUTOMATON.past[1];
    assert HandleOk(AUTOMATON, first, 1, 0);
    assert HandleOk(AUTOMATON, Push(first, 1, ECMD), 0, 1);
    assert HandleOk(AUTOMATON, Push(AUTOMATON.past[0], 0, SEMI), 0, 3);
    assert HandleOk(AUTOMATON, Push(first, 1, SEMI), 0, 3);
    assert Forgets(Push(AUTOMATON.past[0], 0, CMDLIST), first) && Forgets(Push(AUTOMATON.past[0], 0, ECMD), first);
    hide HandleOk, Forgets, Push;
  }

  /** Well-formed tables exist, with overlapping rows, fused actions and a removed unit rule. */
  lemma SampleIsWellFormed()
    ensures WellFormed(AUTOMATON)
  {
    SampleRanked();
    SampleEdges();
    hide EdgeOk, HandleOk, Bound.Ranked;
    var a := AUTOMATON;
    forall s, x: Symbol | 0 <= s < 2 && x < YYNTOKEN ensures ShiftCellOk(a, s, x) {
      assert YYWILDCARD !in ShiftRow(TABLES, s);
      assert x in ShiftRow(TABLES, s) <==> x == SEMI;
    }
    forall s, r | 0 <= s < 2 && 0 <= r < 4 ensures GotoCellOk(a, s, GRAMMAR.rules[r].lhs) {
    }
  }

  const S0 := Token(SEMI, 0)
  const S1 := Token(SEMI, 1)
  const EOF := Token(0, 2)

  lemma Rows()
    ensures ShiftLookup(TABLES, 0, SEMI).act == 675 && ShiftLookup(TABLES, 1, SEMI).act == 675
    ensures ShiftLookup(TABLES, 1, 0).act == YY_MIN_REDUCE
  {
    assert SEMI in ShiftRow(TABLES, 0) && SEMI in ShiftRow(TABLES, 1);
    assert 0 !in ShiftRow(TABLES, 1);
  }

  function E(tok: Token): Value { App(3, [Tok(tok)]) }

  /** The fresh parser reads `; ; $` as a command list of two empty commands and accepts it. */
  lemma SampleAccepts()
    ensures WellFormed(AUTOMATON)
    ensures Run(AUTOMATON, 100, [S0, S1, EOF]).log ==
            [Shift(S0), Reduce(3, [Tok(S0)]), Shift(S1), Reduce(3, [Tok(S1)]),
             Reduce(1, LIST.args), Reduce(0, [LIST]), Accept(App(0, [LIST]), EOF)]
  {
    SampleIsWellFormed();
    hide WellFormed, StackOk;
    var a := AUTOMATON;
    InitialReady(a, 100);
    FirstCall();
    hide Feed;
    var c1 := Feed(a, 100, INITIAL, S0);
    assert Run(a, 100, []) == INITIAL;
    hide Run;
    assert [] + [S0] == [S0] && [S0] + [S1] == [S0, S1] && [S0, S1] + [EOF] == [S0, S1, EOF];
    RunNext(a, 100, [], S0);
    SecondCall(c1);
    var c2 := Feed(a, 100, c1, S1);
    RunNext(a, 100, [S0], S1);
    ThirdCall(c2);
    RunNext(a, 100, [S0, S1], EOF);
  }

  lemma RunNext(a: Automaton, limit: nat, toks: seq<Token>, tok: Token)
    requires WellFormed(a) && limit >= 1 && IsToken(tok)
    requires forall i :: 0 <= i < |toks| ==> IsToken(toks[i])
    requires Run(a, limit, toks).stack != []
    ensures Run(a, limit, toks + [tok]) == Feed(a, limit, Run(a, limit, toks), tok)
  {
    hide WellFormed, StackOk, Feed;
    assert (toks + [tok])[..|toks|] == toks;
  }

  lemma FirstCall()
    requires Ready(AUTOMATON, 100, INITIAL)
    ensures Feed(AUTOMATON, 100, INITIAL, S0) == Config([BASE, Entry(1007, SEMI, Tok(S0))], [Shift(S0)])
  {
    Rows();
    ActionIsSafe(AUTOMATON, INITIAL.stack, SEMI);
    hide WellFormed, StackOk, ShiftLookup;
  }

  lemma SecondCall(c: Config)
    requires Ready(AUTOMATON, 100, c)
    requires c == Config([BASE, Entry(1007, SEMI, Tok(S0))], [Shift(S0)])
    ensures Feed(AUTOMATON, 100, c, S1) ==
            Config([BASE, Entry(1, ECMD, E(S0)), Entry(1007, SEMI, Tok(S1))],
                   [Shift(S0), Reduce(3, [Tok(S0)]), Shift(S1)])
  {
    var a := AUTOMATON;
    Rows();
    StepBurnsFuel(a, 100, c, S1);
    ActionIsSafe(a, c.stack, SEMI);
    hide WellFormed, StackOk;
    var s := Step(a, 100, c, S1);
    assert Minors(c.stack[1..]) == [Tok(S0)];
    assert s.c == Config([BASE, Entry(1, ECMD, E(S0))], [Shift(S0), Reduce(3, [Tok(S0)])]);
    StepBurnsFuel(a, 100, s.c, S1);
  }

  const LIST: Value := App(1, [E(S0), E(S1)])

  lemma ReduceSecond(c: Config)
    requires Ready(AUTOMATON, 100, c)
    requires c.stack == [BASE, Entry(1, ECMD, E(S0)), Entry(1007, SEMI, Tok(S1))]
    ensures Step(AUTOMATON, 100, c, EOF) ==
            Stepped(Config([BASE, Entry(1, ECMD, E(S0)), Entry(1005, ECMD, E(S1))],
                           c.log + [Reduce(3, [Tok(S1)])]), false)
  {
    ActionIsSafe(AUTOMATON, c.stack, 0);
    hide WellFormed, StackOk;
    assert Minors(c.stack[2..]) == [Tok(S1)];
  }

  lemma ReduceList(c: Config)
    requires Ready(AUTOMATON, 100, c)
    requires c.stack == [BASE, Entry(1, ECMD, E(S0)), Entry(1005, ECMD, E(S1))]
    ensures Step(AUTOMATON, 100, c, EOF) ==
            Stepped(Config([BASE, Entry(1, CMDLIST, LIST)], c.log + [Reduce(1, [E(S0), E(S1)])]), false)
  {
    ActionIsSafe(AUTOMATON, c.stack, 0);
    hide WellFormed, StackOk;
    assert Minors(c.stack[1..]) == [E(S0), E(S1)];
  }

  lemma ReduceInput(c: Config)
    requires Ready(AUTOMATON, 100, c) && c.stack == [BASE, Entry(1, CMDLIST, LIST)]
    ensures Step(AUTOMATON, 100, c, EOF) ==
            Stepped(Config([BASE], c.log + [Reduce(0, [LIST]), Accept(App(0, [LIST]), EOF)]), false)
  {
    Rows();
    ActionIsSafe(AUTOMATON, c.stack, 0);
    hide WellFormed, StackOk;
    assert Minors(c.stack[1..]) == [LIST];
  }

  lemma ThirdCall(c: Config)
    requires Ready(AUTOMATON, 100, c)
    requires c == Config([BASE, Entry(1, ECMD, E(S0)), Entry(1007, SEMI, Tok(S1))],
                         [Shift(S0), Reduce(3, [Tok(S0)]), Shift(S1)])
    ensures Feed(AUTOMATON, 100, c, EOF).log ==
            c.log + [Reduce(3, [Tok(S1)]), Reduce(1, LIST.args), Reduce(0, [LIST]), Accept(App(0, [LIST]), EOF)]
  {
    hide WellFormed, StackOk, Step, Fuel;
    ReduceSecond(c);
    StepBurnsFuel(AUTOMATON, 100, c, EOF);
    var s := Step(AUTOMATON, 100, c, EOF).c;
    ReduceList(s);
    StepBurnsFuel(AUTOMATON, 100, s, EOF);
    var u := Step(AUTOMATON, 100, s, EOF).c;
    ReduceInput(u);
    StepBurnsFuel(AUTOMATON, 100, u, EOF);
    assert Feed(AUTOMATON, 100, u, EOF) == Step(AUTOMATON, 100, u, EOF).c;
    assert Feed(AUTOMATON, 100, s, EOF) == Feed(AUTOMATON, 100, u, EOF);
  }
}
