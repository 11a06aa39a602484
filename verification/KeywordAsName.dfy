/** A run in which a keyword is read as its fallback: the statement `SELECT abort` on the tables of
    nested subqueries. */
module KeywordAsName {
  import opened Grammar
  import opened ActionTables
  import opened Machine
  import opened Runs
  import opened Limits
  import opened DeepSelect

  /** A reduction that a fused action left pending, with the goto it takes. */
  lemma FusedPass(a: Automaton, limit: nat, c: Config, tok: Token, r: nat, rest: seq<Entry>, handle: seq<Entry>)
      returns (next: Config)
    requires Ready(a, limit, c) && IsToken(tok)
    requires c.stack == rest + handle && |rest| > 0 && |handle| > 0
    requires handle[|handle| - 1].stateno == YY_MIN_REDUCE + r <= YY_MAX_REDUCE
    requires r < |a.grammar.rules| && |a.grammar.rules[r].rhs| == |handle|
    requires HasGoto(a.tables, rest[|rest| - 1].stateno, a.grammar.rules[r].lhs)
    ensures var act := GotoCell(a.tables, rest[|rest| - 1].stateno, a.grammar.rules[r].lhs);
            var v := App(r, Minors(handle));
            if act <= YY_MAX_SHIFTREDUCE then
              && next == Config(rest + [Entry(Encode(act), a.grammar.rules[r].lhs, v)],
                                c.log + [Reduce(r, v.args)])
              && Ready(a, limit, next)
              && Feed(a, limit, c, tok) == Feed(a, limit, next, tok)
            else
              && next == Config(rest, c.log + [Reduce(r, v.args), Accept(v, tok)])
              && (|rest| == 1 ==> Feed(a, limit, c, tok) == next)
  {
    assert ActionFor(a, c.stack, tok.code).act == YY_MIN_REDUCE + r;
    EmptyStep(a, limit, c, tok, r);
    FeedUnfolds(a, limit, c, tok);
    hide WellFormed, StackOk, ActionFor, Fuel, Feed, HasGoto, GotoCell, Step, CanReduce, Encode, Minors;
    next := DoReduce(a, limit, c, r, tok);
    assert c.stack[..|rest|] == rest && c.stack[|rest|..] == handle;
    assert Kept(a, c.stack, r) == |rest| && Built(a, c.stack, r) == App(r, Minors(handle));
    assert GotoAct(a, c.stack, r) == GotoCell(a.tables, rest[|rest| - 1].stateno, a.grammar.rules[r].lhs);
    hide Kept, Built, GotoAct;
    assert next == Land(a, c, r, tok);
    hide DoReduce;
  }

  const NAME := Token(ABORT, 0)
  const COLUMN: Value := App(7, [Tok(NAME)])
  const LIST: Value := App(2, [App(3, []), COLUMN, App(4, [])])
  const STATEMENT: Value := App(1, [Tok(SEL), LIST])

  const NAMED := Config([BASE, SELENTRY, SCLPENTRY, Entry(YY_MIN_REDUCE + 7, ABORT, Tok(NAME))],
                        [Shift(SEL), Reduce(3, []), Shift(NAME)])

  /** The keyword is shifted under its own code, by the action of its fallback. */
  lemma NameFeed(limit: nat, c: Config)
    requires Ready(AUTOMATON, limit, c) && limit >= 5
    requires c == Config([BASE, SELENTRY], [Shift(SEL)])
    ensures Feed(AUTOMATON, limit, c, NAME) == NAMED
  {
    var pending := Entry(Encode(YY_MIN_SHIFTREDUCE + 7), ABORT, Tok(NAME));
    assert c.stack + [SCLPENTRY] + [pending] == NAMED.stack;
    assert c.log + [Reduce(3, [])] + [Shift(NAME)] == NAMED.log;
    assert c.stack[|c.stack| - 1].stateno == 1 && |c.stack| == 2;
    hide WellFormed, StackOk, ShiftLookup, Feed, Clean, Encode, Ready;
    assert ShiftLookup(TABLES, 2, ABORT).act == YY_MIN_SHIFTREDUCE + 7 by { Lookups(ABORT); }
    ColumnCall(limit, c, NAME, YY_MIN_SHIFTREDUCE + 7);
  }

  lemma FirstLog(limit: nat)
    requires WellFormed(AUTOMATON) && limit >= 2
    ensures Run(AUTOMATON, limit, [SEL]).log == [Shift(SEL)]
  {
    assert Run(AUTOMATON, limit, []) == INITIAL;
    OneMore(limit, [], SEL);
    assert [] + [SEL] == [SEL];
    Lookups(SELECT);
    hide WellFormed, StackOk, ShiftLookup, Run, Feed;
    ShiftCall(AUTOMATON, limit, INITIAL, SEL, 1);
  }

  lemma NameCall(limit: nat)
    requires WellFormed(AUTOMATON) && limit >= 5
    ensures Run(AUTOMATON, limit, [SEL] + [NAME]) == NAMED
  {
    FirstSelect(limit);
    FirstLog(limit);
    hide WellFormed, StackOk, Run, Feed, Clean;
    OneMore(limit, [SEL], NAME);
    NameFeed(limit, Run(AUTOMATON, limit, [SEL]));
  }

  /** The end of input reduces everything and accepts. */
  lemma EndCall(limit: nat, c: Config)
    requires Ready(AUTOMATON, limit, c) && limit >= 5
    requires c.stack == [BASE, SELENTRY, SCLPENTRY, Entry(YY_MIN_REDUCE + 7, ABORT, Tok(NAME))]
    ensures Feed(AUTOMATON, limit, c, END) ==
            Config([BASE], c.log + [Reduce(7, [Tok(NAME)])] + [Reduce(4, [])] + [Reduce(2, LIST.args)]
                           + [Reduce(1, STATEMENT.args)]
                           + [Reduce(0, [STATEMENT]), Accept(App(0, [STATEMENT]), END)])
  {
    Gotos();
    var a := AUTOMATON;
    var low := [BASE, SELENTRY];
    assert ShiftLookup(TABLES, 4, 0).act == YY_MIN_REDUCE + 4 by { Lookups(0); }
    hide WellFormed, StackOk, ShiftLookup, Feed, HasGoto, GotoCell, Clean;
    var pending := [Entry(YY_MIN_REDUCE + 7, ABORT, Tok(NAME))];
    assert Minors(pending) == [Tok(NAME)];
    var c1 := FusedPass(a, limit, c, END, 7, low + [SCLPENTRY], pending);
    assert ActionFor(a, c1.stack, 0).act == YY_MIN_REDUCE + 4;
    var c2 := EmptyPass(a, limit, c1, END, 4, YY_MIN_SHIFTREDUCE + 2);
    EndOfList(limit, c2);
  }

  lemma EndOfList(limit: nat, c: Config)
    requires Ready(AUTOMATON, limit, c)
    requires c.stack == [BASE, SELENTRY] + [SCLPENTRY] + [Entry(4, EXPR, COLUMN)]
                        + [Entry(YY_MIN_REDUCE + 2, AS, App(4, []))]
    ensures Feed(AUTOMATON, limit, c, END) ==
            Config([BASE], c.log + [Reduce(2, LIST.args)] + [Reduce(1, STATEMENT.args)]
                           + [Reduce(0, [STATEMENT]), Accept(App(0, [STATEMENT]), END)])
  {
    Gotos();
    var a := AUTOMATON;
    hide WellFormed, StackOk, Feed, HasGoto, GotoCell;
    var column := [SCLPENTRY, Entry(4, EXPR, COLUMN), Entry(YY_MIN_REDUCE + 2, AS, App(4, []))];
    assert Minors(column) == LIST.args;
    var c1 := FusedPass(a, limit, c, END, 2, [BASE, SELENTRY], column);
    var list := [SELENTRY, Entry(YY_MIN_REDUCE + 1, SELCOLLIST, LIST)];
    assert Minors(list) == STATEMENT.args;
    var c2 := FusedPass(a, limit, c1, END, 1, [BASE], list);
    var statement := [Entry(YY_MIN_REDUCE, SELECTNT, STATEMENT)];
    assert Minors(statement) == [STATEMENT];
    var c3 := FusedPass(a, limit, c2, END, 0, [BASE], statement);
  }

  /** The parser accepts `SELECT abort`: the keyword stands where a column name is expected. */
  lemma KeywordIsAccepted(limit: nat)
    requires limit >= 5
    ensures WellFormed(AUTOMATON)
    ensures Run(AUTOMATON, limit, [SEL] + [NAME] + [END]).log ==
            [Shift(SEL), Reduce(3, []), Shift(NAME), Reduce(7, [Tok(NAME)]), Reduce(4, []), Reduce(2, LIST.args),
             Reduce(1, STATEMENT.args), Reduce(0, [STATEMENT]), Accept(App(0, [STATEMENT]), END)]
  {
    DeepIsWellFormed();
    hide WellFormed, StackOk, Run, Feed;
    NameCall(limit);
    OneMore(limit, [SEL] + [NAME], END);
    EndCall(limit, Run(AUTOMATON, limit, [SEL] + [NAME]));
  }
}
