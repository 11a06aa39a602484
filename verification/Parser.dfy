/** The push parser itself: one token a call, an array stack updated in place. Each method is
    proved against the machine's specification functions. */
module Parser {
  import opened Grammar
  import opened ActionTables
  import opened Machine
  import opened Runs
  import opened Limits

  /** One growth step. */
  function Grown(size: nat): nat {
    2 * size + 100
  }

  /** The size at which a stack of `size` entries stops growing when `memory` entries can be
      allocated: another step would not fit. */
  function Ceiling(size: nat, memory: nat): (top: nat)
    ensures size <= top && (top == size || top <= memory)
    ensures Grown(top) > memory
    decreases memory - size
  {
    if Grown(size) <= memory then Ceiling(Grown(size), memory) else size
  }

  class Parser {
    const tables: Tables
    ghost const automaton: Automaton

    /** The fixed stack size, or zero for a stack that grows. */
    const depth: nat
    /** Entries that the allocator can supply to a stack that grows. */
    const memory: nat

    var yystack: array<Entry>
    /** The index of the top entry. */
    var yytos: int

    /** What the parser has done so far. */
    ghost var log: seq<Event>

    /** A growing stack starts one growth step from nothing, with 100 entries, or with the one entry
        inside the parser exactly when the allocator cannot supply them. */
    function FirstSize(): (size: nat)
      ensures size >= 1 && (depth > 0 ==> size == depth)
      ensures depth == 0 && memory >= 100 ==> size == Grown(0) == 100
      ensures depth == 0 && memory < 100 ==> size == 1
    {
      if depth > 0 then depth else if 100 <= memory then 100 else 1
    }

    function Limit(): (limit: nat)
      ensures limit >= 1 && (depth > 0 ==> limit == depth)
      ensures depth == 0 && memory >= 100 ==> 100 <= limit <= memory < Grown(limit)
      ensures depth == 0 && memory < 100 ==> limit == 1
    {
      if depth > 0 then depth else Ceiling(FirstSize(), memory)
    }

    ghost predicate Shape()
      reads this, yystack
    {
      && automaton.tables == tables
      && WellFormed(automaton)
      && -1 <= yytos < yystack.Length <= Limit()
      && (if depth > 0 then yystack.Length == depth else Ceiling(yystack.Length, memory) == Limit())
    }

    ghost function Abs(): Config
      requires Shape()
      reads this, yystack
    {
      Config(yystack[..yytos + 1], log)
    }

    /** The parser can take a token: its top is at or above its base. */
    ghost predicate Valid()
      reads this, yystack
    {
      Shape() && 0 <= yytos && StackOk(automaton, Abs().stack)
    }

    /** A new parser holds the base entry only, also when the first allocation fails. */
    constructor (tables: Tables, ghost automaton: Automaton, depth: nat, memory: nat)
      requires automaton.tables == tables && WellFormed(automaton)
      ensures Valid() && fresh(yystack) && yystack.Length == FirstSize()
      ensures depth == 0 && memory >= 100 ==> yystack.Length == 100 <= Limit() <= memory
      ensures this.automaton == automaton && this.depth == depth && this.memory == memory
      ensures Abs() == INITIAL
    {
      this.tables, this.automaton, this.depth, this.memory := tables, automaton, depth, memory;
      yystack := new Entry[if depth > 0 then depth else if 100 <= memory then 100 else 1](_ => BASE);
      yytos := 0;
      log := [];
      new;
      assert yystack[..1] == [BASE];
      BaseOk(automaton, [BASE]);
    }

    /** Growing keeps every entry. The top index does not move, so the top entry is the same. */
    method GrowStack() returns (failed: bool)
      requires depth == 0
      modifies this`yystack
      ensures failed <==> Grown(old(yystack.Length)) > memory
      ensures failed ==> yystack == old(yystack)
      ensures !failed ==> fresh(yystack) && yystack.Length == Grown(old(yystack.Length))
      ensures !failed ==> yystack[..old(yystack.Length)] == old(yystack[..])
    {
      var newSize := yystack.Length * 2 + 100;
      failed := newSize > memory;
      if !failed {
        var was := yystack;
        yystack := new Entry[newSize](i requires 0 <= i reads was => if i < was.Length then was[i] else BASE);
        assert yystack[..was.Length] == was[..];
      }
    }

    /** Pops one entry and calls its destructor. */
    method PopParserStack()
      requires 0 < yytos < yystack.Length
      modifies this`yytos, this`log
      ensures yytos == old(yytos) - 1
      ensures log == old(log) + [Destroy(yystack[old(yytos)].major, yystack[old(yytos)].minor)]
    {
      log := log + [Destroy(yystack[yytos].major, yystack[yytos].minor)];
      yytos := yytos - 1;
    }

    /** Pops everything above the base. A top index below the base stays where it is. */
    method PopAll()
      requires -1 <= yytos < yystack.Length
      modifies this`yytos, this`log
      ensures yytos == if old(yytos) >= 0 then 0 else -1
      ensures log == old(log) + Destroys(yystack[..old(yytos) + 1])
    {
      while yytos > 0
        invariant if old(yytos) >= 0 then 0 <= yytos < yystack.Length else yytos == -1
        invariant log + Destroys(yystack[..yytos + 1]) == old(log) + Destroys(yystack[..old(yytos) + 1])
      {
        var top := yystack[yytos];
        assert yystack[..yytos + 1][..yytos] == yystack[..yytos];
        assert Destroys(yystack[..yytos + 1]) == [Destroy(top.major, top.minor)] + Destroys(yystack[..yytos]);
        assert log + ([Destroy(top.major, top.minor)] + Destroys(yystack[..yytos]))
            == log + [Destroy(top.major, top.minor)] + Destroys(yystack[..yytos]);
        PopParserStack();
      }
    }

    /** Drops the slot at `yytos` without a destructor call, then pops the rest. Dropping the base
        leaves the top index below it. */
    method StackOverflow(ghost tok: Token)
      requires 0 <= yytos <= yystack.Length
      modifies this`yytos, this`log
      ensures yytos == if old(yytos) > 0 then 0 else -1
      ensures log == old(log) + Destroys(yystack[..old(yytos)]) + [Overflow(tok)]
    {
      yytos := yytos - 1;
      PopAll();
      log := log + [Overflow(tok)];
    }

    /** The action for the look-ahead token: a pending reduce on top of the stack comes first, then
        the entry for the token itself, for its fallback, for the wildcard unless the token is the
        end of input, and then the default. */
    method FindShiftAction(x: Symbol) returns (act: nat)
      requires Valid() && x < YYNTOKEN
      ensures yystack[yytos].stateno >= YY_MIN_REDUCE ==> act == yystack[yytos].stateno
      ensures yystack[yytos].stateno < YY_MIN_REDUCE ==>
                var s := yystack[yytos].stateno;
                && s < |tables.shiftOfst| == |tables.dflt|
                && var row, fallback := ShiftRow(tables, s), FallbackOf(tables, x);
                && (x in row ==> act == row[x])
                && (x !in row && fallback != 0 && fallback in row ==> act == row[fallback])
                && (x !in row && (fallback == 0 || fallback !in row) ==>
                      if x != 0 && YYWILDCARD in row then act == row[YYWILDCARD] else act == tables.dflt[s])
      ensures act == ActionFor(automaton, Abs().stack, x).act
    {
      var stateno := yystack[yytos].stateno;
      if stateno >= YY_MIN_REDUCE {
        return stateno;
      }
      assert Settled(automaton, Abs().stack, yytos);
      ghost var row := ShiftRow(tables, stateno);
      var iLookAhead := x;
      while true
        invariant iLookAhead == x || (x !in row && FallbackOf(tables, x) != 0 && iLookAhead == FallbackOf(tables, x))
        decreases FallbackOf(tables, iLookAhead)
      {
        var i := tables.shiftOfst[stateno] + iLookAhead;
        assert iLookAhead in row <==> Hit(tables, tables.shiftOfst[stateno], iLookAhead);
        if i < 0 || i >= |tables.action| || tables.lookahead[i] != iLookAhead {
          if iLookAhead < |tables.fallback| && tables.fallback[iLookAhead] != 0 {
            iLookAhead := tables.fallback[iLookAhead];
            continue;
          }
          var j := i - iLookAhead + YYWILDCARD;
          assert YYWILDCARD in row <==> Hit(tables, tables.shiftOfst[stateno], YYWILDCARD);
          if j < |tables.action| && tables.lookahead[j] == YYWILDCARD && iLookAhead > 0 {
            return tables.action[j];
          }
          return tables.dflt[stateno];
        } else {
          return tables.action[i];
        }
      }
    }

    /** The goto on `lhs` from the row of the state, which has one. */
    method FindReduceAction(stateno: nat, lhs: Symbol) returns (act: nat)
      requires stateno < |tables.reduceOfst| && lhs in GotoRow(tables, stateno)
      ensures act == GotoRow(tables, stateno)[lhs]
    {
      var i := tables.reduceOfst[stateno] + lhs;
      return tables.action[i];
    }

    /** Makes sure that the slot at `index` exists; `failed` when the limit forbids it. */
    method Room(index: nat) returns (failed: bool)
      requires automaton.tables == tables && WellFormed(automaton)
      requires index <= yystack.Length <= Limit()
      requires if depth > 0 then yystack.Length == depth else Ceiling(yystack.Length, memory) == Limit()
      modifies this`yystack
      ensures failed <==> index >= Limit()
      ensures failed ==> yystack == old(yystack)
      ensures yystack == old(yystack) || fresh(yystack)
      ensures index <= yystack.Length <= Limit() && (!failed ==> index < yystack.Length)
      ensures if depth > 0 then yystack.Length == depth else Ceiling(yystack.Length, memory) == Limit()
      ensures old(yystack.Length) <= yystack.Length && yystack[..old(yystack.Length)] == old(yystack[..])
    {
      if depth > 0 {
        failed := index >= depth;
      } else if index >= yystack.Length {
        failed := GrowStack();
      } else {
        failed := false;
      }
    }

    method Shift(act: nat, tok: Token)
      requires Shape() && 0 <= yytos
      modifies this`yystack, this`yytos, this`log, yystack
      ensures Shape() && 0 <= yytos && (yystack == old(yystack) || fresh(yystack))
      ensures Abs() == DoShift(Limit(), old(Abs()), act, tok)
    {
      ghost var before := Abs();
      yytos := yytos + 1;
      var failed := Room(yytos);
      if failed {
        assert yystack[..yytos] == before.stack;
        StackOverflow(tok);
        return;
      }
      assert yystack[..yytos] == before.stack;
      var newState := if act > YY_MAX_SHIFT then act + (YY_MIN_REDUCE - YY_MIN_SHIFTREDUCE) else act;
      yystack[yytos] := Entry(newState, tok.code, Tok(tok));
      log := log + [Event.Shift(tok)];
      assert Abs().stack == before.stack + [Entry(newState, tok.code, Tok(tok))];
    }

    /** Replaces a right-hand side by one value, then takes the goto or accepts. */
    method Reduce(ruleno: nat, ghost tok: Token)
      requires Valid() && CanReduce(automaton, Abs().stack, ruleno)
      modifies this`yystack, this`yytos, this`log, yystack
      ensures Shape() && (yystack == old(yystack) || fresh(yystack))
      ensures Abs() == DoReduce(automaton, Limit(), old(Abs()), ruleno, tok)
    {
      hide WellFormed, StackOk, CanReduce, Machine.Land, HasGoto, Shaped;
      ghost var before := Abs();
      RuleInfoTells(automaton, before.stack, ruleno);
      var yysize := tables.ruleInfo[ruleno].nrhs;
      if yysize == 0 {
        var failed := Room(yytos + 1);
        assert yystack[..yytos + 1] == before.stack;
        if failed {
          if yytos > 0 {
            log := log + [Leak(yystack[yytos].minor)];
          }
          StackOverflow(tok);
          assert yytos == 0 ==> yystack[..yytos + 1] == before.stack[..1];
          return;
        }
      }
      Land(ruleno, tok);
    }

    /** The tail of a reduction, once there is room for its result. */
    method Land(ruleno: nat, ghost tok: Token)
      requires Valid() && CanReduce(automaton, Abs().stack, ruleno)
      requires |automaton.grammar.rules[ruleno].rhs| == 0 ==> yytos + 1 < yystack.Length
      modifies this`yytos, this`log, yystack
      ensures Shape() && 0 <= yytos
      ensures Abs() == Machine.Land(automaton, old(Abs()), ruleno, tok)
    {
      hide WellFormed, StackOk, CanReduce, Derives, RootedAt, Kept, HasGoto, Minors, Shaped, GotoRow;
      ghost var before := Abs();
      RuleInfoTells(automaton, before.stack, ruleno);
      LandOk(automaton, before, ruleno, tok);
      var yysize := tables.ruleInfo[ruleno].nrhs;
      var yygoto := tables.ruleInfo[ruleno].lhs;
      var bottom := yytos + 1 - yysize;
      var yyact := FindReduceAction(yystack[yytos - yysize].stateno, yygoto);
      var v := App(ruleno, Minors(yystack[bottom..yytos + 1]));
      assert yystack[bottom..yytos + 1] == before.stack[bottom..];
      assert yyact == GotoAct(automaton, before.stack, ruleno) && v == Built(automaton, before.stack, ruleno);
      hide GotoAct, Built;
      if yyact <= YY_MAX_SHIFTREDUCE {
        if yyact > YY_MAX_SHIFT {
          yyact := yyact + (YY_MIN_REDUCE - YY_MIN_SHIFTREDUCE);
        }
        yystack[bottom] := Entry(yyact, yygoto, v);
        yytos := bottom;
        log := log + [Event.Reduce(ruleno, v.args)];
        assert yystack[..bottom] == before.stack[..bottom];
        assert Shape();
        assert Abs().stack == before.stack[..bottom] + [Entry(yyact, yygoto, v)];
      } else {
        yytos := yytos - yysize;
        log := log + [Event.Reduce(ruleno, v.args), Event.Accept(v, tok)];
        assert Abs().stack == before.stack[..bottom];
        Accept();
      }
    }

    /** Accepting finds nothing but the base entry on the stack. */
    method Accept()
      requires yytos == 0
    {
    }

    /** One pass of the parser's loop; `done` when the token is used up. */
    method Pass(tok: Token) returns (done: bool)
      requires Valid() && IsToken(tok)
      modifies this`yystack, this`yytos, this`log, yystack
      ensures Shape() && (yystack == old(yystack) || fresh(yystack))
      ensures 0 <= yytos ==> Valid()
      ensures Abs() == Step(automaton, Limit(), old(Abs()), tok).c
      ensures done == Step(automaton, Limit(), old(Abs()), tok).done
    {
      hide WellFormed, StackOk, EdgeOk, CanReduce, ActionFor, DoShift, DoReduce;
      ActionIsSafe(automaton, Abs().stack, tok.code);
      StepKeepsStack(automaton, Limit(), Abs(), tok);
      var yyact := FindShiftAction(tok.code);
      if yyact <= YY_MAX_SHIFTREDUCE {
        Shift(yyact, tok);
        done := true;
      } else if yyact <= YY_MAX_REDUCE {
        Reduce(yyact - YY_MIN_REDUCE, tok);
        done := false;
      } else {
        log := log + [Reject(tok)];
        done := true;
      }
    }

    /** The parser called with one token. The loop ends because every pass that does not use up
        the token burns fuel. */
    method Parse(tok: Token)
      requires Valid() && IsToken(tok)
      modifies this`yystack, this`yytos, this`log, yystack
      ensures Shape() && (yystack == old(yystack) || fresh(yystack))
      ensures 0 <= yytos ==> Valid()
      ensures Abs() == Feed(automaton, Limit(), old(Abs()), tok)
    {
      hide WellFormed, StackOk, Fuel, Step;
      var more := true;
      ghost var goal := Feed(automaton, Limit(), Abs(), tok);
      while more
        invariant Shape() && (yystack == old(yystack) || fresh(yystack))
        invariant 0 <= yytos ==> Valid()
        invariant more ==> Valid()
        invariant if more then Feed(automaton, Limit(), Abs(), tok) == goal else Abs() == goal
        decreases more, if more then Fuel(automaton, Limit(), Abs()) else 0
      {
        StepBurnsFuel(automaton, Limit(), Abs(), tok);
        var done := Pass(tok);
        more := !done && yytos > 0;
      }
    }

    /** Destroys everything above the base entry. */
    method Free()
      requires Shape() && (0 <= yytos ==> Valid())
      modifies this`yytos, this`log
      ensures Shape() && yytos == if old(yytos) >= 0 then 0 else -1
      ensures log == old(log) + Destroys(old(Abs().stack))
    {
      PopAll();
    }
  }

  /** A new parser fed a whole token sequence, one call a token, is in the state that the run
      theorems speak about. Feeding stops when the top index is below the base. */
  method ParseAll(tables: Tables, ghost automaton: Automaton, depth: nat, memory: nat, toks: seq<Token>)
    returns (p: Parser)
    requires automaton.tables == tables && WellFormed(automaton)
    requires forall i :: 0 <= i < |toks| ==> IsToken(toks[i])
    ensures p.Shape() && (0 <= p.yytos ==> p.Valid())
    ensures p.automaton == automaton && p.depth == depth && p.memory == memory
    ensures p.Abs() == Run(automaton, p.Limit(), toks)
  {
    hide WellFormed, StackOk, Feed;
    p := new Parser(tables, automaton, depth, memory);
    for n := 0 to |toks|
      invariant p.Shape() && (0 <= p.yytos ==> p.Valid()) && fresh(p) && fresh(p.yystack)
      invariant p.automaton == automaton && p.depth == depth && p.memory == memory
      invariant p.Abs() == Run(automaton, p.Limit(), toks[..n])
    {
      assert toks[..n + 1][..n] == toks[..n];
      if p.yytos >= 0 {
        p.Parse(toks[n]);
      }
    }
    assert toks[..|toks|] == toks;
  }

  /** A parser that starts with its one built-in entry has a top index below its base after a call
      if and only if the token makes the start state reduce by an empty rule. */
  method ParseUnallocated(tables: Tables, ghost automaton: Automaton, memory: nat, tok: Token) returns (p: Parser)
    requires automaton.tables == tables && WellFormed(automaton) && IsToken(tok)
    requires memory < 100
    ensures StackOk(automaton, INITIAL.stack)
    ensures p.yytos < 0 <==> ReducesEmpty(automaton, INITIAL, tok)
  {
    p := new Parser(tables, automaton, 0, memory);
    InitialReady(automaton, 1);
    FeedFalls(automaton, 1, INITIAL, tok);
    hide WellFormed, StackOk, Feed, ReducesEmpty;
    p.Parse(tok);
  }
}
