/** The generated tables and what a lookup in them means: each state denotes a row, a finite
    map from symbols to action codes, although the rows overlap in one shared array. */
module ActionTables {
  import opened Grammar

  // Symbol codes: tokens come first, then the unused error symbol, then nonterminals.
  const YYNTOKEN: nat := 143
  const YYNOCODE: nat := 252

  // Action codes.
  const YY_MAX_SHIFT: nat := 459
  const YY_MIN_SHIFTREDUCE: nat := 672
  const YY_MAX_SHIFTREDUCE: nat := 1003
  const YY_MIN_REDUCE: nat := 1004
  const YY_MAX_REDUCE: nat := 1335
  const YY_ERROR_ACTION: nat := 1336
  const YY_ACCEPT_ACTION: nat := 1337

  const YY_SHIFT_MIN: int := -94

  datatype RuleInfo = RuleInfo(lhs: Symbol, nrhs: nat)

  datatype Tables = Tables(
    action: seq<nat>,
    lookahead: seq<Symbol>,
    shiftOfst: seq<int>,
    reduceOfst: seq<int>,
    dflt: seq<nat>,
    fallback: seq<Symbol>,
    ruleInfo: seq<RuleInfo>)

  /** The cell at `ofst + x` exists and was written for symbol `x`. */
  predicate Hit(t: Tables, ofst: int, x: Symbol) {
    0 <= ofst + x < |t.action| && ofst + x < |t.lookahead| && t.lookahead[ofst + x] == x
  }

  function FallbackOf(t: Tables, x: Symbol): Symbol {
    if x < |t.fallback| then t.fallback[x] else 0
  }

  /** What the generator guarantees of the array shapes, the offsets and the fallbacks. */
  predicate Shaped(t: Tables) {
    && |t.lookahead| == |t.action|
    && |t.dflt| == |t.shiftOfst|
    && 0 < |t.reduceOfst| <= |t.shiftOfst| <= YY_MAX_SHIFT + 1
    && (forall s :: 0 <= s < |t.shiftOfst| ==> YY_SHIFT_MIN <= t.shiftOfst[s])
    && (forall x :: 0 <= x < |t.fallback| ==> t.fallback[x] < YYNTOKEN && FallbackOf(t, t.fallback[x]) == 0)
    && FallbackOf(t, 0) == 0
  }

  // ---- rows ----

  type Row = map<Symbol, nat>

  function RowAt(t: Tables, ofst: int, lo: nat, hi: nat): Row {
    map x: Symbol | lo <= x < hi && Hit(t, ofst, x) :: t.action[ofst + x]
  }

  function ShiftRow(t: Tables, s: nat): Row
    requires s < |t.shiftOfst|
  {
    RowAt(t, t.shiftOfst[s], 0, YYNTOKEN)
  }

  function GotoRow(t: Tables, s: nat): Row
    requires s < |t.reduceOfst|
  {
    RowAt(t, t.reduceOfst[s], YYNTOKEN, YYNOCODE)
  }

  /** An action and the symbol that the token was read as to find it. */
  datatype Found = Found(readAs: Symbol, act: nat)

  /** The row view of a lookup: the entry for the token, else for its fallback, else for the
      wildcard unless the token is the end of input, else the default. */
  function LookupRow(row: Row, dflt: nat, fallback: Symbol, x: Symbol): Found {
    if x in row then Found(x, row[x])
    else if fallback != 0 && fallback in row then Found(fallback, row[fallback])
    else if x != 0 && YYWILDCARD in row then Found(YYWILDCARD, row[YYWILDCARD])
    else Found(x, dflt)
  }

  function ShiftLookup(t: Tables, s: nat, x: Symbol): Found
    requires s < |t.shiftOfst| && |t.dflt| == |t.shiftOfst|
  {
    LookupRow(ShiftRow(t, s), t.dflt[s], FallbackOf(t, x), x)
  }

  // ---- packing ----

  /** Every row entry was stored in its cell. */
  ghost predicate Stored(t: Tables, ofst: int, row: Row) {
    forall x: Symbol :: x in row ==> Hit(t, ofst, x) && t.action[ofst + x] == row[x]
  }

  /** Cell `i` was written for some state's shift row or goto row. */
  ghost predicate Written(t: Tables, shift: seq<Row>, goto: seq<Row>, i: nat)
    requires i < |t.lookahead| && |shift| == |t.shiftOfst| && |goto| == |t.reduceOfst|
  {
    var x := t.lookahead[i];
    || (exists s :: 0 <= s < |shift| && x in shift[s] && t.shiftOfst[s] + x == i)
    || (exists s :: 0 <= s < |goto| && x in goto[s] && t.reduceOfst[s] + x == i)
  }

  /** The tables were filled from these rows; a cell nobody wrote carries no symbol code. */
  ghost predicate FilledFrom(t: Tables, shift: seq<Row>, goto: seq<Row>) {
    && Shaped(t)
    && |shift| == |t.shiftOfst| && |goto| == |t.reduceOfst|
    && (forall s :: 0 <= s < |shift| ==> Stored(t, t.shiftOfst[s], shift[s]))
    && (forall s :: 0 <= s < |goto| ==> Stored(t, t.reduceOfst[s], goto[s]))
    && (forall s, x: Symbol :: 0 <= s < |shift| && x in shift[s] ==> x < YYNTOKEN)
    && (forall s, x: Symbol :: 0 <= s < |goto| && x in goto[s] ==> YYNTOKEN <= x < YYNOCODE)
    && (forall i :: 0 <= i < |t.lookahead| && t.lookahead[i] < YYNOCODE ==> Written(t, shift, goto, i))
  }

  ghost predicate AgreeOnOffsets(ofst: seq<int>, rows: seq<Row>)
    requires |ofst| == |rows|
  {
    forall r, s :: 0 <= r < |rows| && 0 <= s < |rows| && ofst[r] == ofst[s] ==> rows[r] == rows[s]
  }

  ghost predicate Faithful(t: Tables, shift: seq<Row>, goto: seq<Row>)
    requires |shift| == |t.shiftOfst| && |goto| == |t.reduceOfst|
  {
    && (forall s :: 0 <= s < |shift| ==> ShiftRow(t, s) == shift[s])
    && (forall s :: 0 <= s < |goto| ==> GotoRow(t, s) == goto[s])
  }

  /** Overlapping the rows is harmless exactly when states that share an offset share a row:
      a cell written at one offset is never a hit at another. */
  lemma PackingIsFaithful(t: Tables, shift: seq<Row>, goto: seq<Row>)
    requires FilledFrom(t, shift, goto)
    ensures Faithful(t, shift, goto) <==>
            AgreeOnOffsets(t.shiftOfst, shift) && AgreeOnOffsets(t.reduceOfst, goto)
  {
    if AgreeOnOffsets(t.shiftOfst, shift) && AgreeOnOffsets(t.reduceOfst, goto) {
      forall s | 0 <= s < |shift| ensures ShiftRow(t, s) == shift[s] {
        ShiftRowIsExact(t, shift, goto, s);
      }
      forall s | 0 <= s < |goto| ensures GotoRow(t, s) == goto[s] {
        GotoRowIsExact(t, shift, goto, s);
      }
    }
    if Faithful(t, shift, goto) {
      forall r, s | 0 <= r < |shift| && 0 <= s < |shift| && t.shiftOfst[r] == t.shiftOfst[s]
        ensures shift[r] == shift[s]
      {
        assert ShiftRow(t, r) == ShiftRow(t, s);
      }
      forall r, s | 0 <= r < |goto| && 0 <= s < |goto| && t.reduceOfst[r] == t.reduceOfst[s]
        ensures goto[r] == goto[s]
      {
        assert GotoRow(t, r) == GotoRow(t, s);
      }
    }
  }

  /** A hit for a symbol code is a cell that some state's row was written to. */
  lemma HitIsWritten(t: Tables, shift: seq<Row>, goto: seq<Row>, ofst: int, x: Symbol)
    requires FilledFrom(t, shift, goto) && Hit(t, ofst, x) && x < YYNOCODE
    ensures Written(t, shift, goto, ofst + x) && t.lookahead[ofst + x] == x
  {
  }

  lemma ShiftRowIsExact(t: Tables, shift: seq<Row>, goto: seq<Row>, s: nat)
    requires FilledFrom(t, shift, goto) && AgreeOnOffsets(t.shiftOfst, shift) && s < |shift|
    ensures ShiftRow(t, s) == shift[s]
  {
    assert Stored(t, t.shiftOfst[s], shift[s]);
    assert forall r, x: Symbol :: 0 <= r < |goto| && x in goto[r] ==> YYNTOKEN <= x;
    assert forall x: Symbol :: x in shift[s] ==> x < YYNTOKEN;
    hide Shaped, FilledFrom;
    forall x | x in ShiftRow(t, s) ensures x in shift[s] {
      HitIsWritten(t, shift, goto, t.shiftOfst[s], x);
      var r :| 0 <= r < |shift| && x in shift[r] && t.shiftOfst[r] + x == t.shiftOfst[s] + x;
    }
  }

  lemma GotoRowIsExact(t: Tables, shift: seq<Row>, goto: seq<Row>, s: nat)
    requires FilledFrom(t, shift, goto) && AgreeOnOffsets(t.reduceOfst, goto) && s < |goto|
    ensures GotoRow(t, s) == goto[s]
  {
    assert Stored(t, t.reduceOfst[s], goto[s]);
    assert forall r, x: Symbol :: 0 <= r < |shift| && x in shift[r] ==> x < YYNTOKEN;
    assert forall x: Symbol :: x in goto[s] ==> YYNTOKEN <= x < YYNOCODE;
    hide Shaped, FilledFrom;
    forall x | x in GotoRow(t, s) ensures x in goto[s] {
      HitIsWritten(t, shift, goto, t.reduceOfst[s], x);
      var r :| 0 <= r < |goto| && x in goto[r] && t.reduceOfst[r] + x == t.reduceOfst[s] + x;
    }
  }
}
