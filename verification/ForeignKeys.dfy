/** Foreign-key action flags: a fold of masked updates over the clauses of a reference. */
module ForeignKeys {

  /** An action code, known to fit a byte. */
  type Action = a: bv32 | a < 0x100

  datatype Clause = MatchName | OnInsert(act: Action) | OnDelete(act: Action) | OnUpdate(act: Action)

  /** `(refargs & ~mask) | value` */
  function Masked(refargs: bv32, value: bv32, mask: bv32): bv32 {
    (refargs & !mask) | value
  }

  /** A reference clause writes its value under its mask. */
  function ReduceRefArgs(refargs: bv32, c: Clause): bv32 {
    match c
    case MatchName => Masked(refargs, 0, 0x000000)
    case OnInsert(_) => Masked(refargs, 0, 0x000000)
    case OnDelete(act) => Masked(refargs, act, 0x0000ff)
    case OnUpdate(act) => Masked(refargs, act << 8, 0x00ff00)
  }

  /** The left fold that the reductions of `refargs` compute, from the default `none`. */
  function RefArgs(none: Action, cs: seq<Clause>): bv32 {
    if cs == [] then none * 0x0101
    else ReduceRefArgs(RefArgs(none, cs[..|cs| - 1]), cs[|cs| - 1])
  }

  /** The action of the last ON DELETE clause. */
  function LastDelete(none: Action, cs: seq<Clause>): Action {
    if cs == [] then none
    else if cs[|cs| - 1].OnDelete? then cs[|cs| - 1].act
    else LastDelete(none, cs[..|cs| - 1])
  }

  /** The action of the last ON UPDATE clause. */
  function LastUpdate(none: Action, cs: seq<Clause>): Action {
    if cs == [] then none
    else if cs[|cs| - 1].OnUpdate? then cs[|cs| - 1].act
    else LastUpdate(none, cs[..|cs| - 1])
  }

  function Record(delete: bv32, update: bv32): bv32 {
    delete | (update << 8)
  }

  /** Whatever the order and number of clauses, the fold is the record of the last writers. */
  lemma {:induction false} RefArgsIsRecord(none: Action, cs: seq<Clause>)
    ensures RefArgs(none, cs) == Record(LastDelete(none, cs), LastUpdate(none, cs))
    decreases |cs|
  {
    hide Record, ReduceRefArgs;
    if cs == [] {
      Spread(none);
    } else {
      var front := cs[..|cs| - 1];
      RefArgsIsRecord(none, front);
      WriteField(LastDelete(none, front), LastUpdate(none, front), cs[|cs| - 1]);
    }
  }

  /** The record has ON DELETE in byte 0, ON UPDATE in byte 1, and nothing else. */
  lemma RefArgsFields(none: Action, cs: seq<Clause>)
    ensures RefArgs(none, cs) & 0xff == LastDelete(none, cs)
    ensures (RefArgs(none, cs) >> 8) & 0xff == LastUpdate(none, cs)
    ensures RefArgs(none, cs) >> 16 == 0
  {
    RefArgsIsRecord(none, cs);
    RecordFields(LastDelete(none, cs), LastUpdate(none, cs));
  }

  lemma RecordFields(d: bv32, u: bv32)
    requires d < 0x100 && u < 0x100
    ensures Record(d, u) & 0xff == d && (Record(d, u) >> 8) & 0xff == u && Record(d, u) >> 16 == 0
  {
  }

  lemma Spread(a: Action)
    ensures a * 0x0101 == Record(a, a)
  {
  }

  lemma WriteField(d: Action, u: Action, c: Clause)
    ensures ReduceRefArgs(Record(d, u), c) ==
            Record(if c.OnDelete? then c.act else d, if c.OnUpdate? then c.act else u)
  {
    WriteNothing(d, u);
    if c.OnDelete? || c.OnUpdate? {
      WriteByte(d, u, c.act);
    }
    hide Masked, Record;
  }

  lemma WriteNothing(d: bv32, u: bv32)
    ensures Masked(Record(d, u), 0, 0) == Record(d, u)
  {
  }

  lemma WriteByte(d: bv32, u: bv32, a: bv32)
    requires d < 0x100 && u < 0x100 && a < 0x100
    ensures Masked(Record(d, u), a, 0x0000ff) == Record(a, u)
    ensures Masked(Record(d, u), a << 8, 0x00ff00) == Record(d, a)
  {
  }
}
