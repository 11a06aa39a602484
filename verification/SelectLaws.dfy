/** What the compound operators mean, told apart row by row: laws of the meaning of a statement,
    none of which mentions how two operands are combined. */
module SelectLaws {
  import opened Selects

  /** The statement with one more operator and operand. */
  function Then(s: Source, op: Op, one: One): Source {
    s.(rest := s.rest + [(op, one)])
  }

  function Pair(l: One, op: Op, r: One): Source {
    Source(l, [(op, r)])
  }

  lemma ThenCombines(db: Database, s: Source, op: Op, one: One)
    ensures Meaning(db, Then(s, op, one)) == Combine(op, Meaning(db, s), MeaningOfOne(db, one))
  {
    var longer := Then(s, op, one);
    assert longer.(rest := longer.rest[..|s.rest|]) == s;
  }

  /** EXCEPT keeps each row of the left side that the right one lacks, once. */
  lemma ExceptLaw(db: Database, s: Source, one: One)
    ensures var m := Meaning(db, Then(s, Except, one));
            && (forall x :: x in m <==> x in Meaning(db, s) && x !in MeaningOfOne(db, one))
            && (forall x :: m[x] <= 1)
            && m !! MeaningOfOne(db, one)
            && (MeaningOfOne(db, one) == Meaning(db, s) ==> m == multiset{})
  {
    ThenCombines(db, s, Except, one);
  }

  /** INTERSECT keeps each row that both sides have, once. */
  lemma IntersectLaw(db: Database, s: Source, one: One)
    ensures var m := Meaning(db, Then(s, Intersect, one));
            && (forall x :: x in m <==> x in Meaning(db, s) && x in MeaningOfOne(db, one))
            && (forall x :: m[x] <= 1)
  {
    ThenCombines(db, s, Intersect, one);
  }

  /** UNION keeps each row that either side has, once. */
  lemma UnionLaw(db: Database, s: Source, one: One)
    ensures var m := Meaning(db, Then(s, Union, one));
            && (forall x :: x in m <==> x in Meaning(db, s) || x in MeaningOfOne(db, one))
            && (forall x :: m[x] <= 1)
  {
    ThenCombines(db, s, Union, one);
  }

  /** UNION ALL keeps every row as often as the two sides have it together. */
  lemma UnionAllLaw(db: Database, s: Source, one: One)
    ensures var m := Meaning(db, Then(s, All, one));
            && (forall x :: m[x] == Meaning(db, s)[x] + MeaningOfOne(db, one)[x])
            && |m| == |Meaning(db, s)| + |MeaningOfOne(db, one)|
  {
    ThenCombines(db, s, All, one);
  }

  lemma SameRows<T>(m: multiset<T>, n: multiset<T>)
    requires forall x :: x in m <==> x in n
    requires forall x :: m[x] <= 1 && n[x] <= 1
    ensures m == n
  {
    forall x: T ensures m[x] == n[x] {
      assert x in m <==> x in n;
    }
  }

  /** A term with itself: nothing under EXCEPT, and its distinct rows under INTERSECT and UNION. */
  lemma SelfLaws(db: Database, one: One)
    ensures Meaning(db, Pair(one, Except, one)) == multiset{}
    ensures Meaning(db, Pair(one, Intersect, one)) == Meaning(db, Pair(one, Union, one))
    ensures forall x :: x in Meaning(db, Pair(one, Union, one)) <==> x in MeaningOfOne(db, one)
    ensures forall x :: Meaning(db, Pair(one, Union, one))[x] <= 1
  {
    var alone := Source(one, []);
    assert alone.rest + [(Except, one)] == [(Except, one)];
    assert alone.rest + [(Intersect, one)] == [(Intersect, one)];
    assert alone.rest + [(Union, one)] == [(Union, one)];
    ExceptLaw(db, alone, one);
    IntersectLaw(db, alone, one);
    UnionLaw(db, alone, one);
    SameRows(Meaning(db, Pair(one, Intersect, one)), Meaning(db, Pair(one, Union, one)));
  }

  lemma PairIsThen(l: One, op: Op, r: One)
    ensures Pair(l, op, r) == Then(Source(l, []), op, r)
  {
    assert [] + [(op, r)] == [(op, r)];
  }

  /** The operands of every operator but EXCEPT may change places; those of EXCEPT exactly when
      they have the same rows, and then nothing is left. */
  lemma CommutesExactly(db: Database, op: Op, l: One, r: One)
    ensures Meaning(db, Pair(l, op, r)) == Meaning(db, Pair(r, op, l))
            <==> (op == Except ==> forall x :: x in MeaningOfOne(db, l) <==> x in MeaningOfOne(db, r))
  {
    PairIsThen(l, op, r);
    PairIsThen(r, op, l);
    var a, b := Source(l, []), Source(r, []);
    var m, n := Meaning(db, Pair(l, op, r)), Meaning(db, Pair(r, op, l));
    match op
    case Union =>
      UnionLaw(db, a, r);
      UnionLaw(db, b, l);
      assert forall x :: x in m <==> x in n;
      SameRows(m, n);
    case Intersect =>
      IntersectLaw(db, a, r);
      IntersectLaw(db, b, l);
      assert forall x :: x in m <==> x in n;
      SameRows(m, n);
    case Except =>
      ExceptLaw(db, a, r);
      ExceptLaw(db, b, l);
      if m == n {
        forall x ensures x in MeaningOfOne(db, l) <==> x in MeaningOfOne(db, r) {
          assert x in m <==> x in n;
        }
      }
      if forall x :: x in MeaningOfOne(db, l) <==> x in MeaningOfOne(db, r) {
        assert forall x :: x in m <==> x in n;
        SameRows(m, n);
      }
    case _ =>
      ThenCombines(db, a, op, r);
      ThenCombines(db, b, op, l);
  }

  /** Operators apply from the left: taking away twice is taking away both. */
  lemma ExceptTwice(db: Database, s: Source, one: One, two: One)
    ensures var m := Meaning(db, Then(Then(s, Except, one), Except, two));
            && (forall x :: x in m <==>
                  x in Meaning(db, s) && x !in MeaningOfOne(db, one) && x !in MeaningOfOne(db, two))
            && m == Meaning(db, Then(Then(s, Except, two), Except, one))
  {
    ExceptLaw(db, s, one);
    ExceptLaw(db, s, two);
    ExceptLaw(db, Then(s, Except, one), two);
    ExceptLaw(db, Then(s, Except, two), one);
    SameRows(Meaning(db, Then(Then(s, Except, one), Except, two)),
             Meaning(db, Then(Then(s, Except, two), Except, one)));
  }

  predicate OnlyUnions(s: Source) {
    forall i :: 0 <= i < |s.rest| ==> s.rest[i].0 == Union || s.rest[i].0 == All
  }

  /** Some term of the statement has the row. */
  predicate InSomeTerm(db: Database, s: Source, x: Row) {
    x in MeaningOfOne(db, s.first) || exists i :: 0 <= i < |s.rest| && x in MeaningOfOne(db, s.rest[i].1)
  }

  lemma {:induction false} UnionsGather(db: Database, s: Source, x: Row)
    requires OnlyUnions(s)
    ensures x in Meaning(db, s) <==> InSomeTerm(db, s, x)
    decreases |s.rest|
  {
    if s.rest != [] {
      var n := |s.rest| - 1;
      var shorter, last := s.(rest := s.rest[..n]), s.rest[n];
      assert s == Then(shorter, last.0, last.1);
      UnionsGather(db, shorter, x);
      UnionLaw(db, shorter, last.1);
      UnionAllLaw(db, shorter, last.1);
      assert Meaning(db, s)[x] > 0 <==> x in Meaning(db, s);
    }
  }

  /** A UNION at the end decides for the whole statement: however many UNION ALL come before it,
      the result is every row of every term, once. */
  lemma LastUnionDecides(db: Database, s: Source)
    requires OnlyUnions(s) && |s.rest| > 0 && s.rest[|s.rest| - 1].0 == Union
    ensures forall x :: Meaning(db, s)[x] == if InSomeTerm(db, s, x) then 1 else 0
  {
    var n := |s.rest| - 1;
    var shorter, last := s.(rest := s.rest[..n]), s.rest[n];
    assert s == Then(shorter, Union, last.1);
    UnionLaw(db, shorter, last.1);
    forall x ensures Meaning(db, s)[x] == if InSomeTerm(db, s, x) then 1 else 0 {
      UnionsGather(db, s, x);
      assert Meaning(db, s)[x] > 0 <==> x in Meaning(db, s);
    }
  }

  /** UNION ALL everywhere never loses a row: each occurs as often as in all the terms together. */
  lemma {:induction false} UnionAllCounts(db: Database, s: Source, x: Row)
    requires forall i :: 0 <= i < |s.rest| ==> s.rest[i].0 == All
    ensures Meaning(db, s)[x] == MeaningOfOne(db, s.first)[x] + Occurrences(db, s.rest, x)
    decreases |s.rest|
  {
    if s.rest != [] {
      var n := |s.rest| - 1;
      var shorter, last := s.(rest := s.rest[..n]), s.rest[n];
      assert s == Then(shorter, All, last.1);
      UnionAllCounts(db, shorter, x);
      UnionAllLaw(db, shorter, last.1);
    }
  }

  function Occurrences(db: Database, terms: seq<(Op, One)>, x: Row): nat {
    if terms == [] then 0
    else
      var n := |terms| - 1;
      Occurrences(db, terms[..n], x) + MeaningOfOne(db, terms[n].1)[x]
  }
}
