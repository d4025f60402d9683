/** Rebuilding a JSON value with the members of every object in one fixed order.
    Both canonical forms of the program are instances: the digest input of an
    execution plan orders by key, the TOON projection by kind and then key. */
module CanonicalOrder {
  import opened Text
  import opened Sorting
  import opened Json

  /** Children first, then the members of this object sorted by `order`. */
  function Arrange(j: Json, order: Member -> string): Json {
    match j
    case Object(ms) => Object(Sort(ArrangeMembers(ms, order), order))
    case List(items) => List(seq(|items|, i requires 0 <= i < |items| => Arrange(items[i], order)))
    case _ => j
  }

  function ArrangeMembers(ms: seq<Member>, order: Member -> string): (r: seq<Member>)
    ensures |r| == |ms|
    ensures forall i :: 0 <= i < |ms| ==> r[i] == Member(ms[i].key, Arrange(ms[i].value, order))
  {
    seq(|ms|, i requires 0 <= i < |ms| => Member(ms[i].key, Arrange(ms[i].value, order)))
  }

  /** Members of one object can only tie when their keys are equal. */
  ghost predicate Separates(order: Member -> string) {
    forall m, n :: order(m) == order(n) ==> m.key == n.key
  }

  predicate Arranged(j: Json, order: Member -> string) {
    match j
    case List(items) => forall i :: 0 <= i < |items| ==> Arranged(items[i], order)
    case Object(ms) => Sorted(ms, order) && forall i :: 0 <= i < |ms| ==> Arranged(ms[i].value, order)
    case _ => true
  }

  lemma PermutedWellFormed(a: seq<Member>, b: seq<Member>)
    requires multiset(a) == multiset(b)
    requires WellFormed(Object(a))
    ensures WellFormed(Object(b))
  {
    DistinctPermutation(a, b, KeyOf);
    SameItems(a, b);
    forall i | 0 <= i < |b| ensures WellFormed(b[i].value) {
      assert b[i] in a;
      var h :| 0 <= h < |a| && a[h] == b[i];
    }
  }

  /** The rearranged value is a dictionary again, denotes the same JSON value and is in order at every depth. */
  lemma {:induction false} ArrangeFacts(j: Json, order: Member -> string)
    requires WellFormed(j)
    ensures WellFormed(Arrange(j, order))
    ensures Denote(Arrange(j, order)) == Denote(j)
    ensures Arranged(Arrange(j, order), order)
  {
    match j
    case List(items) =>
      forall i | 0 <= i < |items|
        ensures var a := Arrange(items[i], order); WellFormed(a) && Denote(a) == Denote(items[i]) && Arranged(a, order)
      { ArrangeFacts(items[i], order); }
      assert Denote(Arrange(j, order)).items == Denote(j).items;
    case Object(ms) =>
      var mapped := ArrangeMembers(ms, order);
      forall i | 0 <= i < |ms|
        ensures var a := mapped[i].value; WellFormed(a) && Denote(a) == Denote(ms[i].value) && Arranged(a, order)
      { ArrangeFacts(ms[i].value, order); }
      forall i, k | 0 <= i < k < |mapped| ensures KeyOf(mapped[i]) != KeyOf(mapped[k]) {
        assert KeyOf(ms[i]) != KeyOf(ms[k]);
      }
      var sorted := Sort(mapped, order);
      PointwiseMembers(mapped, ms);
      SortFacts(mapped, order);
      PermutedMembers(mapped, sorted);
      PermutedWellFormed(mapped, sorted);
      SameItems(mapped, sorted);
      forall i | 0 <= i < |sorted| ensures Arranged(sorted[i].value, order) {
        assert sorted[i] in mapped;
        var h :| 0 <= h < |mapped| && mapped[h] == sorted[i];
      }
    case _ =>
  }

  /** A value already in order is left exactly as it is. */
  lemma {:induction false} ArrangeFixesArranged(j: Json, order: Member -> string)
    requires Arranged(j, order)
    ensures Arrange(j, order) == j
  {
    match j
    case List(items) =>
      forall i | 0 <= i < |items| ensures Arrange(items[i], order) == items[i] {
        ArrangeFixesArranged(items[i], order);
      }
      assert Arrange(j, order).items == items;
    case Object(ms) =>
      forall i | 0 <= i < |ms| ensures Arrange(ms[i].value, order) == ms[i].value {
        ArrangeFixesArranged(ms[i].value, order);
      }
      assert ArrangeMembers(ms, order) == ms;
      SortOfSorted(ms, order);
    case _ =>
  }

  /** The form is canonical: two values share it exactly when they denote the same JSON value. */
  lemma ArrangeCanonical(a: Json, b: Json, order: Member -> string)
    requires WellFormed(a) && WellFormed(b) && Separates(order)
    ensures Arrange(a, order) == Arrange(b, order) <==> Denote(a) == Denote(b)
  {
    ArrangeFacts(a, order);
    ArrangeFacts(b, order);
    if Denote(a) == Denote(b) { ArrangedUnique(Arrange(a, order), Arrange(b, order), order); }
  }

  lemma {:induction false} ArrangedUnique(a: Json, b: Json, order: Member -> string)
    requires WellFormed(a) && WellFormed(b) && Separates(order)
    requires Arranged(a, order) && Arranged(b, order)
    requires Denote(a) == Denote(b)
    ensures a == b
  {
    match a
    case List(items) =>
      assert |Denote(a).items| == |items| && |Denote(b).items| == |b.items|;
      forall i | 0 <= i < |items| ensures items[i] == b.items[i] {
        assert Denote(a).items[i] == Denote(b).items[i];
        ArrangedUnique(items[i], b.items[i], order);
      }
      assert items == b.items;
    case Object(ms) => ArrangedUniqueMembers(ms, b.members, order);
    case _ =>
  }

  lemma {:induction false} ArrangedUniqueMembers(x: seq<Member>, y: seq<Member>, order: Member -> string)
    requires WellFormed(Object(x)) && WellFormed(Object(y)) && Separates(order)
    requires Arranged(Object(x), order) && Arranged(Object(y), order)
    requires DenoteMembers(x) == DenoteMembers(y)
    ensures x == y
    decreases x, 0
  {
    MembersMeaning(x);
    MembersMeaning(y);
    forall i | 0 <= i < |x| ensures x[i] in y {
      assert x[i].key in DenoteMembers(y);
      var h :| 0 <= h < |y| && y[h].key == x[i].key;
      ArrangedUnique(x[i].value, y[h].value, order);
      assert y[h] == x[i];
    }
    forall h | 0 <= h < |y| ensures y[h] in x {
      assert y[h].key in DenoteMembers(x);
      var i :| 0 <= i < |x| && x[i].key == y[h].key;
      ArrangedUnique(x[i].value, y[h].value, order);
      assert x[i] == y[h];
    }
    SameSet(x, y);
    forall i, k | 0 <= i < k < |x| ensures order(x[i]) != order(x[k]) { assert KeyOf(x[i]) != KeyOf(x[k]); }
    SortedUnique(x, y, order);
  }

  lemma SameSet(x: seq<Member>, y: seq<Member>)
    requires DistinctKeys(x, KeyOf) && DistinctKeys(y, KeyOf)
    requires forall i :: 0 <= i < |x| ==> x[i] in y
    requires forall i :: 0 <= i < |y| ==> y[i] in x
    ensures multiset(x) == multiset(y)
  {
    forall m ensures multiset(x)[m] == multiset(y)[m] {
      if m in x { var i :| 0 <= i < |x| && x[i] == m; OnceInSeq(x, i, KeyOf); assert m in y; }
      if m in y { var i :| 0 <= i < |y| && y[i] == m; OnceInSeq(y, i, KeyOf); assert m in x; }
    }
  }
}
