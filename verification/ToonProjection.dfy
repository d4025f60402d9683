/** `commands/output.py`: the canonical member order given to the TOON encoder. */
module ToonProjection {
  import opened Text
  import opened Sorting
  import opened Json
  import opened CanonicalOrder

  predicate IsScalar(j: Json) { !j.List? && !j.Object? }

  predicate IsEmptyList(j: Json) { j == List([]) }

  /** The sort key is the triple (empty list?, not a scalar?, key). The two flags
      take only three values together, so one leading character carries them. */
  function SortKey(m: Member): string {
    [if IsEmptyList(m.value) then '2' else if IsScalar(m.value) then '0' else '1'] + m.key
  }

  function Project(j: Json): Json { Arrange(j, SortKey) }

  /** Scalars, then non-empty lists and all objects, then empty lists. */
  function Group(j: Json): nat {
    match j
    case List(items) => if |items| == 0 then 2 else 1
    case Object(_) => 1
    case Null => 0
    case Bool(_) => 0
    case Int(_) => 0
    case Float(_) => 0
    case Str(_) => 0
  }

  /** The order of two members of one object, spelled out: by group, and by key inside each group. */
  predicate Before(a: Member, b: Member) {
    Group(a.value) < Group(b.value) || (Group(a.value) == Group(b.value) && Less(a.key, b.key))
  }

  predicate Ordered(j: Json) {
    match j
    case List(items) => forall i :: 0 <= i < |items| ==> Ordered(items[i])
    case Object(ms) =>
      && (forall i :: 0 <= i < |ms| ==> Ordered(ms[i].value))
      && (forall i, k :: 0 <= i < k < |ms| ==> Before(ms[i], ms[k]))
    case _ => true
  }

  lemma SortKeySeparates()
    ensures Separates(SortKey)
  {
    forall m, n | SortKey(m) == SortKey(n) ensures m.key == n.key {
      assert SortKey(m)[1..] == m.key && SortKey(n)[1..] == n.key;
    }
  }

  lemma BeforeIsKeyOrder(a: Member, b: Member)
    requires a.key != b.key
    ensures Before(a, b) <==> AtMost(SortKey(a), SortKey(b))
  {
    assert SortKey(a)[1..] == a.key && SortKey(b)[1..] == b.key;
    LessTotal(a.key, b.key);
  }

  lemma {:induction false} OrderedIsArranged(j: Json)
    requires WellFormed(j)
    ensures Ordered(j) <==> Arranged(j, SortKey)
  {
    match j
    case List(items) =>
      forall i | 0 <= i < |items| ensures Ordered(items[i]) <==> Arranged(items[i], SortKey) {
        OrderedIsArranged(items[i]);
      }
    case Object(ms) =>
      forall i | 0 <= i < |ms| ensures Ordered(ms[i].value) <==> Arranged(ms[i].value, SortKey) {
        OrderedIsArranged(ms[i].value);
      }
      forall i, k | 0 <= i < k < |ms|
        ensures Before(ms[i], ms[k]) <==> AtMost(SortKey(ms[i]), SortKey(ms[k]))
      {
        assert KeyOf(ms[i]) != KeyOf(ms[k]);
        BeforeIsKeyOrder(ms[i], ms[k]);
      }
    case _ =>
  }

  /** The projection denotes the same JSON value and is ordered at every depth. */
  lemma ProjectMeansTheSame(j: Json)
    requires WellFormed(j)
    ensures WellFormed(Project(j)) && Denote(Project(j)) == Denote(j) && Ordered(Project(j))
  {
    ArrangeFacts(j, SortKey);
    OrderedIsArranged(Project(j));
  }

  /** Ordered values, and only they, are left as they are; so projecting twice changes nothing more. */
  lemma ProjectIdempotent(j: Json)
    requires WellFormed(j)
    ensures Project(j) == j <==> Ordered(j)
    ensures Project(Project(j)) == Project(j)
  {
    ProjectMeansTheSame(j);
    OrderedIsArranged(j);
    if Ordered(j) { ArrangeFixesArranged(j, SortKey); }
    OrderedIsArranged(Project(j));
    ArrangeFixesArranged(Project(j), SortKey);
  }

  /** One meaning, one projection. */
  lemma ProjectCanonical(a: Json, b: Json)
    requires WellFormed(a) && WellFormed(b)
    ensures Project(a) == Project(b) <==> Denote(a) == Denote(b)
  {
    SortKeySeparates();
    ArrangeCanonical(a, b, SortKey);
  }
}
