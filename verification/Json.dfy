/** JSON values as the program holds them (Python dictionaries keep insertion
    order) and as they are meant (objects are maps, RFC 8259 section 4). */
module Json {
  import opened Text
  import opened Sorting

  datatype Json =
    | Null
    | Bool(b: bool)
    | Int(n: int)
    | Float(token: string)              // the text `float.__repr__` gives
    | Str(s: string)
    | List(items: seq<Json>)
    | Object(members: seq<Member>)

  datatype Member = Member(key: string, value: Json)

  /** A JSON value with objects read as maps. */
  datatype Value =
    | VNull
    | VBool(b: bool)
    | VInt(n: int)
    | VFloat(token: string)
    | VStr(s: string)
    | VList(items: seq<Value>)
    | VObject(members: map<string, Value>)

  function KeyOf(m: Member): string { m.key }

  /** A dictionary has no key twice, at any depth. */
  predicate WellFormed(j: Json) {
    match j
    case List(items) => forall i :: 0 <= i < |items| ==> WellFormed(items[i])
    case Object(ms) => DistinctKeys(ms, KeyOf) && forall i :: 0 <= i < |ms| ==> WellFormed(ms[i].value)
    case Float(t) => FloatToken(t)
    case _ => true
  }

  /** `e` or `E`, a sign or none, and digits (RFC 8259 section 6). */
  predicate ExponentToken(t: string) {
    && |t| > 1 && (t[0] == 'e' || t[0] == 'E')
    && var digits := if t[1] == '+' || t[1] == '-' then t[2..] else t[1..];
       digits != [] && All(digits, IsDigit)
  }

  /** What follows the integer part of a float: a fraction, an exponent, or both. */
  predicate FractionToken(t: string) {
    || ExponentToken(t)
    || (|t| > 1 && t[0] == '.' && Span(t[1..], IsDigit) > 0
        && (var rest := t[1 + Span(t[1..], IsDigit)..]; rest == [] || ExponentToken(rest)))
  }

  /** The text of a finite float: never the text of an integer. */
  predicate FiniteToken(t: string) {
    var u := if t != [] && t[0] == '-' then t[1..] else t;
    var n := Span(u, IsDigit);
    n > 0 && (n > 1 ==> u[0] != '0') && FractionToken(u[n..])
  }

  /** What `json.dumps` writes for a float. */
  predicate FloatToken(t: string) { FiniteToken(t) || t == "NaN" || t == "Infinity" || t == "-Infinity" }

  function Denote(j: Json): Value {
    match j
    case Null => VNull
    case Bool(b) => VBool(b)
    case Int(n) => VInt(n)
    case Float(t) => VFloat(t)
    case Str(s) => VStr(s)
    case List(items) => VList(seq(|items|, i requires 0 <= i < |items| => Denote(items[i])))
    case Object(ms) => VObject(DenoteMembers(ms))
  }

  /** `dict(items)`: a later pair would replace an earlier one. */
  function DenoteMembers(ms: seq<Member>): map<string, Value> {
    if ms == [] then map[]
    else DenoteMembers(ms[..|ms| - 1])[ms[|ms| - 1].key := Denote(ms[|ms| - 1].value)]
  }

  lemma {:induction false} MembersMeaning(ms: seq<Member>)
    requires DistinctKeys(ms, KeyOf)
    ensures forall i :: 0 <= i < |ms| ==>
      ms[i].key in DenoteMembers(ms) && DenoteMembers(ms)[ms[i].key] == Denote(ms[i].value)
    ensures forall k :: k in DenoteMembers(ms) ==> exists i :: 0 <= i < |ms| && ms[i].key == k
  {
    if ms != [] {
      var front, last := ms[..|ms| - 1], ms[|ms| - 1];
      MembersMeaning(front);
      forall i | 0 <= i < |ms|
        ensures ms[i].key in DenoteMembers(ms) && DenoteMembers(ms)[ms[i].key] == Denote(ms[i].value)
      {
        if i < |ms| - 1 { assert front[i] == ms[i]; assert KeyOf(ms[i]) != KeyOf(last); }
      }
      forall k | k in DenoteMembers(ms) ensures exists i :: 0 <= i < |ms| && ms[i].key == k {
        if k == last.key { assert ms[|ms| - 1].key == k; }
        else {
          assert k in DenoteMembers(front);
          var i :| 0 <= i < |front| && front[i].key == k;
          assert ms[i].key == k;
        }
      }
    }
  }

  lemma MeaningWithin(a: seq<Member>, b: seq<Member>, k: string)
    requires DistinctKeys(a, KeyOf) && DistinctKeys(b, KeyOf) && (forall m :: m in a ==> m in b)
    requires k in DenoteMembers(a)
    ensures k in DenoteMembers(b) && DenoteMembers(b)[k] == DenoteMembers(a)[k]
  {
    MembersMeaning(a);
    var i :| 0 <= i < |a| && a[i].key == k;
    assert a[i] in b;
    var h :| 0 <= h < |b| && b[h] == a[i];
    MemberAt(b, h);
  }

  /** Reordering the members of an object does not change what it means. */
  lemma PermutedMembers(a: seq<Member>, b: seq<Member>)
    requires multiset(a) == multiset(b) && DistinctKeys(a, KeyOf)
    ensures DenoteMembers(a) == DenoteMembers(b)
  {
    DistinctPermutation(a, b, KeyOf);
    SameItems(a, b);
    var da, db := DenoteMembers(a), DenoteMembers(b);
    forall k | k in da ensures k in db && db[k] == da[k] { MeaningWithin(a, b, k); }
    forall k | k in db ensures k in da { MeaningWithin(b, a, k); }
  }

  /** Members that differ only in values with equal meanings have equal meanings. */
  lemma {:induction false} PointwiseMembers(a: seq<Member>, b: seq<Member>)
    requires |a| == |b|
    requires forall i :: 0 <= i < |a| ==> a[i].key == b[i].key && Denote(a[i].value) == Denote(b[i].value)
    ensures DenoteMembers(a) == DenoteMembers(b)
  {
    if a != [] { PointwiseMembers(a[..|a| - 1], b[..|b| - 1]); }
  }

  lemma MemberAt(ms: seq<Member>, i: nat)
    requires DistinctKeys(ms, KeyOf) && i < |ms|
    ensures ms[i].key in DenoteMembers(ms) && DenoteMembers(ms)[ms[i].key] == Denote(ms[i].value)
  {
    MembersMeaning(ms);
  }

  predicate SameMeanings(a: seq<Member>, b: seq<Member>)
    requires |a| == |b|
  {
    forall i :: 0 <= i < |a| ==> Denote(a[i].value) == Denote(b[i].value)
  }

  /** Two objects with the same keys in the same order mean the same exactly when their values do. */
  lemma SameKeysMeaning(a: seq<Member>, b: seq<Member>)
    requires |a| == |b| && DistinctKeys(a, KeyOf) && DistinctKeys(b, KeyOf)
    requires forall i :: 0 <= i < |a| ==> a[i].key == b[i].key
    ensures DenoteMembers(a) == DenoteMembers(b) <==> SameMeanings(a, b)
  {
    if DenoteMembers(a) == DenoteMembers(b) {
      forall i | 0 <= i < |a| ensures Denote(a[i].value) == Denote(b[i].value) { MemberAt(a, i); MemberAt(b, i); }
    } else if SameMeanings(a, b) {
      PointwiseMembers(a, b);
    }
  }
}
