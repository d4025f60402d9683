/** `sorted(items, key=...)`: Python's stable sort, on a key that is compared by code point. */
module Sorting {
  import opened Text

  predicate Sorted<T>(s: seq<T>, key: T -> string) {
    forall i, j :: 0 <= i < j < |s| ==> AtMost(key(s[i]), key(s[j]))
  }

  predicate DistinctKeys<T>(s: seq<T>, key: T -> string) {
    forall i, j :: 0 <= i < j < |s| ==> key(s[i]) != key(s[j])
  }

  function Insert<T>(x: T, s: seq<T>, key: T -> string): (r: seq<T>)
    ensures |r| == |s| + 1
  {
    if s == [] || AtMost(key(x), key(s[0])) then [x] + s else [s[0]] + Insert(x, s[1..], key)
  }

  /** Insertion from the right keeps equal keys in their original order. */
  function Sort<T>(s: seq<T>, key: T -> string): (r: seq<T>)
    ensures |r| == |s|
  {
    if s == [] then [] else Insert(s[0], Sort(s[1..], key), key)
  }

  lemma {:induction false} InsertFacts<T>(x: T, s: seq<T>, key: T -> string)
    requires Sorted(s, key)
    ensures Sorted(Insert(x, s, key), key)
    ensures multiset(Insert(x, s, key)) == multiset(s) + multiset{x}
  {
    if s == [] {
    } else if AtMost(key(x), key(s[0])) {
      var r := [x] + s;
      forall j | 0 < j < |r| ensures AtMost(key(r[0]), key(r[j])) {
        LessTotal(key(s[0]), key(s[0]));
        LessTransitive(key(x), key(s[0]), key(s[j - 1]));
      }
    } else {
      InsertFacts(x, s[1..], key);
      var t := Insert(x, s[1..], key);
      var r := [s[0]] + t;
      assert s == [s[0]] + s[1..];
      LessTotal(key(x), key(s[0]));
      forall j | 0 < j < |r| ensures AtMost(key(r[0]), key(r[j])) {
        assert r[j] in multiset(t);
        if r[j] != x { assert r[j] in s[1..]; }
      }
    }
  }

  /** The result is ordered and holds exactly the given items. */
  lemma {:induction false} SortFacts<T>(s: seq<T>, key: T -> string)
    ensures Sorted(Sort(s, key), key)
    ensures multiset(Sort(s, key)) == multiset(s)
  {
    if s != [] {
      SortFacts(s[1..], key);
      InsertFacts(s[0], Sort(s[1..], key), key);
      assert s == [s[0]] + s[1..];
    }
  }

  /** Sorting an ordered list changes nothing. */
  lemma {:induction false} SortOfSorted<T>(s: seq<T>, key: T -> string)
    requires Sorted(s, key)
    ensures Sort(s, key) == s
  {
    if s != [] { SortOfSorted(s[1..], key); }
  }

  lemma SameItems<T>(a: seq<T>, b: seq<T>)
    requires multiset(a) == multiset(b)
    ensures |a| == |b| && forall x :: x in a <==> x in b
  {
    assert |a| == |multiset(a)| && |b| == |multiset(b)|;
    forall x ensures x in a <==> x in b { assert x in multiset(a) <==> x in multiset(b); }
  }

  /** A permutation keeps keys distinct. */
  lemma {:induction false} DistinctPermutation<T>(a: seq<T>, b: seq<T>, key: T -> string)
    requires multiset(a) == multiset(b) && DistinctKeys(a, key)
    ensures DistinctKeys(b, key)
  {
    SameItems(a, b);
    forall i, j | 0 <= i < j < |b| ensures key(b[i]) != key(b[j]) {
      assert b[i] in a && b[j] in a;
      var p :| 0 <= p < |a| && a[p] == b[i];
      var q :| 0 <= q < |a| && a[q] == b[j];
      if p == q { TwiceInSeq(b, i, j); OnceInSeq(a, p, key); }
    }
  }

  lemma TwiceInSeq<T>(b: seq<T>, i: nat, j: nat)
    requires i < j < |b| && b[i] == b[j]
    ensures multiset(b)[b[i]] >= 2
  {
    assert b == b[..i] + [b[i]] + b[i + 1..j] + [b[j]] + b[j + 1..];
  }

  lemma OnceInSeq<T>(a: seq<T>, p: nat, key: T -> string)
    requires p < |a| && DistinctKeys(a, key)
    ensures multiset(a)[a[p]] == 1
  {
    assert a == a[..p] + [a[p]] + a[p + 1..];
    assert a[p] !in a[..p] && a[p] !in a[p + 1..];
  }

  lemma SameLeast<T>(a: seq<T>, b: seq<T>, key: T -> string)
    requires multiset(a) == multiset(b) && DistinctKeys(a, key) && a != [] && b != []
    requires Sorted(a, key) && Sorted(b, key)
    ensures a[0] == b[0]
  {
    SameItems(a, b);
    assert b[0] in a && a[0] in b;
    LessTotal(key(a[0]), key(b[0]));
    LessTotal(key(a[0]), key(a[0]));
    assert AtMost(key(a[0]), key(b[0])) && AtMost(key(b[0]), key(a[0]));
  }

  lemma TailMultiset<T>(a: seq<T>)
    requires a != []
    ensures multiset(a[1..]) == multiset(a) - multiset{a[0]}
  {
    assert a == [a[0]] + a[1..];
  }

  /** With distinct keys there is only one ordered arrangement of the same items. */
  lemma {:induction false} SortedUnique<T>(a: seq<T>, b: seq<T>, key: T -> string)
    requires multiset(a) == multiset(b) && DistinctKeys(a, key)
    requires Sorted(a, key) && Sorted(b, key)
    ensures a == b
  {
    SameItems(a, b);
    if a != [] {
      SameLeast(a, b, key);
      TailMultiset(a);
      TailMultiset(b);
      SortedUnique(a[1..], b[1..], key);
      assert a == [a[0]] + a[1..] && b == [b[0]] + b[1..];
    }
  }
}
