/** `http/admin_catalog.py`: reading a catalogue page by page through keyset cursors. */
module CatalogPages {
  import opened Text

  const PAGE := 1000

  /** The rows of one filtered query in canonical order; each row has its own rank in that order. */
  datatype Catalog<!T> = Catalog(rows: seq<T>, rank: T -> int)

  ghost predicate Valid<T>(c: Catalog<T>) {
    forall i, j :: 0 <= i < j < |c.rows| ==> c.rank(c.rows[i]) < c.rank(c.rows[j])
  }

  datatype Page<T> = Page(items: seq<T>, next: Option<int>)

  function Filter<T>(s: seq<T>, p: T -> bool): seq<T> {
    if s == [] then [] else Filter(s[..|s| - 1], p) + if p(s[|s| - 1]) then [s[|s| - 1]] else []
  }

  lemma {:induction false} FilterConcat<T>(a: seq<T>, b: seq<T>, p: T -> bool)
    ensures Filter(a + b, p) == Filter(a, p) + Filter(b, p)
  {
    if b == [] {
      assert a + b == a;
    } else {
      assert (a + b)[..|a + b| - 1] == a + b[..|b| - 1];
      FilterConcat(a, b[..|b| - 1], p);
    }
  }

  lemma {:induction false} FilterKeeps<T>(s: seq<T>, p: T -> bool)
    ensures forall x :: x in Filter(s, p) <==> x in s && p(x)
  {
    if s != [] {
      FilterKeeps(s[..|s| - 1], p);
      assert s == s[..|s| - 1] + [s[|s| - 1]];
    }
  }

  lemma {:induction false} FilteredRow<T>(s: seq<T>, p: T -> bool, i: nat) returns (k: nat)
    requires i < |Filter(s, p)|
    ensures k < |s| && s[k] == Filter(s, p)[i]
  {
    var n := |s| - 1;
    if i < |Filter(s[..n], p)| { k := FilteredRow(s[..n], p, i); } else { k := n; }
  }

  lemma {:induction false} FilterOrder<T>(s: seq<T>, rank: T -> int, p: T -> bool)
    requires forall i, j :: 0 <= i < j < |s| ==> rank(s[i]) < rank(s[j])
    ensures var all := Filter(s, p); forall i, j :: 0 <= i < j < |all| ==> rank(all[i]) < rank(all[j])
  {
    if s != [] {
      var front, last := s[..|s| - 1], s[|s| - 1];
      FilterOrder(front, rank, p);
      var all := Filter(front, p);
      forall i | 0 <= i < |all| ensures rank(all[i]) < rank(last) {
        var k := FilteredRow(front, p, i);
        assert front[k] == s[k];
      }
      var whole := Filter(s, p);
      forall i, j | 0 <= i < j < |whole| ensures rank(whole[i]) < rank(whole[j]) {
        assert whole[i] == all[i];
        if j < |all| { assert whole[j] == all[j]; } else { assert whole[j] == last; }
      }
    }
  }

  /** Filtering the catalogue keeps exactly the matching rows, in canonical order and each once. */
  lemma FilterFacts<T>(c: Catalog<T>, p: T -> bool)
    requires Valid(c)
    ensures var all := Filter(c.rows, p);
      && (forall x :: x in all <==> x in c.rows && p(x))
      && (forall i, j :: 0 <= i < j < |all| ==> c.rank(all[i]) < c.rank(all[j]))
  {
    FilterKeeps(c.rows, p);
    FilterOrder(c.rows, c.rank, p);
  }

  /** The rows behind a cursor: all of them, or those ranked after the row it names. */
  function Behind<T>(c: Catalog<T>, cursor: Option<int>): seq<T> {
    if cursor.None? then c.rows else Filter(c.rows, (r: T) => c.rank(r) > cursor.value)
  }

  /** `storage/catalog/read.py`: select one row more than asked for; a cursor follows exactly when it is there. */
  function Fetch<T>(c: Catalog<T>, limit: nat, cursor: Option<int>): Page<T>
    requires 1 <= limit <= PAGE
  {
    var rest := Behind(c, cursor);
    if |rest| > limit then Page(rest[..limit], Some(c.rank(rest[limit - 1]))) else Page(rest, None)
  }

  /** The cursor stands after the first `k` rows. */
  ghost predicate StandsAt<T>(c: Catalog<T>, cursor: Option<int>, k: nat) {
    k <= |c.rows| && (if cursor.None? then k == 0 else k > 0 && cursor.value == c.rank(c.rows[k - 1]))
  }

  lemma {:induction false} FilterNone<T>(s: seq<T>, p: T -> bool)
    requires forall i :: 0 <= i < |s| ==> !p(s[i])
    ensures Filter(s, p) == []
  {
    if s != [] { FilterNone(s[..|s| - 1], p); }
  }

  lemma {:induction false} FilterSuffix<T>(s: seq<T>, k: nat, p: T -> bool)
    requires k <= |s| && (forall i :: 0 <= i < k ==> !p(s[i])) && (forall i :: k <= i < |s| ==> p(s[i]))
    ensures Filter(s, p) == s[k..]
  {
    if |s| == k {
      FilterNone(s, p);
    } else {
      var n := |s| - 1;
      FilterSuffix(s[..n], k, p);
      assert s[..n][k..] + [s[n]] == s[k..];
    }
  }

  /** Keyset paging is positional: behind the k-th row lie exactly the rows from k on. */
  lemma BehindIsSuffix<T>(c: Catalog<T>, cursor: Option<int>, k: nat)
    requires Valid(c) && StandsAt(c, cursor, k)
    ensures Behind(c, cursor) == c.rows[k..]
  {
    if cursor.Some? {
      var p := (r: T) => c.rank(r) > cursor.value;
      forall i | 0 <= i < k ensures !p(c.rows[i]) {
        if i < k - 1 { assert c.rank(c.rows[i]) < c.rank(c.rows[k - 1]); }
      }
      forall i | k <= i < |c.rows| ensures p(c.rows[i]) { assert c.rank(c.rows[k - 1]) < c.rank(c.rows[i]); }
      FilterSuffix(c.rows, k, p);
      assert Behind(c, cursor) == Filter(c.rows, p);
    }
  }

  lemma FetchFacts<T>(c: Catalog<T>, limit: nat, cursor: Option<int>, k: nat)
    requires Valid(c) && StandsAt(c, cursor, k) && 1 <= limit <= PAGE
    ensures var page := Fetch(c, limit, cursor);
      var n := if k + limit < |c.rows| then k + limit else |c.rows|;
      && page.items == c.rows[k..n]
      && (page.next.None? <==> n == |c.rows|)
      && (page.next.Some? ==> n > k && StandsAt(c, page.next, n))
  {
    BehindIsSuffix(c, cursor, k);
    var rest := c.rows[k..];
    if |rest| > limit { assert rest[limit - 1] == c.rows[k + limit - 1]; }
  }

  function Min(a: int, b: int): int { if a <= b then a else b }

  function Max(a: int, b: int): int { if a >= b then a else b }

  /** Positions `from` to `to` of a list, as a Python slice cuts them. */
  function Slice<T>(s: seq<T>, from: nat, to: nat): seq<T>
    requires from <= to
  {
    s[Min(from, |s|)..Min(to, |s|)]
  }

  /** Reading the rows from `k` to `n` extends the filtered prefix; what is still to come only appends to it. */
  lemma Advance<T>(rows: seq<T>, matches: T -> bool, k: nat, n: nat)
    requires k <= n <= |rows|
    ensures Filter(rows[..n], matches) == Filter(rows[..k], matches) + Filter(rows[k..n], matches)
    ensures Filter(rows, matches) == Filter(rows[..n], matches) + Filter(rows[n..], matches)
    ensures n == |rows| ==> Filter(rows, matches) == Filter(rows[..n], matches)
  {
    TwoPieces(rows, 0, k, n);
    FilterOf(rows[..n], rows[..k], rows[k..n], matches);
    TwoPieces(rows, 0, n, |rows|);
    FilterOf(rows, rows[..n], rows[n..], matches);
    if n == |rows| { assert rows[..n] == rows; }
  }

  lemma FilterOf<T>(s: seq<T>, a: seq<T>, b: seq<T>, p: T -> bool)
    requires s == a + b
    ensures Filter(s, p) == Filter(a, p) + Filter(b, p)
  {
    FilterConcat(a, b, p);
  }

  lemma TwoPieces<T>(s: seq<T>, i: nat, j: nat, k: nat)
    requires i <= j <= k <= |s|
    ensures s[i..k] == s[i..j] + s[j..k]
    ensures i == 0 && k == |s| ==> s == s[..j] + s[j..]
    ensures i == 0 ==> s[..k] == s[..j] + s[j..k]
  {
  }

  lemma SliceOfPrefix<T>(a: seq<T>, b: seq<T>, from: nat, to: nat)
    requires from <= to <= |a|
    ensures Slice(a + b, from, to) == a[from..to]
  {
  }

  lemma ShortSlice<T>(a: seq<T>, from: nat, to: nat)
    requires from <= to && |a| <= to
    ensures Slice(a, from, to) == a[Min(from, |a|)..]
  {
  }

  /** One call of the fetcher, from the `k`-th row up to the `n`-th. */
  method FetchPage<T>(c: Catalog<T>, limit: nat, cursor: Option<int>, ghost k: nat)
    returns (page: Page<T>, ghost n: nat)
    requires Valid(c) && StandsAt(c, cursor, k) && 1 <= limit <= PAGE
    ensures k <= n <= |c.rows| && page.items == c.rows[k..n]
    ensures page.next.None? <==> n == |c.rows|
    ensures page.next.Some? ==> n > k && StandsAt(c, page.next, n)
  {
    page := Fetch(c, limit, cursor);
    FetchFacts(c, limit, cursor, k);
    n := k + |page.items|;
  }

  /** One Admin page: the slice of the filtered catalogue, at most a thousand rows of it. */
  function AdminPage<T>(c: Catalog<T>, skip: nat, limit: int, matches: T -> bool): seq<T> {
    if limit <= 0 then [] else Slice(Filter(c.rows, matches), skip, skip + Min(limit, PAGE))
  }

  /** The incremental reader ends with that page. */
  method ReadCatalogPages<T>(c: Catalog<T>, skip: nat, limit: int, matches: T -> bool) returns (r: seq<T>)
    requires Valid(c)
    ensures r == AdminPage(c, skip, limit, matches)
    ensures limit <= 0 || skip >= |Filter(c.rows, matches)| ==> r == []
    ensures var all := Filter(c.rows, matches);
      var wanted := if limit < 1000 then limit else 1000;
      limit > 0 && skip < |all| ==> r == if skip + wanted < |all| then all[skip..skip + wanted] else all[skip..]
  {
    if limit <= 0 { return []; }
    var needed := skip + Min(limit, PAGE);
    var cursor: Option<int> := None;
    var result: seq<T> := [];
    ghost var k := 0;
    while true
      invariant StandsAt(c, cursor, k) && |result| < needed
      invariant result == Filter(c.rows[..k], matches)
      decreases |c.rows| - k
    {
      var pageLimit := Min(PAGE, Max(1, needed - |result|));
      var page, n := FetchPage(c, pageLimit, cursor, k);
      Advance(c.rows, matches, k, n);
      result := result + Filter(page.items, matches);
      if |result| >= needed {
        SliceOfPrefix(result, Filter(c.rows[n..], matches), skip, needed);
        return result[skip..needed];
      }
      cursor := page.next;
      if cursor.None? {
        ShortSlice(result, skip, needed);
        return result[Min(skip, |result|)..];
      }
      k := n;
    }
  }

  method CountCatalogPages<T>(c: Catalog<T>, matches: T -> bool) returns (total: nat)
    requires Valid(c)
    ensures total == |Filter(c.rows, matches)|
  {
    var cursor: Option<int> := None;
    total := 0;
    ghost var k := 0;
    while true
      invariant StandsAt(c, cursor, k) && total == |Filter(c.rows[..k], matches)|
      decreases |c.rows| - k
    {
      var page, n := FetchPage(c, PAGE, cursor, k);
      Advance(c.rows, matches, k, n);
      total := total + |Filter(page.items, matches)|;
      cursor := page.next;
      if cursor.None? { return; }
      k := n;
    }
  }

  /** The first row that satisfies the predicate, if any does. */
  method FindCatalogItem<T>(c: Catalog<T>, wanted: T -> bool) returns (r: Option<T>)
    requires Valid(c)
    ensures r.None? <==> forall i :: 0 <= i < |c.rows| ==> !wanted(c.rows[i])
    ensures r.Some? ==>
      exists i :: 0 <= i < |c.rows| && r.value == c.rows[i] && wanted(c.rows[i]) && forall j :: 0 <= j < i ==>
        !wanted(c.rows[j])
  {
    var cursor: Option<int> := None;
    ghost var k := 0;
    while true
      invariant StandsAt(c, cursor, k) && forall i :: 0 <= i < k ==> !wanted(c.rows[i])
      decreases |c.rows| - k
    {
      var page, n := FetchPage(c, PAGE, cursor, k);
      for i := 0 to |page.items|
        invariant forall j :: 0 <= j < k + i ==> !wanted(c.rows[j])
      {
        assert page.items[i] == c.rows[k + i];
        if wanted(page.items[i]) { return Some(page.items[i]); }
      }
      cursor := page.next;
      if cursor.None? { return None; }
      k := n;
    }
  }

  /** The first `n` pages of one size, one after the other. */
  function Pages<T>(c: Catalog<T>, size: nat, n: nat, matches: T -> bool): seq<T> {
    if n == 0 then [] else Pages(c, size, n - 1, matches) + AdminPage(c, (n - 1) * size, size, matches)
  }

  /** Consecutive pages of one size up to a thousand join to the filtered catalogue: no gap and no repeat. */
  lemma {:induction false} PagesJoin<T>(c: Catalog<T>, size: nat, n: nat, matches: T -> bool)
    requires 1 <= size <= PAGE
    ensures var all := Filter(c.rows, matches);
      && Pages(c, size, n, matches) == all[..Min(n * size, |all|)]
      && (n * size >= |all| ==> Pages(c, size, n, matches) == all)
  {
    if n > 0 {
      PagesJoin(c, size, n - 1, matches);
      NextPage(n, size);
      SlicesMeet(Filter(c.rows, matches), (n - 1) * size, n * size);
    }
  }

  lemma NextPage(n: nat, size: nat)
    requires n > 0
    ensures (n - 1) * size + size == n * size && 0 <= (n - 1) * size <= n * size
  {
  }

  lemma SlicesMeet<T>(s: seq<T>, from: nat, to: nat)
    requires from <= to
    ensures s[..Min(from, |s|)] + Slice(s, from, to) == s[..Min(to, |s|)]
  {
  }

  /** Everything fits into one page: later pages are empty. */
  lemma {:induction false} OnePageIsAll<T>(c: Catalog<T>, size: nat, n: nat, matches: T -> bool)
    requires size > PAGE && n > 0 && |Filter(c.rows, matches)| <= PAGE
    ensures Pages(c, size, n, matches) == Filter(c.rows, matches)
  {
    var all := Filter(c.rows, matches);
    if n == 1 {
      assert Pages(c, size, 0, matches) == [];
      assert AdminPage(c, 0 * size, size, matches) == all;
    } else {
      OnePageIsAll(c, size, n - 1, matches);
      BeyondOnePage(n - 1, size);
      assert AdminPage(c, (n - 1) * size, size, matches) == [];
    }
  }

  lemma BeyondOnePage(n: nat, size: nat)
    requires n > 0 && size > PAGE
    ensures n * size > PAGE
  {
    assert n * size >= 1 * size;
  }

  /** A page above the cap is shorter than the distance to the next one, so rows are missing from the first page on. */
  lemma {:induction false} PagesFallShort<T>(c: Catalog<T>, size: nat, n: nat, matches: T -> bool)
    requires size > PAGE && n > 0 && |Filter(c.rows, matches)| > PAGE
    ensures |Pages(c, size, n, matches)| < Min(n * size, |Filter(c.rows, matches)|)
  {
    if n == 1 {
      assert Pages(c, size, 0, matches) == [] && 0 * size == 0;
    } else {
      PagesFallShort(c, size, n - 1, matches);
      NextPage(n, size);
    }
    PageLength(c, size, n - 1, matches);
  }

  /** What a capped page adds is at most what lies between two page starts. */
  lemma PageLength<T>(c: Catalog<T>, size: nat, k: nat, matches: T -> bool)
    requires size > PAGE
    ensures var total := |Filter(c.rows, matches)|;
      && |AdminPage(c, k * size, size, matches)| == Min(k * size + PAGE, total) - Min(k * size, total)
      && k * size + size == (k + 1) * size
  {
  }

  /** Pages of one size that reach the end join to the filtered catalogue if and only if the size is within the cap or
      everything fits into one page. */
  lemma PagesJoinExactlyWhen<T>(c: Catalog<T>, size: nat, n: nat, matches: T -> bool)
    requires n > 0 && size >= 1 && n * size >= |Filter(c.rows, matches)|
    ensures Pages(c, size, n, matches) == Filter(c.rows, matches) <==> size <= PAGE || |Filter(c.rows, matches)| <= PAGE
  {
    if size <= PAGE {
      PagesJoin(c, size, n, matches);
    } else if |Filter(c.rows, matches)| <= PAGE {
      OnePageIsAll(c, size, n, matches);
    } else {
      PagesFallShort(c, size, n, matches);
    }
  }

  /** Reading page after page. */
  method ReadPages<T>(c: Catalog<T>, size: nat, n: nat, matches: T -> bool) returns (r: seq<T>)
    requires Valid(c) && 1 <= size <= PAGE
    ensures var all := Filter(c.rows, matches); r == all[..Min(n * size, |all|)]
  {
    r := [];
    for i := 0 to n
      invariant r == Pages(c, size, i, matches)
    {
      var page := ReadCatalogPages(c, i * size, size, matches);
      r := r + page;
    }
    PagesJoin(c, size, n, matches);
  }
}
