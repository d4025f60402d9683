/** `commands/ps.py`: fitting the columns of the process table into a terminal. */
module ColumnWidths {

  function Sum(s: seq<int>): int { if s == [] then 0 else Sum(s[..|s| - 1]) + s[|s| - 1] }

  function Min(a: int, b: int): int { if a <= b then a else b }

  function Max(a: int, b: int): int { if a >= b then a else b }

  lemma {:induction false} SumUpdate(s: seq<int>, i: nat, x: int)
    requires i < |s|
    ensures Sum(s[i := x]) == Sum(s) - s[i] + x
  {
    var n := |s| - 1;
    if i < n {
      assert s[i := x][..n] == s[..n][i := x];
      SumUpdate(s[..n], i, x);
    } else {
      assert s[i := x][..n] == s[..n];
    }
  }

  lemma {:induction false} SumBetween(a: seq<int>, b: seq<int>)
    requires |a| == |b| && forall i :: 0 <= i < |a| ==> a[i] <= b[i]
    ensures Sum(a) <= Sum(b)
    ensures Sum(a) == Sum(b) ==> a == b
  {
    if a != [] {
      var n := |a| - 1;
      SumBetween(a[..n], b[..n]);
      if Sum(a) == Sum(b) { assert a == a[..n] + [a[n]] && b == b[..n] + [b[n]]; }
    }
  }

  /** Column `i` is shrunk before column `j`: it is wider, or as wide and further left. */
  predicate Before(natural: seq<int>, i: nat, j: nat)
    requires i < |natural| && j < |natural|
  {
    natural[i] > natural[j] || (natural[i] == natural[j] && i < j)
  }

  predicate Shrinkable(natural: seq<int>, minimums: seq<int>, i: nat)
    requires i < |natural| == |minimums|
  {
    natural[i] > minimums[i]
  }

  predicate Indices(log: seq<nat>, n: nat) { forall k :: 0 <= k < |log| ==> log[k] < n }

  /** The reductions so far: each column at most once, widest first, none passed over. */
  predicate WidestFirst(natural: seq<int>, minimums: seq<int>, log: seq<nat>) {
    && |natural| == |minimums| && Indices(log, |natural|)
    && (forall k :: 0 <= k < |log| ==> Shrinkable(natural, minimums, log[k]))
    && (forall k, l :: 0 <= k < l < |log| ==> Before(natural, log[k], log[l]))
    && (forall k, i :: 0 <= k < |log| && 0 <= i < |natural| && i !in log && Shrinkable(natural, minimums, i) ==>
      Before(natural, log[k], i))
  }

  /** Untouched columns keep their natural width; all reduced ones except the last are at their minimum. */
  predicate Shrunk(natural: seq<int>, minimums: seq<int>, log: seq<nat>, widths: seq<int>) {
    && |widths| == |natural| == |minimums| && Indices(log, |natural|)
    && (forall i :: 0 <= i < |natural| && i !in log ==> widths[i] == natural[i])
    && (forall k :: 0 <= k < |log| - 1 ==> widths[log[k]] == minimums[log[k]])
    && (forall i :: 0 <= i < |natural| ==> minimums[i] <= widths[i] <= natural[i])
  }

  /** `max(candidates, key=lambda c: (widths[c], -c))` over the columns above their minimum. */
  method WidestCandidate(widths: seq<int>, minimums: seq<int>) returns (index: int)
    requires |widths| == |minimums|
    ensures index == -1 <==> forall i :: 0 <= i < |widths| ==> widths[i] <= minimums[i]
    ensures -1 <= index < |widths|
    ensures index >= 0 ==> widths[index] > minimums[index]
    ensures index >= 0 ==>
      forall i :: 0 <= i < |widths| && i != index && widths[i] > minimums[i] ==> Before(widths, index, i)
  {
    index := -1;
    for i := 0 to |widths|
      invariant -1 <= index < i
      invariant index == -1 <==> forall j :: 0 <= j < i ==> widths[j] <= minimums[j]
      invariant index >= 0 ==> widths[index] > minimums[index]
      invariant index >= 0 ==>
        forall j :: 0 <= j < i && j != index && widths[j] > minimums[j] ==> Before(widths, index, j)
    {
      if widths[i] > minimums[i] && (index == -1 || widths[i] > widths[index]) { index := i; }
    }
  }

  /** The greedy loop. */
  method Shrink(natural: seq<int>, minimums: seq<int>, available: int) returns (widths: seq<int>, ghost log: seq<nat>)
    requires |natural| == |minimums| && forall i :: 0 <= i < |natural| ==> minimums[i] <= natural[i]
    ensures Shrunk(natural, minimums, log, widths)
    ensures WidestFirst(natural, minimums, log)
    ensures Sum(widths) == Min(Sum(natural), Max(available, Sum(minimums)))
  {
    widths := natural;
    log := [];
    var excess := Sum(widths) - available;
    SumBetween(minimums, natural);
    while excess > 0
      invariant Shrunk(natural, minimums, log, widths) && WidestFirst(natural, minimums, log)
      invariant excess == Sum(widths) - available
      invariant log != [] && excess > 0 ==> widths[log[|log| - 1]] == minimums[log[|log| - 1]]
      invariant Sum(widths) == Sum(natural) || excess >= 0
      invariant Sum(widths) <= Sum(natural)
    {
      var index := WidestCandidate(widths, minimums);
      SumBetween(minimums, widths);
      if index == -1 {
        assert forall i :: 0 <= i < |widths| ==> widths[i] == minimums[i];
        assert widths == minimums;
        break;
      }
      var reduction := Min(excess, widths[index] - minimums[index]);
      NextIsNew(natural, minimums, log, widths, index);
      ReduceStep(natural, minimums, log, widths, index, widths[index] - reduction);
      SumUpdate(widths, index, widths[index] - reduction);
      widths := widths[index := widths[index] - reduction];
      log := log + [index];
      excess := excess - reduction;
    }
    SumBetween(minimums, widths);
  }

  /** While something is left to cut, the columns already reduced are spent, so the widest candidate is a new one. */
  lemma NextIsNew(natural: seq<int>, minimums: seq<int>, log: seq<nat>, widths: seq<int>, index: nat)
    requires Shrunk(natural, minimums, log, widths) && WidestFirst(natural, minimums, log)
    requires log != [] ==> widths[log[|log| - 1]] == minimums[log[|log| - 1]]
    requires index < |widths| && widths[index] > minimums[index]
    requires forall i :: 0 <= i < |widths| && i != index && widths[i] > minimums[i] ==> Before(widths, index, i)
    ensures index !in log && WidestFirst(natural, minimums, log + [index])
  {
    assert forall k :: 0 <= k < |log| ==> widths[log[k]] == minimums[log[k]];
    var next := log + [index];
    forall i | 0 <= i < |natural| && i !in next && Shrinkable(natural, minimums, i) ensures Before(natural, index, i) {
      assert i !in log && widths[i] == natural[i];
    }
  }

  lemma ReduceStep(natural: seq<int>, minimums: seq<int>, log: seq<nat>, widths: seq<int>, index: nat, x: int)
    requires Shrunk(natural, minimums, log, widths) && index < |widths| && index !in log
    requires minimums[index] <= x <= widths[index]
    requires log != [] ==> widths[log[|log| - 1]] == minimums[log[|log| - 1]]
    ensures Shrunk(natural, minimums, log + [index], widths[index := x])
  {
    var next, after := log + [index], widths[index := x];
    forall k | 0 <= k < |next| - 1 ensures after[next[k]] == minimums[next[k]] {
      assert next[k] == log[k] && log[k] in log;
    }
  }

  // ---------------------------------------------------------------- the seven columns

  const CHROME := 14
  const TYPE_MIN := 7
  const DETAILS_MIN := 13

  /** Widths of the headers Type, State, PID / scope, Processes, CPU, Memory, Details. */
  const HEADERS := [4, 5, 11, 9, 3, 6, 7]

  predicate Table(rows: seq<seq<int>>) { forall k :: 0 <= k < |rows| ==> |rows[k]| == |HEADERS| }

  /** The widest of the header and the cells of a column. */
  function Natural(rows: seq<seq<int>>, i: nat): (w: int)
    requires i < |HEADERS| && Table(rows)
    ensures w >= [4, 5, 11, 9, 3, 6, 7][i] && forall k :: 0 <= k < |rows| ==> w >= rows[k][i]
    ensures w == [4, 5, 11, 9, 3, 6, 7][i] || exists k :: 0 <= k < |rows| && w == rows[k][i]
  {
    if rows == [] then HEADERS[i]
    else
      var w := Natural(rows[..|rows| - 1], i);
      var x := rows[|rows| - 1][i];
      if x > w then x else w
  }

  function Naturals(rows: seq<seq<int>>): (ws: seq<int>)
    requires Table(rows)
    ensures |ws| == |HEADERS| && forall i :: 0 <= i < |HEADERS| ==> ws[i] == Natural(rows, i)
  {
    seq(|HEADERS|, i requires 0 <= i < |HEADERS| => Natural(rows, i))
  }

  function Available(width: int): int { Max(|HEADERS|, width - CHROME) }

  function Minimums(natural: seq<int>, available: int): (m: seq<int>)
    requires |natural| == |HEADERS| && forall i :: 0 <= i < |HEADERS| ==> natural[i] >= HEADERS[i]
    ensures |m| == |natural| && forall i :: 0 <= i < |m| ==> 1 <= m[i] <= natural[i]
  {
    if available >= Sum(HEADERS)
    then [Min(natural[0], Max(HEADERS[0], TYPE_MIN)), HEADERS[1], HEADERS[2], HEADERS[3], HEADERS[4], HEADERS[5],
          Min(natural[6], Max(HEADERS[6], DETAILS_MIN))]
    else [1, 1, 1, 1, 1, 1, 1]
  }

  /** The widths no column goes below on a terminal that can show the headers. */
  const FLOORS := [7, 5, 11, 9, 3, 6, 13]

  lemma SevenAdd(s: seq<int>)
    requires |s| == 7
    ensures Sum(s) == s[0] + s[1] + s[2] + s[3] + s[4] + s[5] + s[6]
  {
    assert s[..6][..5] == s[..5] && s[..5][..4] == s[..4] && s[..4][..3] == s[..3];
    assert s[..3][..2] == s[..2] && s[..2][..1] == s[..1] && s[..1][..0] == [];
    assert Sum(s[..1]) == s[0];
    assert Sum(s[..3]) == s[0] + s[1] + s[2];
    assert Sum(s[..5]) == s[0] + s[1] + s[2] + s[3] + s[4];
  }

  lemma MinimumsAdd(natural: seq<int>, available: int)
    requires |natural| == 7 && forall i :: 0 <= i < 7 ==> natural[i] >= HEADERS[i]
    ensures var m := Minimums(natural, available);
      available >= 45 ==> 45 <= Sum(m) <= 54 && forall i :: 0 <= i < 7 ==> m[i] == Min(natural[i], FLOORS[i])
    ensures available < 45 ==> Sum(Minimums(natural, available)) == 7
  {
    SevenAdd(HEADERS);
    SevenAdd(Minimums(natural, available));
  }

  /** What the widths come to in numbers, with 14 columns of the terminal left for borders and padding: everything is
      shown if it fits; otherwise the terminal is filled to the last column, unless all columns are at their floors
      and still too wide. */
  ghost predicate Laid(natural: seq<int>, width: int, widths: seq<int>) {
    && |natural| == |widths| == 7
    && (forall i :: 0 <= i < 7 ==> Floor(natural, width, i) <= widths[i] <= natural[i])
    && (Sum(natural) + 14 <= width ==> widths == natural)
    && (Sum(natural) + 14 > width ==>
          || Sum(widths) + 14 == width
          || (Sum(widths) + 14 > width && forall i :: 0 <= i < 7 ==> widths[i] == Floor(natural, width, i)))
  }

  function Floor(natural: seq<int>, width: int, i: nat): int
    requires |natural| == 7 && i < 7
  {
    if width < 59 then 1 else if natural[i] < FLOORS[i] then natural[i] else FLOORS[i]
  }

  lemma LaidOut(natural: seq<int>, width: int, log: seq<nat>, widths: seq<int>)
    requires |natural| == 7 && forall i :: 0 <= i < 7 ==> natural[i] >= HEADERS[i]
    requires Shrunk(natural, Minimums(natural, Available(width)), log, widths)
    requires var m := Sum(Minimums(natural, Available(width)));
      Sum(widths) == Min(Sum(natural), Max(Available(width), m))
    ensures Laid(natural, width, widths)
  {
    var minimums := Minimums(natural, Available(width));
    MinimumsAdd(natural, Available(width));
    FitsWhenItCan(natural, minimums, Available(width), log, widths);
    SevenAdd(HEADERS);
    SumBetween(HEADERS, natural);
  }

  /** `_process_column_widths`: a width that is not positive is an error; otherwise the columns fill exactly
      what is available, as far as their natural and minimum widths let them. */
  method ProcessColumnWidths(rows: seq<seq<int>>, width: int) returns (ok: bool, widths: seq<int>, ghost log: seq<nat>)
    requires Table(rows)
    ensures ok <==> width > 0
    ensures ok ==>
      var natural := Naturals(rows);
      var minimums := Minimums(natural, Available(width));
      && Shrunk(natural, minimums, log, widths) && WidestFirst(natural, minimums, log)
      && Sum(widths) == Min(Sum(natural), Max(Available(width), Sum(minimums)))
    ensures ok ==> Laid(Naturals(rows), width, widths)
  {
    if width <= 0 { return false, [], []; }
    var natural := Naturals(rows);
    var minimums := Minimums(natural, Available(width));
    widths, log := Shrink(natural, minimums, Available(width));
    ok := true;
    LaidOut(natural, width, log, widths);
  }

  /** The table fits whenever the minimum widths do, and nothing is cut when everything fits. */
  lemma FitsWhenItCan(natural: seq<int>, minimums: seq<int>, available: int, log: seq<nat>, widths: seq<int>)
    requires Shrunk(natural, minimums, log, widths)
    requires Sum(widths) == Min(Sum(natural), Max(available, Sum(minimums)))
    ensures Sum(minimums) <= available ==> Sum(widths) <= available
    ensures Sum(natural) <= available ==> widths == natural
    ensures Sum(minimums) >= available ==> widths == minimums
  {
    SumBetween(minimums, widths);
    SumBetween(widths, natural);
  }
}
