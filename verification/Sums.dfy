// Sums over the rows of a table: the SQL aggregates SUM(...) that the payments service recomputes on every read.
module Sums {
  import opened Wrappers

  function Sum(s: seq<int>): int {
    if s == [] then 0 else Sum(s[..|s| - 1]) + s[|s| - 1]
  }

  lemma {:induction false} SumUpdate(s: seq<int>, i: nat, x: int)
    requires i < |s|
    ensures Sum(s[i := x]) == Sum(s) - s[i] + x
  {
    var n := |s| - 1;
    if i == n {
      assert s[i := x][..n] == s[..n];
    } else {
      SumUpdate(s[..n], i, x);
      assert s[i := x][..n] == s[..n][i := x];
    }
  }

  lemma {:induction false} SumNonNegative(s: seq<int>)
    requires forall k | 0 <= k < |s| :: 0 <= s[k]
    ensures 0 <= Sum(s)
    ensures forall k | 0 <= k < |s| :: s[k] <= Sum(s)
  {
    if s == [] {
    } else {
      SumNonNegative(s[..|s| - 1]);
    }
  }

  // A sum is bounded by another one when its non-zero terms are sent, injectively, to terms at least as large.
  lemma {:induction false} SumInjection(a: seq<int>, b: seq<int>, pick: seq<Option<nat>>)
    requires |pick| == |a|
    requires forall k | 0 <= k < |b| :: 0 <= b[k]
    requires forall i | 0 <= i < |a| :: pick[i].None? ==> a[i] <= 0
    requires forall i | 0 <= i < |a| :: pick[i].Some? ==> pick[i].value < |b| && a[i] <= b[pick[i].value]
    requires forall i, j | 0 <= i < j < |a| :: pick[i].Some? ==> pick[i] != pick[j]
    ensures Sum(a) <= Sum(b)
  {
    if a == [] {
      SumNonNegative(b);
    } else {
      var n := |a| - 1;
      if pick[n].None? {
        SumInjection(a[..n], b, pick[..n]);
      } else {
        var j := pick[n].value;
        SumUpdate(b, j, 0);
        SumInjection(a[..n], b[j := 0], pick[..n]);
      }
    }
  }

  function Column<T>(rows: seq<T>, f: T -> int): seq<int> {
    seq(|rows|, i requires 0 <= i < |rows| => f(rows[i]))
  }

  // The sum of one computed column.
  function SumOf<T>(rows: seq<T>, f: T -> int): int {
    Sum(Column(rows, f))
  }

  lemma SumOfInsert<T>(rows: seq<T>, row: T, f: T -> int)
    ensures SumOf(rows + [row], f) == SumOf(rows, f) + f(row)
  {
    assert Column(rows + [row], f)[..|rows|] == Column(rows, f);
  }

  lemma SumOfUpdate<T>(rows: seq<T>, i: nat, row: T, f: T -> int)
    requires i < |rows|
    ensures SumOf(rows[i := row], f) == SumOf(rows, f) - f(rows[i]) + f(row)
  {
    SumUpdate(Column(rows, f), i, f(row));
    assert Column(rows[i := row], f) == Column(rows, f)[i := f(row)];
  }

  lemma SumOfBounds<T>(rows: seq<T>, f: T -> int)
    requires forall k | 0 <= k < |rows| :: 0 <= f(rows[k])
    ensures 0 <= SumOf(rows, f)
    ensures forall k | 0 <= k < |rows| :: f(rows[k]) <= SumOf(rows, f)
  {
    SumNonNegative(Column(rows, f));
    forall k | 0 <= k < |rows| ensures f(rows[k]) <= SumOf(rows, f) {
      assert Column(rows, f)[k] == f(rows[k]);
    }
  }
}
