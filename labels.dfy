/**
 * Partitioning the training rows by label, as `give_private_prototypes` does:
 * `np.unique` gives the distinct labels in ascending order, and for each of them
 * the boolean mask `train_targets == target` selects that label's rows.
 */
module Labels {

  predicate StrictlyIncreasing(s: seq<int>) {
    forall i, j :: 0 <= i < j < |s| ==> s[i] < s[j]
  }

  /** Adds `x` to a strictly increasing sequence, keeping it strictly increasing. */
  function Insert(u: seq<int>, x: int): (r: seq<int>)
    requires StrictlyIncreasing(u)
    ensures StrictlyIncreasing(r)
    ensures forall y :: y in r <==> y in u || y == x
    ensures |r| <= |u| + 1
  {
    if u == [] then [x]
    else if x < u[0] then [x] + u
    else if x == u[0] then u
    else
      assert u == [u[0]] + u[1..];
      var rest := Insert(u[1..], x);
      assert forall y :: y in rest ==> u[0] < y by {
        forall y | y in rest ensures u[0] < y {
          if y in u[1..] {
            var j :| 0 <= j < |u[1..]| && u[1..][j] == y;
            assert u[j + 1] == y;
          }
        }
      }
      var r := [u[0]] + rest;
      assert forall j :: 0 < j < |r| ==> r[j] == rest[j - 1] && r[j] in rest;
      assert forall y :: y in r <==> y == u[0] || y in rest;
      r
  }

  /** `np.unique(labels)`: the distinct labels, in ascending order. */
  function Unique(labels: seq<int>): (u: seq<int>)
    ensures StrictlyIncreasing(u)
    ensures forall y :: y in u <==> y in labels
    ensures |u| <= |labels|
  {
    if labels == [] then []
    else Insert(Unique(labels[..|labels| - 1]), labels[|labels| - 1])
  }

  /** The positions of the mask `labels == t`, in increasing order. */
  function MatchingIndices(labels: seq<int>, t: int): (idx: seq<nat>)
    ensures forall j, k :: 0 <= j < k < |idx| ==> idx[j] < idx[k]
    ensures forall j :: 0 <= j < |idx| ==> idx[j] < |labels| && labels[idx[j]] == t
    ensures forall i :: 0 <= i < |labels| && labels[i] == t ==> i in idx
  {
    if labels == [] then []
    else
      var n := |labels| - 1;
      MatchingIndices(labels[..n], t) + (if labels[n] == t then [n] else [])
  }

  /**
   * `rows[labels == t]`: the rows whose label is `t`. Defined as a filter; its
   * contract says it is exactly the rows at the mask's positions, in their order.
   */
  function Select<T>(rows: seq<T>, labels: seq<int>, t: int): (part: seq<T>)
    requires |rows| == |labels|
    ensures |part| == |MatchingIndices(labels, t)|
    ensures forall j :: 0 <= j < |part| ==> part[j] == rows[MatchingIndices(labels, t)[j]]
  {
    if rows == [] then []
    else
      var n := |rows| - 1;
      Select(rows[..n], labels[..n], t) + (if labels[n] == t then [rows[n]] else [])
  }

  /** The comprehension `[rows[labels == t].copy() for t in np.unique(labels)]`. */
  function Partition<T>(rows: seq<T>, labels: seq<int>): (parts: seq<seq<T>>)
    requires |rows| == |labels|
  {
    var u := Unique(labels);
    seq(|u|, k requires 0 <= k < |u| => Select(rows, labels, u[k]))
  }

  /**
   * Partition `k` belongs to the `k`-th smallest label, holds exactly the rows with
   * that label, in their original relative order, and is never empty.
   */
  lemma PartitionByLabel<T>(rows: seq<T>, labels: seq<int>, k: nat)
    requires |rows| == |labels|
    requires k < |Unique(labels)|
    ensures |Partition(rows, labels)| == |Unique(labels)|
    ensures var part, idx := Partition(rows, labels)[k], MatchingIndices(labels, Unique(labels)[k]);
      && |part| == |idx| > 0
      && (forall j :: 0 <= j < |part| ==> part[j] == rows[idx[j]] && labels[idx[j]] == Unique(labels)[k])
      && (forall j, j' :: 0 <= j < j' < |idx| ==> idx[j] < idx[j'])
      && (forall i :: 0 <= i < |labels| && labels[i] == Unique(labels)[k] ==> i in idx)
  {
    var t := Unique(labels)[k];
    assert t in labels;
    var i :| 0 <= i < |labels| && labels[i] == t;
    assert i in MatchingIndices(labels, t);
  }

  /** Every row lies in the partition of exactly one sorted label. */
  lemma EachRowInOnePartition(labels: seq<int>, i: nat)
    requires i < |labels|
    ensures exists k :: 0 <= k < |Unique(labels)| && i in MatchingIndices(labels, Unique(labels)[k])
    ensures forall k, k' ::
      0 <= k < |Unique(labels)| && 0 <= k' < |Unique(labels)| &&
      i in MatchingIndices(labels, Unique(labels)[k]) && i in MatchingIndices(labels, Unique(labels)[k'])
      ==> k == k'
  {
    var u := Unique(labels);
    assert labels[i] in u;
    var k :| 0 <= k < |u| && u[k] == labels[i];
    assert i in MatchingIndices(labels, u[k]);
  }

  /** The sum of the sizes of the label classes `u[0], u[1], ...`. */
  function ClassSizes(labels: seq<int>, u: seq<int>): nat {
    if u == [] then 0
    else ClassSizes(labels, u[..|u| - 1]) + |MatchingIndices(labels, u[|u| - 1])|
  }

  lemma {:induction false} ClassSizesSnoc(labels: seq<int>, x: int, u: seq<int>)
    ensures ClassSizes(labels + [x], u) == ClassSizes(labels, u) + multiset(u)[x]
    decreases |u|
  {
    if u != [] {
      var n := |u| - 1;
      ClassSizesSnoc(labels, x, u[..n]);
      assert (labels + [x])[..|labels|] == labels;
      assert u == u[..n] + [u[n]];
    }
  }

  lemma {:induction false} OccursOnce(u: seq<int>, x: int)
    requires StrictlyIncreasing(u)
    ensures multiset(u)[x] == if x in u then 1 else 0
    decreases |u|
  {
    if u != [] {
      var n := |u| - 1;
      OccursOnce(u[..n], x);
      assert u == u[..n] + [u[n]];
      assert x in u <==> x in u[..n] || x == u[n];
      if x == u[n] {
        assert x !in u[..n];
      }
    }
  }

  lemma {:induction false} ClassSizesCover(labels: seq<int>, u: seq<int>)
    requires StrictlyIncreasing(u)
    requires forall y :: y in labels ==> y in u
    ensures ClassSizes(labels, u) == |labels|
    decreases |labels|
  {
    if labels == [] {
      EmptyClasses(u);
    } else {
      var n := |labels| - 1;
      assert labels == labels[..n] + [labels[n]];
      ClassSizesCover(labels[..n], u);
      ClassSizesSnoc(labels[..n], labels[n], u);
      OccursOnce(u, labels[n]);
    }
  }

  lemma {:induction false} EmptyClasses(u: seq<int>)
    ensures ClassSizes([], u) == 0
    decreases |u|
  {
    if u != [] {
      EmptyClasses(u[..|u| - 1]);
    }
  }

  /** The total number of rows held by a list of partitions. */
  function TotalRows<T>(parts: seq<seq<T>>): nat {
    if parts == [] then 0 else TotalRows(parts[..|parts| - 1]) + |parts[|parts| - 1]|
  }

  lemma {:induction false} TotalRowsOfClasses<T>(rows: seq<T>, labels: seq<int>, u: seq<int>)
    requires |rows| == |labels|
    ensures TotalRows(seq(|u|, k requires 0 <= k < |u| => Select(rows, labels, u[k]))) == ClassSizes(labels, u)
    decreases |u|
  {
    if u != [] {
      var n := |u| - 1;
      var parts := seq(|u|, k requires 0 <= k < |u| => Select(rows, labels, u[k]));
      var front := seq(n, k requires 0 <= k < n => Select(rows, labels, u[..n][k]));
      assert parts[..n] == front;
      TotalRowsOfClasses(rows, labels, u[..n]);
    }
  }

  /** No row is lost or duplicated: the partitions' sizes add up to the number of rows. */
  lemma PartitionCoversRows<T>(rows: seq<T>, labels: seq<int>)
    requires |rows| == |labels|
    ensures TotalRows(Partition(rows, labels)) == |rows|
  {
    TotalRowsOfClasses(rows, labels, Unique(labels));
    ClassSizesCover(labels, Unique(labels));
  }
}
