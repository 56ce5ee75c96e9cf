/**
 * The two per-class subsampling modes of `give_private_prototypes`.
 *
 * The random numbers are inputs: `np.random.default_rng(seed)` is replaced by a
 * `Draws` value holding what the generator produced. Poisson mode uses the
 * occurrence counts `rng.poisson(lam, size=n)`; fixed-ratio mode uses the partner
 * index that `rng.shuffle` draws for each position of its Fisher-Yates pass.
 */
module Subsampling {

  /**
   * The generator's draws for one call. `occurrences(k, i)` is the Poisson count
   * drawn for row `i` of the `k`-th partition; `partners(k, i)` is the position,
   * between 0 and `i`, that row `i` of the `k`-th partition is swapped with.
   */
  datatype Draws = Draws(occurrences: (nat, nat) -> nat, partners: (nat, nat) -> nat)

  /** What numpy's bounded-integer draw guarantees: a partner never lies above its position. */
  ghost predicate PartnersInRange(draws: Draws) {
    forall k: nat, i: nat :: draws.partners(k, i) <= i
  }

  /** The Poisson counts drawn for the `n` rows of the `k`-th partition. */
  function CountsFor(draws: Draws, k: nat, n: nat): (counts: seq<nat>)
    ensures |counts| == n
    ensures forall i :: 0 <= i < n ==> counts[i] == draws.occurrences(k, i)
  {
    if n == 0 then [] else CountsFor(draws, k, n - 1) + [draws.occurrences(k, n - 1)]
  }

  /** The Fisher-Yates partners drawn for the `k`-th partition. */
  function PartnersFor(draws: Draws, k: nat): (partners: nat -> nat)
    ensures PartnersInRange(draws) ==> forall m: nat :: partners(m) <= m
  {
    (i: nat) => draws.partners(k, i)
  }

  /** Python's `int(x)` on a float: truncation toward zero. */
  function Trunc(x: real): (n: int)
    ensures 0.0 <= x ==> 0 <= n && n as real <= x < n as real + 1.0
    ensures x < 0.0 ==> n <= 0 && x <= n as real < x + 1.0
  {
    if 0.0 <= x then x.Floor else -((-x).Floor)
  }

  /** Python's slice `s[:k]`, where a negative `k` counts from the end. */
  function PrefixSlice<T>(s: seq<T>, k: int): (r: seq<T>)
    ensures |r| <= |s| && r == s[..|r|]
    ensures 0 <= k ==> |r| == if k <= |s| then k else |s|
    ensures k < 0 ==> |r| == if -k <= |s| then |s| + k else 0
  {
    if 0 <= k then (if k <= |s| then s[..k] else s)
    else if -k <= |s| then s[..|s| + k]
    else []
  }

  function Sum(counts: seq<nat>): nat {
    if counts == [] then 0 else Sum(counts[..|counts| - 1]) + counts[|counts| - 1]
  }

  /** `c` copies of `x`. */
  function Copies(x: nat, c: nat): (r: seq<nat>)
    ensures |r| == c
    ensures forall j :: 0 <= j < c ==> r[j] == x
    ensures multiset(r)[x] == c
    ensures forall y :: y != x ==> multiset(r)[y] == 0
  {
    if c == 0 then [] else Copies(x, c - 1) + [x]
  }

  /** `np.arange(n).repeat(counts)`. */
  function RepeatIndices(counts: seq<nat>): (idx: seq<nat>)
    ensures |idx| == Sum(counts)
  {
    if counts == [] then []
    else RepeatIndices(counts[..|counts| - 1]) + Copies(|counts| - 1, counts[|counts| - 1])
  }

  /** The index `n` appended last never occurs in the indices built before it. */
  lemma {:induction false} RepeatIndicesBelow(counts: seq<nat>)
    ensures forall j :: 0 <= j < |RepeatIndices(counts)| ==> RepeatIndices(counts)[j] < |counts|
    decreases |counts|
  {
    if counts != [] {
      var n := |counts| - 1;
      RepeatIndicesBelow(counts[..n]);
    }
  }

  /** `np.arange(n).repeat(counts)` lists the indices in ascending order. */
  lemma {:induction false} RepeatIndicesAscending(counts: seq<nat>)
    ensures forall j, j' :: 0 <= j <= j' < |RepeatIndices(counts)| ==> RepeatIndices(counts)[j] <= RepeatIndices(counts)[j']
    decreases |counts|
  {
    if counts != [] {
      var n := |counts| - 1;
      RepeatIndicesAscending(counts[..n]);
      RepeatIndicesBelow(counts[..n]);
      var front := RepeatIndices(counts[..n]);
      var idx := RepeatIndices(counts);
      assert idx == front + Copies(n, counts[n]);
      forall j, j' | 0 <= j <= j' < |idx| ensures idx[j] <= idx[j'] {
        if j' >= |front| {
          assert idx[j'] == n;
          if j < |front| {
            assert idx[j] == front[j] < n;
          }
        } else {
          assert front[j] <= front[j'];
          assert idx[j] == front[j] && idx[j'] == front[j'];
        }
      }
    }
  }

  /** `np.arange(n).repeat(counts)` lists index `i` exactly `counts[i]` times. */
  lemma {:induction false} RepeatIndicesCounts(counts: seq<nat>)
    ensures forall i :: 0 <= i < |counts| ==> multiset(RepeatIndices(counts))[i] == counts[i]
    decreases |counts|
  {
    if counts != [] {
      var n := |counts| - 1;
      RepeatIndicesCounts(counts[..n]);
      RepeatIndicesBelow(counts[..n]);
      var front := RepeatIndices(counts[..n]);
      var tail := Copies(n, counts[n]);
      assert RepeatIndices(counts) == front + tail;
      assert n !in front by {
        forall j | 0 <= j < |front| ensures front[j] != n {}
      }
      assert multiset(RepeatIndices(counts)) == multiset(front) + multiset(tail);
      forall i | 0 <= i < |counts| ensures multiset(RepeatIndices(counts))[i] == counts[i] {
        if i < n {
          assert counts[..n][i] == counts[i];
        }
      }
    }
  }

  /**
   * Poisson mode: `M_x[np.arange(n).repeat(counts)]`, row `i` kept `counts[i]`
   * times, so the subsample holds as many rows as the counts add up to.
   */
  function Repeat<T>(rows: seq<T>, counts: seq<nat>): (r: seq<T>)
    requires |counts| == |rows|
    ensures |r| == Sum(counts)
  {
    RepeatIndicesBelow(counts);
    var idx := RepeatIndices(counts);
    seq(|idx|, j requires 0 <= j < |idx| => rows[idx[j]])
  }

  function Swap<T>(s: seq<T>, i: nat, j: nat): (r: seq<T>)
    requires i < |s| && j < |s|
  {
    s[i := s[j]][j := s[i]]
  }

  /**
   * The Fisher-Yates pass of `Generator.shuffle` from position `i` down to 1:
   * position `i` is swapped with `partners(i)`, then the pass goes on below it.
   */
  function ShuffleDown<T>(s: seq<T>, partners: nat -> nat, i: nat): seq<T>
    requires i == 0 || i < |s|
    requires forall m: nat :: partners(m) <= m
    decreases i
  {
    if i == 0 then s else ShuffleDown(Swap(s, i, partners(i)), partners, i - 1)
  }

  /** `rng.shuffle(M_x, axis=0)` on the rows of one partition. */
  function Shuffled<T>(s: seq<T>, partners: nat -> nat): seq<T>
    requires forall m: nat :: partners(m) <= m
  {
    if s == [] then s else ShuffleDown(s, partners, |s| - 1)
  }

  lemma {:induction false} ShuffleDownPermutes<T>(s: seq<T>, partners: nat -> nat, i: nat)
    requires i == 0 || i < |s|
    requires forall m: nat :: partners(m) <= m
    ensures |ShuffleDown(s, partners, i)| == |s|
    ensures multiset(ShuffleDown(s, partners, i)) == multiset(s)
    decreases i
  {
    if i > 0 {
      var t := Swap(s, i, partners(i));
      assert multiset(t) == multiset(s);
      ShuffleDownPermutes(t, partners, i - 1);
    }
  }

  /** Shuffling only reorders the rows: the result is a permutation of the input. */
  lemma ShuffledPermutes<T>(s: seq<T>, partners: nat -> nat)
    requires forall m: nat :: partners(m) <= m
    ensures |Shuffled(s, partners)| == |s|
    ensures multiset(Shuffled(s, partners)) == multiset(s)
  {
    if s != [] {
      ShuffleDownPermutes(s, partners, |s| - 1);
    }
  }

  /** `rng.shuffle(M_x, axis=0)`: the Fisher-Yates pass done in place on the array. */
  method ShuffleRows<T>(a: array<T>, partners: nat -> nat)
    requires forall m: nat :: partners(m) <= m
    modifies a
    ensures a[..] == Shuffled(old(a[..]), partners)
  {
    if a.Length == 0 {
      return;
    }
    var i := a.Length - 1;
    while i > 0
      invariant 0 <= i < a.Length
      invariant ShuffleDown(a[..], partners, i) == Shuffled(old(a[..]), partners)
    {
      var j := partners(i);
      ghost var before := a[..];
      a[i], a[j] := a[j], a[i];
      assert a[..] == Swap(before, i, j);
      i := i - 1;
    }
  }

  /** Fixed-ratio mode: the first `int(ratio * n)` rows of the shuffled partition. */
  function FixedRatio<T>(part: seq<T>, partners: nat -> nat, ratio: real): seq<T>
    requires forall m: nat :: partners(m) <= m
  {
    PrefixSlice(Shuffled(part, partners), Trunc(ratio * |part| as real))
  }

  /**
   * Fixed-ratio mode never repeats a row: its result is a sub-multiset of the
   * partition, no longer than it, and for a ratio in [0, 1) it holds exactly
   * `int(ratio * n)` rows.
   */
  lemma FixedRatioSubset<T>(part: seq<T>, partners: nat -> nat, ratio: real)
    requires forall m: nat :: partners(m) <= m
    ensures |FixedRatio(part, partners, ratio)| <= |part|
    ensures multiset(FixedRatio(part, partners, ratio)) <= multiset(part)
    ensures 0.0 <= ratio < 1.0 ==> |FixedRatio(part, partners, ratio)| == Trunc(ratio * |part| as real)
  {
    ShuffledPermutes(part, partners);
    PrefixSubMultiset(Shuffled(part, partners), Trunc(ratio * |part| as real));
    if 0.0 <= ratio < 1.0 {
      FractionOfCount(ratio, |part|);
    }
  }

  /** A slice `s[:k]` holds no element more often than `s` does. */
  lemma PrefixSubMultiset<T>(s: seq<T>, k: int)
    ensures multiset(PrefixSlice(s, k)) <= multiset(s)
  {
    var r := PrefixSlice(s, k);
    assert s == r + s[|r|..];
    assert multiset(s) == multiset(r) + multiset(s[|r|..]);
  }

  lemma ProductNonNegative(a: real, b: real)
    requires 0.0 <= a && 0.0 <= b
    ensures 0.0 <= a * b
  {
  }

  /** A fraction in [0, 1) of `n` rows truncates to a count between 0 and `n`. */
  lemma FractionOfCount(ratio: real, n: nat)
    requires 0.0 <= ratio < 1.0
    ensures 0 <= Trunc(ratio * n as real) <= n
  {
    var m := n as real;
    ProductNonNegative(1.0 - ratio, m);
    ProductNonNegative(ratio, m);
    assert ratio * m == m - (1.0 - ratio) * m;
  }

  /** Fixed-ratio mode on one partition: `rng.shuffle(M_x, axis=0)` then `M_x[: int(ratio * n)]`. */
  method ShuffleAndKeep<T>(part: seq<T>, partners: nat -> nat, ratio: real) returns (kept: seq<T>)
    requires forall m: nat :: partners(m) <= m
    ensures kept == FixedRatio(part, partners, ratio)
  {
    var a := new T[|part|](i requires 0 <= i < |part| => part[i]);
    assert a[..] == part;
    ShuffleRows(a, partners);
    kept := PrefixSlice(a[..], Trunc(ratio * |part| as real));
  }
}
