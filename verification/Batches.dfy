/** Cutting, halving and filtering lists of jobs, as both keepers do before they execute a batch. */
module Batches {
  import opened Basics

  /** Consecutive batches of at most `size` jobs. */
  function Chunks<T>(xs: seq<T>, size: nat): seq<seq<T>>
    requires 0 < size
    decreases |xs|
  {
    if xs == [] then []
    else
      var n := Min(size, |xs|);
      [xs[..n]] + Chunks(xs[n..], size)
  }

  function CeilHalf(n: nat): (half: nat)
    ensures half <= n && n <= 2 * half <= n + 1
    ensures 1 < n ==> 0 < half < n
  {
    (n + 1) / 2
  }

  /** The first half is the larger. */
  function Halves<T>(xs: seq<T>): (h: (seq<T>, seq<T>))
    ensures h.0 + h.1 == xs
    ensures |h.1| <= |h.0| <= |h.1| + 1
    ensures multiset(h.0) + multiset(h.1) == multiset(xs)
  {
    var half := CeilHalf(|xs|);
    assert xs == xs[..half] + xs[half..];
    (xs[..half], xs[half..])
  }

  /** A missing flag counts as false. */
  predicate Flag(flags: seq<bool>, i: nat) {
    i < |flags| && flags[i]
  }

  /** The jobs whose flag is `want`, in order. */
  function Chosen<T>(xs: seq<T>, flags: seq<bool>, want: bool): (r: seq<T>)
    ensures |r| <= |xs|
  {
    if xs == [] then []
    else
      var last := |xs| - 1;
      Chosen(xs[..last], flags, want) + if Flag(flags, last) == want then [xs[last]] else []
  }

  /** Of distinct jobs, exactly those whose flag is `want` are chosen. */
  lemma {:induction false} ChosenIff<T>(xs: seq<T>, flags: seq<bool>, want: bool, i: nat)
    requires Distinct(xs) && i < |xs|
    ensures xs[i] in Chosen(xs, flags, want) <==> want == (i < |flags| && flags[i])
  {
    var last := |xs| - 1;
    ChosenAreThere(xs[..last], flags, want);
    if i < last {
      ChosenIff(xs[..last], flags, want, i);
      assert xs[..last][i] == xs[i] != xs[last];
    } else {
      assert xs[last] !in xs[..last];
    }
  }

  lemma {:induction false} ChosenAreThere<T>(xs: seq<T>, flags: seq<bool>, want: bool)
    ensures forall x :: x in Chosen(xs, flags, want) ==> x in xs
  {
    if xs != [] {
      ChosenAreThere(xs[..|xs| - 1], flags, want);
      assert xs == xs[..|xs| - 1] + [xs[|xs| - 1]];
    }
  }

  /** Every job is on exactly one side of a filter. */
  lemma {:induction false} FilterSplits<T>(xs: seq<T>, flags: seq<bool>)
    ensures multiset(Chosen(xs, flags, true)) + multiset(Chosen(xs, flags, false)) == multiset(xs)
    ensures |Chosen(xs, flags, true)| + |Chosen(xs, flags, false)| == |xs|
  {
    if xs != [] {
      var last := |xs| - 1;
      FilterSplits(xs[..last], flags);
      assert multiset(xs) == multiset(xs[..last]) + multiset([xs[last]]) by {
        assert xs == xs[..last] + [xs[last]];
      }
    }
  }

  ghost function Times<T>(xs: seq<T>, x: T): nat {
    multiset(xs)[x]
  }

  lemma TimesConcat<T>(a: seq<T>, b: seq<T>, x: T)
    ensures Times(a + b, x) == Times(a, x) + Times(b, x)
  {
  }

  lemma FilterCounts<T>(xs: seq<T>, flags: seq<bool>, x: T)
    ensures Times(Chosen(xs, flags, true), x) + Times(Chosen(xs, flags, false), x) == Times(xs, x)
    ensures |Chosen(xs, flags, true)| + |Chosen(xs, flags, false)| == |xs|
    ensures Times([], x) == 0
  {
    hide Chosen;
    FilterSplits(xs, flags);
  }

  predicate AnyIn(ids: seq<u64>, bad: set<u64>) {
    exists i :: 0 <= i < |ids| && ids[i] in bad
  }

  /** All jobs of a list of batches. */
  function Bag<T>(batches: seq<seq<T>>): multiset<T> {
    if batches == [] then multiset{}
    else Bag(batches[..|batches| - 1]) + multiset(batches[|batches| - 1])
  }

  lemma {:induction false} BagOfConcat<T>(a: seq<seq<T>>, b: seq<seq<T>>)
    ensures Bag(a + b) == Bag(a) + Bag(b)
  {
    if b == [] {
      assert a + b == a;
    } else {
      var last := |b| - 1;
      BagOfConcat(a, b[..last]);
      assert (a + b)[..|a + b| - 1] == a + b[..last];
    }
  }

  lemma BagOfOne<T>(batch: seq<T>)
    ensures Bag([batch]) == multiset(batch)
  {
    assert [batch][..0] == [];
  }

  /** Chunks are full but for a last one that is not empty, and put together are the jobs that were cut, in order. */
  lemma {:induction false} ChunksPartition<T>(xs: seq<T>, size: nat)
    requires 0 < size
    ensures forall i :: 0 <= i < |Chunks(xs, size)| ==> 0 < |Chunks(xs, size)[i]| <= size
    ensures forall i :: 0 <= i < |Chunks(xs, size)| - 1 ==> |Chunks(xs, size)[i]| == size
    ensures Concat(Chunks(xs, size)) == xs
    decreases |xs|
  {
    if xs != [] {
      var n := Min(size, |xs|);
      ChunksPartition(xs[n..], size);
      assert xs == xs[..n] + xs[n..];
      assert Chunks(xs, size)[1..] == Chunks(xs[n..], size);
    }
  }

  lemma {:induction false} ChunksHoldAll<T>(xs: seq<T>, size: nat)
    requires 0 < size
    ensures Bag(Chunks(xs, size)) == multiset(xs)
    decreases |xs|
  {
    hide Bag;
    if xs == [] {
      assert Bag<T>([]) == multiset{} by { NoBatches<T>(); }
    } else {
      var n := Min(size, |xs|);
      ChunksHoldAll(xs[n..], size);
      BagOfConcat([xs[..n]], Chunks(xs[n..], size));
      BagOfOne(xs[..n]);
      assert xs == xs[..n] + xs[n..];
    }
  }

  lemma NoBatches<T>()
    ensures Bag<T>([]) == multiset{}
  {
  }

  function Concat<T>(batches: seq<seq<T>>): seq<T> {
    if batches == [] then [] else batches[0] + Concat(batches[1..])
  }

  lemma {:induction false} DistinctOccursOnce<T>(xs: seq<T>, x: T)
    requires Distinct(xs)
    ensures multiset(xs)[x] <= 1
  {
    if xs != [] {
      var last := |xs| - 1;
      DistinctOccursOnce(xs[..last], x);
      assert xs == xs[..last] + [xs[last]];
      if x == xs[last] {
        assert x !in xs[..last];
      }
    }
  }

  lemma {:induction false} BagHolds<T>(batches: seq<seq<T>>, i: nat, x: T)
    requires i < |batches|
    ensures multiset(batches[i])[x] <= Bag(batches)[x]
  {
    if i < |batches| - 1 {
      BagHolds(batches[..|batches| - 1], i, x);
    }
  }

  lemma {:induction false} BagHoldsTwo<T>(batches: seq<seq<T>>, i: nat, j: nat, x: T)
    requires i < j < |batches|
    ensures multiset(batches[i])[x] + multiset(batches[j])[x] <= Bag(batches)[x]
  {
    if j < |batches| - 1 {
      BagHoldsTwo(batches[..|batches| - 1], i, j, x);
    } else {
      BagHolds(batches[..|batches| - 1], i, x);
    }
  }

  /** Batches drawn from distinct jobs share none. */
  lemma BatchesOfDistinctJobsAreDisjoint<T>(jobs: seq<T>, batches: seq<seq<T>>, i: nat, j: nat)
    requires Distinct(jobs) && Bag(batches) <= multiset(jobs) && i < j < |batches|
    ensures multiset(batches[i]) !! multiset(batches[j])
  {
    forall x: T | x in multiset(batches[i])
      ensures x !in multiset(batches[j])
    {
      BagHoldsTwo(batches, i, j, x);
      DistinctOccursOnce(jobs, x);
    }
  }
}
