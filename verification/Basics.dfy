/** Failure-compatible wrappers and the registry's integer widths. */
module Basics {

  datatype Option<+T> = None | Some(value: T)

  const U64_MAX := 0xFFFF_FFFF_FFFF_FFFF
  const U32_MAX := 0xFFFF_FFFF
  const I128_MAX := 0x7FFF_FFFF_FFFF_FFFF_FFFF_FFFF_FFFF_FFFF

  type u64 = x: int | 0 <= x <= U64_MAX
  type u32 = x: int | 0 <= x <= U32_MAX
  type i128 = x: int | -I128_MAX - 1 <= x <= I128_MAX

  function Max(a: int, b: int): int {
    if a < b then b else a
  }

  function Min(a: int, b: int): int {
    if b < a then b else a
  }

  /** `u64::saturating_add`, also applied to exact values that may exceed u64. */
  function Sat64(x: int): (r: u64)
    requires 0 <= x
    ensures r == x || (r == U64_MAX && U64_MAX < x)
  {
    if x <= U64_MAX then x else U64_MAX
  }

  function Sat32(x: int): (r: u32)
    requires 0 <= x
    ensures r == x || (r == U32_MAX && U32_MAX < x)
  {
    if x <= U32_MAX then x else U32_MAX
  }

  /** `a.saturating_sub(b)` on unsigned integers. */
  function Less(a: u64, b: u64): (r: u64) {
    if b <= a then a - b else 0
  }

  /** The value stored under `key`, or `default` when the entry is absent. */
  function Lookup<K, V>(m: map<K, V>, key: K, default: V): V {
    if key in m then m[key] else default
  }

  predicate Distinct<T(==)>(xs: seq<T>) {
    forall i, j :: 0 <= i < j < |xs| ==> xs[i] != xs[j]
  }

  /** The sequence without the first occurrence of `x`. */
  function RemoveFirst<T(==)>(xs: seq<T>, x: T): (ys: seq<T>)
    ensures x !in xs ==> ys == xs
    ensures x in xs ==> |ys| == |xs| - 1
    ensures forall y :: y in ys ==> y in xs
    ensures forall y :: y in xs && y != x ==> y in ys
  {
    if xs == [] then []
    else if xs[0] == x then xs[1..]
    else [xs[0]] + RemoveFirst(xs[1..], x)
  }

  /** `first_index_of`; the length of the list when `x` is not in it. */
  method FirstIndexOf<T(==)>(xs: seq<T>, x: T) returns (index: nat)
    ensures index < |xs| <==> x in xs
    ensures index < |xs| ==> xs[..index] + xs[index + 1..] == RemoveFirst(xs, x)
    ensures index <= |xs| && x !in xs[..index]
  {
    index := 0;
    while index < |xs| && xs[index] != x
      invariant index <= |xs| && x !in xs[..index]
    {
      index := index + 1;
    }
    if index < |xs| {
      CutAtFirst(xs, x, index);
    }
  }

  lemma {:induction false} CutAtFirst<T>(xs: seq<T>, x: T, index: nat)
    requires index < |xs| && xs[index] == x && x !in xs[..index]
    ensures xs[..index] + xs[index + 1..] == RemoveFirst(xs, x)
  {
    if index > 0 {
      assert xs[0] in xs[..index];
      assert x !in xs[1..][..index - 1] by {
        assert forall y :: y in xs[1..][..index - 1] ==> y in xs[..index];
      }
      CutAtFirst(xs[1..], x, index - 1);
      assert xs[..index] + xs[index + 1..] == [xs[0]] + (xs[1..][..index - 1] + xs[1..][index..]);
    }
  }

  /** Sum of all values of a map. */
  ghost function MapSum<K>(m: map<K, int>): int {
    if m == map[] then 0
    else
      var k :| k in m;
      m[k] + MapSum(m - {k})
  }

  /** The sum does not depend on the order in which entries are taken. */
  lemma {:induction false} MapSumTake<K>(m: map<K, int>, k: K)
    requires k in m
    ensures MapSum(m) == m[k] + MapSum(m - {k})
    decreases |m|
  {
    var j :| j in m && MapSum(m) == m[j] + MapSum(m - {j});
    if j != k {
      assert |m - {j}| < |m| && |m - {k}| < |m| by {
        assert (m - {j}).Keys == m.Keys - {j} && (m - {k}).Keys == m.Keys - {k};
      }
      MapSumTake(m - {j}, k);
      MapSumTake(m - {k}, j);
      assert m - {j} - {k} == m - {k} - {j};
    }
  }

  lemma MapSumSet<K>(m: map<K, int>, k: K, v: int)
    ensures MapSum(m[k := v]) == MapSum(m) - Lookup(m, k, 0) + v
  {
    MapSumTake(m[k := v], k);
    assert m[k := v] - {k} == m - {k};
    if k in m {
      MapSumTake(m, k);
    } else {
      assert m - {k} == m;
    }
  }

  lemma {:induction false} MapSumNonNegative<K>(m: map<K, int>)
    requires forall j :: j in m ==> 0 <= m[j]
    ensures 0 <= MapSum(m)
    decreases |m|
  {
    if j :| j in m {
      MapSumTake(m, j);
      assert (m - {j}).Keys == m.Keys - {j};
      MapSumNonNegative(m - {j});
    } else {
      assert m == map[];
    }
  }

  lemma MapSumCovers<K>(m: map<K, int>, k: K)
    requires k in m && forall j :: j in m ==> 0 <= m[j]
    ensures m[k] <= MapSum(m)
  {
    MapSumTake(m, k);
    MapSumNonNegative(m - {k});
  }
}
