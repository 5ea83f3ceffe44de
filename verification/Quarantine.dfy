/** Jobs set aside after failing on their own: keeper-bot/src/quarantine.ts and keeper-rs/src/main.rs. */
module Quarantines {
  import opened Basics

  /** The entries whose time is not up at `tick`. */
  function Released(until: map<u64, nat>, tick: nat): map<u64, nat> {
    map id | id in until && tick < until[id] :: until[id]
  }

  /** The entries left `n` ticks later when nothing is added. */
  function AfterTicks(until: map<u64, nat>, ticks: nat, n: nat): map<u64, nat> {
    if n == 0 then until else Released(AfterTicks(until, ticks, n - 1), ticks + n)
  }

  lemma {:induction false} StaysUntilItsTime(until: map<u64, nat>, ticks: nat, n: nat, id: u64)
    requires 0 < n
    ensures id in AfterTicks(until, ticks, n) <==> id in until && ticks + n < until[id]
    ensures id in AfterTicks(until, ticks, n) ==> AfterTicks(until, ticks, n)[id] == until[id]
  {
    if n == 1 {
      assert AfterTicks(until, ticks, 0) == until;
    } else {
      StaysUntilItsTime(until, ticks, n - 1, id);
    }
  }

  /** A job set aside sits out exactly the ticks that start before `length` have passed. */
  lemma SitsOutItsLength(until: map<u64, nat>, ticks: nat, length: nat, id: u64, n: nat)
    requires 0 < n
    ensures id in AfterTicks(until[id := ticks + length], ticks, n) <==> n < length
  {
    StaysUntilItsTime(until[id := ticks + length], ticks, n, id);
  }

  /** The entries with these jobs added, all until the same tick. */
  function WithAll(until: map<u64, nat>, ids: seq<u64>, tick: nat): map<u64, nat> {
    if ids == [] then until else WithAll(until, ids[..|ids| - 1], tick)[ids[|ids| - 1] := tick]
  }

  lemma {:induction false} WithAllAdds(until: map<u64, nat>, ids: seq<u64>, tick: nat, id: u64)
    ensures id in WithAll(until, ids, tick) <==> id in until || id in ids
  {
    if ids != [] {
      var last := |ids| - 1;
      WithAllAdds(until, ids[..last], tick, id);
      assert ids == ids[..last] + [ids[last]];
    }
  }

  lemma WithNone(until: map<u64, nat>, tick: nat)
    ensures WithAll(until, [], tick) == until
  {
  }

  lemma WithOneMore(until: map<u64, nat>, ids: seq<u64>, id: u64, tick: nat)
    ensures WithAll(until, ids + [id], tick) == WithAll(until, ids, tick)[id := tick]
  {
    assert (ids + [id])[..|ids|] == ids;
  }

  /** Which jobs are not sitting out. */
  function Awake(ids: seq<u64>, until: map<u64, nat>): seq<bool> {
    seq(|ids|, i requires 0 <= i < |ids| => ids[i] !in until)
  }

  class Quarantine {
    var until: map<u64, nat>
    var ticks: nat
    const length: nat

    constructor (length_: nat)
      ensures until == map[] && ticks == 0 && length == length_
    {
      until, ticks, length := map[], 0, length_;
    }

    /** One more tick: entries that reach their time are dropped. */
    method Next()
      modifies this
      ensures ticks == old(ticks) + 1 && until == Released(old(until), ticks)
    {
      ticks := ticks + 1;
      var rest := until.Keys;
      while rest != {}
        invariant rest <= old(until).Keys && rest <= until.Keys <= old(until).Keys && ticks == old(ticks) + 1
        invariant forall id :: id in until ==> until[id] == old(until)[id]
        invariant forall id :: id in old(until) && id !in rest ==> (id in until <==> ticks < old(until)[id])
        decreases |rest|
      {
        var id :| id in rest;
        if until[id] <= ticks {
          until := until - {id};
        }
        rest := rest - {id};
      }
    }

    predicate Has(id: u64)
      reads this
    {
      id in until
    }

    method Add(id: u64)
      modifies this`until
      ensures until == old(until)[id := ticks + length]
    {
      until := until[id := ticks + length];
    }
  }
}
