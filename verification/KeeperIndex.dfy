/** The keeper's index as an object that is loaded, synced and asked: keeper-bot/src/jobIndex.ts. */
module KeeperIndex {
  import opened Basics
  import opened Types
  import opened RegistrySpec
  import opened Bookkeeping
  import opened Histories
  import opened JobIndexing
  import opened LateRefetches
  import opened SyncBalances

  const PAGE := 50
  const EVENT_PAGE := 500

  /** `get_jobs`: the live jobs with ids in [start, start + limit). */
  function GetJobs(jobs: JobBook, start: u64, limit: nat): Index {
    map id | id in jobs.specs && id in jobs.states && start <= id < start + limit && id < jobs.nextId
      :: ToIndexed(jobs.specs[id], jobs.states[id])
  }

  /** The jobs are in the order of their due times. */
  predicate ByDueTime(ids: seq<u64>, jobs: Index) {
    && (forall i :: 0 <= i < |ids| ==> ids[i] in jobs)
    && (forall i, j :: 0 <= i < j < |ids| ==> jobs[ids[i]].nextRun <= jobs[ids[j]].nextRun)
  }

  lemma ViewIsCaughtUp(jobs: JobBook)
    ensures CaughtUp(View(jobs), jobs)
  {
  }

  lemma NothingReplayed(index: Index, views: Index)
    ensures Replay(index, [], views) == index
  {
  }

  /**
   * The index object: its map and its place in the event stream. The chain is
   * a parameter: `chain.log` is the event stream and `chain.jobs` what the
   * views answer during the call; `answered` says which event pages arrive.
   */
  class JobIndex {
    var jobs: Index
    var cursor: nat
    var syncs: nat
    const resyncEvery: nat

    constructor (resyncEvery: nat)
      requires 0 < resyncEvery
      ensures jobs == map[] && cursor == 0 && syncs == 0 && this.resyncEvery == resyncEvery
    {
      jobs, cursor, syncs := map[], 0, 0;
      this.resyncEvery := resyncEvery;
    }

    /** Loads every live job, a page at a time, and follows events from the snapshot on. */
    method Load(chain: Storage)
      requires Indexed(chain.jobs)
      modifies this`jobs, this`cursor
      ensures jobs == View(chain.jobs) && InStep(jobs, chain.jobs) && CaughtUp(jobs, chain.jobs)
      ensures cursor == |chain.log|
    {
      var count := chain.jobs.nextId;
      var loaded: Index := map[];
      var start: int := 0;
      while start < count
        invariant 0 <= start
        invariant loaded == map id | id in View(chain.jobs) && id < start :: View(chain.jobs)[id]
      {
        loaded := loaded + GetJobs(chain.jobs, start, PAGE);
        start := start + PAGE;
      }
      jobs := loaded;
      cursor := |chain.log|;
      SnapshotInStep(chain.jobs);
      ViewIsCaughtUp(chain.jobs);
    }

    /** Applies one event; created and updated jobs are refetched from `views`. */
    method ApplyEvent(event: Event, views: Index)
      modifies this`jobs
      ensures jobs == Apply(old(jobs), event, views)
    {
      match event {
        case JobCreated(id) =>
          if id in views { jobs := jobs[id := views[id]]; }
        case JobUpdated(id) =>
          if id in views { jobs := jobs[id := views[id]]; }
        case JobCancelled(id) =>
          jobs := jobs - {id};
        case JobExecuted(id, _, _, fee, _, run, nextRun, _, _) =>
          if id in jobs {
            jobs := jobs[id := jobs[id].(nextRun := nextRun, runs := run, balance := jobs[id].balance - fee)];
          }
        case JobFunded(id, balance) =>
          if id in jobs { jobs := jobs[id := jobs[id].(balance := balance)]; }
        case JobWithdrawn(id, balance) =>
          if id in jobs { jobs := jobs[id := jobs[id].(balance := balance)]; }
        case JobExhausted(id, balance) =>
          if id in jobs { jobs := jobs[id := jobs[id].(balance := balance)]; }
        case JobActiveSet(id, active) =>
          if id in jobs { jobs := jobs[id := jobs[id].(active := active)]; }
        case JobDeactivated(id) =>
          if id in jobs { jobs := jobs[id := jobs[id].(active := false)]; }
        case _ =>
      }
    }

    method ApplyPage(page: seq<Event>, views: Index)
      modifies this`jobs
      ensures jobs == Replay(old(jobs), page, views)
    {
      for i := 0 to |page|
        invariant jobs == Replay(old(jobs), page[..i], views)
      {
        assert page[..i + 1][..i] == page[..i];
        ApplyEvent(page[i], views);
      }
      assert page[..|page|] == page;
    }

    /** Reads event pages until one is short or does not arrive. */
    method CatchUp(log: seq<Event>, views: Index, answered: nat -> bool) returns (ok: bool)
      requires cursor <= |log|
      modifies this`jobs, this`cursor
      ensures ok ==> cursor == |log| && jobs == Replay(old(jobs), log[old(cursor)..], views)
      ensures (forall page :: answered(page)) ==> ok
    {
      hide Replay;
      var first := cursor;
      var more, page := true, 0;
      assert log[first..first] == [];
      NothingReplayed(jobs, views);
      while more
        invariant first <= cursor <= |log|
        invariant jobs == Replay(old(jobs), log[first..cursor], views)
        invariant !more ==> cursor == |log|
        decreases |log| - cursor, more
      {
        if !answered(page) {
          return false;
        }
        var upTo := Min(cursor + EVENT_PAGE, |log|);
        var events := log[cursor..upTo];
        ApplyPage(events, views);
        ReplayConcat(old(jobs), log[first..cursor], events, views);
        assert log[first..upTo] == log[first..cursor] + events;
        cursor := upTo;
        more := EVENT_PAGE <= |events|;
        page := page + 1;
      }
      assert log[first..|log|] == log[first..];
      ok := true;
    }

    /**
     * Reloads now and then and when a page does not arrive; otherwise applies
     * each event since the cursor once. `h` is the chain's history and `u` the
     * moment of the cursor. Afterwards the index holds exactly the live jobs,
     * promises at most what the registry holds, and calls exactly those jobs
     * due that are due and can bear the sync's shortfall.
     */
    method Sync(chain: Storage, answered: nat -> bool, ghost h: seq<Moment>, ghost u: nat) returns (reloaded: bool)
      requires u < |h| && IsHistory(h) && chain == h[|h| - 1].after && 0 < resyncEvery
      requires cursor == |h[u].after.log| && CaughtUp(jobs, h[u].after.jobs)
      modifies this
      ensures cursor == |chain.log| && syncs == old(syncs) + 1
      ensures syncs % resyncEvery == 0 ==> reloaded
      ensures syncs % resyncEvery != 0 && (forall page :: answered(page)) ==> !reloaded
      ensures reloaded ==> jobs == View(chain.jobs)
      ensures !reloaded ==> old(cursor) <= |chain.log|
                            && jobs == Replay(old(jobs), chain.log[old(cursor)..], View(chain.jobs))
      ensures CaughtUp(jobs, chain.jobs)
      ensures forall id: u64, now: u64 ::
                (id in jobs && MightBeDue(jobs[id], now)) <==>
                (&& Exists(chain.jobs, id) && EnsureDue(chain.jobs.specs[id], chain.jobs.states[id], now).Ok?
                 && (!reloaded ==> chain.jobs.specs[id].feePerRun
                                   + Shortfall(old(jobs), h[u].after.jobs, chain.log[old(cursor)..], id)
                                   <= chain.jobs.states[id].balance))
    {
      hide IsHistory, Replay, View, Indexed, InStep, CaughtUp, MightBeDue, EnsureDue, Shortfall;
      ghost var before, from := jobs, cursor;
      SyncCatchesUp(h, jobs, u);
      SoundIndex(h);
      syncs := syncs + 1;
      reloaded := true;
      if syncs % resyncEvery != 0 {
        var ok := CatchUp(chain.log, View(chain.jobs), answered);
        reloaded := !ok;
      }
      if reloaded {
        Load(chain);
        SnapshotIsExact(jobs, chain.jobs);
      } else {
        forall id: u64, now: u64
          ensures (id in jobs && MightBeDue(jobs[id], now)) <==>
                  (&& Exists(chain.jobs, id) && EnsureDue(chain.jobs.specs[id], chain.jobs.states[id], now).Ok?
                   && chain.jobs.specs[id].feePerRun + Shortfall(before, h[u].after.jobs, chain.log[from..], id)
                      <= chain.jobs.states[id].balance)
        {
          SyncFindsExactly(h, before, u, id, now);
        }
      }
    }

    static lemma SoundIndex(h: seq<Moment>)
      requires IsHistory(h)
      ensures Indexed(h[|h| - 1].after.jobs)
    {
      ReachableIsSound(h, |h| - 1);
      hide IsHistory, Indexed;
    }

    static lemma SnapshotIsExact(index: Index, jobs: JobBook)
      requires InStep(index, jobs)
      ensures forall id: u64, now: u64 ::
                (id in index && MightBeDue(index[id], now))
                <==> (Exists(jobs, id) && EnsureDue(jobs.specs[id], jobs.states[id], now).Ok?)
    {
      hide InStep, MightBeDue, EnsureDue;
      forall id: u64, now: u64
        ensures (id in index && MightBeDue(index[id], now))
           <==> (Exists(jobs, id) && EnsureDue(jobs.specs[id], jobs.states[id], now).Ok?)
      {
        DueExactly(index, jobs, id, now);
      }
    }

    /** The ids of jobs that might be due, earliest first. */
    method Due(now: u64) returns (ids: seq<u64>)
      ensures forall id :: id in ids <==> id in jobs && MightBeDue(jobs[id], now)
      ensures Distinct(ids) && ByDueTime(ids, jobs)
    {
      hide MightBeDue;
      ids := [];
      var left := jobs.Keys;
      while left != {}
        invariant left <= jobs.Keys
        invariant forall id :: id in ids <==> id in jobs && id !in left && MightBeDue(jobs[id], now)
        invariant Distinct(ids) && ByDueTime(ids, jobs)
        decreases |left|
      {
        var id :| id in left;
        left := left - {id};
        if MightBeDue(jobs[id], now) {
          ids := InsertByDueTime(ids, id);
        }
      }
    }

    method InsertByDueTime(ids: seq<u64>, id: u64) returns (r: seq<u64>)
      requires Distinct(ids) && ByDueTime(ids, jobs) && id in jobs && id !in ids
      ensures Distinct(r) && ByDueTime(r, jobs)
      ensures forall x :: x in r <==> x in ids || x == id
    {
      var i := 0;
      while i < |ids| && jobs[ids[i]].nextRun <= jobs[id].nextRun
        invariant i <= |ids| && forall j :: 0 <= j < i ==> jobs[ids[j]].nextRun <= jobs[id].nextRun
      {
        i := i + 1;
      }
      r := ids[..i] + [id] + ids[i..];
    }

    /** The start of every pass: sync, then ask for due jobs. Whatever is named passes the registry's check. */
    method Poll(chain: Storage, answered: nat -> bool, now: u64, ghost h: seq<Moment>, ghost u: nat)
      returns (ids: seq<u64>)
      requires u < |h| && IsHistory(h) && chain == h[|h| - 1].after && 0 < resyncEvery
      requires cursor == |h[u].after.log| && CaughtUp(jobs, h[u].after.jobs)
      modifies this
      ensures cursor == |chain.log| && CaughtUp(jobs, chain.jobs)
      ensures Distinct(ids) && ByDueTime(ids, jobs)
      ensures forall id :: id in ids ==>
                && Exists(chain.jobs, id) && EnsureDue(chain.jobs.specs[id], chain.jobs.states[id], now).Ok?
    {
      hide IsHistory, CaughtUp, MightBeDue, EnsureDue, ByDueTime, Replay, View;
      var _ := Sync(chain, answered, h, u);
      ids := Due(now);
    }
  }
}
