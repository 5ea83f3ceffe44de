/**
 * The keeper's polling pass as it runs: shared counters, a quarantine and a
 * recursive batch runner, proved against `TickSpec`.
 */
module KeeperTick {
  import opened Basics
  import opened Batches
  import opened Quarantines
  import opened TickSpec
  import opened TickFacts
  import opened TickModel
  import opened TickOutcomes

  /** The batches a tick works through, given the quarantine at its start. */
  function Batched(jobs: seq<DueJob>, until: map<u64, nat>, size: nat): (r: seq<seq<DueJob>>)
    requires 0 < size
    ensures NoneEmpty(r)
  {
    ChunksPartition(Chosen(jobs, Awake(Ids(jobs), until), true), size);
    Chunks(Chosen(jobs, Awake(Ids(jobs), until), true), size)
  }

  lemma {:induction false} AwakeOnly(jobs: seq<DueJob>, until: map<u64, nat>, job: DueJob)
    ensures Times(Chosen(jobs, Awake(Ids(jobs), until), true), job) == if job.id in until then 0 else Times(jobs, job)
  {
    if jobs != [] {
      var last := |jobs| - 1;
      assert jobs == jobs[..last] + [jobs[last]];
      assert Awake(Ids(jobs), until) == Awake(Ids(jobs[..last]), until) + [jobs[last].id !in until];
      ExtraFlag(jobs[..last], Awake(Ids(jobs[..last]), until), jobs[last].id !in until, true);
      AwakeOnly(jobs[..last], until, job);
    }
  }

  /** After a tick the quarantine holds who still sat out and, of the due jobs, exactly the poisoned ones. */
  lemma QuarantineHoldsPoisonedJobs(w: World, p: Policy, r: Pass, jobs: seq<DueJob>, until: map<u64, nat>, size: nat,
                                    poisoned: set<u64>, tick: nat, id: u64)
    requires 0 < size && PoisonModel(w, p, poisoned) && r.setAside == []
    ensures id in WithAll(until, Ids(RunAll(w, p, r, Batched(jobs, until, size)).setAside), tick)
       <==> id in until || (id in poisoned && id in Ids(jobs))
  {
    hide RunAll, PoisonModel, Chunks, Awake;
    var batches := Batched(jobs, until, size);
    var given := RunAll(w, p, r, batches).setAside;
    WithAllAdds(until, Ids(given), tick, id);
    forall job: DueJob
      ensures job in given <==> job in jobs && job.id in poisoned && job.id !in until
    {
      RunAllIsolatesPoison(w, p, r, batches, poisoned, job);
      ChunksHoldAll(Chosen(jobs, Awake(Ids(jobs), until), true), size);
      AwakeOnly(jobs, until, job);
      assert job in given <==> job in multiset(given);
      assert job in jobs <==> job in multiset(jobs);
    }
    IdsOf(given, id);
    IdsOf(jobs, id);
  }

  lemma IdsOf(jobs: seq<DueJob>, id: u64)
    ensures id in Ids(jobs) <==> exists job :: job in jobs && job.id == id
  {
    if id in Ids(jobs) {
      var i :| 0 <= i < |jobs| && Ids(jobs)[i] == id;
      assert jobs[i] in jobs;
    }
    if job :| job in jobs && job.id == id {
      var i :| 0 <= i < |jobs| && jobs[i] == job;
      assert Ids(jobs)[i] == id;
    }
  }

  lemma CutNext<T>(xs: seq<T>, i: nat, size: nat)
    requires i < |xs| && 0 < size
    ensures var next := Min(i + size, |xs|);
            Chunks(xs[i..], size) == [xs[i..next]] + Chunks(xs[next..], size)
  {
    var next := Min(i + size, |xs|);
    assert xs[i..][..next - i] == xs[i..next] && xs[i..][next - i..] == xs[next..];
  }

  lemma NoChunks<T>(xs: seq<T>, size: nat)
    requires 0 < size
    ensures Chunks(xs[|xs|..], size) == []
  {
  }

  /** What a tick reports. */
  datatype Summary = Summary(
    due: nat,
    batches: nat,
    executed: nat,
    skipped: nat,
    unprofitable: nat,
    failed: nat,
    earned: int,
    restores: nat,
    restoreFees: int,
    quarantined: nat,
    dryRun: nat)

  /** The summary of a pass; jobs still sitting out count as skipped and as quarantined. */
  ghost function Tally(due: nat, sittingOut: nat, r: Pass): Summary {
    Summary(due, |r.sent|, |r.executed|, sittingOut + |r.skipped|, |r.unprofitable|, |r.failed|, r.earned,
            r.restores, r.restoreFees, sittingOut + |r.setAside|, |r.wouldRun|)
  }

  /** Every due job is sitting out or filed once, and the sent batches are made of due jobs. */
  lemma TickCovers(w: World, p: Policy, calls: nat, jobs: seq<DueJob>, until: map<u64, nat>, size: nat)
    requires 0 < size
    ensures var r := RunAll(w, p, START.(calls := calls), Batched(jobs, until, size));
            && FiledCount(r) == |Chosen(jobs, Awake(Ids(jobs), until), true)|
            && (forall job ::
                  Filed(r, job) + Times(Chosen(jobs, Awake(Ids(jobs), until), false), job) == Times(jobs, job))
            && Bag(BatchesOf(r.sent)) <= multiset(jobs)
  {
    hide RunAll, Awake, Chunks, Chosen, FiledCount, Filed;
    var start, batches := START.(calls := calls), Batched(jobs, until, size);
    NothingFiled(calls);
    ChunksHoldAll(Chosen(jobs, Awake(Ids(jobs), until), true), size);
    RunAllFiles(w, p, start, batches, DueJob(0, 0));
    forall job: DueJob
      ensures Filed(RunAll(w, p, start, batches), job) + Times(Chosen(jobs, Awake(Ids(jobs), until), false), job)
           == Times(jobs, job)
    {
      RunAllFiles(w, p, start, batches, job);
      FilterCounts(jobs, Awake(Ids(jobs), until), job);
    }
    FilterSplits(jobs, Awake(Ids(jobs), until));
    RunAllSends(w, p, start, batches);
  }

  /** No job is in two transactions of the same tick. */
  lemma SentBatchesShareNoJob(w: World, p: Policy, calls: nat, jobs: seq<DueJob>, until: map<u64, nat>, size: nat,
                              i: nat, j: nat, a: DueJob, b: DueJob)
    requires 0 < size && Distinct(Ids(jobs))
    requires var sent := BatchesOf(RunAll(w, p, START.(calls := calls), Batched(jobs, until, size)).sent);
             i < j < |sent| && a in sent[i] && b in sent[j]
    ensures a.id != b.id && a in jobs && b in jobs
  {
    hide RunAll, Bag;
    var sent := BatchesOf(RunAll(w, p, START.(calls := calls), Batched(jobs, until, size)).sent);
    TickCovers(w, p, calls, jobs, until, size);
    DistinctIds(jobs);
    BatchesOfDistinctJobsAreDisjoint(jobs, sent, i, j);
    BagHolds(sent, i, a);
    BagHolds(sent, j, b);
    assert a in multiset(sent[i]) && b in multiset(sent[j]);
    assert a in multiset(jobs) && b in multiset(jobs);
    SameIdSameJob(jobs, a, b);
  }

  lemma DistinctIds(jobs: seq<DueJob>)
    requires Distinct(Ids(jobs))
    ensures Distinct(jobs)
  {
    forall x, y | 0 <= x < y < |jobs|
      ensures jobs[x] != jobs[y]
    {
      assert Ids(jobs)[x] == jobs[x].id && Ids(jobs)[y] == jobs[y].id;
    }
  }

  lemma SameIdSameJob(jobs: seq<DueJob>, a: DueJob, b: DueJob)
    requires Distinct(Ids(jobs)) && a in jobs && b in jobs
    ensures a.id == b.id ==> a == b
  {
    var i :| 0 <= i < |jobs| && jobs[i] == a;
    var j :| 0 <= j < |jobs| && jobs[j] == b;
    assert Ids(jobs)[i] == a.id && Ids(jobs)[j] == b.id;
  }

  lemma NothingFiled(calls: nat)
    ensures FiledCount(START.(calls := calls)) == 0 && forall job :: Filed(START.(calls := calls), job) == 0
    ensures Bag(BatchesOf(START.(calls := calls).sent)) == multiset{}
  {
  }

  class Keeper {
    const world: World
    const policy: Policy
    const batchSize: nat
    const quarantine: Quarantine

    var summary: Summary
    /** Network calls made so far. */
    var calls: nat

    /** What the summary counts. */
    ghost var pass: Pass
    ghost var sittingOut: nat
    /** The quarantine when the pass began. */
    ghost var before: map<u64, nat>

    constructor (world_: World, policy_: Policy, batchSize_: nat, length: nat)
      requires 1 <= batchSize_ <= 20
      ensures Tallied() && fresh(quarantine) && quarantine.until == map[]
      ensures world == world_ && policy == policy_ && batchSize == batchSize_
    {
      world, policy, batchSize := world_, policy_, batchSize_;
      quarantine := new Quarantine(length);
      summary, calls := Summary(0, 0, 0, 0, 0, 0, 0, 0, 0, 0, 0), 0;
      pass, sittingOut, before := START, 0, map[];
    }

    ghost predicate Tallied()
      reads this, quarantine
    {
      && 0 < batchSize
      && calls == pass.calls
      && summary == Tally(summary.due, sittingOut, pass)
      && quarantine.until == WithAll(before, Ids(pass.setAside), quarantine.ticks + quarantine.length)
    }

    twostate predicate SameTick()
      reads this, quarantine
    {
      && summary.due == old(summary.due) && sittingOut == old(sittingOut) && before == old(before)
      && quarantine.ticks == old(quarantine.ticks)
    }

    /** Simulates a batch, after a restore where one is needed and affordable. */
    method Prepare(ids: seq<u64>) returns (prepared: Prepared)
      requires Tallied()
      modifies this
      ensures Tallied() && SameTick()
      ensures (pass, prepared) == TickSpec.Prepare(world, policy, old(pass), ids)
    {
      hide WithAll;
      pass := TickSpec.Prepare(world, policy, pass, ids).0;
      var simulation := world.simulate(ids, calls);
      calls := calls + 1;
      match simulation {
        case Simulated(flags, fee) =>
          return Ready(flags, fee);
        case Thrown(f) =>
          return Problem(f);
        case RestoreRequired(fee) =>
          if policy.maxRestoreFee == 0 || policy.maxRestoreFee < fee {
            return Problem(JobProblem);
          }
          if policy.dryRun {
            return Problem(OtherFailure);
          }
          var refusal := world.restore(calls);
          calls := calls + 1;
          if refusal.Some? {
            return Problem(refusal.value);
          }
          summary := summary.(restores := summary.restores + 1, restoreFees := summary.restoreFees + fee);
          prepared := Again(world, ids, calls);
          calls := calls + 1;
      }
    }

    /** Sends a simulated batch, once more when the sequence number was stale. */
    method Send(batch: seq<DueJob>, runnable: seq<DueJob>, ghost flags: seq<bool>, ghost cost: int)
      requires Tallied() && runnable == Chosen(batch, flags, true)
      modifies this`pass, this`summary, this`calls
      ensures Tallied() && SameTick()
      ensures pass == Dispatch(world, old(pass), batch, flags, cost)
      // the counters follow the network's answer
      ensures if Accepted(world, Submission(batch, flags, cost, old(calls)))
              then summary.executed == old(summary.executed) + |runnable|
                   && summary.earned == old(summary.earned) + Fees(runnable)
                   && summary.failed == old(summary.failed)
              else summary.failed == old(summary.failed) + |runnable|
                   && summary.executed == old(summary.executed) && summary.earned == old(summary.earned)
    {
      hide WithAll, Earned, Chosen, Fees, Ids;
      pass := Dispatch(world, pass, batch, flags, cost);
      EarnedIsFees(runnable);
      summary := summary.(batches := summary.batches + 1);
      var ok := Submit(Ids(batch));
      if ok {
        summary := summary.(executed := summary.executed + |runnable|, earned := summary.earned + Earned(runnable));
      } else {
        summary := summary.(failed := summary.failed + |runnable|);
      }
    }

    method Submit(ids: seq<u64>) returns (ok: bool)
      modifies this`calls
      ensures (ok, calls) == TickSpec.Submit(world, old(calls), ids)
    {
      var sending := world.send(calls);
      calls := calls + 1;
      if sending.StaleSequence? {
        var simulation := world.simulate(ids, calls);
        calls := calls + 1;
        if simulation.Simulated? {
          sending := world.send(calls);
          calls := calls + 1;
        }
      }
      ok := sending.Sent?;
    }

    /** Simulates and sends one batch, splitting it in halves while a job of it causes trouble. */
    method RunBatch(batch: seq<DueJob>)
      requires Tallied() && batch != []
      modifies this, quarantine
      ensures Tallied() && SameTick()
      ensures pass == TickSpec.RunBatch(world, policy, old(pass), batch)
      decreases |batch|
    {
      hide WithAll, TickSpec.Prepare, Decide, IsJobSpecific;
      var bid := world.bid(calls);
      var prepared := Prepare(Ids(batch));
      match prepared {
        case Problem(f) =>
          if IsJobSpecific(f) && 1 < |batch| {
            RunHalves(batch);
            return;
          }
          if IsJobSpecific(f) {
            SetAside(batch[0]);
          }
          pass := pass.(skipped := pass.skipped + batch);
          summary := summary.(skipped := summary.skipped + |batch|);
        case Ready(flags, fee) =>
          FinishBatch(batch, flags, fee + bid);
      }
    }

    /** Sends what would run of a simulated batch, unless that costs too much. */
    method FinishBatch(batch: seq<DueJob>, flags: seq<bool>, cost: int)
      requires Tallied() && batch != []
      modifies this, quarantine
      ensures Tallied() && SameTick()
      ensures var (r, a) := Decide(world, policy, old(pass), batch, flags, cost);
              pass == if a.Done? then r
                      else TickSpec.RunBatch(world, policy, TickSpec.RunBatch(world, policy, r, Halves(a.again).0),
                                             Halves(a.again).1)
      decreases |batch|, 1
    {
      hide WithAll, Dispatch, Earned, Refused, Chosen, TickSpec.RunBatch;
      var runnable := Chosen(batch, flags, true);
      FilterSplits(batch, flags);
      pass := pass.(skipped := pass.skipped + Chosen(batch, flags, false));
      summary := summary.(skipped := summary.skipped + (|batch| - |runnable|));
      if runnable == [] {
        return;
      }
      if Refused(policy, Earned(runnable), cost, |runnable|) {
        if 1 < |runnable| {
          RunHalves(runnable);
          return;
        }
        pass := pass.(unprofitable := pass.unprofitable + runnable);
        summary := summary.(unprofitable := summary.unprofitable + 1);
        return;
      }
      if policy.dryRun {
        pass := pass.(wouldRun := pass.wouldRun + runnable);
        summary := summary.(dryRun := summary.dryRun + |runnable|);
        return;
      }
      Send(batch, runnable, flags, cost);
    }

    method RunHalves(jobs: seq<DueJob>)
      requires Tallied() && 1 < |jobs|
      modifies this, quarantine
      ensures Tallied() && SameTick()
      ensures pass == TickSpec.RunBatch(world, policy, TickSpec.RunBatch(world, policy, old(pass), Halves(jobs).0),
                                        Halves(jobs).1)
      decreases |jobs|, 0
    {
      hide TickSpec.RunBatch, Tallied;
      var half := CeilHalf(|jobs|);
      RunBatch(jobs[..half]);
      RunBatch(jobs[half..]);
    }

    method SetAside(job: DueJob)
      requires Tallied()
      modifies this`summary, this`pass, quarantine
      ensures Tallied() && SameTick()
      ensures pass == old(pass).(setAside := old(pass).setAside + [job])
    {
      WithOneMore(before, Ids(pass.setAside), job.id, quarantine.ticks + quarantine.length);
      assert Ids(pass.setAside + [job]) == Ids(pass.setAside) + [job.id];
      quarantine.Add(job.id);
      summary := summary.(quarantined := summary.quarantined + 1);
      pass := pass.(setAside := pass.setAside + [job]);
    }

    /** One polling pass over the jobs the index considers due. */
    method Tick(allDue: seq<DueJob>)
      requires Tallied()
      modifies this, quarantine
      ensures Tallied()
      ensures quarantine.ticks == old(quarantine.ticks) + 1
      ensures before == Released(old(quarantine.until), quarantine.ticks)
      ensures pass == RunAll(world, policy, START.(calls := old(calls)), Batched(allDue, before, batchSize))
      // every due job lands in exactly one bucket
      ensures summary.due == |allDue|
      ensures summary.due == summary.executed + summary.skipped + summary.unprofitable + summary.failed + summary.dryRun
      ensures forall job :: Times(allDue, job)
                         == Filed(pass, job) + Times(Chosen(allDue, Awake(Ids(allDue), before), false), job)
      // what was executed, earned and failed is what the network's answers to the submissions say
      ensures pass.executed == JobsSent(world, pass.sent, true) && pass.failed == JobsSent(world, pass.sent, false)
      ensures summary.executed == |pass.executed| && summary.failed == |pass.failed|
      ensures summary.earned == Fees(pass.executed) && summary.batches == |pass.sent|
      ensures summary.unprofitable == |pass.unprofitable| && summary.dryRun == |pass.wouldRun|
      ensures summary.restores == pass.restores && summary.restoreFees == pass.restoreFees
      // no job is sent more often than it is due
      ensures Bag(BatchesOf(pass.sent)) <= multiset(allDue)
    {
      hide WithAll, Chosen, RunAll, Filed, JobsSent, Fees, Justified, Overpriced;
      quarantine.Next();
      before := quarantine.until;
      var flags := seq(|allDue|, i requires 0 <= i < |allDue| reads quarantine => !quarantine.Has(allDue[i].id));
      assert flags == Awake(Ids(allDue), before);
      var due := Chosen(allDue, flags, true);
      FilterSplits(allDue, flags);
      var waiting := |allDue| - |due|;
      pass, sittingOut := START.(calls := calls), waiting;
      summary := Summary(|allDue|, 0, 0, waiting, 0, 0, 0, 0, 0, waiting, 0);
      assert Ids([]) == [];
      WithNone(before, quarantine.ticks + quarantine.length);
      RunBatches(due);
      TickCovers(world, policy, old(calls), allDue, before, batchSize);
      TickOutcome(world, policy, old(calls), Batched(allDue, before, batchSize));
    }

    /** Cuts the due jobs into batches and runs them one after the other. */
    method RunBatches(due: seq<DueJob>)
      requires Tallied()
      modifies this, quarantine
      ensures Tallied() && SameTick()
      ensures NoneEmpty(Chunks(due, batchSize))
      ensures pass == RunAll(world, policy, old(pass), Chunks(due, batchSize))
    {
      hide TickSpec.RunBatch, WithAll, Tally, Chunks;
      ChunksPartition(due, batchSize);
      var queue := Cut(due, batchSize);
      var i := 0;
      while i < |queue|
        invariant i <= |queue|
        invariant Tallied() && SameTick()
        invariant pass == RunAll(world, policy, old(pass), queue[..i])
      {
        RunBatch(queue[i]);
        i := i + 1;
        assert queue[..i][..i - 1] == queue[..i - 1];
      }
      assert queue[..i] == queue;
    }

    static method Cut(due: seq<DueJob>, size: nat) returns (queue: seq<seq<DueJob>>)
      requires 0 < size
      ensures queue == Chunks(due, size)
    {
      queue := [];
      var i := 0;
      assert due[0..] == due;
      NoChunks(due, size);
      hide Chunks;
      while i < |due|
        invariant 0 <= i && queue + Chunks(due[Min(i, |due|)..], size) == Chunks(due, size)
      {
        CutNext(due, i, size);
        queue := queue + [due[i..Min(i + size, |due|)]];
        i := i + size;
      }
    }
  }
}
