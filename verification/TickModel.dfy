/**
 * What a polling pass achieves when simulations follow a fixed rule: they
 * fail exactly for batches with a poisoned job, and cost what a cost function
 * says.
 */
module TickModel {
  import opened Basics
  import opened Batches
  import opened TickSpec
  import opened TickFacts

  lemma PoisonedJobPoisonsBatch(batch: seq<DueJob>, bad: set<u64>, job: DueJob)
    ensures job in multiset(batch) && job.id in bad ==> AnyIn(Ids(batch), bad)
    ensures |batch| == 1 && AnyIn(Ids(batch), bad) && job in multiset(batch) ==> job.id in bad
  {
    if job in multiset(batch) && job.id in bad {
      assert job in batch;
      var i :| 0 <= i < |batch| && batch[i] == job;
      assert Ids(batch)[i] in bad;
    }
  }

  // ------------------------------------------------------------------ isolating poisoned jobs

  /** Preparing a batch fails, and in a way that blames a job, exactly when it holds a poisoned job. */
  ghost predicate PoisonModel(w: World, p: Policy, poisoned: set<u64>) {
    forall r, ids :: var prepared := Prepare(w, p, r, ids).1;
                     if AnyIn(ids, poisoned) then prepared.Problem? && IsJobSpecific(prepared.failure)
                     else prepared.Ready?
  }

  lemma AttemptIsolates(w: World, p: Policy, r: Pass, batch: seq<DueJob>, poisoned: set<u64>, job: DueJob)
    requires batch != [] && PoisonModel(w, p, poisoned)
    ensures var (r', a) := Attempt(w, p, r, batch);
            multiset(r'.setAside)[job] + Share(Left(a), poisoned, job)
            == multiset(r.setAside)[job] + Share(batch, poisoned, job)
  {
    hide Prepare, Refused, Earned, Chosen, AnyIn;
    PrepareFilesNothing(w, p, r, Ids(batch));
    PoisonedJobPoisonsBatch(batch, poisoned, job);
    var prepared := Prepare(w, p, r, Ids(batch)).1;
    if prepared.Ready? {
      FilterSplits(batch, prepared.flags);
    } else if |batch| == 1 {
      assert batch[..1] == batch;
    }
  }

  /** How often `job` occurs in a batch, counting only poisoned jobs. */
  function Share(batch: seq<DueJob>, poisoned: set<u64>, job: DueJob): nat {
    if job.id in poisoned then multiset(batch)[job] else 0
  }

  /** Exactly the poisoned jobs of a batch are set aside, each as often as it occurs; no healthy job is. */
  lemma {:induction false} RunIsolatesPoison(w: World, p: Policy, r: Pass, batch: seq<DueJob>, poisoned: set<u64>,
                                             job: DueJob)
    requires batch != [] && PoisonModel(w, p, poisoned)
    ensures multiset(RunBatch(w, p, r, batch).setAside)[job]
         == multiset(r.setAside)[job] + if job.id in poisoned then multiset(batch)[job] else 0
    decreases |batch|
  {
    hide Attempt, PoisonModel;
    AttemptIsolates(w, p, r, batch, poisoned, job);
    var (r1, a) := Attempt(w, p, r, batch);
    if a.Split? {
      var (first, second) := Halves(a.again);
      RunIsolatesPoison(w, p, r1, first, poisoned, job);
      RunIsolatesPoison(w, p, RunBatch(w, p, r1, first), second, poisoned, job);
    }
  }

  lemma {:induction false} RunAllIsolatesPoison(w: World, p: Policy, r: Pass, batches: seq<seq<DueJob>>,
                                                poisoned: set<u64>, job: DueJob)
    requires NoneEmpty(batches)
    requires PoisonModel(w, p, poisoned)
    ensures multiset(RunAll(w, p, r, batches).setAside)[job]
         == multiset(r.setAside)[job] + if job.id in poisoned then Bag(batches)[job] else 0
  {
    hide RunBatch, PoisonModel;
    if batches != [] {
      var last := |batches| - 1;
      RunAllIsolatesPoison(w, p, r, batches[..last], poisoned, job);
      RunIsolatesPoison(w, p, RunAll(w, p, r, batches[..last]), batches[last], poisoned, job);
    }
  }

  // ------------------------------------------------------------------ costs

  datatype Model = Model(poisoned: set<u64>, ready: set<u64>, cost: seq<u64> -> int, bid: int)

  function Flags(ids: seq<u64>, ready: set<u64>): seq<bool> {
    seq(|ids|, i requires 0 <= i < |ids| => ids[i] in ready)
  }

  /** The world answers by the model's rule at every call. */
  ghost predicate Behaves(w: World, m: Model) {
    && (forall ids, n :: w.simulate(ids, n) == Answer(m, ids))
    && (forall n :: w.bid(n) == m.bid)
  }

  function Answer(m: Model, ids: seq<u64>): Simulation {
    if AnyIn(ids, m.poisoned) then Thrown(SimulationFailed) else Simulated(Flags(ids, m.ready), m.cost(ids))
  }

  lemma PreparedByRule(w: World, p: Policy, r: Pass, ids: seq<u64>, m: Model)
    requires Behaves(w, m)
    ensures Prepare(w, p, r, ids).1
         == if AnyIn(ids, m.poisoned) then Problem(SimulationFailed) else Ready(Flags(ids, m.ready), m.cost(ids))
    ensures var r1 := Prepare(w, p, r, ids).0; r1.skipped == r.skipped && r1.unprofitable == r.unprofitable
  {
    hide AnyIn;
    assert w.simulate(ids, r.calls) == Answer(m, ids);
  }

  lemma {:induction false} FewerFlags(batch: seq<DueJob>, ready: set<u64>, want: bool)
    requires batch != []
    ensures Chosen(batch[..|batch| - 1], Flags(Ids(batch), ready), want)
         == Chosen(batch[..|batch| - 1], Flags(Ids(batch[..|batch| - 1]), ready), want)
  {
    var last := |batch| - 1;
    assert Flags(Ids(batch), ready) == Flags(Ids(batch[..last]), ready) + [batch[last].id in ready];
    ExtraFlag(batch[..last], Flags(Ids(batch[..last]), ready), batch[last].id in ready, want);
  }

  lemma {:induction false} ExtraFlag<T>(xs: seq<T>, flags: seq<bool>, extra: bool, want: bool)
    requires |xs| <= |flags|
    ensures Chosen(xs, flags + [extra], want) == Chosen(xs, flags, want)
  {
    if xs != [] {
      ExtraFlag(xs[..|xs| - 1], flags, extra, want);
    }
  }

  function ReadyJobs(m: Model, batch: seq<DueJob>): seq<DueJob> {
    Chosen(batch, Flags(Ids(batch), m.ready), true)
  }

  /** Simulated as one batch, the jobs that would run pay for it. */
  predicate Pays(m: Model, p: Policy, batch: seq<DueJob>) {
    var ready := ReadyJobs(m, batch);
    !Refused(p, Earned(ready), m.cost(Ids(batch)) + m.bid, |ready|)
  }

  lemma BidByRule(w: World, m: Model, n: nat)
    requires Behaves(w, m)
    ensures w.bid(n) == m.bid
  {
  }

  // ------------------------------------------------------------------ who is skipped

  /** Poisoned, or not to be run now. */
  predicate Idle(m: Model, job: DueJob) {
    job.id in m.poisoned || job.id !in m.ready
  }

  /** The simulation's `false` flags mark exactly the jobs that are not ready. */
  lemma {:induction false} FlagsMarkReady(m: Model, batch: seq<DueJob>, job: DueJob)
    ensures multiset(Chosen(batch, Flags(Ids(batch), m.ready), false))[job]
         == if job.id in m.ready then 0 else multiset(batch)[job]
  {
    if batch != [] {
      var last := |batch| - 1;
      assert batch == batch[..last] + [batch[last]];
      FlagsMarkReady(m, batch[..last], job);
      FewerFlags(batch, m.ready, false);
    }
  }

  function IdleShare(batch: seq<DueJob>, m: Model, job: DueJob): nat {
    if Idle(m, job) then multiset(batch)[job] else 0
  }

  lemma AttemptSkipsIdle(w: World, p: Policy, r: Pass, batch: seq<DueJob>, m: Model, job: DueJob)
    requires batch != [] && Behaves(w, m)
    ensures var (r', a) := Attempt(w, p, r, batch);
            multiset(r'.skipped)[job] + IdleShare(Left(a), m, job)
            == multiset(r.skipped)[job] + IdleShare(batch, m, job)
  {
    hide Prepare, Refused, Earned, Chosen, Behaves, AnyIn;
    PreparedByRule(w, p, r, Ids(batch), m);
    PoisonedJobPoisonsBatch(batch, m.poisoned, job);
    FilterSplits(batch, Flags(Ids(batch), m.ready));
    FlagsMarkReady(m, batch, job);
  }

  /** Bad jobs hold up nobody: a batch's skipped jobs are exactly the poisoned ones and those that would not run. */
  lemma {:induction false} RunSkipsIdle(w: World, p: Policy, r: Pass, batch: seq<DueJob>, m: Model, job: DueJob)
    requires batch != [] && Behaves(w, m)
    ensures multiset(RunBatch(w, p, r, batch).skipped)[job]
         == multiset(r.skipped)[job] + if Idle(m, job) then multiset(batch)[job] else 0
    decreases |batch|
  {
    hide Attempt, Behaves, Idle;
    AttemptSkipsIdle(w, p, r, batch, m, job);
    var (r1, a) := Attempt(w, p, r, batch);
    if a.Split? {
      var (first, second) := Halves(a.again);
      RunSkipsIdle(w, p, r1, first, m, job);
      RunSkipsIdle(w, p, RunBatch(w, p, r1, first), second, m, job);
    }
  }
}
