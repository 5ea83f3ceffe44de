/** What every polling pass keeps, whatever the network answers. */
module TickFacts {
  import opened Basics
  import opened Batches
  import opened TickSpec

  // ------------------------------------------------------------------ every due job in one bucket

  /** How often `job` was put in one of the buckets. */
  ghost function Filed(r: Pass, job: DueJob): nat {
    Times(r.executed, job) + Times(r.skipped, job) + Times(r.unprofitable, job) + Times(r.failed, job)
    + Times(r.wouldRun, job)
  }

  /** How many jobs the buckets hold. */
  function FiledCount(r: Pass): nat {
    |r.executed| + |r.skipped| + |r.unprofitable| + |r.failed| + |r.wouldRun|
  }

  function Left(a: Attempted): seq<DueJob> {
    if a.Split? then a.again else []
  }

  lemma PrepareFilesNothing(w: World, p: Policy, r: Pass, ids: seq<u64>)
    ensures var r' := Prepare(w, p, r, ids).0;
            && FiledCount(r') == FiledCount(r) && (forall job :: Filed(r', job) == Filed(r, job))
            && r'.sent == r.sent && r'.setAside == r.setAside
            && r'.unprofitable == r.unprofitable && r'.tried == r.tried + 1
  {
  }

  lemma AttemptFiles(w: World, p: Policy, r: Pass, batch: seq<DueJob>, job: DueJob)
    requires batch != []
    ensures var (r', a) := Attempt(w, p, r, batch);
            && Filed(r', job) + Times(Left(a), job) == Filed(r, job) + Times(batch, job)
            && FiledCount(r') + |Left(a)| == FiledCount(r) + |batch|
  {
    hide Prepare, Decide;
    var (r1, prepared) := Prepare(w, p, r, Ids(batch));
    PrepareFilesNothing(w, p, r, Ids(batch));
    if prepared.Ready? {
      DecideFiles(w, p, r1, batch, prepared.flags, prepared.resourceFee + w.bid(r.calls), job);
    }
  }

  lemma DecideFiles(w: World, p: Policy, r: Pass, batch: seq<DueJob>, flags: seq<bool>, cost: int, job: DueJob)
    ensures var (r', a) := Decide(w, p, r, batch, flags, cost);
            && Filed(r', job) + Times(Left(a), job) == Filed(r, job) + Times(batch, job)
            && FiledCount(r') + |Left(a)| == FiledCount(r) + |batch|
  {
    hide Refused, Earned, Chosen, Dispatch;
    var runnable, idle := Chosen(batch, flags, true), Chosen(batch, flags, false);
    FilterCounts(batch, flags, job);
    hide Times;
    TimesConcat(r.skipped, idle, job);
    TimesConcat(r.unprofitable, runnable, job);
    TimesConcat(r.wouldRun, runnable, job);
    DispatchFiles(w, r.(skipped := r.skipped + idle), batch, flags, cost, job);
  }

  lemma DispatchFiles(w: World, r: Pass, batch: seq<DueJob>, flags: seq<bool>, cost: int, job: DueJob)
    ensures var r', runnable := Dispatch(w, r, batch, flags, cost), Chosen(batch, flags, true);
            && Filed(r', job) == Filed(r, job) + Times(runnable, job)
            && FiledCount(r') == FiledCount(r) + |runnable|
  {
    hide Earned, Times, Chosen, Submit;
    TimesConcat(r.executed, Chosen(batch, flags, true), job);
    TimesConcat(r.failed, Chosen(batch, flags, true), job);
  }

  /** Running a batch files each of its jobs in exactly one bucket. */
  lemma {:induction false} RunFilesBatch(w: World, p: Policy, r: Pass, batch: seq<DueJob>, job: DueJob)
    requires batch != []
    ensures Filed(RunBatch(w, p, r, batch), job) == Filed(r, job) + Times(batch, job)
    ensures FiledCount(RunBatch(w, p, r, batch)) == FiledCount(r) + |batch|
    decreases |batch|
  {
    hide Attempt, Filed, FiledCount;
    AttemptFiles(w, p, r, batch, job);
    var (r1, a) := Attempt(w, p, r, batch);
    if a.Split? {
      var (first, second) := Halves(a.again);
      assert |first| + |second| == |a.again|;
      RunFilesBatch(w, p, r1, first, job);
      RunFilesBatch(w, p, RunBatch(w, p, r1, first), second, job);
    }
  }

  lemma {:induction false} RunAllFiles(w: World, p: Policy, r: Pass, batches: seq<seq<DueJob>>, job: DueJob)
    requires NoneEmpty(batches)
    ensures Filed(RunAll(w, p, r, batches), job) == Filed(r, job) + Bag(batches)[job]
    ensures FiledCount(RunAll(w, p, r, batches)) == FiledCount(r) + |Bag(batches)|
  {
    hide RunBatch, Filed, FiledCount;
    if batches != [] {
      var last := |batches| - 1;
      RunAllFiles(w, p, r, batches[..last], job);
      RunFilesBatch(w, p, RunAll(w, p, r, batches[..last]), batches[last], job);
    }
  }

  // ------------------------------------------------------------------ sent batches share no job

  lemma AttemptSends(w: World, p: Policy, r: Pass, batch: seq<DueJob>)
    requires batch != []
    ensures var (r', a) := Attempt(w, p, r, batch);
            && (a.Split? ==> r'.sent == r.sent && multiset(a.again) <= multiset(batch))
            && (r'.sent == r.sent || BatchesOf(r'.sent) == BatchesOf(r.sent) + [batch])
  {
    hide Prepare, Refused, Earned, Chosen;
    PrepareFilesNothing(w, p, r, Ids(batch));
    var prepared := Prepare(w, p, r, Ids(batch)).1;
    if prepared.Ready? {
      FilterSplits(batch, prepared.flags);
    }
  }

  lemma {:induction false} RunSends(w: World, p: Policy, r: Pass, batch: seq<DueJob>)
    requires batch != []
    ensures Bag(BatchesOf(RunBatch(w, p, r, batch).sent)) <= Bag(BatchesOf(r.sent)) + multiset(batch)
    decreases |batch|
  {
    hide Attempt;
    AttemptSends(w, p, r, batch);
    var (r1, a) := Attempt(w, p, r, batch);
    if a.Split? {
      hide Bag;
      var (first, second) := Halves(a.again);
      RunSends(w, p, r1, first);
      RunSends(w, p, RunBatch(w, p, r1, first), second);
    } else {
      BagOfConcat(BatchesOf(r.sent), [batch]);
      BagOfOne(batch);
    }
  }

  lemma {:induction false} RunAllSends(w: World, p: Policy, r: Pass, batches: seq<seq<DueJob>>)
    requires NoneEmpty(batches)
    ensures Bag(BatchesOf(RunAll(w, p, r, batches).sent)) <= Bag(BatchesOf(r.sent)) + Bag(batches)
  {
    hide RunBatch;
    if batches != [] {
      var last := |batches| - 1;
      RunAllSends(w, p, r, batches[..last]);
      RunSends(w, p, RunAll(w, p, r, batches[..last]), batches[last]);
    }
  }

  // ------------------------------------------------------------------ how much is simulated

  lemma AttemptTriesOnce(w: World, p: Policy, r: Pass, batch: seq<DueJob>)
    requires batch != []
    ensures Attempt(w, p, r, batch).0.tried == r.tried + 1
  {
    hide Prepare, Refused, Earned, Chosen;
    PrepareFilesNothing(w, p, r, Ids(batch));
  }

  /** Isolating bad jobs among n costs at most 2n - 1 attempts. */
  lemma {:induction false} RunTriesFew(w: World, p: Policy, r: Pass, batch: seq<DueJob>)
    requires batch != []
    ensures r.tried < RunBatch(w, p, r, batch).tried <= r.tried + 2 * |batch| - 1
    decreases |batch|
  {
    hide Attempt;
    AttemptTriesOnce(w, p, r, batch);
    var (r1, a) := Attempt(w, p, r, batch);
    if a.Split? {
      var (first, second) := Halves(a.again);
      assert |first| + |second| == |a.again|;
      RunTriesFew(w, p, r1, first);
      RunTriesFew(w, p, RunBatch(w, p, r1, first), second);
    }
  }

  // ------------------------------------------------------------------ dry runs

  predicate SameTransactions(r: Pass, r': Pass) {
    r'.sent == r.sent && r'.executed == r.executed && r'.failed == r.failed && r'.restores == r.restores
    && r'.earned == r.earned
  }

  lemma DryAttempt(w: World, p: Policy, r: Pass, batch: seq<DueJob>)
    requires batch != [] && p.dryRun
    ensures SameTransactions(r, Attempt(w, p, r, batch).0)
  {
    hide Refused, Earned, Chosen;
  }

  /** A dry run sends and restores nothing. */
  lemma {:induction false} DryRunTouchesNothing(w: World, p: Policy, r: Pass, batch: seq<DueJob>)
    requires batch != [] && p.dryRun
    ensures SameTransactions(r, RunBatch(w, p, r, batch))
    decreases |batch|
  {
    hide Attempt;
    DryAttempt(w, p, r, batch);
    var (r1, a) := Attempt(w, p, r, batch);
    if a.Split? {
      var (first, second) := Halves(a.again);
      DryRunTouchesNothing(w, p, r1, first);
      DryRunTouchesNothing(w, p, RunBatch(w, p, r1, first), second);
    }
  }
}
