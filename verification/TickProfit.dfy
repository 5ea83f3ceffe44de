/**
 * Which jobs a pass gives up as unprofitable when simulations follow a fixed
 * rule, and when those are exactly jobs that do not pay for themselves alone.
 */
module TickProfit {
  import opened Basics
  import opened Batches
  import opened TickSpec
  import opened TickFacts
  import opened TickModel
  import opened TickOutcomes

  /** Under a rule, paying for itself means that the jobs that would run are worth the simulated cost. */
  lemma PaysIff(m: Model, p: Policy, batch: seq<DueJob>)
    ensures Pays(m, p, batch) <==> Worthwhile(p, ReadyJobs(m, batch), m.cost(Ids(batch)) + m.bid)
  {
    hide Refused, Worthwhile, ReadyJobs;
    RefusedIff(p, ReadyJobs(m, batch), m.cost(Ids(batch)) + m.bid);
  }

  /** None of these jobs would pay for itself, simulated alone. */
  predicate AllUnpaying(m: Model, p: Policy, jobs: seq<DueJob>) {
    forall i :: 0 <= i < |jobs| ==> !Pays(m, p, [jobs[i]])
  }

  /** The pieces of a batch that its poisoned jobs leave to be simulated successfully, before any split for cost. */
  function CleanPieces(m: Model, batch: seq<DueJob>): seq<seq<DueJob>>
    requires batch != []
    decreases |batch|
  {
    if !AnyIn(Ids(batch), m.poisoned) then [batch]
    else if |batch| == 1 then []
    else CleanPieces(m, Halves(batch).0) + CleanPieces(m, Halves(batch).1)
  }

  /** The only job of a piece that would run is not charged for idle neighbours it could do without. */
  predicate Fair(m: Model, p: Policy, piece: seq<DueJob>) {
    var ready := ReadyJobs(m, piece);
    |ready| == 1 && Pays(m, p, ready) ==> Pays(m, p, piece)
  }

  predicate AllFair(m: Model, p: Policy, pieces: seq<seq<DueJob>>) {
    forall i :: 0 <= i < |pieces| ==> Fair(m, p, pieces[i])
  }

  /** Every batch of the tick falls into pieces that are fair. */
  predicate FairTick(m: Model, p: Policy, batches: seq<seq<DueJob>>)
    requires NoneEmpty(batches)
  {
    forall i :: 0 <= i < |batches| ==> AllFair(m, p, CleanPieces(m, batches[i]))
  }

  // ------------------------------------------------------------------ jobs that are all ready

  predicate AllReady(m: Model, jobs: seq<DueJob>) {
    forall i :: 0 <= i < |jobs| ==> jobs[i].id in m.ready && jobs[i].id !in m.poisoned
  }

  lemma {:induction false} ReadyJobsAreReady(m: Model, batch: seq<DueJob>)
    requires forall i :: 0 <= i < |batch| ==> batch[i].id !in m.poisoned
    ensures AllReady(m, ReadyJobs(m, batch))
  {
    if batch != [] {
      ReadyJobsAreReady(m, batch[..|batch| - 1]);
      FewerFlags(batch, m.ready, true);
    }
  }

  lemma {:induction false} AllReadyStay(m: Model, jobs: seq<DueJob>)
    requires AllReady(m, jobs)
    ensures ReadyJobs(m, jobs) == jobs
  {
    if jobs != [] {
      var last := |jobs| - 1;
      AllReadyStay(m, jobs[..last]);
      FewerFlags(jobs, m.ready, true);
      assert jobs == jobs[..last] + [jobs[last]];
    }
  }

  lemma CleanJobs(m: Model, batch: seq<DueJob>)
    ensures !AnyIn(Ids(batch), m.poisoned) <==> forall i :: 0 <= i < |batch| ==> batch[i].id !in m.poisoned
  {
    forall i | 0 <= i < |batch|
      ensures Ids(batch)[i] == batch[i].id
    {
    }
  }

  lemma ReadyHalves(m: Model, jobs: seq<DueJob>)
    requires AllReady(m, jobs)
    ensures AllReady(m, Halves(jobs).0) && AllReady(m, Halves(jobs).1)
  {
    var (first, second) := Halves(jobs);
    assert forall i :: 0 <= i < |first| ==> first[i] == jobs[i];
    assert forall i :: 0 <= i < |second| ==> second[i] == jobs[|first| + i];
  }

  // ------------------------------------------------------------------ one attempt

  lemma AttemptByRule(w: World, p: Policy, r: Pass, batch: seq<DueJob>, m: Model)
    requires batch != [] && Behaves(w, m)
    ensures var (r', a) := Attempt(w, p, r, batch);
            var ready := ReadyJobs(m, batch);
            if AnyIn(Ids(batch), m.poisoned) then
              r'.unprofitable == r.unprofitable && a == if 1 < |batch| then Split(batch) else Done
            else if ready == [] || Pays(m, p, batch) then r'.unprofitable == r.unprofitable && a == Done
            else if 1 < |ready| then r'.unprofitable == r.unprofitable && a == Split(ready)
            else r'.unprofitable == r.unprofitable + ready && a == Done
  {
    hide Prepare, Refused, Earned, Chosen, Behaves, AnyIn;
    PreparedByRule(w, p, r, Ids(batch), m);
    assert w.bid(r.calls) == m.bid by { BidByRule(w, m, r.calls); }
  }

  lemma OneMoreUnpaying(m: Model, p: Policy, jobs: seq<DueJob>, one: seq<DueJob>)
    requires |one| == 1
    ensures AllUnpaying(m, p, jobs + one) <==> AllUnpaying(m, p, jobs) && !Pays(m, p, one)
  {
    hide Pays;
    assert one == [one[0]] && (jobs + one)[|jobs|] == one[0];
    assert forall i :: 0 <= i < |jobs| ==> (jobs + one)[i] == jobs[i];
  }

  /** Among jobs that would all run, only those are given up that do not pay alone. */
  lemma {:induction false} ReadyJobsAreJudgedAlone(w: World, p: Policy, r: Pass, batch: seq<DueJob>, m: Model)
    requires batch != [] && Behaves(w, m) && AllReady(m, batch)
    ensures AllUnpaying(m, p, RunBatch(w, p, r, batch).unprofitable) <==> AllUnpaying(m, p, r.unprofitable)
    decreases |batch|
  {
    hide Attempt, Behaves, Pays, AllUnpaying, AnyIn, ReadyJobs;
    AttemptByRule(w, p, r, batch, m);
    AllReadyStay(m, batch);
    CleanJobs(m, batch);
    var (r1, a) := Attempt(w, p, r, batch);
    if a.Split? {
      var (first, second) := Halves(batch);
      ReadyHalves(m, batch);
      ReadyJobsAreJudgedAlone(w, p, r1, first, m);
      ReadyJobsAreJudgedAlone(w, p, RunBatch(w, p, r1, first), second, m);
    } else if |batch| == 1 {
      OneMoreUnpaying(m, p, r.unprofitable, batch);
    }
  }

  // ------------------------------------------------------------------ batches and ticks

  /** Idle neighbours matter only in the first clean piece: later halves hold ready jobs only. */
  lemma {:induction false} BatchIsFairIff(w: World, p: Policy, r: Pass, batch: seq<DueJob>, m: Model)
    requires batch != [] && Behaves(w, m)
    ensures AllUnpaying(m, p, RunBatch(w, p, r, batch).unprofitable)
       <==> AllUnpaying(m, p, r.unprofitable) && AllFair(m, p, CleanPieces(m, batch))
    decreases |batch|
  {
    hide Attempt, Behaves, Pays, AllUnpaying, AnyIn, ReadyJobs, Fair;
    AttemptByRule(w, p, r, batch, m);
    var (r1, a) := Attempt(w, p, r, batch);
    if AnyIn(Ids(batch), m.poisoned) {
      if 1 < |batch| {
        var (first, second) := Halves(batch);
        BatchIsFairIff(w, p, r1, first, m);
        BatchIsFairIff(w, p, RunBatch(w, p, r1, first), second, m);
        FairConcat(m, p, CleanPieces(m, first), CleanPieces(m, second));
      }
    } else {
      CleanPieceIsFairIff(w, p, r, batch, m);
      OnePiece(m, p, batch);
    }
  }

  lemma FairConcat(m: Model, p: Policy, a: seq<seq<DueJob>>, b: seq<seq<DueJob>>)
    ensures AllFair(m, p, a + b) <==> AllFair(m, p, a) && AllFair(m, p, b)
  {
    hide Fair;
    assert forall i :: 0 <= i < |a| ==> (a + b)[i] == a[i];
    assert forall i :: 0 <= i < |b| ==> (a + b)[|a| + i] == b[i];
  }

  lemma OnePiece(m: Model, p: Policy, batch: seq<DueJob>)
    ensures AllFair(m, p, [batch]) <==> Fair(m, p, batch)
  {
    hide Fair;
    assert [batch][0] == batch;
  }

  lemma CleanPieceIsFairIff(w: World, p: Policy, r: Pass, batch: seq<DueJob>, m: Model)
    requires batch != [] && Behaves(w, m) && !AnyIn(Ids(batch), m.poisoned)
    ensures AllUnpaying(m, p, RunBatch(w, p, r, batch).unprofitable)
       <==> AllUnpaying(m, p, r.unprofitable) && Fair(m, p, batch)
  {
    hide Attempt, Behaves, Pays, AllUnpaying, AnyIn, ReadyJobs;
    AttemptByRule(w, p, r, batch, m);
    CleanJobs(m, batch);
    ReadyJobsAreReady(m, batch);
    var (r1, a) := Attempt(w, p, r, batch);
    var ready := ReadyJobs(m, batch);
    if a.Split? {
      var (first, second) := Halves(ready);
      ReadyHalves(m, ready);
      ReadyJobsAreJudgedAlone(w, p, r1, first, m);
      ReadyJobsAreJudgedAlone(w, p, RunBatch(w, p, r1, first), second, m);
    } else if |ready| == 1 {
      OneMoreUnpaying(m, p, r.unprofitable, ready);
    }
  }

  lemma {:induction false} TickIsFairIff(w: World, p: Policy, r: Pass, batches: seq<seq<DueJob>>, m: Model)
    requires NoneEmpty(batches) && Behaves(w, m)
    ensures AllUnpaying(m, p, RunAll(w, p, r, batches).unprofitable)
       <==> AllUnpaying(m, p, r.unprofitable) && FairTick(m, p, batches)
  {
    hide RunBatch, Behaves, AllUnpaying, AllFair, CleanPieces;
    if batches != [] {
      var last := |batches| - 1;
      TickIsFairIff(w, p, r, batches[..last], m);
      BatchIsFairIff(w, p, RunAll(w, p, r, batches[..last]), batches[last], m);
    }
  }

  /**
   * In a tick, only jobs that do not pay for themselves alone are given up as
   * unprofitable - exactly when each clean piece with a single runnable job
   * pays whenever that job alone would.
   */
  lemma UnprofitableMeansAloneIff(w: World, p: Policy, calls: nat, batches: seq<seq<DueJob>>, m: Model)
    requires NoneEmpty(batches) && Behaves(w, m)
    ensures AllUnpaying(m, p, RunAll(w, p, START.(calls := calls), batches).unprofitable) <==> FairTick(m, p, batches)
  {
    hide RunAll, FairTick, Behaves;
    TickIsFairIff(w, p, START.(calls := calls), batches, m);
  }

  /** Whatever the batches are, simulating a paying job beside jobs that would not run never makes it too expensive. */
  ghost predicate CompanionsAreFree(m: Model, p: Policy) {
    forall piece :: piece != [] && !AnyIn(Ids(piece), m.poisoned) ==> Fair(m, p, piece)
  }

  /** A rule never gives up a paying job, in any tick, exactly when companions are free under it. */
  lemma NeverDropsPayingIff(w: World, p: Policy, m: Model)
    requires Behaves(w, m)
    ensures CompanionsAreFree(m, p) <==>
            forall batches :: NoneEmpty(batches) ==> AllUnpaying(m, p, RunAll(w, p, START, batches).unprofitable)
  {
    hide RunAll, Behaves, Fair, AllUnpaying, AnyIn;
    if CompanionsAreFree(m, p) {
      forall batches | NoneEmpty(batches)
        ensures AllUnpaying(m, p, RunAll(w, p, START, batches).unprofitable)
      {
        UnprofitableMeansAloneIff(w, p, 0, batches, m);
        forall i | 0 <= i < |batches|
          ensures AllFair(m, p, CleanPieces(m, batches[i]))
        {
          PiecesAreClean(m, p, batches[i]);
        }
      }
    }
    forall piece: seq<DueJob> |
      && piece != [] && !AnyIn(Ids(piece), m.poisoned)
      && (NoneEmpty([piece]) ==> AllUnpaying(m, p, RunAll(w, p, START, [piece]).unprofitable))
      ensures Fair(m, p, piece)
    {
      UnprofitableMeansAloneIff(w, p, 0, [piece], m);
      assert [piece][0] == piece;
      OnePiece(m, p, piece);
    }
  }

  lemma {:induction false} PiecesAreClean(m: Model, p: Policy, batch: seq<DueJob>)
    requires batch != [] && CompanionsAreFree(m, p)
    ensures AllFair(m, p, CleanPieces(m, batch))
    decreases |batch|
  {
    hide Fair, AnyIn;
    if !AnyIn(Ids(batch), m.poisoned) {
      OnePiece(m, p, batch);
    } else if 1 < |batch| {
      PiecesAreClean(m, p, Halves(batch).0);
      PiecesAreClean(m, p, Halves(batch).1);
      FairConcat(m, p, CleanPieces(m, Halves(batch).0), CleanPieces(m, Halves(batch).1));
    }
  }

  /**
   * A paying job is lost to the cost of an idle neighbour: each job costs 50
   * to simulate, only job 1 would run, and it pays 60. Alone it pays for
   * itself; in a batch with job 2 it ends as unprofitable.
   */
  lemma PayingJobCanBeDropped()
    ensures var m := Model({}, {1}, (ids: seq<u64>) => 50 * |ids|, 0);
            var p := Policy(true, 0, 0, 0, false);
            var batch := [DueJob(1, 60), DueJob(2, 60)];
            && Pays(m, p, [batch[0]])
            && forall w :: Behaves(w, m) ==> RunBatch(w, p, START, batch).unprofitable == [batch[0]]
  {
    var p := Policy(true, 0, 0, 0, false);
    var m := Model({}, {1}, (ids: seq<u64>) => 50 * |ids|, 0);
    var batch := [DueJob(1, 60), DueJob(2, 60)];
    assert batch[..1] == [batch[0]] && [batch[0]][..0] == [];
    assert ReadyJobs(m, [batch[0]]) == [batch[0]];
    assert Flags(Ids(batch), {1}) == [true, false];
    assert Chosen(batch[..1], [true, false], true) == [batch[0]];
    assert ReadyJobs(m, batch) == [batch[0]];
    assert Earned([batch[0]]) == 60;
    assert !AnyIn(Ids(batch), m.poisoned);
    hide Attempt, Behaves;
    forall w: World | Behaves(w, m)
      ensures RunBatch(w, p, START, batch).unprofitable == [batch[0]]
    {
      AttemptByRule(w, p, START, batch, m);
    }
  }
}
