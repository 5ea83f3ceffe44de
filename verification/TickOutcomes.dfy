/**
 * What the network's answers decide, for any network: a job ends as executed,
 * and its fee as earned, exactly when the transaction it was sent in got
 * through, and only batches that are worth their cost are sent at all.
 */
module TickOutcomes {
  import opened Basics
  import opened Batches
  import opened TickSpec
  import opened TickFacts

  /** The transaction got through: at once, or at the second try after a stale sequence number and a new simulation. */
  predicate Accepted(w: World, s: Submission) {
    || w.send(s.call) == Sent
    || (w.send(s.call) == StaleSequence && w.simulate(Ids(s.batch), s.call + 1).Simulated?
        && w.send(s.call + 2) == Sent)
  }

  /** The jobs of these submissions that were simulated to run, of those that got through or of the others. */
  function JobsSent(w: World, sent: seq<Submission>, accepted: bool): seq<DueJob> {
    if sent == [] then []
    else
      var last := sent[|sent| - 1];
      JobsSent(w, sent[..|sent| - 1], accepted)
      + if Accepted(w, last) == accepted then Chosen(last.batch, last.flags, true) else []
  }

  function Fees(jobs: seq<DueJob>): int {
    if jobs == [] then 0 else jobs[0].feePerRun + Fees(jobs[1..])
  }

  /** What running these jobs brings is worth what it costs. */
  predicate Worthwhile(p: Policy, jobs: seq<DueJob>, cost: int) {
    && (p.feeIsNative ==> p.minProfit + cost <= Fees(jobs))
    && (!p.feeIsNative && p.maxCostPerJob != 0 ==> cost <= p.maxCostPerJob * |jobs|)
  }

  /** An earlier simulation of the batch answered `flags`, and with the bid of some call its cost is `cost`. */
  ghost predicate Foreseen(w: World, batch: seq<DueJob>, flags: seq<bool>, cost: int, before: nat) {
    exists c: nat, b: nat ::
      c < before && b < before && w.simulate(Ids(batch), c) == Simulated(flags, cost - w.bid(b))
  }

  /** It was simulated before, some job would run, and that was worth the cost. */
  ghost predicate Justified(w: World, p: Policy, s: Submission) {
    && !p.dryRun && Foreseen(w, s.batch, s.flags, s.cost, s.call)
    && Chosen(s.batch, s.flags, true) != []
    && Worthwhile(p, Chosen(s.batch, s.flags, true), s.cost)
  }

  /** Alone among the jobs of a simulated batch to run, `job` would not have been worth the batch's cost. */
  ghost predicate Overpriced(w: World, p: Policy, job: DueJob, before: nat) {
    exists batch, flags, cost ::
      && Foreseen(w, batch, flags, cost, before)
      && Chosen(batch, flags, true) == [job] && !Worthwhile(p, [job], cost)
  }

  /** Everything that was filed as executed, failed, earned or unprofitable between two moments of a pass. */
  ghost predicate Decided(w: World, p: Policy, r: Pass, r': Pass) {
    && r.calls <= r'.calls
    && r.sent <= r'.sent && r.unprofitable <= r'.unprofitable
    && var sent := r'.sent[|r.sent|..];
       && r'.executed == r.executed + JobsSent(w, sent, true)
       && r'.failed == r.failed + JobsSent(w, sent, false)
       && r'.earned == r.earned + Fees(JobsSent(w, sent, true))
       && (forall i :: 0 <= i < |sent| ==> Justified(w, p, sent[i]))
       && (forall i :: |r.unprofitable| <= i < |r'.unprofitable| ==>
                         Overpriced(w, p, r'.unprofitable[i], r'.calls))
  }

  lemma {:induction false} FeesConcat(a: seq<DueJob>, b: seq<DueJob>)
    ensures Fees(a + b) == Fees(a) + Fees(b)
  {
    if a == [] {
      assert a + b == b;
    } else {
      FeesConcat(a[1..], b);
      assert (a + b)[1..] == a[1..] + b;
    }
  }

  lemma {:induction false} EarnedIsFees(jobs: seq<DueJob>)
    ensures Earned(jobs) == Fees(jobs)
  {
    if jobs != [] {
      var last := |jobs| - 1;
      EarnedIsFees(jobs[..last]);
      FeesConcat(jobs[..last], [jobs[last]]);
      assert jobs == jobs[..last] + [jobs[last]] && [jobs[last]][1..] == [];
    }
  }

  lemma {:induction false} JobsSentConcat(w: World, a: seq<Submission>, b: seq<Submission>, accepted: bool)
    ensures JobsSent(w, a + b, accepted) == JobsSent(w, a, accepted) + JobsSent(w, b, accepted)
  {
    hide Accepted, Chosen;
    if b == [] {
      assert a + b == a;
    } else {
      JobsSentConcat(w, a, b[..|b| - 1], accepted);
      assert (a + b)[..|a + b| - 1] == a + b[..|b| - 1];
    }
  }

  lemma DecidedTwice(w: World, p: Policy, r: Pass, r1: Pass, r2: Pass)
    requires Decided(w, p, r, r1) && Decided(w, p, r1, r2)
    ensures Decided(w, p, r, r2)
  {
    hide JobsSent, Fees, Justified, Foreseen;
    var a, b := r1.sent[|r.sent|..], r2.sent[|r1.sent|..];
    assert r2.sent[|r.sent|..] == a + b;
    JobsSentConcat(w, a, b, true);
    JobsSentConcat(w, a, b, false);
    FeesConcat(JobsSent(w, a, true), JobsSent(w, b, true));
    forall i | |r.unprofitable| <= i < |r2.unprofitable|
      ensures Overpriced(w, p, r2.unprofitable[i], r2.calls)
    {
      if i < |r1.unprofitable| {
        assert r2.unprofitable[i] == r1.unprofitable[i];
        StillOverpriced(w, p, r1.unprofitable[i], r1.calls, r2.calls);
      }
    }
    hide Overpriced;
  }

  lemma StillOverpriced(w: World, p: Policy, job: DueJob, before: nat, later: nat)
    requires before <= later && Overpriced(w, p, job, before)
    ensures Overpriced(w, p, job, later)
  {
    hide Worthwhile, Chosen;
    var batch, flags, cost :|
      && Foreseen(w, batch, flags, cost, before)
      && Chosen(batch, flags, true) == [job] && !Worthwhile(p, [job], cost);
    assert Foreseen(w, batch, flags, cost, later);
  }

  // ------------------------------------------------------------------ one attempt

  lemma NothingDecided(w: World, p: Policy, r: Pass, r': Pass)
    requires r.calls <= r'.calls && r'.sent == r.sent && r'.unprofitable == r.unprofitable
    requires r'.executed == r.executed && r'.failed == r.failed && r'.earned == r.earned
    ensures Decided(w, p, r, r')
  {
    hide Justified, Overpriced;
    assert r'.sent[|r.sent|..] == [];
  }

  lemma PrepareForesees(w: World, p: Policy, r: Pass, batch: seq<DueJob>)
    ensures var (r', prepared) := Prepare(w, p, r, Ids(batch));
            && r.calls < r'.calls
            && r'.sent == r.sent && r'.unprofitable == r.unprofitable
            && r'.executed == r.executed && r'.failed == r.failed && r'.earned == r.earned
            && (prepared.Ready? ==>
                  Foreseen(w, batch, prepared.flags, prepared.resourceFee + w.bid(r.calls), r'.calls))
  {
    hide Ids;
    var (r', prepared) := Prepare(w, p, r, Ids(batch));
    if prepared.Ready? {
      var c := if w.simulate(Ids(batch), r.calls).Simulated? then r.calls else r.calls + 2;
      assert w.simulate(Ids(batch), c) == Simulated(prepared.flags, prepared.resourceFee);
    }
  }

  lemma DispatchDecides(w: World, p: Policy, r: Pass, batch: seq<DueJob>, flags: seq<bool>, cost: int)
    requires Justified(w, p, Submission(batch, flags, cost, r.calls))
    ensures Decided(w, p, r, Dispatch(w, r, batch, flags, cost))
  {
    hide Justified, Overpriced, Chosen, Ids;
    var s := Submission(batch, flags, cost, r.calls);
    var r' := Dispatch(w, r, batch, flags, cost);
    assert r'.sent[|r.sent|..] == [s];
    assert [s][..0] == [];
    assert Submit(w, r.calls, Ids(batch)).0 <==> Accepted(w, s);
    EarnedIsFees(Chosen(batch, flags, true));
    assert JobsSent(w, [s], true) == if Accepted(w, s) then Chosen(batch, flags, true) else [];
    assert JobsSent(w, [s], false) == if Accepted(w, s) then [] else Chosen(batch, flags, true);
    assert r'.sent[|r.sent|..][0] == s;
  }

  lemma RefusedIff(p: Policy, jobs: seq<DueJob>, cost: int)
    ensures Refused(p, Earned(jobs), cost, |jobs|) <==> !Worthwhile(p, jobs, cost)
  {
    EarnedIsFees(jobs);
  }

  lemma DecideDecides(w: World, p: Policy, r: Pass, batch: seq<DueJob>, flags: seq<bool>, cost: int)
    requires Foreseen(w, batch, flags, cost, r.calls)
    ensures Decided(w, p, r, Decide(w, p, r, batch, flags, cost).0)
  {
    hide Refused, Earned, Chosen, Dispatch, Worthwhile, Foreseen, Decided;
    var runnable := Chosen(batch, flags, true);
    var r1 := r.(skipped := r.skipped + Chosen(batch, flags, false));
    var r' := Decide(w, p, r, batch, flags, cost).0;
    NothingDecided(w, p, r, r1);
    RefusedIff(p, runnable, cost);
    if runnable == [] {
    } else if Refused(p, Earned(runnable), cost, |runnable|) {
      if |runnable| == 1 {
        assert runnable == [runnable[0]];
        GivenUp(w, p, r, r', runnable[0], batch, flags, cost);
      }
    } else if p.dryRun {
      NothingDecided(w, p, r, r');
    } else {
      DispatchDecides(w, p, r1, batch, flags, cost);
      DecidedTwice(w, p, r, r1, r');
    }
  }

  lemma GivenUp(w: World, p: Policy, r: Pass, r': Pass, job: DueJob, batch: seq<DueJob>, flags: seq<bool>, cost: int)
    requires Foreseen(w, batch, flags, cost, r.calls) && Chosen(batch, flags, true) == [job]
    requires !Worthwhile(p, [job], cost)
    requires r'.calls == r.calls && r'.sent == r.sent && r'.unprofitable == r.unprofitable + [job]
    requires r'.executed == r.executed && r'.failed == r.failed && r'.earned == r.earned
    ensures Decided(w, p, r, r')
  {
    hide Justified, Foreseen, Worthwhile, Chosen;
    assert r'.sent[|r.sent|..] == [];
    assert Overpriced(w, p, job, r.calls);
  }

  lemma AttemptDecides(w: World, p: Policy, r: Pass, batch: seq<DueJob>)
    requires batch != []
    ensures Decided(w, p, r, Attempt(w, p, r, batch).0)
  {
    hide Prepare, Decide, Foreseen, Decided;
    PrepareForesees(w, p, r, batch);
    var (r1, prepared) := Prepare(w, p, r, Ids(batch));
    NothingDecided(w, p, r, r1);
    if prepared.Ready? {
      DecideDecides(w, p, r1, batch, prepared.flags, prepared.resourceFee + w.bid(r.calls));
      DecidedTwice(w, p, r, r1, Attempt(w, p, r, batch).0);
    } else {
      NothingDecided(w, p, r, Attempt(w, p, r, batch).0);
    }
  }

  // ------------------------------------------------------------------ batches and ticks

  /** Running a batch files its jobs by what became of the transactions it was sent in. */
  lemma {:induction false} RunDecides(w: World, p: Policy, r: Pass, batch: seq<DueJob>)
    requires batch != []
    ensures Decided(w, p, r, RunBatch(w, p, r, batch))
    decreases |batch|
  {
    hide Attempt, Decided;
    AttemptDecides(w, p, r, batch);
    var (r1, a) := Attempt(w, p, r, batch);
    if a.Split? {
      var (first, second) := Halves(a.again);
      var r2 := RunBatch(w, p, r1, first);
      RunDecides(w, p, r1, first);
      RunDecides(w, p, r2, second);
      DecidedTwice(w, p, r, r1, r2);
      DecidedTwice(w, p, r, r2, RunBatch(w, p, r2, second));
    }
  }

  lemma {:induction false} RunAllDecides(w: World, p: Policy, r: Pass, batches: seq<seq<DueJob>>)
    requires NoneEmpty(batches)
    ensures Decided(w, p, r, RunAll(w, p, r, batches))
  {
    hide RunBatch, Decided;
    if batches == [] {
      NothingDecided(w, p, r, r);
    } else {
      var last := |batches| - 1;
      var r1 := RunAll(w, p, r, batches[..last]);
      RunAllDecides(w, p, r, batches[..last]);
      RunDecides(w, p, r1, batches[last]);
      DecidedTwice(w, p, r, r1, RunBatch(w, p, r1, batches[last]));
    }
  }

  /** What a whole tick executed, earned and failed is what its submissions brought. */
  lemma TickOutcome(w: World, p: Policy, calls: nat, batches: seq<seq<DueJob>>)
    requires NoneEmpty(batches)
    ensures var r := RunAll(w, p, START.(calls := calls), batches);
            && r.executed == JobsSent(w, r.sent, true) && r.failed == JobsSent(w, r.sent, false)
            && r.earned == Fees(r.executed)
            && (forall i :: 0 <= i < |r.sent| ==> Justified(w, p, r.sent[i]))
            && (forall i :: 0 <= i < |r.unprofitable| ==> Overpriced(w, p, r.unprofitable[i], r.calls))
  {
    hide RunAll, JobsSent, Fees, Justified, Overpriced;
    RunAllDecides(w, p, START.(calls := calls), batches);
    var r := RunAll(w, p, START.(calls := calls), batches);
    assert r.sent[|START.sent|..] == r.sent;
  }

  lemma {:induction false} NoneOfTheOthers(w: World, sent: seq<Submission>, accepted: bool)
    requires forall i :: 0 <= i < |sent| ==> Accepted(w, sent[i]) != accepted
    ensures JobsSent(w, sent, accepted) == []
  {
    hide Accepted, Chosen;
    if sent != [] {
      NoneOfTheOthers(w, sent[..|sent| - 1], accepted);
    }
  }

  /** When everything sent gets through nothing fails; when nothing does, nothing runs or earns. */
  lemma AllOrNothing(w: World, p: Policy, calls: nat, batches: seq<seq<DueJob>>)
    requires NoneEmpty(batches)
    ensures var r := RunAll(w, p, START.(calls := calls), batches);
            && ((forall n :: w.send(n) == Sent) ==> r.failed == [])
            && ((forall n :: w.send(n) == SendFailed) ==> r.executed == [] && r.earned == 0)
  {
    hide RunAll, JobsSent, Justified, Overpriced;
    TickOutcome(w, p, calls, batches);
    var r := RunAll(w, p, START.(calls := calls), batches);
    if forall n :: w.send(n) == Sent {
      NoneOfTheOthers(w, r.sent, false);
    }
    if forall n :: w.send(n) == SendFailed {
      NoneOfTheOthers(w, r.sent, true);
    }
  }

  // ------------------------------------------------------------------ restores and blame

  /** Archived state is restored exactly when the first simulation asks for it at a price the policy allows. */
  lemma RestoredIff(w: World, p: Policy, r: Pass, ids: seq<u64>)
    ensures var r', asked := Prepare(w, p, r, ids).0, w.simulate(ids, r.calls);
            var restored := asked.RestoreRequired? && !p.dryRun && p.maxRestoreFee != 0
                            && asked.restoreFee <= p.maxRestoreFee && w.restore(r.calls + 1) == None;
            && r'.restores == r.restores + (if restored then 1 else 0)
            && r'.restoreFees == r.restoreFees + (if restored then asked.restoreFee else 0)
  {
  }

  /** The restores between two moments of a pass cost at most the price allowed for each. */
  ghost predicate Affordable(p: Policy, r: Pass, r': Pass) {
    && r.restores <= r'.restores
    && r'.restoreFees - r.restoreFees <= p.maxRestoreFee * (r'.restores - r.restores)
  }

  lemma AffordableTwice(p: Policy, r: Pass, r1: Pass, r2: Pass)
    requires Affordable(p, r, r1) && Affordable(p, r1, r2)
    ensures Affordable(p, r, r2)
  {
    var a, b := r1.restores - r.restores, r2.restores - r1.restores;
    assert p.maxRestoreFee * (a + b) == p.maxRestoreFee * a + p.maxRestoreFee * b;
  }

  lemma AttemptIsAffordable(w: World, p: Policy, r: Pass, batch: seq<DueJob>)
    requires batch != []
    ensures Affordable(p, r, Attempt(w, p, r, batch).0)
  {
    hide Prepare, Refused, Earned, Chosen, Ids;
    RestoredIff(w, p, r, Ids(batch));
    var (r1, prepared) := Prepare(w, p, r, Ids(batch));
    assert Affordable(p, r, r1);
    assert Attempt(w, p, r, batch).0.restores == r1.restores
        && Attempt(w, p, r, batch).0.restoreFees == r1.restoreFees;
  }

  /** A batch never spends more on restores than the limit for each of them. */
  lemma {:induction false} RestoresAreAffordable(w: World, p: Policy, r: Pass, batch: seq<DueJob>)
    requires batch != []
    ensures Affordable(p, r, RunBatch(w, p, r, batch))
    decreases |batch|
  {
    hide Attempt, Affordable;
    AttemptIsAffordable(w, p, r, batch);
    var (r1, a) := Attempt(w, p, r, batch);
    if a.Split? {
      var (first, second) := Halves(a.again);
      var r2 := RunBatch(w, p, r1, first);
      RestoresAreAffordable(w, p, r1, first);
      RestoresAreAffordable(w, p, r2, second);
      AffordableTwice(p, r, r1, r2);
      AffordableTwice(p, r, r2, RunBatch(w, p, r2, second));
    }
  }

  /** A failure that no single job causes blames none: the batch is skipped whole, after one attempt. */
  lemma SharedFailureBlamesNobody(w: World, p: Policy, r: Pass, batch: seq<DueJob>)
    requires batch != []
    requires w.simulate(Ids(batch), r.calls) in {Thrown(RegistryError), Thrown(OtherFailure)}
    ensures var r' := RunBatch(w, p, r, batch);
            && r'.setAside == r.setAside && r'.tried == r.tried + 1 && r'.skipped == r.skipped + batch
            && r'.sent == r.sent
  {
  }

  /** A failure that one job causes is pinned on a job that is alone, and never on one of several. */
  lemma LoneJobIsBlamed(w: World, p: Policy, r: Pass, job: DueJob)
    requires w.simulate(Ids([job]), r.calls) in {Thrown(JobProblem), Thrown(UnexpectedAuth), Thrown(SimulationFailed)}
    ensures var r' := RunBatch(w, p, r, [job]);
            r'.setAside == r.setAside + [job] && r'.skipped == r.skipped + [job] && r'.sent == r.sent
  {
    assert [job][..1] == [job];
  }
}
