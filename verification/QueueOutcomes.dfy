/**
 * Which side each decision of the Rust keeper falls on, for any replies: what
 * is sent, what counts as executed and earned, and what as failed.
 */
module QueueOutcomes {
  import opened Basics
  import opened Batches
  import opened WorkQueue

  /** The fees of these jobs, an unknown one counting as nothing. */
  function FeesOf(jobs: seq<u64>, fees: u64 -> Option<int>): int {
    if jobs == [] then 0
    else (match fees(jobs[0]) case Some(fee) => fee case None => 0) + FeesOf(jobs[1..], fees)
  }

  predicate AllKnown(jobs: seq<u64>, fees: u64 -> Option<int>) {
    forall i :: 0 <= i < |jobs| ==> fees(jobs[i]).Some?
  }

  /** What running these jobs brings is worth what the transaction costs. */
  predicate Worthwhile(p: Policy, jobs: seq<u64>, fees: u64 -> Option<int>, resourceFee: int) {
    var cost := resourceFee + p.inclusionFee;
    && (p.feeIsNative ==> p.minProfit + cost <= FeesOf(jobs, fees))
    && (!p.feeIsNative && 0 < p.maxCostPerJob ==> cost <= p.maxCostPerJob * |jobs|)
  }

  /** The jobs of the batch that the simulation says would run. */
  function ToRun(batch: seq<u64>, reply: Reply): seq<u64> {
    if reply.Simulates? then Chosen(batch, reply.flags, true) else []
  }

  /** The simulation went well, something would run and its fees are known. */
  predicate Priced(batch: seq<u64>, reply: Reply) {
    && reply.Simulates? && reply.authorized
    && ToRun(batch, reply) != [] && AllKnown(ToRun(batch, reply), reply.fees)
  }

  predicate PaysOff(p: Policy, batch: seq<u64>, reply: Reply) {
    Priced(batch, reply) && Worthwhile(p, ToRun(batch, reply), reply.fees, reply.resourceFee)
  }

  /** The batch is sent and gets through. */
  predicate GetsThrough(p: Policy, batch: seq<u64>, reply: Reply) {
    PaysOff(p, batch, reply) && !p.dryRun && reply.sends
  }

  /** The network stands in the way: no answer, an unreadable fee, or a transaction that does not get through. */
  predicate Fails(p: Policy, batch: seq<u64>, reply: Reply) {
    || reply.Unreachable?
    || (reply.Simulates? && reply.authorized && ToRun(batch, reply) != [] && !Priced(batch, reply))
    || (PaysOff(p, batch, reply) && !p.dryRun && !reply.sends)
  }

  lemma {:induction false} EarnedIsFees(jobs: seq<u64>, fees: u64 -> Option<int>)
    ensures EarnedBy(jobs, fees).Some? <==> AllKnown(jobs, fees)
    ensures AllKnown(jobs, fees) ==> EarnedBy(jobs, fees) == Some(FeesOf(jobs, fees))
  {
    if jobs != [] {
      var last := |jobs| - 1;
      EarnedIsFees(jobs[..last], fees);
      FeesOfLast(jobs, fees);
      assert AllKnown(jobs, fees) <==> AllKnown(jobs[..last], fees) && fees(jobs[last]).Some?;
    }
  }

  lemma {:induction false} FeesOfLast(jobs: seq<u64>, fees: u64 -> Option<int>)
    requires jobs != []
    ensures FeesOf(jobs, fees) == FeesOf(jobs[..|jobs| - 1], fees)
                                  + (match fees(jobs[|jobs| - 1]) case Some(fee) => fee case None => 0)
  {
    if 1 < |jobs| {
      FeesOfLast(jobs[1..], fees);
      assert jobs[1..][..|jobs| - 2] == jobs[..|jobs| - 1][1..];
    }
  }

  /** Each outcome of a batch, exactly when it happens and with what it reports. */
  lemma OutcomeIff(p: Policy, batch: seq<u64>, reply: Reply)
    ensures var o, ran := Decide(p, batch, reply), ToRun(batch, reply);
            && (o.Executed? <==> GetsThrough(p, batch, reply))
            && (o.WouldRun? <==> PaysOff(p, batch, reply) && p.dryRun)
            && (o.Unprofitable? <==> Priced(batch, reply) && !PaysOff(p, batch, reply))
            && (o.Failed? <==> Fails(p, batch, reply))
            && (o.JobProblem? <==> reply.SimulationFails? || (reply.Simulates? && !reply.authorized))
            && (o.Skipped? <==> reply.RegistryRefuses? || (reply.Simulates? && reply.authorized && ran == []))
            && (o.Executed? ==> o == Executed(ran, FeesOf(ran, reply.fees)))
            && (o.WouldRun? ==> o == WouldRun(ran)) && (o.Unprofitable? ==> o == Unprofitable(ran))
  {
    hide Chosen, EarnedBy, FeesOf, AllKnown;
    if reply.Simulates? {
      EarnedIsFees(ToRun(batch, reply), reply.fees);
    }
  }

  // ------------------------------------------------------------------ the whole queue

  /** The jobs that these attempts ran, or would have run without `dryRun`. */
  function RanIn(p: Policy, net: Network, tried: seq<seq<u64>>): seq<u64> {
    if tried == [] then []
    else
      var last := |tried| - 1;
      var batch, reply := tried[last], net(tried[last], last);
      RanIn(p, net, tried[..last])
      + if GetsThrough(p, batch, reply) || (PaysOff(p, batch, reply) && p.dryRun) then ToRun(batch, reply) else []
  }

  function EarnedIn(p: Policy, net: Network, tried: seq<seq<u64>>): int {
    if tried == [] then 0
    else
      var last := |tried| - 1;
      var batch, reply := tried[last], net(tried[last], last);
      EarnedIn(p, net, tried[..last])
      + if GetsThrough(p, batch, reply) then FeesOf(ToRun(batch, reply), reply.fees) else 0
  }

  function SentIn(p: Policy, net: Network, tried: seq<seq<u64>>): nat {
    if tried == [] then 0
    else
      var last := |tried| - 1;
      SentIn(p, net, tried[..last]) + if GetsThrough(p, tried[last], net(tried[last], last)) then 1 else 0
  }

  function FailedIn(p: Policy, net: Network, tried: seq<seq<u64>>): seq<u64> {
    if tried == [] then []
    else
      var last := |tried| - 1;
      FailedIn(p, net, tried[..last]) + if Fails(p, tried[last], net(tried[last], last)) then tried[last] else []
  }

  /** The buckets hold what the attempts so far brought. */
  ghost predicate Decided(p: Policy, net: Network, w: Work) {
    && |w.tried| == |w.calls|
    && w.executed == RanIn(p, net, w.tried) && w.earned == EarnedIn(p, net, w.tried)
    && w.sent == SentIn(p, net, w.tried) && w.failed == FailedIn(p, net, w.tried)
  }

  /** What one round adds to the buckets. */
  lemma RoundAdds(p: Policy, net: Network, w: Work)
    requires w.queue != []
    ensures var batch, w' := w.queue[0].jobs, Round(p, net, w);
            var o := Decide(p, batch, net(batch, |w.calls|));
            && w'.tried == w.tried + [batch] && |w'.calls| == |w.calls| + 1
            && w'.executed == w.executed + (if o.Executed? || o.WouldRun? then o.ran else [])
            && w'.earned == w.earned + (if o.Executed? then o.earned else 0)
            && w'.sent == w.sent + (if o.Executed? then 1 else 0)
            && w'.failed == w.failed + (if o.Failed? then batch else [])
  {
    hide Decide, Singles, HalfTasks, Idle;
  }

  /** What one more attempt adds. */
  lemma OneMoreAttempt(p: Policy, net: Network, tried: seq<seq<u64>>, batch: seq<u64>)
    ensures var more, reply := tried + [batch], net(batch, |tried|);
            && RanIn(p, net, more)
               == RanIn(p, net, tried) + (if GetsThrough(p, batch, reply) || (PaysOff(p, batch, reply) && p.dryRun)
                                          then ToRun(batch, reply) else [])
            && EarnedIn(p, net, more)
               == EarnedIn(p, net, tried)
                  + (if GetsThrough(p, batch, reply) then FeesOf(ToRun(batch, reply), reply.fees) else 0)
            && SentIn(p, net, more) == SentIn(p, net, tried) + (if GetsThrough(p, batch, reply) then 1 else 0)
            && FailedIn(p, net, more) == FailedIn(p, net, tried) + (if Fails(p, batch, reply) then batch else [])
  {
    hide Worthwhile, Priced, Fails, ToRun, FeesOf;
    assert (tried + [batch])[..|tried|] == tried;
  }

  lemma RoundDecides(p: Policy, net: Network, w: Work)
    requires w.queue != [] && Decided(p, net, w)
    ensures Decided(p, net, Round(p, net, w))
  {
    hide Decide, GetsThrough, PaysOff, Fails, ToRun, FeesOf, Priced, Round, RanIn, EarnedIn, SentIn, FailedIn;
    var batch := w.queue[0].jobs;
    OutcomeIff(p, batch, net(batch, |w.calls|));
    RoundAdds(p, net, w);
    OneMoreAttempt(p, net, w.tried, batch);
  }

  /**
   * Over the whole loop, for any replies: the executed jobs are those of the
   * transactions that got through (in a dry run, of those worth sending), the
   * earnings are their fees, and the failed jobs are those of the attempts
   * that the network stood in the way of.
   */
  lemma {:induction false} DrainDecides(p: Policy, net: Network, w: Work)
    requires NoneEmpty(w.queue) && Decided(p, net, w)
    ensures Decided(p, net, Drain(p, net, w))
    decreases Sum(w.queue, Cost())
  {
    if w.queue != [] {
      RoundKeepsTasks(p, net, w);
      RoundSpends(p, net, w, 0);
      hide Round, Decided, Sum;
      RoundDecides(p, net, w);
      DrainDecides(p, net, Round(p, net, w));
    }
  }

  /** When nothing sent gets through nothing is earned, and nothing runs outside a dry run. */
  lemma {:induction false} NothingGetsThrough(p: Policy, net: Network, tried: seq<seq<u64>>)
    requires forall batch, n :: !GetsThrough(p, batch, net(batch, n))
    ensures EarnedIn(p, net, tried) == 0 && SentIn(p, net, tried) == 0
    ensures !p.dryRun ==> RanIn(p, net, tried) == []
  {
    hide GetsThrough, PaysOff, ToRun, FeesOf;
    if tried != [] {
      NothingGetsThrough(p, net, tried[..|tried| - 1]);
    }
  }

  /** When the network stands in nobody's way nothing fails. */
  lemma {:induction false} NothingFails(p: Policy, net: Network, tried: seq<seq<u64>>)
    requires forall batch, n :: !Fails(p, batch, net(batch, n))
    ensures FailedIn(p, net, tried) == []
  {
    hide Fails;
    if tried != [] {
      NothingFails(p, net, tried[..|tried| - 1]);
    }
  }
}
