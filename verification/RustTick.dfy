/** The Rust keeper's polling pass as it runs, proved against the work queue: keeper-rs/src/main.rs. */
module RustTick {
  import opened Basics
  import opened Batches
  import opened Quarantines
  import opened WorkQueue
  import opened QueueOutcomes

  const TICKS := 30
  const REGISTRY_BATCH_LIMIT := 20

  datatype Summary = Summary(
    checked: nat,
    due: nat,
    batches: nat,
    executed: nat,
    skipped: nat,
    unprofitable: nat,
    failed: nat,
    earned: int,
    quarantined: nat)

  ghost function Tally(checked: nat, due: nat, waiting: nat, w: Work): Summary {
    Summary(checked, due, w.sent, |w.executed|, waiting + |w.skipped|, |w.unprofitable|, |w.failed|, w.earned,
            waiting + |w.setAside|)
  }

  function Clamp(size: nat): (r: nat)
    ensures 1 <= r <= REGISTRY_BATCH_LIMIT && (1 <= size <= REGISTRY_BATCH_LIMIT ==> r == size)
  {
    if size < 1 then 1 else if REGISTRY_BATCH_LIMIT < size then REGISTRY_BATCH_LIMIT else size
  }

  /** The jobs below `n` the registry calls due, in order; `None` when an answer is missing. */
  function DueBelow(n: nat, isDue: nat -> Option<bool>): (due: Option<seq<u64>>)
    requires n <= U64_MAX
    ensures due.Some? ==> forall i :: 0 <= i < |due.value| ==> due.value[i] < n
  {
    if n == 0 then Some([])
    else
      match (DueBelow(n - 1, isDue), isDue(n - 1))
      case (Some(due), Some(yes)) => Some(if yes then due + [n - 1] else due)
      case _ => None
  }

  lemma {:induction false} DueAreDistinct(n: nat, isDue: nat -> Option<bool>)
    requires n <= U64_MAX && DueBelow(n, isDue).Some?
    ensures Distinct(DueBelow(n, isDue).value)
  {
    if n > 0 {
      DueAreDistinct(n - 1, isDue);
    }
  }

  /** A job is collected exactly when the registry calls it due; an answer that is missing leaves nothing. */
  lemma {:induction false} DueIff(n: nat, isDue: nat -> Option<bool>, id: u64)
    requires n <= U64_MAX
    ensures DueBelow(n, isDue).Some? <==> forall i :: 0 <= i < n ==> isDue(i).Some?
    ensures DueBelow(n, isDue).Some? ==> (id in DueBelow(n, isDue).value <==> id < n && isDue(id) == Some(true))
  {
    if n > 0 {
      DueIff(n - 1, isDue, id);
    }
  }

  lemma {:induction false} OneMissingAnswer(n: nat, m: nat, isDue: nat -> Option<bool>)
    requires n <= m <= U64_MAX && DueBelow(n, isDue).None?
    ensures DueBelow(m, isDue).None?
  {
    if n < m {
      OneMissingAnswer(n, m - 1, isDue);
    }
  }

  /** The work a tick starts with. */
  function Begin(ids: seq<u64>, size: nat): (w: Work)
    ensures NoneEmpty(w.queue)
  {
    ChunksPartition(ids, Clamp(size));
    Work(Tasks(Chunks(ids, Clamp(size))), [], [], [], [], [], [], [], 0, 0)
  }

  function Jobs(queue: seq<Task>): (r: seq<seq<u64>>)
    ensures |r| == |queue| && forall i :: 0 <= i < |r| ==> r[i] == queue[i].jobs
  {
    seq(|queue|, i requires 0 <= i < |queue| => queue[i].jobs)
  }

  function OneByOne(ids: seq<u64>): seq<seq<u64>> {
    seq(|ids|, i requires 0 <= i < |ids| => [ids[i]])
  }

  lemma {:induction false} SinglesAreOneByOne(origin: nat, ids: seq<u64>)
    ensures Jobs(Singles(origin, ids)) == OneByOne(ids)
  {
    if ids != [] {
      SinglesAreOneByOne(origin, ids[1..]);
      assert [ids[0]] == ids[..1];
      assert OneByOne(ids) == [ids[..1]] + OneByOne(ids[1..]);
      assert Jobs(Singles(origin, ids)) == [ids[..1]] + Jobs(Singles(origin, ids[1..]));
    }
  }

  // ------------------------------------------------------------------ what a tick achieves

  /**
   * The tick ends with an empty queue and files each of its jobs in exactly
   * one bucket; the calls made for one of its batches stay within 2n - 1.
   */
  lemma TickCovers(p: Policy, net: Network, ids: seq<u64>, size: nat)
    ensures var w := Drain(p, net, Begin(ids, size));
            && w.queue == []
            && |w.executed| + |w.skipped| + |w.unprofitable| + |w.failed| == |ids|
            && (forall id: u64 :: Filed(w, id) == Times(ids, id))
            && forall k :: 0 <= k < |Chunks(ids, Clamp(size))|
                       ==> Times(w.calls, k) <= 2 * |Chunks(ids, Clamp(size))[k]| - 1
  {
    hide Drain, Round, Chunks, Filed, Accounted, Sum, Spent, Tasks;
    var start, batches := Begin(ids, size), Chunks(ids, Clamp(size));
    var w := Drain(p, net, start);
    ChunksPartition(ids, Clamp(size));
    ChunksHoldAll(ids, Clamp(size));
    forall id: u64
      ensures Filed(w, id) == Times(ids, id)
    {
      AccountedAtEnds(p, net, start, batches, id);
    }
    AccountedAtEnds(p, net, start, batches, 0);
    forall k | 0 <= k < |batches|
      ensures Times(w.calls, k) <= 2 * |batches[k]| - 1
    {
      DrainSpends(p, net, start, k);
      SpentAtStart(start, batches, k);
    }
  }

  lemma AccountedAtEnds(p: Policy, net: Network, start: Work, batches: seq<seq<u64>>, id: u64)
    requires start == Work(Tasks(batches), [], [], [], [], [], [], [], 0, 0) && NoneEmpty(start.queue)
    requires forall i :: 0 <= i < |batches| ==> batches[i] != []
    ensures var w := Drain(p, net, start);
            && w.queue == [] && Filed(w, id) == Bag(batches)[id]
            && |w.executed| + |w.skipped| + |w.unprofitable| + |w.failed| == |Bag(batches)|
  {
    hide Drain, Tasks, Bag, Sum;
    DrainAccounts(p, net, start, id);
    SumOfTasks(batches, 0, id);
    NothingQueued(Occurrences(id));
    NothingQueued(Size());
  }

  lemma SpentAtStart(start: Work, batches: seq<seq<u64>>, k: nat)
    requires start == Work(Tasks(batches), [], [], [], [], [], [], [], 0, 0) && k < |batches|
    requires forall i :: 0 <= i < |batches| ==> batches[i] != []
    ensures Spent(start, k) == 2 * |batches[k]| - 1
  {
    SumOfTasks(batches, k, 0);
  }

  /** After a tick the quarantine holds who still sat out and, of the jobs tried, exactly the poisoned ones. */
  lemma QuarantineHoldsPoisonedJobs(p: Policy, net: Network, ids: seq<u64>, size: nat, until: map<u64, nat>, tick: nat,
                                    poisoned: set<u64>, id: u64)
    requires PoisonModel(p, net, poisoned)
    ensures id in WithAll(until, Drain(p, net, Begin(ids, size)).setAside, tick)
       <==> id in until || (id in poisoned && id in ids)
  {
    hide Drain, Round, PoisonModel, Chunks, Sum, Tasks;
    var start, batches := Begin(ids, size), Chunks(ids, Clamp(size));
    var given := Drain(p, net, start).setAside;
    WithAllAdds(until, given, tick, id);
    ChunksPartition(ids, Clamp(size));
    ChunksHoldAll(ids, Clamp(size));
    DrainIsolatesPoison(p, net, start, poisoned, id);
    SumOfTasks(batches, 0, id);
    assert id in given <==> id in multiset(given);
    assert id in ids <==> id in multiset(ids);
  }

  // ------------------------------------------------------------------ the program

  method SumFees(ran: seq<u64>, fees: u64 -> Option<int>) returns (earned: Option<int>)
    ensures earned == EarnedBy(ran, fees)
  {
    var sum := 0;
    var i := 0;
    while i < |ran|
      invariant i <= |ran| && EarnedBy(ran[..i], fees) == Some(sum)
    {
      assert ran[..i + 1][..i] == ran[..i];
      if fees(ran[i]).None? {
        NoSumWithout(ran, fees, i);
        return None;
      }
      sum := sum + fees(ran[i]).value;
      i := i + 1;
    }
    assert ran[..i] == ran;
    earned := Some(sum);
  }

  lemma {:induction false} NoSumWithout(ran: seq<u64>, fees: u64 -> Option<int>, i: nat)
    requires i < |ran| && fees(ran[i]).None?
    ensures EarnedBy(ran, fees).None?
  {
    if i < |ran| - 1 {
      NoSumWithout(ran[..|ran| - 1], fees, i);
    }
  }

  method ExecuteBatch(p: Policy, batch: seq<u64>, reply: Reply) returns (o: Outcome)
    ensures o == Decide(p, batch, reply)
  {
    match reply {
      case Unreachable => return Failed;
      case RegistryRefuses => return Skipped;
      case SimulationFails => return JobProblem;
      case Simulates(flags, authorized, fees, resourceFee, sends) =>
        if !authorized {
          return JobProblem;
        }
        RanFlagsChooseTheSame(batch, flags, |batch|, true);
        var ran := Chosen(batch, RanFlags(flags, |batch|), true);
        if ran == [] {
          return Skipped;
        }
        var earned := SumFees(ran, fees);
        if earned.None? {
          return Failed;
        }
        var cost := resourceFee + p.inclusionFee;
        var tooCostly := !p.feeIsNative && 0 < p.maxCostPerJob && p.maxCostPerJob * |ran| < cost;
        if tooCostly || (p.feeIsNative && !Profitable(earned.value, cost, p.minProfit)) {
          return Unprofitable(ran);
        }
        if p.dryRun {
          return WouldRun(ran);
        }
        if !sends {
          return Failed;
        }
        o := Executed(ran, earned.value);
    }
  }

  /** Asks the registry about every job in turn. */
  method CollectDue(count: nat, isDue: nat -> Option<bool>) returns (due: Option<seq<u64>>)
    requires count <= U64_MAX
    ensures due == DueBelow(count, isDue)
  {
    var ids: seq<u64> := [];
    for id := 0 to count
      invariant DueBelow(id, isDue) == Some(ids)
    {
      var yes := isDue(id);
      if yes.None? {
        OneMissingAnswer(id + 1, count, isDue);
        return None;
      }
      if yes.value {
        ids := ids + [id];
      }
    }
    due := Some(ids);
  }

  /** One polling pass; `None` when the registry could not be asked which jobs are due. */
  method Tick(p: Policy, net: Network, count: Option<u64>, isDue: nat -> Option<bool>, batchSize: nat,
              quarantine: Quarantine)
    returns (r: Option<Summary>, ghost waiting: seq<u64>, ghost w: Work)
    requires quarantine.length == TICKS
    modifies quarantine
    ensures quarantine.ticks == old(quarantine.ticks) + 1
    ensures r.None? <==> count.None? || DueBelow(count.value, isDue).None?
    ensures r.None? ==> quarantine.until == Released(old(quarantine.until), quarantine.ticks)
    ensures r.Some? ==>
      var due, before := DueBelow(count.value, isDue).value, Released(old(quarantine.until), quarantine.ticks);
      var awake := Chosen(due, Awake(due, before), true);
      && waiting == Chosen(due, Awake(due, before), false)
      && w == Drain(p, net, Begin(awake, batchSize))
      && r == Some(Tally(count.value, |due|, |waiting|, w))
      && quarantine.until == WithAll(before, w.setAside, quarantine.ticks + TICKS)
      // every due job lands in exactly one outcome
      && |due| == r.value.executed + r.value.skipped + r.value.unprofitable + r.value.failed
      && (forall id: u64 :: Filed(w, id) + Times(waiting, id) == if id in due then 1 else 0)
      // and the counters are what the attempts brought
      && r.value.executed == |RanIn(p, net, w.tried)| && r.value.earned == EarnedIn(p, net, w.tried)
      && r.value.batches == SentIn(p, net, w.tried) && r.value.failed == |FailedIn(p, net, w.tried)|
  {
    hide Drain, WithAll, Filed, Chosen, Awake, Begin, Tally, Released, RanIn, EarnedIn, SentIn, FailedIn;
    waiting, w := [], Begin([], 1);
    quarantine.Next();
    ghost var before := quarantine.until;
    if count.None? {
      return None, waiting, w;
    }
    var found := CollectDue(count.value, isDue);
    if found.None? {
      return None, waiting, w;
    }
    var due := found.value;
    var flags := Sleepless(due, quarantine);
    var awake := Chosen(due, flags, true);
    waiting := Chosen(due, flags, false);
    FilterSplits(due, flags);
    var summary: Summary;
    summary, w := RunQueue(p, net, count.value, |due|, awake, batchSize, quarantine);
    TickFiles(p, net, count.value, isDue, due, flags, batchSize);
    CountsOf(count.value, |due|, |waiting|, w);
    AttemptsBrought(p, net, awake, batchSize);
    r := Some(summary);
  }

  method Sleepless(ids: seq<u64>, quarantine: Quarantine) returns (flags: seq<bool>)
    ensures flags == Awake(ids, quarantine.until)
  {
    flags := seq(|ids|, i requires 0 <= i < |ids| reads quarantine => !quarantine.Has(ids[i]));
  }

  lemma AttemptsBrought(p: Policy, net: Network, ids: seq<u64>, size: nat)
    ensures QueueOutcomes.Decided(p, net, Drain(p, net, Begin(ids, size)))
  {
    DrainDecides(p, net, Begin(ids, size));
    hide Drain, Round, Chunks, Tasks;
  }

  lemma CountsOf(checked: nat, due: nat, waiting: nat, w: Work)
    ensures var s := Tally(checked, due, waiting, w);
            && s.executed + s.skipped + s.unprofitable + s.failed
               == waiting + |w.executed| + |w.skipped| + |w.unprofitable| + |w.failed|
            && s.executed == |w.executed| && s.earned == w.earned && s.batches == w.sent && s.failed == |w.failed|
  {
  }

  lemma TickFiles(p: Policy, net: Network, n: nat, isDue: nat -> Option<bool>, due: seq<u64>, flags: seq<bool>,
                  size: nat)
    requires n <= U64_MAX && DueBelow(n, isDue) == Some(due)
    ensures var awake, waiting := Chosen(due, flags, true), Chosen(due, flags, false);
            var w := Drain(p, net, Begin(awake, size));
            && |waiting| + |w.executed| + |w.skipped| + |w.unprofitable| + |w.failed| == |due|
            && forall id: u64 :: Filed(w, id) + Times(waiting, id) == if id in due then 1 else 0
  {
    hide Drain, Begin, Chosen, Filed, Times, Chunks;
    TickCovers(p, net, Chosen(due, flags, true), size);
    FilterSplits(due, flags);
    EachOnce(n, isDue, due, flags);
  }

  lemma EachOnce(n: nat, isDue: nat -> Option<bool>, due: seq<u64>, flags: seq<bool>)
    requires n <= U64_MAX && DueBelow(n, isDue) == Some(due)
    ensures forall id: u64 :: Times(Chosen(due, flags, true), id) + Times(Chosen(due, flags, false), id)
                           == if id in due then 1 else 0
  {
    hide Chosen;
    DueAreDistinct(n, isDue);
    forall id: u64
      ensures Times(Chosen(due, flags, true), id) + Times(Chosen(due, flags, false), id) == if id in due then 1 else 0
    {
      FilterCounts(due, flags, id);
      DistinctOccursOnce(due, id);
      assert id in due <==> id in multiset(due);
    }
  }

  /** An outcome sets its batch aside: the batch is a single job, to blame for its own failure. */
  predicate SetsAside(batch: seq<u64>, o: Outcome) {
    o.JobProblem? && |batch| <= 1
  }

  /** What one outcome does to the rest of the queue. */
  function Requeue(batch: seq<u64>, o: Outcome, rest: seq<seq<u64>>): seq<seq<u64>> {
    if o.JobProblem? && 1 < |batch| then rest + OneByOne(batch)
    else if o.Unprofitable? && 1 < |o.ran| then [Halves(o.ran).0, Halves(o.ran).1] + rest
    else rest
  }

  /** What one outcome does to the summary. */
  function Added(summary: Summary, batch: seq<u64>, o: Outcome): Summary
    requires batch != [] && |Ran(o)| <= |batch|
  {
    match o
    case JobProblem =>
      if 1 < |batch| then summary
      else summary.(quarantined := summary.quarantined + 1, skipped := summary.skipped + 1)
    case Executed(ran, earned) =>
      summary.(batches := summary.batches + 1, executed := summary.executed + |ran|,
               skipped := summary.skipped + (|batch| - |ran|), earned := summary.earned + earned)
    case WouldRun(ran) =>
      summary.(executed := summary.executed + |ran|, skipped := summary.skipped + (|batch| - |ran|))
    case Skipped => summary.(skipped := summary.skipped + |batch|)
    case Unprofitable(ran) =>
      summary.(skipped := summary.skipped + (|batch| - |ran|),
               unprofitable := summary.unprofitable + if 1 < |ran| then 0 else |ran|)
    case Failed => summary.(failed := summary.failed + |batch|)
  }

  /** The loop's body after a call: counts the outcome, sets a lone bad job aside, puts pieces back in the queue. */
  method FileOutcome(batch: seq<u64>, outcome: Outcome, rest: seq<seq<u64>>, before: Summary, quarantine: Quarantine)
    returns (queue: seq<seq<u64>>, summary: Summary)
    requires batch != [] && |Ran(outcome)| <= |batch|
    modifies quarantine
    ensures queue == Requeue(batch, outcome, rest) && summary == Added(before, batch, outcome)
    ensures quarantine.ticks == old(quarantine.ticks)
    ensures quarantine.until == if SetsAside(batch, outcome)
                                then old(quarantine.until)[batch[0] := quarantine.ticks + quarantine.length]
                                else old(quarantine.until)
  {
    queue, summary := rest, before;
    match outcome {
      case JobProblem =>
        if 1 < |batch| {
          queue := queue + OneByOne(batch);
        } else {
          quarantine.Add(batch[0]);
          summary := summary.(quarantined := summary.quarantined + 1, skipped := summary.skipped + 1);
        }
      case Executed(ran, earned) =>
        summary := summary.(batches := summary.batches + 1, executed := summary.executed + |ran|,
                            skipped := summary.skipped + (|batch| - |ran|), earned := summary.earned + earned);
      case WouldRun(ran) =>
        summary := summary.(executed := summary.executed + |ran|, skipped := summary.skipped + (|batch| - |ran|));
      case Skipped =>
        summary := summary.(skipped := summary.skipped + |batch|);
      case Unprofitable(ran) =>
        summary := summary.(skipped := summary.skipped + (|batch| - |ran|));
        if 1 < |ran| {
          var (first, second) := Halves(ran);
          queue := [second] + queue;
          queue := [first] + queue;
        } else {
          summary := summary.(unprofitable := summary.unprofitable + |ran|);
        }
      case Failed =>
        summary := summary.(failed := summary.failed + |batch|);
    }
  }

  /** Takes batches off the queue until it is empty; a batch in trouble goes back in pieces. */
  method RunQueue(p: Policy, net: Network, checked: nat, due: nat, ids: seq<u64>, batchSize: nat,
                  quarantine: Quarantine)
    returns (summary: Summary, ghost w: Work)
    requires |ids| <= due && quarantine.length == TICKS
    modifies quarantine
    ensures quarantine.ticks == old(quarantine.ticks)
    ensures w == Drain(p, net, Begin(ids, batchSize))
    ensures summary == Tally(checked, due, due - |ids|, w)
    ensures quarantine.until == WithAll(old(quarantine.until), w.setAside, quarantine.ticks + TICKS)
  {
    hide Round, WithAll, Singles, Chunks, Sum, Decide, Drain, Cost, Requeue, Added;
    var waiting := due - |ids|;
    summary := Summary(checked, due, 0, 0, waiting, 0, 0, 0, waiting);
    w := Begin(ids, batchSize);
    var queue := Chunks(ids, Clamp(batchSize));
    var calls := 0;
    WithNone(quarantine.until, quarantine.ticks + TICKS);
    hide Tally, Begin;
    while queue != []
      invariant queue == Jobs(w.queue) && NoneEmpty(w.queue) && calls == |w.calls|
      invariant Drain(p, net, w) == Drain(p, net, Begin(ids, batchSize))
      invariant summary == Tally(checked, due, waiting, w)
      invariant quarantine.ticks == old(quarantine.ticks)
      invariant quarantine.until == WithAll(old(quarantine.until), w.setAside, quarantine.ticks + TICKS)
      decreases Sum(w.queue, Cost())
    {
      RoundKeepsTasks(p, net, w);
      RoundSpends(p, net, w, 0);
      DrainRound(p, net, w);
      RoundJobs(p, net, w);
      RoundTallies(p, net, w, checked, due, waiting);
      var batch := queue[0];
      var outcome := ExecuteBatch(p, batch, net(batch, calls));
      WithOneMore(old(quarantine.until), w.setAside, batch[0], quarantine.ticks + TICKS);
      queue, summary := FileOutcome(batch, outcome, queue[1..], summary, quarantine);
      calls := calls + 1;
      w := Round(p, net, w);
    }
    assert w.queue == [];
    DrainRound(p, net, w);
  }

  lemma DrainRound(p: Policy, net: Network, w: Work)
    requires NoneEmpty(w.queue)
    ensures w.queue == [] ==> Drain(p, net, w) == w
    ensures w.queue != [] ==> NoneEmpty(Round(p, net, w).queue) && Drain(p, net, w) == Drain(p, net, Round(p, net, w))
  {
    if w.queue != [] {
      RoundKeepsTasks(p, net, w);
    }
    hide Round, Sum;
  }

  lemma JobsConcat(a: seq<Task>, b: seq<Task>)
    ensures Jobs(a + b) == Jobs(a) + Jobs(b)
  {
  }

  lemma HalvesAsJobs(origin: nat, jobs: seq<u64>)
    ensures Jobs(HalfTasks(origin, jobs)) == [Halves(jobs).0, Halves(jobs).1]
  {
  }

  /** What a round leaves in the queue, as plain lists of jobs. */
  lemma RoundJobs(p: Policy, net: Network, w: Work)
    requires w.queue != []
    ensures var batch, rest := w.queue[0].jobs, Jobs(w.queue)[1..];
            Jobs(Round(p, net, w).queue) == Requeue(batch, Decide(p, batch, net(batch, |w.calls|)), rest)
  {
    hide Decide, Singles, Idle, HalfTasks, OneByOne, Jobs;
    var task, rest := w.queue[0], w.queue[1..];
    var o := Decide(p, task.jobs, net(task.jobs, |w.calls|));
    assert Jobs(w.queue)[1..] == Jobs(rest);
    if o.JobProblem? && 1 < |task.jobs| {
      SinglesAreOneByOne(task.origin, task.jobs);
      JobsConcat(rest, Singles(task.origin, task.jobs));
    } else if o.Unprofitable? && 1 < |o.ran| {
      HalvesAsJobs(task.origin, o.ran);
      JobsConcat(HalfTasks(task.origin, o.ran), rest);
    }
  }

  /** What a round does to the summary and to the list of calls. */
  lemma RoundTallies(p: Policy, net: Network, w: Work, checked: nat, due: nat, waiting: nat)
    requires w.queue != [] && w.queue[0].jobs != []
    ensures |Round(p, net, w).calls| == |w.calls| + 1
    ensures var batch := w.queue[0].jobs;
            var o := Decide(p, batch, net(batch, |w.calls|));
            && |Ran(o)| <= |batch|
            && Tally(checked, due, waiting, Round(p, net, w)) == Added(Tally(checked, due, waiting, w), batch, o)
            && Round(p, net, w).setAside == if SetsAside(batch, o) then w.setAside + [batch[0]] else w.setAside
  {
    hide Round, Decide;
    RoundCounts(p, net, w);
  }

  /** How the buckets grow in a round. */
  lemma RoundCounts(p: Policy, net: Network, w: Work)
    requires w.queue != [] && w.queue[0].jobs != []
    ensures var batch, w' := w.queue[0].jobs, Round(p, net, w);
            var o := Decide(p, batch, net(batch, |w.calls|));
            && (o.Executed? || o.WouldRun? || o.Unprofitable? ==> |Ran(o)| <= |batch|)
            && |w'.calls| == |w.calls| + 1
            && w'.setAside == (if SetsAside(batch, o) then w.setAside + [batch[0]] else w.setAside)
            && w'.sent == w.sent + (if o.Executed? then 1 else 0)
            && |w'.executed| == |w.executed| + (if o.Executed? || o.WouldRun? then |Ran(o)| else 0)
            && |w'.skipped| == |w.skipped|
                 + (match o case JobProblem => if SetsAside(batch, o) then 1 else 0
                    case Skipped => |batch| case Failed => 0 case _ => |batch| - |Ran(o)|)
            && |w'.unprofitable| == |w.unprofitable| + (if o.Unprofitable? && |o.ran| <= 1 then |o.ran| else 0)
            && |w'.failed| == |w.failed| + (if o.Failed? then |batch| else 0)
            && w'.earned == w.earned + (if o.Executed? then o.earned else 0)
  {
    var batch := w.queue[0].jobs;
    RanAndIdle(p, batch, net(batch, |w.calls|), 0);
    if |batch| == 1 {
      assert batch == [batch[0]];
    }
    hide Decide, Singles, HalfTasks, Idle;
  }
}
