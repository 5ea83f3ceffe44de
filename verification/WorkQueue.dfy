/** The Rust keeper's work queue as a state machine: keeper-rs/src/main.rs and keeper-rs/src/registry.rs. */
module WorkQueue {
  import opened Basics
  import opened Batches

  /** What the network shows for one `execute_batch`; `fees` is what `current_fee` answers per job. */
  datatype Reply =
    | Unreachable
    | RegistryRefuses
    | SimulationFails
    | Simulates(flags: seq<bool>, authorized: bool, fees: u64 -> Option<int>, resourceFee: int, sends: bool)

  datatype Policy = Policy(
    feeIsNative: bool,
    minProfit: int,
    maxCostPerJob: int,
    inclusionFee: int,
    dryRun: bool)

  datatype Outcome =
    | Executed(ran: seq<u64>, earned: int)
    | WouldRun(ran: seq<u64>)
    | Skipped
    | Unprofitable(ran: seq<u64>)
    | JobProblem
    | Failed

  /** The flags the registry returned, as many as there are jobs; what is missing did not run. */
  function RanFlags(flags: seq<bool>, n: nat): seq<bool> {
    seq(n, i => 0 <= i < |flags| && flags[i])
  }

  lemma {:induction false} RanFlagsChooseTheSame(jobs: seq<u64>, flags: seq<bool>, n: nat, want: bool)
    requires |jobs| <= n
    ensures Chosen(jobs, RanFlags(flags, n), want) == Chosen(jobs, flags, want)
  {
    if jobs != [] {
      RanFlagsChooseTheSame(jobs[..|jobs| - 1], flags, n, want);
    }
  }

  predicate Profitable(earned: int, cost: int, minProfit: int) {
    minProfit <= earned - cost
  }

  /** The sum of the jobs' current fees; `None` when one cannot be read. */
  function EarnedBy(jobs: seq<u64>, fees: u64 -> Option<int>): Option<int> {
    if jobs == [] then Some(0)
    else
      match (EarnedBy(jobs[..|jobs| - 1], fees), fees(jobs[|jobs| - 1]))
      case (Some(sum), Some(fee)) => Some(sum + fee)
      case _ => None
  }

  predicate TooExpensive(p: Policy, earned: int, cost: int, jobs: nat) {
    || (!p.feeIsNative && 0 < p.maxCostPerJob && p.maxCostPerJob * jobs < cost)
    || (p.feeIsNative && !Profitable(earned, cost, p.minProfit))
  }

  /** The decisions of `execute_batch`. */
  function Decide(p: Policy, batch: seq<u64>, reply: Reply): Outcome {
    match reply
    case Unreachable => Failed
    case RegistryRefuses => Skipped
    case SimulationFails => JobProblem
    case Simulates(flags, authorized, fees, resourceFee, sends) =>
      if !authorized then JobProblem
      else
        var ran := Chosen(batch, flags, true);
        if ran == [] then Skipped
        else
          match EarnedBy(ran, fees)
          case None => Failed
          case Some(earned) =>
            if TooExpensive(p, earned, resourceFee + p.inclusionFee, |ran|) then Unprofitable(ran)
            else if p.dryRun then WouldRun(ran)
            else if sends then Executed(ran, earned)
            else Failed
  }

  /** The jobs an outcome says would run. */
  function Ran(o: Outcome): seq<u64> {
    match o
    case Executed(ran, _) => ran
    case WouldRun(ran) => ran
    case Unprofitable(ran) => ran
    case _ => []
  }

  /** The jobs of the batch that an outcome leaves out of `Ran`. */
  function Idle(batch: seq<u64>, reply: Reply): seq<u64> {
    if reply.Simulates? then Chosen(batch, reply.flags, false) else []
  }

  // ------------------------------------------------------------------ the queue

  /** A queued batch, and which batch of the tick it was split from. */
  datatype Task = Task(origin: nat, jobs: seq<u64>)

  /** `calls` and `tried` list, for every `execute_batch` made, the origin of its batch and the batch itself. */
  datatype Work = Work(
    queue: seq<Task>,
    calls: seq<nat>,
    tried: seq<seq<u64>>,
    executed: seq<u64>,
    skipped: seq<u64>,
    unprofitable: seq<u64>,
    failed: seq<u64>,
    setAside: seq<u64>,
    sent: nat,
    earned: int)

  type Network = (seq<u64>, nat) -> Reply

  function Singles(origin: nat, jobs: seq<u64>): seq<Task> {
    if jobs == [] then [] else [Task(origin, jobs[..1])] + Singles(origin, jobs[1..])
  }

  function HalfTasks(origin: nat, jobs: seq<u64>): seq<Task> {
    [Task(origin, Halves(jobs).0), Task(origin, Halves(jobs).1)]
  }

  /** One round of the loop: the first batch is executed and filed, or its jobs are queued again. */
  function Round(p: Policy, net: Network, w: Work): Work
    requires w.queue != []
  {
    var batch, origin, rest := w.queue[0].jobs, w.queue[0].origin, w.queue[1..];
    var reply := net(batch, |w.calls|);
    var w1 := w.(queue := rest, calls := w.calls + [origin], tried := w.tried + [batch]);
    var idle := Idle(batch, reply);
    match Decide(p, batch, reply)
    case JobProblem =>
      if 1 < |batch| then w1.(queue := rest + Singles(origin, batch))
      else w1.(setAside := w1.setAside + batch, skipped := w1.skipped + batch)
    case Executed(ran, earned) =>
      w1.(sent := w1.sent + 1, executed := w1.executed + ran, skipped := w1.skipped + idle,
          earned := w1.earned + earned)
    case WouldRun(ran) => w1.(executed := w1.executed + ran, skipped := w1.skipped + idle)
    case Skipped => w1.(skipped := w1.skipped + batch)
    case Unprofitable(ran) =>
      if 1 < |ran| then w1.(skipped := w1.skipped + idle, queue := HalfTasks(origin, ran) + rest)
      else w1.(unprofitable := w1.unprofitable + ran, skipped := w1.skipped + idle)
    case Failed => w1.(failed := w1.failed + batch)
  }

  // ------------------------------------------------------------------ sums over the queue

  ghost function Sum(queue: seq<Task>, f: Task -> nat): nat {
    if queue == [] then 0 else f(queue[0]) + Sum(queue[1..], f)
  }

  lemma {:induction false} SumConcat(a: seq<Task>, b: seq<Task>, f: Task -> nat)
    ensures Sum(a + b, f) == Sum(a, f) + Sum(b, f)
  {
    if a == [] {
      assert a + b == b;
    } else {
      SumConcat(a[1..], b, f);
      assert (a + b)[1..] == a[1..] + b;
    }
  }

  lemma SumOfTwo(a: Task, b: Task, f: Task -> nat)
    ensures Sum([a, b], f) == f(a) + f(b)
  {
    assert [a, b][1..] == [b] && [b][1..] == [];
    assert Sum([b], f) == f(b) + Sum([], f);
    assert Sum([a, b], f) == f(a) + Sum([b], f);
  }

  /** Enough `execute_batch` calls to finish a batch of n jobs: 2n - 1. */
  ghost function CostOf(origin: nat): Task -> nat {
    (t: Task) => if t.origin == origin && t.jobs != [] then 2 * |t.jobs| - 1 else 0
  }

  ghost function Cost(): Task -> nat {
    (t: Task) => if t.jobs == [] then 0 else 2 * |t.jobs| - 1
  }

  ghost function Occurrences(job: u64): Task -> nat {
    (t: Task) => Times(t.jobs, job)
  }

  ghost function Size(): Task -> nat {
    (t: Task) => |t.jobs|
  }

  predicate NoneEmpty(queue: seq<Task>) {
    forall i :: 0 <= i < |queue| ==> queue[i].jobs != []
  }

  /** Splitting a list of jobs one by one, for a function that counts single jobs. */
  lemma {:induction false} SumOfSingles(origin: nat, jobs: seq<u64>, k: nat, job: u64)
    ensures Sum(Singles(origin, jobs), CostOf(k)) == if origin == k then |jobs| else 0
    ensures Sum(Singles(origin, jobs), Cost()) == |jobs| == Sum(Singles(origin, jobs), Size())
    ensures Sum(Singles(origin, jobs), Occurrences(job)) == Times(jobs, job)
    ensures NoneEmpty(Singles(origin, jobs))
  {
    if jobs != [] {
      SumOfSingles(origin, jobs[1..], k, job);
      assert jobs == jobs[..1] + jobs[1..];
      TimesConcat(jobs[..1], jobs[1..], job);
      SingleFirst(origin, jobs, CostOf(k));
      SingleFirst(origin, jobs, Cost());
      SingleFirst(origin, jobs, Size());
      SingleFirst(origin, jobs, Occurrences(job));
    }
  }

  lemma SingleFirst(origin: nat, jobs: seq<u64>, f: Task -> nat)
    requires jobs != []
    ensures Sum(Singles(origin, jobs), f) == f(Task(origin, jobs[..1])) + Sum(Singles(origin, jobs[1..]), f)
  {
    assert Singles(origin, jobs)[1..] == Singles(origin, jobs[1..]);
  }

  // ------------------------------------------------------------------ one round

  /** What a round puts back into the queue. */
  function Requeued(p: Policy, net: Network, w: Work): seq<Task>
    requires w.queue != []
  {
    var batch, origin := w.queue[0].jobs, w.queue[0].origin;
    var outcome := Decide(p, batch, net(batch, |w.calls|));
    if outcome.JobProblem? && 1 < |batch| then Singles(origin, batch)
    else if outcome.Unprofitable? && 1 < |outcome.ran| then HalfTasks(origin, outcome.ran)
    else []
  }

  lemma SumAfterRound(p: Policy, net: Network, w: Work, f: Task -> nat)
    requires w.queue != []
    ensures Sum(w.queue, f) == f(w.queue[0]) + Sum(w.queue[1..], f)
    ensures Sum(Round(p, net, w).queue, f) == Sum(w.queue[1..], f) + Sum(Requeued(p, net, w), f)
  {
    hide Decide, Singles, HalfTasks;
    var again, rest := Requeued(p, net, w), w.queue[1..];
    SumConcat(rest, again, f);
    SumConcat(again, rest, f);
    assert rest + [] == rest;
  }

  /** What `Ran` leaves is the batch without its idle jobs. */
  lemma RanAndIdle(p: Policy, batch: seq<u64>, reply: Reply, job: u64)
    ensures var o := Decide(p, batch, reply);
            (o.Executed? || o.WouldRun? || o.Unprofitable?) ==>
              && Times(Ran(o), job) + Times(Idle(batch, reply), job) == Times(batch, job)
              && |Ran(o)| + |Idle(batch, reply)| == |batch| && Ran(o) != []
  {
    RanIsChosen(p, batch, reply);
    if reply.Simulates? {
      FilterCounts(batch, reply.flags, job);
    }
    hide Decide, Chosen, Times;
  }

  lemma RanIsChosen(p: Policy, batch: seq<u64>, reply: Reply)
    ensures var o := Decide(p, batch, reply);
            (o.Executed? || o.WouldRun? || o.Unprofitable?) ==>
              reply.Simulates? && Ran(o) == Chosen(batch, reply.flags, true) != []
  {
    hide Chosen, EarnedBy, TooExpensive;
  }

  lemma RequeuedSums(p: Policy, net: Network, w: Work, k: nat, job: u64)
    requires w.queue != [] && w.queue[0].jobs != []
    ensures var batch, again := w.queue[0].jobs, Requeued(p, net, w);
            var o := Decide(p, batch, net(batch, |w.calls|));
            && NoneEmpty(again)
            && Sum(again, CostOf(k)) < (if w.queue[0].origin == k then 2 * |batch| - 1 else 1)
            && Sum(again, Cost()) < 2 * |batch| - 1
            && (o.JobProblem? && 1 < |batch| ==>
                  Sum(again, Size()) == |batch| && Sum(again, Occurrences(job)) == Times(batch, job))
            && (o.Unprofitable? && 1 < |o.ran| ==>
                  Sum(again, Size()) == |o.ran| && Sum(again, Occurrences(job)) == Times(o.ran, job))
            && (again == [] ==> Sum(again, Size()) == 0 == Sum(again, Occurrences(job)))
  {
    hide Decide, Singles, HalfTasks, Sum, Times;
    var task := w.queue[0];
    var reply := net(task.jobs, |w.calls|);
    NothingQueued(CostOf(k));
    NothingQueued(Cost());
    NothingQueued(Size());
    NothingQueued(Occurrences(job));
    var o := Decide(p, task.jobs, reply);
    if o.JobProblem? && 1 < |task.jobs| {
      SumOfSingles(task.origin, task.jobs, k, job);
    } else if o.Unprofitable? && 1 < |o.ran| {
      RanAndIdle(p, task.jobs, reply, job);
      HalvesSums(task.origin, o.ran, k, job);
    }
  }

  lemma NothingQueued(f: Task -> nat)
    ensures Sum([], f) == 0
  {
  }

  lemma HalvesSums(origin: nat, jobs: seq<u64>, k: nat, job: u64)
    requires 1 < |jobs|
    ensures var again := HalfTasks(origin, jobs);
            && NoneEmpty(again)
            && Sum(again, CostOf(k)) == (if origin == k then 2 * |jobs| - 2 else 0)
            && Sum(again, Cost()) == 2 * |jobs| - 2 && Sum(again, Size()) == |jobs|
            && Sum(again, Occurrences(job)) == Times(jobs, job)
  {
    var (first, second) := Halves(jobs);
    var a, b := Task(origin, first), Task(origin, second);
    assert |first| + |second| == |jobs|;
    TimesConcat(first, second, job);
    SumOfTwo(a, b, CostOf(k));
    SumOfTwo(a, b, Cost());
    SumOfTwo(a, b, Size());
    SumOfTwo(a, b, Occurrences(job));
  }

  // ------------------------------------------------------------------ what every round keeps

  /** How often `job` is in a bucket or still queued. */
  ghost function Accounted(w: Work, job: u64): nat {
    Filed(w, job) + Sum(w.queue, Occurrences(job))
  }

  ghost function Filed(w: Work, job: u64): nat {
    Times(w.executed, job) + Times(w.skipped, job) + Times(w.unprofitable, job) + Times(w.failed, job)
  }

  ghost function AccountedCount(w: Work): nat {
    |w.executed| + |w.skipped| + |w.unprofitable| + |w.failed| + Sum(w.queue, Size())
  }

  lemma RoundAccounts(p: Policy, net: Network, w: Work, job: u64)
    requires w.queue != [] && w.queue[0].jobs != []
    ensures Accounted(Round(p, net, w), job) == Accounted(w, job)
    ensures AccountedCount(Round(p, net, w)) == AccountedCount(w)
  {
    hide Decide, Singles, HalfTasks, Times, Sum, Idle;
    var batch := w.queue[0].jobs;
    var reply := net(batch, |w.calls|);
    SumAfterRound(p, net, w, Occurrences(job));
    SumAfterRound(p, net, w, Size());
    RequeuedSums(p, net, w, 0, job);
    RanAndIdle(p, batch, reply, job);
    var o := Decide(p, batch, reply);
    TimesConcat(w.skipped, Idle(batch, reply), job);
    TimesConcat(w.skipped, batch, job);
    TimesConcat(w.failed, batch, job);
    TimesConcat(w.executed, Ran(o), job);
    TimesConcat(w.unprofitable, Ran(o), job);
  }

  /** Calls already made for a batch of the tick, and those its pieces in the queue may still need. */
  ghost function Spent(w: Work, origin: nat): nat {
    Times(w.calls, origin) + Sum(w.queue, CostOf(origin))
  }

  lemma RoundSpends(p: Policy, net: Network, w: Work, k: nat)
    requires w.queue != [] && w.queue[0].jobs != []
    ensures Spent(Round(p, net, w), k) <= Spent(w, k)
    ensures Sum(Round(p, net, w).queue, Cost()) < Sum(w.queue, Cost())
  {
    hide Decide, Singles, HalfTasks, Sum, Idle;
    SumAfterRound(p, net, w, CostOf(k));
    SumAfterRound(p, net, w, Cost());
    RequeuedSums(p, net, w, k, 0);
    TimesConcat(w.calls, [w.queue[0].origin], k);
  }

  lemma RoundKeepsTasks(p: Policy, net: Network, w: Work)
    requires w.queue != [] && NoneEmpty(w.queue)
    ensures NoneEmpty(Round(p, net, w).queue)
  {
    hide Decide, Singles, HalfTasks, Sum, Idle;
    RequeuedSums(p, net, w, 0, 0);
  }

  // ------------------------------------------------------------------ the whole loop

  /** The loop, for any sequence of replies: it ends when the queue is empty. */
  ghost function Drain(p: Policy, net: Network, w: Work): Work
    requires NoneEmpty(w.queue)
    decreases Sum(w.queue, Cost())
  {
    if w.queue == [] then w
    else
      RoundKeepsTasks(p, net, w);
      RoundSpends(p, net, w, 0);
      Drain(p, net, Round(p, net, w))
  }

  /** The queue empties, and every job that was in it ends in exactly one bucket. */
  lemma {:induction false} DrainAccounts(p: Policy, net: Network, w: Work, job: u64)
    requires NoneEmpty(w.queue)
    ensures Drain(p, net, w).queue == []
    ensures Accounted(Drain(p, net, w), job) == Accounted(w, job)
    ensures AccountedCount(Drain(p, net, w)) == AccountedCount(w)
    decreases Sum(w.queue, Cost())
  {
    if w.queue != [] {
      RoundKeepsTasks(p, net, w);
      RoundSpends(p, net, w, 0);
      hide Round, Accounted, AccountedCount, Sum;
      RoundAccounts(p, net, w, job);
      DrainAccounts(p, net, Round(p, net, w), job);
    }
  }

  /** No batch of the tick costs more than it may: 2n - 1 calls for n jobs. */
  lemma {:induction false} DrainSpends(p: Policy, net: Network, w: Work, k: nat)
    requires NoneEmpty(w.queue)
    ensures Times(Drain(p, net, w).calls, k) <= Spent(w, k)
    decreases Sum(w.queue, Cost())
  {
    if w.queue != [] {
      RoundKeepsTasks(p, net, w);
      RoundSpends(p, net, w, k);
      hide Round, Sum;
      DrainSpends(p, net, Round(p, net, w), k);
    }
  }

  // ------------------------------------------------------------------ isolating poisoned jobs

  /** A batch's failure blames a job exactly when the batch holds a poisoned one. */
  ghost predicate PoisonModel(p: Policy, net: Network, poisoned: set<u64>) {
    forall batch, n :: Decide(p, batch, net(batch, n)).JobProblem? <==> AnyIn(batch, poisoned)
  }

  /** How often a poisoned `job` is set aside or still queued; 0 queued for a healthy one. */
  ghost function Caught(w: Work, poisoned: set<u64>, job: u64): nat {
    Times(w.setAside, job) + if job in poisoned then Sum(w.queue, Occurrences(job)) else 0
  }

  lemma PoisonedJobPoisonsBatch(batch: seq<u64>, poisoned: set<u64>, job: u64)
    ensures 0 < Times(batch, job) && job in poisoned ==> AnyIn(batch, poisoned)
    ensures |batch| == 1 && AnyIn(batch, poisoned) && 0 < Times(batch, job) ==> job in poisoned
  {
    if 0 < Times(batch, job) && job in poisoned {
      assert job in batch;
    }
  }

  lemma RoundIsolates(p: Policy, net: Network, w: Work, poisoned: set<u64>, job: u64)
    requires w.queue != [] && w.queue[0].jobs != [] && PoisonModel(p, net, poisoned)
    ensures Caught(Round(p, net, w), poisoned, job) == Caught(w, poisoned, job)
  {
    hide Decide, Singles, HalfTasks, Times, Sum, Idle, AnyIn;
    var batch := w.queue[0].jobs;
    var reply := net(batch, |w.calls|);
    SumAfterRound(p, net, w, Occurrences(job));
    RequeuedSums(p, net, w, 0, job);
    RanAndIdle(p, batch, reply, job);
    PoisonedJobPoisonsBatch(batch, poisoned, job);
    TimesConcat(w.setAside, batch, job);
    assert Decide(p, batch, reply).JobProblem? <==> AnyIn(batch, poisoned);
  }

  /** Exactly the poisoned jobs are set aside, each as often as it was queued; no healthy job is. */
  lemma {:induction false} DrainIsolatesPoison(p: Policy, net: Network, w: Work, poisoned: set<u64>, job: u64)
    requires NoneEmpty(w.queue) && PoisonModel(p, net, poisoned)
    ensures Times(Drain(p, net, w).setAside, job) == Caught(w, poisoned, job)
    decreases Sum(w.queue, Cost())
  {
    if w.queue != [] {
      RoundKeepsTasks(p, net, w);
      RoundSpends(p, net, w, 0);
      hide Round, Caught, PoisonModel, Sum;
      RoundIsolates(p, net, w, poisoned, job);
      DrainIsolatesPoison(p, net, Round(p, net, w), poisoned, job);
    } else {
      NothingQueued(Occurrences(job));
    }
  }

  // ------------------------------------------------------------------ the queue a tick starts with

  function Tasks(batches: seq<seq<u64>>): seq<Task> {
    seq(|batches|, i requires 0 <= i < |batches| => Task(i, batches[i]))
  }

  lemma {:induction false} SumOfTasks(batches: seq<seq<u64>>, k: nat, job: u64)
    requires forall i :: 0 <= i < |batches| ==> batches[i] != []
    ensures Sum(Tasks(batches), CostOf(k)) == if k < |batches| then 2 * |batches[k]| - 1 else 0
    ensures Sum(Tasks(batches), Occurrences(job)) == Bag(batches)[job]
    ensures Sum(Tasks(batches), Size()) == |Bag(batches)|
  {
    if batches != [] {
      var last := |batches| - 1;
      SumOfTasks(batches[..last], k, job);
      SumOfLast(batches, CostOf(k));
      SumOfLast(batches, Occurrences(job));
      SumOfLast(batches, Size());
    }
  }

  lemma SumOfLast(batches: seq<seq<u64>>, f: Task -> nat)
    requires batches != []
    ensures var last := |batches| - 1;
            Sum(Tasks(batches), f) == Sum(Tasks(batches[..last]), f) + f(Task(last, batches[last]))
  {
    var last := |batches| - 1;
    var t := Task(last, batches[last]);
    assert Tasks(batches) == Tasks(batches[..last]) + [t];
    SumConcat(Tasks(batches[..last]), [t], f);
    assert [t][1..] == [];
    assert Sum([t], f) == f(t) + Sum([], f);
  }
}
