/** What one polling pass of the keeper does with the jobs that are due: keeper-bot/src/tick.ts. */
module TickSpec {
  import opened Basics
  import opened Batches

  datatype DueJob = DueJob(id: u64, feePerRun: int)

  /** How a call to the network can throw, as far as the keeper tells failures apart. */
  datatype Failure = RegistryError | JobProblem | UnexpectedAuth | SimulationFailed | OtherFailure

  predicate IsJobSpecific(f: Failure) {
    f.JobProblem? || f.UnexpectedAuth? || f.SimulationFailed?
  }

  datatype Simulation =
    | Simulated(flags: seq<bool>, resourceFee: int)
    | RestoreRequired(restoreFee: int)
    | Thrown(failure: Failure)

  datatype Sending = Sent | StaleSequence | SendFailed

  /**
   * The network and the fee bidder, as the answers they would give to the
   * n-th call. They may change their mind from call to call, which covers
   * other keepers, the batches' own effects, and other batches running at
   * the same time.
   */
  datatype World = World(
    simulate: (seq<u64>, nat) -> Simulation,
    restore: nat -> Option<Failure>,
    bid: nat -> int,
    send: nat -> Sending)

  datatype Policy = Policy(
    feeIsNative: bool,
    minProfit: int,
    maxCostPerJob: int,
    maxRestoreFee: int,
    dryRun: bool)

  /** A batch handed to the network: its simulation's flags, its expected cost, and the call that sent it. */
  datatype Submission = Submission(batch: seq<DueJob>, flags: seq<bool>, cost: int, call: nat)

  function BatchesOf(sent: seq<Submission>): seq<seq<DueJob>> {
    seq(|sent|, i requires 0 <= i < |sent| => sent[i].batch)
  }

  /** What happened in a tick so far; `calls` numbers the network calls, `tried` the batches simulated. */
  datatype Pass = Pass(
    calls: nat,
    tried: nat,
    executed: seq<DueJob>,
    skipped: seq<DueJob>,
    unprofitable: seq<DueJob>,
    failed: seq<DueJob>,
    wouldRun: seq<DueJob>,
    setAside: seq<DueJob>,
    sent: seq<Submission>,
    earned: int,
    restores: nat,
    restoreFees: int)

  const START := Pass(0, 0, [], [], [], [], [], [], [], 0, 0, 0)

  function Ids(batch: seq<DueJob>): seq<u64> {
    seq(|batch|, i requires 0 <= i < |batch| => batch[i].id)
  }

  function Earned(jobs: seq<DueJob>): int {
    if jobs == [] then 0 else Earned(jobs[..|jobs| - 1]) + jobs[|jobs| - 1].feePerRun
  }

  datatype Prepared = Ready(flags: seq<bool>, resourceFee: int) | Problem(failure: Failure)

  /** The second simulation, after a restore: nothing is caught any more. */
  function Again(w: World, ids: seq<u64>, call: nat): Prepared {
    match w.simulate(ids, call)
    case Simulated(flags, fee) => Ready(flags, fee)
    case RestoreRequired(_) => Problem(OtherFailure)
    case Thrown(f) => Problem(f)
  }

  /** `prepare`: simulates, restoring archived state first where that is allowed. */
  function Prepare(w: World, p: Policy, r: Pass, ids: seq<u64>): (Pass, Prepared) {
    var r1 := r.(calls := r.calls + 1, tried := r.tried + 1);
    match w.simulate(ids, r.calls)
    case Simulated(flags, fee) => (r1, Ready(flags, fee))
    case Thrown(f) => (r1, Problem(f))
    case RestoreRequired(fee) =>
      if p.maxRestoreFee == 0 || p.maxRestoreFee < fee then (r1, Problem(JobProblem))
      else if p.dryRun then (r1, Problem(OtherFailure))
      else
        match w.restore(r1.calls)
        case Some(f) => (r1.(calls := r1.calls + 1), Problem(f))
        case None =>
          (r1.(calls := r1.calls + 2, restores := r1.restores + 1, restoreFees := r1.restoreFees + fee),
           Again(w, ids, r1.calls + 1))
  }

  /** The batch costs more than the policy accepts for what it earns. */
  predicate Refused(p: Policy, earned: int, cost: int, jobs: nat) {
    if p.feeIsNative then earned - cost < p.minProfit
    else p.maxCostPerJob != 0 && p.maxCostPerJob * jobs < cost
  }

  /** Sending, with one fresh attempt when the sequence number was stale; also the number of calls then made. */
  function Submit(w: World, call: nat, ids: seq<u64>): (bool, nat) {
    match w.send(call)
    case Sent => (true, call + 1)
    case SendFailed => (false, call + 1)
    case StaleSequence =>
      if w.simulate(ids, call + 1).Simulated? then (w.send(call + 2).Sent?, call + 3) else (false, call + 2)
  }

  function Dispatch(w: World, r: Pass, batch: seq<DueJob>, flags: seq<bool>, cost: int): Pass {
    var runnable := Chosen(batch, flags, true);
    var (ok, calls) := Submit(w, r.calls, Ids(batch));
    var r1 := r.(calls := calls, sent := r.sent + [Submission(batch, flags, cost, r.calls)]);
    if ok then r1.(executed := r1.executed + runnable, earned := r1.earned + Earned(runnable))
    else r1.(failed := r1.failed + runnable)
  }

  /** A simulated batch is finished with, or its jobs `again` are to be tried in halves. */
  datatype Attempted = Done | Split(again: seq<DueJob>)

  function Attempt(w: World, p: Policy, r: Pass, batch: seq<DueJob>): (a: (Pass, Attempted))
    requires batch != []
    ensures a.1.Split? ==> 1 < |a.1.again| <= |batch|
  {
    var (r1, prepared) := Prepare(w, p, r, Ids(batch));
    match prepared
    case Problem(f) =>
      if IsJobSpecific(f) && 1 < |batch| then (r1, Split(batch))
      else
        var r2 := r1.(skipped := r1.skipped + batch);
        if IsJobSpecific(f) then (r2.(setAside := r2.setAside + batch[..1]), Done) else (r2, Done)
    case Ready(flags, fee) => Decide(w, p, r1, batch, flags, fee + w.bid(r.calls))
  }

  /** What to do with a batch once it is simulated. */
  function Decide(w: World, p: Policy, r: Pass, batch: seq<DueJob>, flags: seq<bool>, cost: int): (Pass, Attempted) {
    var runnable := Chosen(batch, flags, true);
    var r1 := r.(skipped := r.skipped + Chosen(batch, flags, false));
    if runnable == [] then (r1, Done)
    else if Refused(p, Earned(runnable), cost, |runnable|) then
      if 1 < |runnable| then (r1, Split(runnable))
      else (r1.(unprofitable := r1.unprofitable + runnable), Done)
    else if p.dryRun then (r1.(wouldRun := r1.wouldRun + runnable), Done)
    else (Dispatch(w, r1, batch, flags, cost), Done)
  }

  function RunBatch(w: World, p: Policy, r: Pass, batch: seq<DueJob>): Pass
    requires batch != []
    decreases |batch|
  {
    match Attempt(w, p, r, batch)
    case (r1, Done) => r1
    case (r1, Split(again)) =>
      var (first, second) := Halves(again);
      RunBatch(w, p, RunBatch(w, p, r1, first), second)
  }

  predicate NoneEmpty(batches: seq<seq<DueJob>>) {
    forall i :: 0 <= i < |batches| ==> batches[i] != []
  }

  /** The batches of a tick, in the order they were cut. */
  function RunAll(w: World, p: Policy, r: Pass, batches: seq<seq<DueJob>>): Pass
    requires NoneEmpty(batches)
  {
    if batches == [] then r
    else
      var last := |batches| - 1;
      RunBatch(w, p, RunAll(w, p, r, batches[..last]), batches[last])
  }
}
