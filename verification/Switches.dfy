/** What the admin's settings and switches do, and that they hold until they are set again. */
module Switches {
  import opened Basics
  import opened Types
  import opened Schedules
  import opened Token
  import opened RegistrySpec
  import opened Footprints
  import opened Bookkeeping
  import opened JobFacts
  import opened Solvency
  import opened Histories
  import opened RunCounts
  import opened RunRules
  import opened Blame
  import opened EntryPoints

  // ------------------------------------------------------------------ settings

  /** When the admin's call is within its limits. */
  predicate WithinLimits(s: Storage, now: u64, call: AdminCall) {
    match call
    case SetExecutor(_) => s.config.executor.None?
    case SetMinStake(minStake) => 0 <= minStake
    case SetProtocolFee(bps, treasury) => bps <= 1_000 && (bps == 0 || treasury.Some?)
    case SetKeeperWindows(period) => period <= 86_400
    case SetUnbondingEpoch(epoch) => epoch <= 2_592_000
    case SetUpgradeDelay(delay) => Min(U64_MAX, s.config.unbondingPeriod + s.config.unbondingEpoch) <= delay
    case ApplyUpgrade => s.upgrades.pending.Some? && s.upgrades.pending.value.availableAt <= now
    case CancelUpgrade => s.upgrades.pending.Some?
    case _ => true
  }

  /** Each call changes the one setting it is for. */
  ghost predicate Sets(c: Config, call: AdminCall, c': Config) {
    match call
    case SetExecutor(executor) => c' == c.(executor := Some(executor))
    case SetPaused(paused) => c' == c.(paused := paused)
    case SetMinStake(minStake) => c' == c.(minStake := minStake)
    case SetMinInterval(minInterval) => c' == c.(minInterval := minInterval)
    case SetMaxArgs(maxArgs) => c' == c.(maxArgs := maxArgs)
    case SetProtocolFee(bps, treasury) => c' == c.(protocolFeeBps := bps, treasury := treasury)
    case SetMaxFailures(maxFailures) => c' == c.(maxFailures := maxFailures)
    case SetKeeperWindows(period) => c' == c.(gracePeriod := period, slashBps := 0)
    case SetUnbondingEpoch(epoch) => c' == c.(unbondingEpoch := epoch)
    case _ => c' == c
  }

  /** The admin, and only the admin, changes settings, within their limits and one at a time. */
  lemma SettingsAsAsked(s: Storage, now: u64, caller: Address, call: AdminCall)
    ensures var r := Administer(s, now, caller, call);
            && (r.Ok? <==> caller == s.config.admin && caller != s.contract && WithinLimits(s, now, call))
            && (r.Ok? ==>
                  && Sets(s.config, call, r.value.config)
                  && (call.SetTargetHalted? ==>
                        forall t :: t in r.value.windows.halted <==>
                                      if t == call.target then call.halted else t in s.windows.halted)
                  && (!call.SetTargetHalted? ==> r.value.windows.halted == s.windows.halted)
                  && r.value.jobs == s.jobs && r.value.staff == s.staff && r.value.ledger == s.ledger)
  {
    hide PushBackPendingUpgrade, UpgradeDelay;
  }

  predicate IsAboutUpgrades(call: AdminCall) {
    || call.SetUnbondingEpoch? || call.SetUpgradeDelay?
    || call.ProposeUpgrade? || call.ApplyUpgrade? || call.CancelUpgrade?
  }

  /** The upgrade entries follow the calls that are for them, and no other; a delay set is the delay in the book. */
  lemma UpgradesAsAsked(s: Storage, now: u64, caller: Address, call: AdminCall)
    requires Administer(s, now, caller, call).Ok?
    ensures var was, became := s.upgrades, Administer(s, now, caller, call).value.upgrades;
            && became.delay == (if call.SetUpgradeDelay? then call.upgradeDelay else was.delay)
            && (call.ApplyUpgrade? || call.CancelUpgrade? ==> became.pending.None?)
            && (call.ProposeUpgrade? ==> became.pending.Some? && became.pending.value.wasmHash == call.wasmHash
                                         && became.pending.value.proposedAt == now)
            && (!call.ApplyUpgrade? && !call.CancelUpgrade? && !call.ProposeUpgrade? ==>
                  (became.pending.Some? <==> was.pending.Some?))
            && (!IsAboutUpgrades(call) ==> became == was)
  {
    hide UpgradeDelay, NewWindows;
  }

  // ------------------------------------------------------------------ pause and halt

  /** Takes the pause off again. */
  predicate Resumes(op: Op) {
    op.Admin? && op.call == SetPaused(false)
  }

  predicate Unhalts(op: Op, target: Address) {
    op.Admin? && op.call == SetTargetHalted(target, false)
  }

  lemma StepKeepsSwitches(s: Storage, now: u64, op: Op, target: Address)
    ensures s.config.paused && !Resumes(op) ==> After(s, now, op).config.paused
    ensures target in s.windows.halted && !Unhalts(op, target) ==> target in After(s, now, op).windows.halted
  {
    hide After;
    PartiesUntouched(s, now, op);
    if op.Admin? {
      AdminKeepsSwitches(s, now, op.caller, op.call, target);
    } else {
      HaltsUntouched(s, now, op);
    }
  }

  lemma AdminKeepsSwitches(s: Storage, now: u64, caller: Address, call: AdminCall, target: Address)
    ensures var op := Admin(caller, call);
            && (s.config.paused && !Resumes(op) ==> After(s, now, op).config.paused)
            && (target in s.windows.halted && !Unhalts(op, target) ==> target in After(s, now, op).windows.halted)
  {
    hide Administer;
    SettingsAsAsked(s, now, caller, call);
  }

  lemma HaltsUntouched(s: Storage, now: u64, op: Op)
    requires !op.Admin?
    ensures After(s, now, op).windows.halted == s.windows.halted
  {
    hide After;
    if EditsJob(op) {
      EditTouches(s, now, op);
    } else if op.AddStake? || op.Unbond? {
      StaffMoveResets(s, now, op, 0, s.contract);
    } else {
      OthersLeaveWindows(s, now, op);
    }
  }

  /** Nobody takes the pause off, or resumes the target, after moment `i` and up to moment `n`. */
  ghost predicate StaysPaused(h: seq<Moment>, i: nat, n: nat)
    requires i <= n < |h|
  {
    h[i].after.config.paused && forall m :: i < m <= n ==> h[m].op.Some? && !Resumes(h[m].op.value)
  }

  ghost predicate StaysHalted(h: seq<Moment>, i: nat, n: nat, target: Address)
    requires i <= n < |h|
  {
    && target in h[i].after.windows.halted
    && forall m :: i < m <= n ==> h[m].op.Some? && !Unhalts(h[m].op.value, target)
  }

  lemma {:induction false} SwitchesHold(h: seq<Moment>, i: nat, n: nat, target: Address)
    requires i <= n < |h| && IsHistory(h)
    ensures StaysPaused(h, i, n) ==> h[n].after.config.paused
    ensures StaysHalted(h, i, n, target) ==> target in h[n].after.windows.halted
    decreases n - i
  {
    hide After, Deployed, Resumes, Unhalts;
    if i < n {
      SwitchesHold(h, i, n - 1, target);
      assert StaysPaused(h, i, n) ==> StaysPaused(h, i, n - 1);
      assert StaysHalted(h, i, n, target) ==> StaysHalted(h, i, n - 1, target);
      StepKeepsSwitches(h[n - 1].after, h[n].at, h[n].op.value, target);
    }
  }

  /** The transactions a pause blocks: whatever runs a job, changes one or brings money in. */
  predicate Blocked(op: Op) {
    op.Create? || op.Update? || op.Fund? || op.Run? || op.RunNothing? || op.AddStake?
  }

  lemma PauseBlocks(s: Storage, now: u64, op: Op)
    requires s.config.paused && Blocked(op)
    ensures After(s, now, op) == s
  {
    hide MayRun, Transfer, ValidateJob, ValidateSchedule;
    match op
    case Create(_, _, _) =>
    case Update(_, _, _) =>
    case Fund(_, _, _) =>
    case Run(_, _, _) =>
    case RunNothing(_) =>
    case AddStake(_, _) =>
  }

  /** From a pause until it is taken off no such transaction has any effect, and no job runs. */
  lemma NothingRunsWhilePaused(h: seq<Moment>, i: nat, n: nat)
    requires i <= n < |h| - 1 && StaysPaused(h, i, n) && h[n + 1].op.Some?
    requires IsHistory(h)
    ensures Blocked(h[n + 1].op.value) ==> h[n + 1].after == h[n].after
    ensures forall id: u64 :: RunsIn(h[n + 1].after.log, id) == RunsIn(h[n].after.log, id)
  {
    assert h[n + 1].after == After(h[n].after, h[n + 1].at, h[n + 1].op.value);
    hide IsHistory, After, StaysPaused, RunsIn;
    var s, now, op := h[n].after, h[n + 1].at, h[n + 1].op.value;
    SwitchesHold(h, i, n, s.contract);
    if Blocked(op) {
      PauseBlocks(s, now, op);
    } else {
      forall id: u64
        ensures RunsIn(After(s, now, op).log, id) == RunsIn(s.log, id)
      {
        StepCountsRuns(s, now, op, id);
      }
    }
  }

  /** From a halt until the target is resumed no job that calls it runs. */
  lemma NothingRunsOnHaltedTarget(h: seq<Moment>, i: nat, n: nat, target: Address, keeper: Address, id: u64,
                                  answer: Answer)
    requires i <= n < |h| - 1 && StaysHalted(h, i, n, target) && h[n + 1].op == Some(Run(keeper, id, answer))
    requires Exists(h[n].after.jobs, id) && h[n].after.jobs.specs[id].target == target
    requires IsHistory(h)
    ensures h[n + 1].after == h[n].after
  {
    assert h[n + 1].after == After(h[n].after, h[n + 1].at, h[n + 1].op.value);
    hide IsHistory, Sound, StaysHalted, Execute, MayServe, HeldByAnother, LeaderHasRun;
    SwitchesHold(h, i, n, target);
    ReachableIsSound(h, n);
    var s := h[n].after;
    assert Indexed(s.jobs) && JobsSound(s.jobs) && Solvent(s) by { SoundParts(s); }
    RunAcceptedIff(s, h[n + 1].at, keeper, id, answer);
  }

  lemma SoundParts(s: Storage)
    requires Sound(s)
    ensures Indexed(s.jobs) && JobsSound(s.jobs) && Solvent(s)
  {
  }
}
