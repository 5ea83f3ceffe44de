/** What each group of transactions leaves alone. */
module Footprints {
  import opened Basics
  import opened Types
  import opened Schedules
  import opened Token
  import opened RegistrySpec

  /** The same keepers are registered, with the same stakes and unbonding times. */
  ghost predicate SameBonds(before: map<Address, Keeper>, after: map<Address, Keeper>) {
    && before.Keys == after.Keys
    && forall k :: k in before ==>
                     after[k].stake == before[k].stake && after[k].unbondingAt == before[k].unbondingAt
  }

  /** A keeper with a whole window to answer for is registered, eligible and not the one running. */
  lemma MissedIsAnotherKeeper(s: Storage, now: u64, keeper: Address, id: u64)
    requires Exists(s.jobs, id) && Missed(s, now, keeper, id).Some?
    ensures Missed(s, now, keeper, id).value != keeper
    ensures IsEligible(s, Missed(s, now, keeper, id).value)
  {
    hide HadWholeWindow;
  }

  /** What the keeper is paid and the treasury gets for one run of job `id`. */
  function RunPayout(s: Storage, now: u64, id: u64): Payout
    requires Exists(s.jobs, id)
  {
    AddFee(Payout(0, 0), FeeOf(s.jobs, now, id), s.config.protocolFeeBps)
  }

  /** Everything a successful `execute` changes. */
  ghost predicate RunEffect(s: Storage, now: u64, keeper: Address, id: u64, answer: Answer, s': Storage) {
    && MayRun(s, now, keeper, id, answer).Ok?
    && IsEligible(s, keeper) && keeper != s.contract
    && !s.config.paused && s.config.executor.Some?
    && s' == s.(jobs := s'.jobs, staff := s'.staff, ledger := s'.ledger, log := s'.log)
    && SameBonds(s.staff.keepers, s'.staff.keepers)
    && s'.staff.rotation == s.staff.rotation
    && var leaderRuns := MayRun(s, now, keeper, id, answer).value;
       && s'.jobs == s.jobs.(states := s.jobs.states[id := NextState(s, now, id, leaderRuns, answer)])
       && s'.log == s.log + RunEvents(s, now, keeper, id, leaderRuns, answer)
       && Settle(s.ledger, s.contract, s.config, keeper, RunPayout(s, now, id)) == Ok(s'.ledger)
  }

  lemma ExecuteEffect(s: Storage, now: u64, keeper: Address, id: u64, answer: Answer)
    requires Execute(s, now, keeper, id, answer).Ok?
    ensures RunEffect(s, now, keeper, id, answer, Execute(s, now, keeper, id, answer).value)
  {
    hide MayRun, NextState, RunEvents, Settle, FeeOf, AddFee, Missed, Smooth;
  }

  /** Writing the keeper's entries back is visible only as a blank average where no run was ever recorded. */
  lemma RewrittenReadsTheSame(f: Storage, k: Address)
    ensures var r := Rewritten(f, k);
            && r == f.(staff := r.staff) && r.staff == f.staff.(recents := r.staff.recents)
            && (forall a :: Recent(r.staff, a) == Recent(f.staff, a))
            && (k in f.staff.recents ==> r == f)
  {
    var r := Rewritten(f, k);
    assert r.staff.keepers == f.staff.keepers;
    if k in f.staff.recents {
      assert r.staff.recents == f.staff.recents;
    }
  }

  /** The settings no admin call can change. */
  ghost predicate SameParties(c: Config, c': Config) {
    && c'.admin == c.admin && c'.feeToken == c.feeToken && c'.stakeToken == c.stakeToken
    && c'.unbondingPeriod == c.unbondingPeriod
    && (c.executor.Some? ==> c'.executor == c.executor)
  }

  lemma NewConfigKeepsParties(config: Config, call: AdminCall)
    requires NewConfig(config, call).Ok?
    ensures SameParties(config, NewConfig(config, call).value)
  {
  }

  /** An admin call moves no funds and changes no job or keeper. */
  ghost predicate AdminEffect(s: Storage, now: u64, call: AdminCall, s': Storage) {
    && s' == s.(config := s'.config, windows := s'.windows, upgrades := s'.upgrades)
    && NewConfig(s.config, call) == Ok(s'.config)
    && SameParties(s.config, s'.config)
    && s'.windows == NewWindows(s.windows, now, call)
    && NewUpgrades(s.upgrades, s'.config, now, call) == Ok(s'.upgrades)
  }

  lemma AdministerEffect(s: Storage, now: u64, caller: Address, call: AdminCall)
    requires Administer(s, now, caller, call).Ok?
    ensures AdminEffect(s, now, call, Administer(s, now, caller, call).value)
  {
    hide NewConfig, NewWindows, NewUpgrades, SameParties;
    NewConfigKeepsParties(s.config, call);
  }

  /** Transactions that leave every job, owner list and job id alone. */
  predicate LeavesJobs(op: Op) {
    op.AddStake? || op.Unbond? || op.Release? || op.RunNothing? || op.Admin? || op.TokenMove?
  }

  /** Transactions that leave every keeper and the rotation alone. */
  predicate LeavesStaff(op: Op) {
    !op.AddStake? && !op.Unbond? && !op.Release? && !op.Run? && !op.RunNothing?
  }

  lemma JobsUntouched(s: Storage, now: u64, op: Op)
    requires LeavesJobs(op)
    ensures After(s, now, op).jobs == s.jobs
  {
    hide Administer, Transfer, UnbondingRelease, AuthorizeKeeper;
    match op
    case Admin(caller, call) =>
      if Administer(s, now, caller, call).Ok? {
        AdministerEffect(s, now, caller, call);
      }
    case AddStake(_, _) =>
    case Unbond(_) =>
    case Release(_) =>
    case RunNothing(_) =>
    case TokenMove(_, _, _, _) =>
  }

  lemma StaffUntouched(s: Storage, now: u64, op: Op)
    requires LeavesStaff(op)
    ensures After(s, now, op).staff == s.staff
  {
    hide Administer, Transfer, ValidateJob, InsertJob, ValidateSchedule, LeaderRuns, HandOver;
    match op
    case Admin(caller, call) =>
      if Administer(s, now, caller, call).Ok? {
        AdministerEffect(s, now, caller, call);
      }
    case Create(_, _, _) =>
    case Update(_, _, _) =>
    case Fund(_, _, _) =>
    case Cancel(_, _) =>
    case Withdraw(_, _, _) =>
    case SetActive(_, _, _) =>
    case ProposeOwner(_, _, _) =>
    case AcceptOwner(_, _) =>
    case TokenMove(_, _, _, _) =>
  }

  /** No transaction but an admin's changes the settings; none replaces the parties. */
  lemma PartiesUntouched(s: Storage, now: u64, op: Op)
    ensures var s' := After(s, now, op);
            && SameParties(s.config, s'.config) && s'.contract == s.contract && s'.digest == s.digest
            && (!op.Admin? ==> s'.config == s.config && s'.upgrades == s.upgrades)
  {
    hide Administer, Transfer, ValidateJob, InsertJob, ValidateSchedule, LeaderRuns, HandOver, Execute,
      UnbondingRelease, RunEvents, MayRun, NextState, Settle;
    match op
    case Admin(caller, call) =>
      if Administer(s, now, caller, call).Ok? {
        AdministerEffect(s, now, caller, call);
      }
    case Run(keeper, id, answer) =>
      if Execute(s, now, keeper, id, answer).Ok? {
        ExecuteEffect(s, now, keeper, id, answer);
      }
    case Create(_, _, _) =>
    case Update(_, _, _) =>
    case Fund(_, _, _) =>
    case Cancel(_, _) =>
    case Withdraw(_, _, _) =>
    case SetActive(_, _, _) =>
    case ProposeOwner(_, _, _) =>
    case AcceptOwner(_, _) =>
    case AddStake(_, _) =>
    case Unbond(_) =>
    case Release(_) =>
    case RunNothing(_) =>
    case TokenMove(_, _, _, _) =>
  }

  // ------------------------------------------------------------------ published events

  /** The events a transaction publishes, in order. */
  function Published(s: Storage, now: u64, op: Op): seq<Event> {
    if Step(s, now, op).Err? then []
    else match op
      case Create(_, _, _) => [JobCreated(s.jobs.nextId)]
      case Update(_, id, _) => [JobUpdated(id)]
      case Fund(_, id, amount) =>
        if id in s.jobs.states then [JobFunded(id, s.jobs.states[id].balance + amount)] else []
      case Cancel(_, id) => [JobCancelled(id)]
      case Withdraw(_, id, amount) =>
        if id in s.jobs.states then [JobWithdrawn(id, s.jobs.states[id].balance - amount)] else []
      case SetActive(_, id, active) => [JobActiveSet(id, active)]
      case Run(keeper, id, answer) =>
        var leaderRuns := MayRun(s, now, keeper, id, answer);
        if leaderRuns.Ok? then RunEvents(s, now, keeper, id, leaderRuns.value, answer) else []
      case Unbond(keeper) =>
        [Event.KeeperUnbonding(keeper, UnbondingRelease(now, s.config.unbondingPeriod, s.config.unbondingEpoch))]
      case _ => []
  }

  lemma StepPublishes(s: Storage, now: u64, op: Op)
    ensures After(s, now, op).log == s.log + Published(s, now, op)
  {
    hide Transfer, ValidateJob, InsertJob, ValidateSchedule, LeaderRuns, HandOver, RemoveOwnerJob, NewConfig,
      NewWindows, NewUpgrades, UnbondingRelease, Touch, Execute, MayRun, RunEvents, Settle, NextState;
    if Step(s, now, op).Ok? {
      match op
      case Run(keeper, id, answer) => ExecuteEffect(s, now, keeper, id, answer);
      case Create(_, _, _) =>
      case Update(_, _, _) =>
      case Fund(_, _, _) =>
      case Cancel(_, _) =>
      case Withdraw(_, _, _) =>
      case SetActive(_, _, _) =>
      case Unbond(_) =>
      case ProposeOwner(_, _, _) =>
      case AcceptOwner(_, _) =>
      case AddStake(_, _) =>
      case Release(_) =>
      case Admin(_, _) =>
      case RunNothing(_) =>
      case TokenMove(_, _, _, _) =>
    }
  }
}
