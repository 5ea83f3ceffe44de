/**
 * What each registry entry point does to the registry's storage, as a
 * function of the storage before the call. `Err` leaves the storage as it was.
 */
module RegistrySpec {
  import opened Basics
  import opened Types
  import opened Schedules
  import opened Token

  const MAX_BATCH := 20
  const MAX_JOB_KEEPERS := 10
  const MAX_ACTIVE_KEEPERS := 64
  const MAX_BPS := 1_000
  const MAX_GRACE_PERIOD := 86_400
  const MAX_UNBONDING_EPOCH := 30 * 86_400
  const MAX_BPS_SCALE := 10_000
  const DEFAULT_MAX_FAILURES := 3

  // ------------------------------------------------------------------ storage helpers

  function OwnerJobs(jobs: JobBook, owner: Address): seq<u64> {
    Lookup(jobs.ownerJobs, owner, [])
  }

  function AddOwnerJob(jobs: JobBook, owner: Address, id: u64): JobBook {
    jobs.(ownerJobs := jobs.ownerJobs[owner := OwnerJobs(jobs, owner) + [id]])
  }

  function RemoveOwnerJob(jobs: JobBook, owner: Address, id: u64): JobBook {
    if id in OwnerJobs(jobs, owner)
    then jobs.(ownerJobs := jobs.ownerJobs[owner := RemoveFirst(OwnerJobs(jobs, owner), id)])
    else jobs
  }

  function Recent(staff: KeeperBook, keeper: Address): KeeperRecent {
    Lookup(staff.recents, keeper, KeeperRecent(0, 0))
  }

  predicate Exists(jobs: JobBook, id: u64) {
    id in jobs.states && id in jobs.specs
  }

  function ResetWindows(windows: WindowBook, now: u64): WindowBook {
    windows.(reset := now)
  }

  /** Something that can stop this job's run just changed. */
  function Touch(s: Storage, now: u64, id: u64): WindowBook {
    if 0 < s.config.gracePeriod then s.windows.(touched := s.windows.touched[id := now]) else s.windows
  }

  /** `require_auth`: `who` signed the call. Nobody can sign for the registry itself. */
  predicate Signed(s: Storage, caller: Address, who: Address) {
    caller == who && who != s.contract
  }

  // ------------------------------------------------------------------ jobs

  function ValidateSchedule(
    config: Config, interval: u64, schedule: Schedule, argsLen: nat,
    feePerRun: i128, maxFeePerRun: i128, keepers: Option<seq<Address>>): Result<u64>
  {
    var interval' :-
      match CalendarPeriod(schedule)
      case Some(period) =>
        if interval != 0 || !IsValid(schedule) then Err(InvalidCalendar) else Ok(period)
      case None =>
        if interval == 0 then Err(InvalidInterval) else Ok(interval);
    if config.minInterval != 0 && interval' < config.minInterval then Err(IntervalTooShort)
    else if config.maxArgs != 0 && config.maxArgs < argsLen then Err(TooManyArgs)
    else if feePerRun <= 0 then Err(InvalidFee)
    else if maxFeePerRun != 0 && maxFeePerRun < feePerRun then Err(InvalidSetting)
    else if keepers.Some? && MAX_JOB_KEEPERS < |keepers.value| then Err(TooManyKeepers)
    else Ok(interval')
  }

  predicate IsForbiddenTarget(s: Storage, target: Address) {
    || target == s.contract
    || s.config.executor == Some(target)
    || target == s.config.feeToken
    || target == s.config.stakeToken
  }

  function ValidateJob(s: Storage, params: JobParams, deposit: i128): Result<()> {
    var _ :- ValidateSchedule(s.config, params.interval, params.schedule, |params.args|,
                              params.feePerRun, params.maxFeePerRun, params.keepers);
    if deposit < params.feePerRun then Err(InvalidAmount)
    else if IsForbiddenTarget(s, params.target) then Err(ForbiddenTarget)
    else if params.after.Some? && params.after.value !in s.jobs.states then Err(JobNotFound)
    else Ok(())
  }

  /** The leader's run count recorded when job `id` starts following `after`. */
  function LeaderRuns(jobs: JobBook, id: u64, after: Option<u64>): Result<u32> {
    match after
    case None => Ok(0)
    case Some(leader) =>
      if leader == id then Err(AwaitingDependency)
      else if leader !in jobs.states then Err(JobNotFound)
      else Ok(jobs.states[leader].runs)
  }

  function NewSpec(owner: Address, params: JobParams): JobSpec {
    JobSpec(
      owner, params.target, params.function_, params.args,
      match CalendarPeriod(params.schedule) case Some(period) => period case None => params.interval,
      params.schedule, params.feePerRun, params.maxFeePerRun, params.maxRuns, params.endAt,
      params.resolver, params.keepers, params.after)
  }

  function NewState(jobs: JobBook, now: u64, params: JobParams, deposit: int): JobState {
    JobState(
      FirstCalendarRun(params.schedule, Max(params.startAt, now)), deposit, 0, 0, true,
      if params.after.Some? && params.after.value in jobs.states then jobs.states[params.after.value].runs else 0)
  }

  function InsertJob(jobs: JobBook, now: u64, owner: Address, params: JobParams, deposit: i128): Result<JobBook> {
    var id := jobs.nextId;
    if id == U64_MAX then Err(HostPanic)
    else
      var jobs1 := jobs.(nextId := id + 1,
                         specs := jobs.specs[id := NewSpec(owner, params)],
                         states := jobs.states[id := NewState(jobs, now, params, deposit)]);
      Ok(AddOwnerJob(jobs1, owner, id))
  }

  function CreateJob(s: Storage, now: u64, owner: Address, params: JobParams, deposit: i128): Result<Storage> {
    if s.config.paused then Err(Paused)
    else if owner == s.contract then Err(HostPanic)
    else
      var _ :- ValidateJob(s, params, deposit);
      var ledger :- Transfer(s.ledger, s.config.feeToken, owner, s.contract, deposit);
      var jobs :- InsertJob(s.jobs, now, owner, params, deposit);
      Ok(s.(ledger := ledger, jobs := jobs, log := s.log + [JobCreated(s.jobs.nextId)]))
  }

  function UpdatedSpec(spec: JobSpec, interval: u64, update: JobUpdate): JobSpec {
    JobSpec(
      spec.owner, spec.target, update.function_, update.args, interval, update.schedule,
      update.feePerRun, update.maxFeePerRun, update.maxRuns, update.endAt,
      update.resolver, update.keepers, update.after)
  }

  function UpdatedNextRun(spec: JobSpec, state: JobState, now: u64, schedule: Schedule): u64 {
    if schedule != Interval && schedule != spec.schedule then FirstCalendarRun(schedule, now) else state.nextRun
  }

  function UpdateJob(s: Storage, now: u64, caller: Address, id: u64, update: JobUpdate): Result<Storage> {
    if s.config.paused then Err(Paused)
    else if !Exists(s.jobs, id) then Err(JobNotFound)
    else
      var spec, state := s.jobs.specs[id], s.jobs.states[id];
      if !Signed(s, caller, spec.owner) then Err(HostPanic)
      else
        var interval :- ValidateSchedule(s.config, update.interval, update.schedule, |update.args|,
                                         update.feePerRun, update.maxFeePerRun, update.keepers);
        var nextRun := UpdatedNextRun(spec, state, now, update.schedule);
        var leaderRuns :-
          if update.after != spec.after then LeaderRuns(s.jobs, id, update.after) else Ok(state.leaderRuns);
        var jobs := s.jobs.(specs := s.jobs.specs[id := UpdatedSpec(spec, interval, update)],
                            states := s.jobs.states[id := state.(nextRun := nextRun, leaderRuns := leaderRuns)]);
        Ok(s.(jobs := jobs, windows := Touch(s, now, id), log := s.log + [JobUpdated(id)]))
  }

  /** The job book with job `id`'s escrow set to `balance`. */
  function WithBalance(jobs: JobBook, id: u64, balance: int): JobBook
    requires id in jobs.states
  {
    jobs.(states := jobs.states[id := jobs.states[id].(balance := balance)])
  }

  function FundJob(s: Storage, now: u64, from: Address, id: u64, amount: i128): Result<Storage> {
    if s.config.paused then Err(Paused)
    else if from == s.contract then Err(HostPanic)
    else if amount <= 0 then Err(InvalidAmount)
    else if id !in s.jobs.states then Err(JobNotFound)
    else
      var ledger :- Transfer(s.ledger, s.config.feeToken, from, s.contract, amount);
      var balance := s.jobs.states[id].balance + amount;
      Ok(s.(ledger := ledger, jobs := WithBalance(s.jobs, id, balance), windows := Touch(s, now, id),
            log := s.log + [JobFunded(id, balance)]))
  }

  function CancelJob(s: Storage, caller: Address, id: u64): Result<Storage> {
    if !Exists(s.jobs, id) then Err(JobNotFound)
    else
      var owner, refund := s.jobs.specs[id].owner, s.jobs.states[id].balance;
      if !Signed(s, caller, owner) then Err(HostPanic)
      else
        var jobs := s.jobs.(specs := s.jobs.specs - {id}, states := s.jobs.states - {id},
                            pendingOwners := s.jobs.pendingOwners - {id});
        var ledger :-
          if 0 < refund then Transfer(s.ledger, s.config.feeToken, s.contract, owner, refund) else Ok(s.ledger);
        Ok(s.(jobs := RemoveOwnerJob(jobs, owner, id), ledger := ledger, log := s.log + [JobCancelled(id)]))
  }

  function WithdrawJobBalance(s: Storage, now: u64, caller: Address, id: u64, amount: i128): Result<Storage> {
    if !Exists(s.jobs, id) then Err(JobNotFound)
    else
      var owner, held := s.jobs.specs[id].owner, s.jobs.states[id].balance;
      if !Signed(s, caller, owner) then Err(HostPanic)
      else if amount <= 0 || held < amount then Err(InvalidAmount)
      else
        var ledger :- Transfer(s.ledger, s.config.feeToken, s.contract, owner, amount);
        Ok(s.(ledger := ledger, jobs := WithBalance(s.jobs, id, held - amount), windows := Touch(s, now, id),
              log := s.log + [JobWithdrawn(id, held - amount)]))
  }

  function SetJobActive(s: Storage, now: u64, caller: Address, id: u64, active: bool): Result<Storage> {
    if !Exists(s.jobs, id) then Err(JobNotFound)
    else if !Signed(s, caller, s.jobs.specs[id].owner) then Err(HostPanic)
    else
      var state := s.jobs.states[id];
      var state' := state.(active := active, failures := if active then 0 else state.failures);
      Ok(s.(jobs := s.jobs.(states := s.jobs.states[id := state']), windows := Touch(s, now, id),
            log := s.log + [JobActiveSet(id, active)]))
  }

  function ProposeJobOwner(s: Storage, caller: Address, id: u64, newOwner: Address): Result<Storage> {
    if id !in s.jobs.specs then Err(JobNotFound)
    else if !Signed(s, caller, s.jobs.specs[id].owner) then Err(HostPanic)
    else
      var pending :=
        if newOwner == s.jobs.specs[id].owner
        then s.jobs.pendingOwners - {id} else s.jobs.pendingOwners[id := newOwner];
      Ok(s.(jobs := s.jobs.(pendingOwners := pending)))
  }

  function HandOver(jobs: JobBook, id: u64, newOwner: Address): JobBook
    requires id in jobs.specs
  {
    var jobs1 := RemoveOwnerJob(jobs.(pendingOwners := jobs.pendingOwners - {id}), jobs.specs[id].owner, id);
    AddOwnerJob(jobs1, newOwner, id).(specs := jobs.specs[id := jobs.specs[id].(owner := newOwner)])
  }

  function AcceptJobOwner(s: Storage, caller: Address, id: u64): Result<Storage> {
    if id !in s.jobs.specs then Err(JobNotFound)
    else if id !in s.jobs.pendingOwners then Err(NoPendingOwner)
    else if !Signed(s, caller, s.jobs.pendingOwners[id]) then Err(HostPanic)
    else Ok(s.(jobs := HandOver(s.jobs, id, s.jobs.pendingOwners[id])))
  }

  // ------------------------------------------------------------------ execution

  /** The two sums owed once all jobs of a call have run. */
  datatype Payout = Payout(keeperFees: int, protocolFees: int)

  /** The executing keeper's record, loaded once and saved once per call. */
  datatype KeeperRecord = KeeperRecord(info: Keeper, recent: KeeperRecent)

  /** Storage, cached record and earnings after some jobs of one call. */
  datatype Progress = Progress(store: Storage, record: KeeperRecord, payout: Payout)

  function EnsureActiveKeeper(config: Config, keeper: Keeper): Result<()> {
    if keeper.unbondingAt.Some? then Err(Error.KeeperUnbonding)
    else if keeper.stake < config.minStake then Err(InsufficientStake)
    else Ok(())
  }

  predicate IsEligible(s: Storage, keeper: Address) {
    keeper in s.staff.keepers && EnsureActiveKeeper(s.config, s.staff.keepers[keeper]).Ok?
  }

  function AuthorizeKeeper(s: Storage, keeper: Address): Result<Keeper> {
    if s.config.paused then Err(Paused)
    else if s.config.executor.None? then Err(ExecutorNotSet)
    else if keeper == s.contract then Err(HostPanic)
    else if keeper !in s.staff.keepers then Err(KeeperNotFound)
    else
      var _ :- EnsureActiveKeeper(s.config, s.staff.keepers[keeper]);
      Ok(s.staff.keepers[keeper])
  }

  function EnsureDue(spec: JobSpec, state: JobState, now: u64): Result<()> {
    if !state.active then Err(JobPaused)
    else if spec.maxRuns != 0 && spec.maxRuns <= state.runs then Err(MaxRunsReached)
    else if spec.endAt != 0 && spec.endAt <= now then Err(JobExpired)
    else if state.balance < spec.feePerRun then Err(InsufficientJobBalance)
    else if now < state.nextRun then Err(JobNotDue)
    else Ok(())
  }

  function DependencyMet(jobs: JobBook, spec: JobSpec, state: JobState): Result<u32> {
    match spec.after
    case None => Ok(state.leaderRuns)
    case Some(leader) =>
      if leader in jobs.states && state.leaderRuns < jobs.states[leader].runs then Ok(jobs.states[leader].runs)
      else Err(AwaitingDependency)
  }

  /** The keepers a job's assigned windows rotate among. */
  function Candidates(s: Storage, spec: JobSpec): seq<Address> {
    if spec.keepers.Some? then spec.keepers.value else s.staff.rotation
  }

  function AssignedKeeper(s: Storage, id: u64, spec: JobSpec, state: JobState): Option<Address> {
    var candidates := Candidates(s, spec);
    if s.config.gracePeriod == 0 || candidates == [] then None
    else
      var chosen := candidates[s.digest(id, state.runs) % |candidates|];
      if IsEligible(s, chosen) then Some(chosen) else None
  }

  /** When the window of the run due at `dueAt` last (re)started. */
  function WindowOpened(windows: WindowBook, id: u64, target: Address, dueAt: u64): u64 {
    Max(Max(dueAt, Lookup(windows.touched, id, 0)), Max(windows.reset, Lookup(windows.resumed, target, 0)))
  }

  predicate HadWholeWindow(s: Storage, id: u64, spec: JobSpec, dueAt: u64, now: u64) {
    && spec.resolver.None? && spec.after.None?
    && Sat64(WindowOpened(s.windows, id, spec.target, dueAt) + s.config.gracePeriod) <= now
  }

  /** Another keeper than `keeper` holds the run's window. */
  function OtherAssigned(s: Storage, keeper: Address, id: u64): Option<Address>
    requires Exists(s.jobs, id)
  {
    var holder := AssignedKeeper(s, id, s.jobs.specs[id], s.jobs.states[id]);
    if holder == Some(keeper) then None else holder
  }

  /** Every check `run_job` makes before the target is called; the leader's run count on success. */
  function MayRun(s: Storage, now: u64, keeper: Address, id: u64, answer: Answer): (r: Result<u32>)
    ensures r.Ok? ==> Exists(s.jobs, id)
  {
    if !Exists(s.jobs, id) then Err(JobNotFound)
    else
      var spec, state := s.jobs.specs[id], s.jobs.states[id];
      var _ :- EnsureDue(spec, state, now);
      if IsForbiddenTarget(s, spec.target) then Err(ForbiddenTarget)
      else if spec.target in s.windows.halted then Err(TargetHalted)
      else if spec.keepers.Some? && keeper !in spec.keepers.value then Err(KeeperNotAllowed)
      else if OtherAssigned(s, keeper, id).Some? && now < Sat64(state.nextRun + s.config.gracePeriod) then
        Err(NotAssignedKeeper)
      else
        var leaderRuns :- DependencyMet(s.jobs, spec, state);
        if spec.resolver.Some? && !answer.resolverAllows then Err(ResolverRejected)
        else Ok(leaderRuns)
  }

  /** The job's state after a run that pays `fee`. */
  function StateAfterRun(config: Config, spec: JobSpec, state: JobState, now: u64,
                         leaderRuns: u32, fee: int, success: bool): JobState
  {
    var failures := if success then 0 else Sat32(state.failures + 1);
    JobState(
      NextRunAfter(state.nextRun, spec.interval, now),
      state.balance - fee,
      Sat32(state.runs + 1),
      failures,
      state.active && !GivesUp(config, failures, success),
      leaderRuns)
  }

  predicate GivesUp(config: Config, failures: u32, success: bool) {
    !success && config.maxFailures != 0 && config.maxFailures <= failures
  }

  function RecordAfterRun(record: KeeperRecord, lateness: u64): KeeperRecord {
    KeeperRecord(
      record.info.(executions := Sat32(record.info.executions + 1),
                   totalLateness := Sat64(record.info.totalLateness + lateness)),
      KeeperRecent(Smooth(record.recent.lateness, lateness), Smooth(record.recent.misses, 0)))
  }

  /** The keeper whose miss the run of job `id` by `keeper` records, if any. */
  function Missed(s: Storage, now: u64, keeper: Address, id: u64): Option<Address>
    requires Exists(s.jobs, id)
  {
    if HadWholeWindow(s, id, s.jobs.specs[id], s.jobs.states[id].nextRun, now)
    then OtherAssigned(s, keeper, id) else None
  }

  /** The keeper book with a miss on `missed`'s record. */
  function RecordMiss(staff: KeeperBook, missed: Option<Address>): KeeperBook {
    if missed.Some? && missed.value in staff.keepers then
      var info, recent := staff.keepers[missed.value], Recent(staff, missed.value);
      staff.(keepers := staff.keepers[missed.value := info.(missed := Sat32(info.missed + 1))],
             recents := staff.recents[missed.value := recent.(misses := Smooth(recent.misses, MAX_BPS_SCALE))])
    else staff
  }

  /** The fee a run of job `id` pays at `now`. */
  function FeeOf(jobs: JobBook, now: u64, id: u64): int
    requires Exists(jobs, id)
  {
    RampedFee(jobs.specs[id], jobs.states[id], now)
  }

  function NextState(s: Storage, now: u64, id: u64, leaderRuns: u32, answer: Answer): JobState
    requires Exists(s.jobs, id)
  {
    StateAfterRun(s.config, s.jobs.specs[id], s.jobs.states[id], now, leaderRuns,
                  FeeOf(s.jobs, now, id), answer.targetSucceeds)
  }

  /** The events of one run, in the order they are published. */
  function RunEvents(s: Storage, now: u64, keeper: Address, id: u64, leaderRuns: u32, answer: Answer): seq<Event>
    requires Exists(s.jobs, id)
  {
    var fee := FeeOf(s.jobs, now, id);
    var next := NextState(s, now, id, leaderRuns, answer);
    var missed := Missed(s, now, keeper, id);
    (if GivesUp(s.config, next.failures, answer.targetSucceeds) then [JobDeactivated(id)] else [])
    + (if next.balance < s.jobs.specs[id].feePerRun then [JobExhausted(id, next.balance)] else [])
    + (if missed.Some? && missed.value in s.staff.keepers then [KeeperMissedWindow(missed.value, id, keeper)] else [])
    + [JobExecuted(id, keeper, answer.targetSucceeds, fee, SplitFee(fee, s.config.protocolFeeBps).1,
                   next.runs, next.nextRun, Less(now, s.jobs.states[id].nextRun), next.failures)]
  }

  function StoreAfterRun(s: Storage, now: u64, keeper: Address, id: u64, leaderRuns: u32, answer: Answer): Storage
    requires Exists(s.jobs, id)
  {
    s.(jobs := s.jobs.(states := s.jobs.states[id := NextState(s, now, id, leaderRuns, answer)]),
       staff := RecordMiss(s.staff, Missed(s, now, keeper, id)),
       log := s.log + RunEvents(s, now, keeper, id, leaderRuns, answer))
  }

  function AddFee(payout: Payout, fee: int, bps: u32): Payout {
    var (keeperFee, protocolFee) := SplitFee(fee, bps);
    Payout(payout.keeperFees + keeperFee, payout.protocolFees + protocolFee)
  }

  function RunJob(p: Progress, now: u64, keeper: Address, id: u64, answer: Answer): Result<Progress> {
    var leaderRuns :- MayRun(p.store, now, keeper, id, answer);
    Ok(Progress(
      StoreAfterRun(p.store, now, keeper, id, leaderRuns, answer),
      RecordAfterRun(p.record, Less(now, p.store.jobs.states[id].nextRun)),
      AddFee(p.payout, FeeOf(p.store.jobs, now, id), p.store.config.protocolFeeBps)))
  }

  /** The token balances once both sums of a payout have been transferred. */
  function Settle(ledger: Ledger, contract: Address, config: Config, keeper: Address, payout: Payout): Result<Ledger> {
    var l1 :-
      if 0 < payout.keeperFees
      then Transfer(ledger, config.feeToken, contract, keeper, payout.keeperFees) else Ok(ledger);
    if 0 < payout.protocolFees && config.treasury.Some?
    then Transfer(l1, config.feeToken, contract, config.treasury.value, payout.protocolFees)
    else Ok(l1)
  }

  function SaveRecord(staff: KeeperBook, keeper: Address, record: KeeperRecord): KeeperBook {
    staff.(keepers := staff.keepers[keeper := record.info], recents := staff.recents[keeper := record.recent])
  }

  function Commit(p: Progress, keeper: Address): Result<Storage> {
    var ledger :- Settle(p.store.ledger, p.store.contract, p.store.config, keeper, p.payout);
    Ok(p.store.(staff := SaveRecord(p.store.staff, keeper, p.record), ledger := ledger))
  }

  function Begin(s: Storage, keeper: Address): Result<Progress> {
    var info :- AuthorizeKeeper(s, keeper);
    Ok(Progress(s, KeeperRecord(info, Recent(s.staff, keeper)), Payout(0, 0)))
  }

  /** The storage with the keeper's own entries written back, which adds a blank average where there was none. */
  function Rewritten(s: Storage, keeper: Address): Storage {
    if keeper in s.staff.keepers
    then s.(staff := SaveRecord(s.staff, keeper, KeeperRecord(s.staff.keepers[keeper], Recent(s.staff, keeper))))
    else s
  }

  /** An `execute_batch` in which no job may run: the record is loaded and saved, and nothing is paid. */
  function IdleBatch(s: Storage, keeper: Address): Result<Storage> {
    var _ :- AuthorizeKeeper(s, keeper);
    Ok(Rewritten(s, keeper))
  }

  function Execute(s: Storage, now: u64, keeper: Address, id: u64, answer: Answer): Result<Storage> {
    var p :- Begin(s, keeper);
    var p' :- RunJob(p, now, keeper, id, answer);
    Commit(p', keeper)
  }

  // ------------------------------------------------------------------ keepers

  /** `add_active_keeper` has room for `keeper`, who is not in the rotation yet. */
  predicate Joins(staff: KeeperBook, keeper: Address) {
    keeper !in staff.rotation && |staff.rotation| < MAX_ACTIVE_KEEPERS
  }

  /** The stored record of `keeper`, or the blank one a first stake starts from. */
  function KeeperOrNew(staff: KeeperBook, keeper: Address): Keeper {
    Lookup(staff.keepers, keeper, Keeper(0, None, 0, 0, 0, 0))
  }

  function Stake(s: Storage, now: u64, keeper: Address, amount: i128): Result<Storage> {
    var info := KeeperOrNew(s.staff, keeper);
    if s.config.paused then Err(Paused)
    else if keeper == s.contract then Err(HostPanic)
    else if amount <= 0 then Err(InvalidAmount)
    else if info.unbondingAt.Some? then Err(Error.KeeperUnbonding)
    else
      var ledger :- Transfer(s.ledger, s.config.stakeToken, keeper, s.contract, amount);
      var joined := Joins(s.staff, keeper);
      var wasEligible := EnsureActiveKeeper(s.config, info).Ok?;
      Ok(s.(ledger := ledger,
            staff := s.staff.(keepers := s.staff.keepers[keeper := info.(stake := info.stake + amount)],
                              rotation := if joined then s.staff.rotation + [keeper] else s.staff.rotation),
            windows := if joined || !wasEligible then ResetWindows(s.windows, now) else s.windows))
  }

  function BeginUnbonding(s: Storage, now: u64, keeper: Address): Result<Storage> {
    if keeper == s.contract then Err(HostPanic)
    else if keeper !in s.staff.keepers then Err(KeeperNotFound)
    else if s.staff.keepers[keeper].unbondingAt.Some? then Err(Error.KeeperUnbonding)
    else
      var at := UnbondingRelease(now, s.config.unbondingPeriod, s.config.unbondingEpoch);
      var info := s.staff.keepers[keeper].(unbondingAt := Some(at));
      Ok(s.(staff := s.staff.(keepers := s.staff.keepers[keeper := info],
                              rotation := RemoveFirst(s.staff.rotation, keeper)),
            windows := ResetWindows(s.windows, now),
            log := s.log + [Event.KeeperUnbonding(keeper, at)]))
  }

  /** `withdraw_stake`, and each payout of `withdraw_stakes`. */
  function ReleaseStake(s: Storage, now: u64, keeper: Address): Result<Storage> {
    if keeper !in s.staff.keepers then Err(KeeperNotFound)
    else if s.staff.keepers[keeper].unbondingAt.None? then Err(UnbondingNotStarted)
    else if now < s.staff.keepers[keeper].unbondingAt.value then Err(UnbondingNotFinished)
    else
      var stake := s.staff.keepers[keeper].stake;
      var ledger :-
        if 0 < stake then Transfer(s.ledger, s.config.stakeToken, s.contract, keeper, stake) else Ok(s.ledger);
      Ok(s.(ledger := ledger,
            staff := s.staff.(keepers := s.staff.keepers - {keeper}, recents := s.staff.recents - {keeper})))
  }

  // ------------------------------------------------------------------ admin

  datatype AdminCall =
    | SetExecutor(executor: Address)
    | SetPaused(paused: bool)
    | SetTargetHalted(target: Address, halted: bool)
    | SetMinStake(minStake: i128)
    | SetMinInterval(minInterval: u64)
    | SetMaxArgs(maxArgs: u32)
    | SetProtocolFee(protocolFeeBps: u32, treasury: Option<Address>)
    | SetMaxFailures(maxFailures: u32)
    | SetKeeperWindows(gracePeriod: u64)
    | SetUnbondingEpoch(unbondingEpoch: u64)
    | SetUpgradeDelay(upgradeDelay: u64)
    | ProposeUpgrade(wasmHash: int)
    | ApplyUpgrade
    | CancelUpgrade

  /** The settings after a call, or why it is refused. */
  function NewConfig(config: Config, call: AdminCall): Result<Config> {
    match call
    case SetExecutor(executor) =>
      if config.executor.Some? then Err(ExecutorAlreadySet) else Ok(config.(executor := Some(executor)))
    case SetPaused(paused) => Ok(config.(paused := paused))
    case SetMinStake(minStake) =>
      if minStake < 0 then Err(InvalidAmount) else Ok(config.(minStake := minStake))
    case SetMinInterval(minInterval) => Ok(config.(minInterval := minInterval))
    case SetMaxArgs(maxArgs) => Ok(config.(maxArgs := maxArgs))
    case SetProtocolFee(bps, treasury) =>
      if MAX_BPS < bps || (0 < bps && treasury.None?) then Err(InvalidSetting)
      else Ok(config.(protocolFeeBps := bps, treasury := treasury))
    case SetMaxFailures(maxFailures) => Ok(config.(maxFailures := maxFailures))
    case SetKeeperWindows(gracePeriod) =>
      if MAX_GRACE_PERIOD < gracePeriod then Err(InvalidSetting)
      else Ok(config.(gracePeriod := gracePeriod, slashBps := 0))
    case SetUnbondingEpoch(epoch) =>
      if MAX_UNBONDING_EPOCH < epoch then Err(InvalidSetting) else Ok(config.(unbondingEpoch := epoch))
    case _ => Ok(config)
  }

  /** Calls after which who may run a job, or who is assigned to it, can be different. */
  predicate RestartsWindows(call: AdminCall) {
    call == SetPaused(false) || call.SetMinStake? || call.SetKeeperWindows?
  }

  function NewWindows(windows: WindowBook, now: u64, call: AdminCall): WindowBook {
    if RestartsWindows(call) then ResetWindows(windows, now)
    else if !call.SetTargetHalted? then windows
    else if call.halted then windows.(halted := windows.halted + {call.target})
    else windows.(halted := windows.halted - {call.target}, resumed := windows.resumed[call.target := now])
  }

  function MinUpgradeDelay(config: Config): u64 {
    Sat64(config.unbondingPeriod + config.unbondingEpoch)
  }

  function UpgradeDelay(upgrades: UpgradeBook, config: Config): u64 {
    Max(upgrades.delay, MinUpgradeDelay(config))
  }

  function PushBackPendingUpgrade(upgrades: UpgradeBook, config: Config): UpgradeBook {
    match upgrades.pending
    case None => upgrades
    case Some(pending) =>
      var at := Sat64(pending.proposedAt + UpgradeDelay(upgrades, config));
      if pending.availableAt < at then upgrades.(pending := Some(pending.(availableAt := at))) else upgrades
  }

  /** The upgrade entries after a call; `config` already holds the call's new settings. */
  function NewUpgrades(upgrades: UpgradeBook, config: Config, now: u64, call: AdminCall): Result<UpgradeBook> {
    match call
    case SetUnbondingEpoch(_) => Ok(PushBackPendingUpgrade(upgrades, config))
    case SetUpgradeDelay(delay) =>
      if delay < MinUpgradeDelay(config) then Err(InvalidSetting)
      else Ok(PushBackPendingUpgrade(upgrades.(delay := delay), config))
    case ProposeUpgrade(hash) =>
      Ok(upgrades.(pending := Some(PendingUpgrade(hash, now, Sat64(now + UpgradeDelay(upgrades, config))))))
    case ApplyUpgrade =>
      if upgrades.pending.None? then Err(NoPendingUpgrade)
      else if now < upgrades.pending.value.availableAt then Err(UpgradeNotReady)
      else Ok(upgrades.(pending := None))
    case CancelUpgrade =>
      if upgrades.pending.None? then Err(NoPendingUpgrade) else Ok(upgrades.(pending := None))
    case _ => Ok(upgrades)
  }

  function Administer(s: Storage, now: u64, caller: Address, call: AdminCall): Result<Storage> {
    if !Signed(s, caller, s.config.admin) then Err(HostPanic)
    else
      var config :- NewConfig(s.config, call);
      var upgrades :- NewUpgrades(s.upgrades, config, now, call);
      Ok(s.(config := config, windows := NewWindows(s.windows, now, call), upgrades := upgrades))
  }

  // ------------------------------------------------------------------ runs of the contract

  /**
   * One transaction. `RunNothing` is a batch in which no job runs, `TokenMove`
   * a token payment made without the registry.
   */
  datatype Op =
    | Create(owner: Address, params: JobParams, deposit: i128)
    | Update(caller: Address, id: u64, update: JobUpdate)
    | Fund(from: Address, id: u64, amount: i128)
    | Cancel(caller: Address, id: u64)
    | Withdraw(caller: Address, id: u64, amount: i128)
    | SetActive(caller: Address, id: u64, active: bool)
    | ProposeOwner(caller: Address, id: u64, newOwner: Address)
    | AcceptOwner(caller: Address, id: u64)
    | Run(keeper: Address, id: u64, answer: Answer)
    | RunNothing(keeper: Address)
    | AddStake(keeper: Address, amount: i128)
    | Unbond(keeper: Address)
    | Release(keeper: Address)
    | Admin(caller: Address, call: AdminCall)
    | TokenMove(token: Address, from: Address, to: Address, amount: i128)

  function MoveToken(s: Storage, token: Address, from: Address, to: Address, amount: i128): Result<Storage> {
    if from == s.contract then Err(HostPanic)
    else
      var ledger :- Transfer(s.ledger, token, from, to, amount);
      Ok(s.(ledger := ledger))
  }

  function Step(s: Storage, now: u64, op: Op): Result<Storage> {
    match op
    case Create(owner, params, deposit) => CreateJob(s, now, owner, params, deposit)
    case Update(caller, id, update) => UpdateJob(s, now, caller, id, update)
    case Fund(from, id, amount) => FundJob(s, now, from, id, amount)
    case Cancel(caller, id) => CancelJob(s, caller, id)
    case Withdraw(caller, id, amount) => WithdrawJobBalance(s, now, caller, id, amount)
    case SetActive(caller, id, active) => SetJobActive(s, now, caller, id, active)
    case ProposeOwner(caller, id, newOwner) => ProposeJobOwner(s, caller, id, newOwner)
    case AcceptOwner(caller, id) => AcceptJobOwner(s, caller, id)
    case Run(keeper, id, answer) => Execute(s, now, keeper, id, answer)
    case RunNothing(keeper) => IdleBatch(s, keeper)
    case AddStake(keeper, amount) => Stake(s, now, keeper, amount)
    case Unbond(keeper) => BeginUnbonding(s, now, keeper)
    case Release(keeper) => ReleaseStake(s, now, keeper)
    case Admin(caller, call) => Administer(s, now, caller, call)
    case TokenMove(token, from, to, amount) => MoveToken(s, token, from, to, amount)
  }

  /** The storage after a transaction: a rejected one changes nothing. */
  function After(s: Storage, now: u64, op: Op): Storage {
    match Step(s, now, op)
    case Ok(s') => s'
    case Err(_) => s
  }

  /** The storage the constructor leaves behind, next to whatever the token ledger holds. */
  predicate Deployed(s: Storage) {
    && 0 <= s.config.minStake
    && !s.config.paused && s.config.executor.None? && s.config.treasury.None?
    && s.config.minInterval == 0 && s.config.maxArgs == 0 && s.config.protocolFeeBps == 0
    && s.config.maxFailures == DEFAULT_MAX_FAILURES && s.config.gracePeriod == 0
    && s.config.slashBps == 0 && s.config.unbondingEpoch == 0
    && s.jobs == JobBook(0, map[], map[], map[], map[])
    && s.staff == KeeperBook(map[], map[], [])
    && s.windows == WindowBook({}, map[], map[], 0)
    && s.upgrades == UpgradeBook(0, None)
    && s.log == []
    && forall a :: a in s.ledger ==> 0 <= s.ledger[a]
  }
}
