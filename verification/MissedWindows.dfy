/**
 * A miss on a keeper's record proves that the run was the keeper's to make
 * for the whole window: nobody paused, drained, halted or reassigned it.
 */
module MissedWindows {
  import opened Basics
  import opened Types
  import opened Schedules
  import opened Token
  import opened RegistrySpec
  import opened Footprints
  import opened Bookkeeping
  import opened JobFacts
  import opened Histories

  ghost function Opened(s: Storage, id: u64): u64
    requires Exists(s.jobs, id)
  {
    WindowOpened(s.windows, id, s.jobs.specs[id].target, s.jobs.states[id].nextRun)
  }

  ghost function Holder(s: Storage, id: u64): Option<Address>
    requires Exists(s.jobs, id)
  {
    AssignedKeeper(s, id, s.jobs.specs[id], s.jobs.states[id])
  }

  /**
   * Job `id` was in `a` what it is in `b`, for the same keeper, and nothing
   * blocked it that does not block it in `b`.
   */
  ghost predicate SameView(a: Storage, b: Storage, id: u64) {
    && Exists(a.jobs, id) && Exists(b.jobs, id)
    && a.jobs.states[id] == b.jobs.states[id]
    && a.jobs.specs[id].(owner := b.jobs.specs[id].owner) == b.jobs.specs[id]
    && a.config.gracePeriod == b.config.gracePeriod
    && Holder(a, id) == Holder(b, id)
    && (!b.config.paused ==> !a.config.paused)
    && (b.jobs.specs[id].target !in b.windows.halted ==> a.jobs.specs[id].target !in a.windows.halted)
  }

  /** Between `a` and `b` either the window of job `id` restarted at `now`, or nothing about it changed. */
  ghost predicate WindowKept(a: Storage, now: u64, b: Storage, id: u64)
    requires Exists(b.jobs, id)
  {
    now <= Opened(b, id) || (SameView(a, b, id) && Opened(a, id) == Opened(b, id))
  }

  /**
   * The one transaction that can reassign runs without restarting windows: an
   * accepted first stake while the minimum stake is 0 and the rotation is full.
   */
  predicate SilentStake(s: Storage, now: u64, op: Op) {
    && op.AddStake? && Step(s, now, op).Ok?
    && op.keeper !in s.staff.keepers && s.config.minStake <= 0
    && op.keeper !in s.staff.rotation && !Joins(s.staff, op.keeper)
    && 0 < s.config.gracePeriod
  }

  /** A silent stake after which the run of job `id` is reserved for the newcomer. */
  ghost predicate TakesOver(s: Storage, now: u64, op: Op, id: u64) {
    SilentStake(s, now, op) && Exists(After(s, now, op).jobs, id) && Holder(After(s, now, op), id) == Some(op.keeper)
  }

  // ------------------------------------------------------------------ assignments

  /** Assignment reads settings, digest, rotation and who is eligible. */
  lemma SameAssignment(a: Storage, b: Storage, id: u64, spec: JobSpec, state: JobState)
    requires a.digest == b.digest && a.config.gracePeriod == b.config.gracePeriod
    requires spec.keepers.None? ==> a.staff.rotation == b.staff.rotation
    requires forall k :: IsEligible(a, k) == IsEligible(b, k)
    ensures AssignedKeeper(a, id, spec, state) == AssignedKeeper(b, id, spec, state)
  {
  }

  /** A stake restarts every window, or changes no assignment, or is a silent one. */
  lemma StakeRestartsOrKeeps(s: Storage, now: u64, keeper: Address, amount: i128)
    requires ConfigSound(s.config) && RotationSound(s.staff)
    requires Stake(s, now, keeper, amount).Ok?
    ensures var s' := Stake(s, now, keeper, amount).value;
            SilentStake(s, now, AddStake(keeper, amount)) || s'.windows.reset == now
            || forall id: u64, spec: JobSpec, state: JobState ::
                 AssignedKeeper(s', id, spec, state) == AssignedKeeper(s, id, spec, state)
  {
    hide Transfer;
    var s' := Stake(s, now, keeper, amount).value;
    if !SilentStake(s, now, AddStake(keeper, amount)) && s'.windows.reset != now {
      forall id: u64, spec: JobSpec, state: JobState
        ensures AssignedKeeper(s', id, spec, state) == AssignedKeeper(s, id, spec, state)
      {
        if s.config.gracePeriod != 0 {
          SameAssignment(s', s, id, spec, state);
        }
      }
    }
  }

  /** The exception is real: a silent stake hands allowlisted runs to the new keeper mid-window. */
  lemma SilentStakeReassigns(s: Storage, now: u64, keeper: Address, amount: i128, id: u64, spec: JobSpec,
                             state: JobState)
    requires Stake(s, now, keeper, amount).Ok? && SilentStake(s, now, AddStake(keeper, amount))
    requires ConfigSound(s.config) && spec.keepers == Some([keeper])
    ensures var s' := Stake(s, now, keeper, amount).value;
            && s'.windows == s.windows
            && AssignedKeeper(s, id, spec, state) == None
            && AssignedKeeper(s', id, spec, state) == Some(keeper)
  {
    hide Transfer;
  }

  // ------------------------------------------------------------------ one transaction

  /** Editing a job restarts its own window and leaves the windows of other jobs alone. */
  lemma EditKeepsWindow(s: Storage, now: u64, op: Op, id: u64)
    requires Step(s, now, op).Ok?
    requires op.Update? || op.Fund? || op.Withdraw? || op.SetActive?
    requires Exists(After(s, now, op).jobs, id) && 0 < s.config.gracePeriod
    ensures WindowKept(s, now, After(s, now, op), id)
  {
    hide Transfer, ValidateSchedule, LeaderRuns, UpdatedNextRun, SameView;
    match op
    case Update(_, j, _) => if j != id { OtherJobKept(s, After(s, now, op), id); }
    case Fund(_, j, _) => if j != id { OtherJobKept(s, After(s, now, op), id); }
    case Withdraw(_, j, _) => if j != id { OtherJobKept(s, After(s, now, op), id); }
    case SetActive(_, j, _) => if j != id { OtherJobKept(s, After(s, now, op), id); }
  }

  lemma OwnerOpKeepsWindow(s: Storage, now: u64, op: Op, id: u64)
    requires Step(s, now, op).Ok?
    requires op.Cancel? || op.ProposeOwner?
    requires Exists(After(s, now, op).jobs, id)
    ensures WindowKept(s, now, After(s, now, op), id)
  {
    hide Transfer, RemoveFirst, SameView;
    match op
    case Cancel(_, _) => OtherJobKept(s, After(s, now, op), id);
    case ProposeOwner(_, _, _) => OtherJobKept(s, After(s, now, op), id);
  }

  /** A job whose two halves, timestamps and surroundings did not change keeps its window. */
  lemma OtherJobKept(a: Storage, b: Storage, id: u64)
    requires Exists(a.jobs, id) && Exists(b.jobs, id)
    requires a.jobs.states[id] == b.jobs.states[id]
    requires a.jobs.specs[id].(owner := b.jobs.specs[id].owner) == b.jobs.specs[id]
    requires a.config == b.config && a.digest == b.digest
    requires a.staff.rotation == b.staff.rotation && (forall k :: IsEligible(a, k) == IsEligible(b, k))
    requires Lookup(a.windows.touched, id, 0) == Lookup(b.windows.touched, id, 0)
    requires a.windows.(touched := b.windows.touched) == b.windows
    ensures SameView(a, b, id) && Opened(a, id) == Opened(b, id)
  {
    SameAssignment(a, b, id, a.jobs.specs[id], a.jobs.states[id]);
    hide IsEligible;
  }

  lemma CreateKeepsWindow(s: Storage, now: u64, owner: Address, params: JobParams, deposit: i128, id: u64)
    requires Indexed(s.jobs) && CreateJob(s, now, owner, params, deposit).Ok?
    requires Exists(CreateJob(s, now, owner, params, deposit).value.jobs, id)
    ensures WindowKept(s, now, CreateJob(s, now, owner, params, deposit).value, id)
  {
    var s' := CreateJob(s, now, owner, params, deposit).value;
    assert s' == s.(ledger := s'.ledger, jobs := s'.jobs, log := s'.log) by {
      hide ValidateJob, InsertJob, Transfer;
    }
    CreateFrame(s, now, owner, params, deposit);
    ValidJobHasValidCalendar(s, params, deposit);
    hide CreateJob, Indexed, ValidateJob;
    if id == s.jobs.nextId {
      FirstRunIsLeastMatch(params.schedule, Max(params.startAt, now));
      hide FirstCalendarRun;
    } else {
      OtherJobKept(s, s', id);
    }
  }

  lemma ValidJobHasValidCalendar(s: Storage, params: JobParams, deposit: i128)
    requires ValidateJob(s, params, deposit).Ok?
    ensures IsValid(params.schedule)
  {
    hide IsForbiddenTarget, ValidateSchedule;
    ValidScheduleFacts(s.config, params.interval, params.schedule, |params.args|,
                       params.feePerRun, params.maxFeePerRun, params.keepers);
  }

  lemma AcceptKeepsWindow(s: Storage, caller: Address, now: u64, id: u64, job: u64)
    requires AcceptJobOwner(s, caller, job).Ok?
    requires Exists(AcceptJobOwner(s, caller, job).value.jobs, id)
    ensures WindowKept(s, now, AcceptJobOwner(s, caller, job).value, id)
  {
    hide HandOver;
    HandOverFrame(s.jobs, job, s.jobs.pendingOwners[job]);
    OtherJobKept(s, AcceptJobOwner(s, caller, job).value, id);
  }

  lemma RunKeepsWindow(s: Storage, now: u64, keeper: Address, job: u64, answer: Answer, id: u64)
    requires JobsSound(s.jobs) && Execute(s, now, keeper, job, answer).Ok?
    requires Exists(Execute(s, now, keeper, job, answer).value.jobs, id)
    ensures WindowKept(s, now, Execute(s, now, keeper, job, answer).value, id)
  {
    var s' := Execute(s, now, keeper, job, answer).value;
    hide Execute, MayRun, RunEvents, Settle, NextRunAfter, OnCalendar, LeaderSound, FeeOf, GivesUp;
    ExecuteEffect(s, now, keeper, job, answer);
    if id == job {
      assert JobSound(id, s.jobs.specs[id], s.jobs.states[id]);
      NextRunOnGrid(s.jobs.states[id].nextRun, s.jobs.specs[id].interval, now);
    } else {
      OtherJobKept(s, s', id);
    }
  }

  /** A silent stake changes nothing for jobs that it does not hand to the newcomer. */
  lemma SilentStakeKeepsOthers(s: Storage, now: u64, op: Op, id: u64)
    requires SilentStake(s, now, op) && Exists(s.jobs, id) && !TakesOver(s, now, op, id)
    ensures SameView(s, After(s, now, op), id) && Opened(s, id) == Opened(After(s, now, op), id)
  {
    hide Transfer;
    var s', spec := After(s, now, op), s.jobs.specs[id];
    var candidates := Candidates(s, spec);
    if candidates != [] {
      var chosen := candidates[s.digest(id, s.jobs.states[id].runs) % |candidates|];
      assert IsEligible(s', op.keeper);
      assert chosen != op.keeper;
      assert IsEligible(s, chosen) == IsEligible(s', chosen);
    }
  }

  lemma StaffOpKeepsWindow(s: Storage, now: u64, op: Op, id: u64)
    requires ConfigSound(s.config) && RotationSound(s.staff) && Step(s, now, op).Ok?
    requires op.AddStake? || op.Unbond? || op.Release? || op.RunNothing?
    requires !TakesOver(s, now, op, id)
    requires Exists(s.jobs, id)
    ensures Exists(After(s, now, op).jobs, id) && WindowKept(s, now, After(s, now, op), id)
  {
    hide Transfer, UnbondingRelease, RotationSound;
    match op
    case AddStake(keeper, amount) =>
      if SilentStake(s, now, op) {
        SilentStakeKeepsOthers(s, now, op, id);
      } else {
        StakeRestartsOrKeeps(s, now, keeper, amount);
      }
    case RunNothing(keeper) =>
      RewrittenReadsTheSame(s, keeper);
      OtherJobKept(s, After(s, now, op), id);
    case Unbond(_) =>
    case Release(_) => OtherJobKept(s, After(s, now, op), id);
  }

  lemma AdminKeepsWindow(s: Storage, now: u64, caller: Address, call: AdminCall, id: u64)
    requires Administer(s, now, caller, call).Ok? && Exists(s.jobs, id)
    ensures Exists(Administer(s, now, caller, call).value.jobs, id)
    ensures WindowKept(s, now, Administer(s, now, caller, call).value, id)
  {
    var s' := Administer(s, now, caller, call).value;
    AdministerEffect(s, now, caller, call);
    hide Administer, NewUpgrades;
    if !RestartsWindows(call) {
      QuietCallKeepsEligibility(s.config, call);
      SameAssignment(s, s', id, s.jobs.specs[id], s.jobs.states[id]);
      hide NewConfig, AssignedKeeper;
    }
  }

  lemma QuietCallKeepsEligibility(config: Config, call: AdminCall)
    requires NewConfig(config, call).Ok? && !RestartsWindows(call)
    ensures var config' := NewConfig(config, call).value;
            && config'.gracePeriod == config.gracePeriod && config'.minStake == config.minStake
            && (!config'.paused ==> !config.paused)
  {
  }

  /** Each transaction restarts a job's window or changes nothing its runs depend on, unless it takes the job over. */
  lemma StepKeepsWindow(s: Storage, now: u64, op: Op, id: u64)
    requires Sound(s)
    requires Exists(After(s, now, op).jobs, id) && 0 < After(s, now, op).config.gracePeriod
    ensures WindowKept(s, now, After(s, now, op), id)
       <==> (now <= Opened(After(s, now, op), id) || !TakesOver(s, now, op, id))
  {
    if TakesOver(s, now, op, id) {
      hide After, SilentStake, AssignedKeeper;
      NewcomerWasNotHolder(s, now, op, id);
    } else {
      OtherStepsKeepWindow(s, now, op, id);
    }
  }

  lemma NewcomerWasNotHolder(s: Storage, now: u64, op: Op, id: u64)
    requires SilentStake(s, now, op)
    ensures Exists(s.jobs, id) ==> Holder(s, id) != Some(op.keeper)
  {
    hide Transfer;
  }

  lemma OtherStepsKeepWindow(s: Storage, now: u64, op: Op, id: u64)
    requires Sound(s) && !TakesOver(s, now, op, id)
    requires Exists(After(s, now, op).jobs, id) && 0 < After(s, now, op).config.gracePeriod
    ensures WindowKept(s, now, After(s, now, op), id)
  {
    hide Indexed, JobsSound, RotationSound, ConfigSound, WindowKept, TakesOver, CreateJob, UpdateJob, FundJob,
      CancelJob, WithdrawJobBalance, SetJobActive, ProposeJobOwner, AcceptJobOwner, Execute, Stake, IdleBatch,
      BeginUnbonding, ReleaseStake, Administer, MoveToken;
    if Step(s, now, op).Err? {
      SelfKept(s, now, id);
    } else {
      match op
      case Create(owner, params, deposit) => CreateKeepsWindow(s, now, owner, params, deposit, id);
      case AcceptOwner(caller, job) => AcceptKeepsWindow(s, caller, now, id, job);
      case Run(keeper, job, answer) => RunKeepsWindow(s, now, keeper, job, answer, id);
      case AddStake(_, _) => JobsUntouched(s, now, op); StaffOpKeepsWindow(s, now, op, id);
      case Unbond(_) => JobsUntouched(s, now, op); StaffOpKeepsWindow(s, now, op, id);
      case Release(_) => JobsUntouched(s, now, op); StaffOpKeepsWindow(s, now, op, id);
      case RunNothing(_) => JobsUntouched(s, now, op); StaffOpKeepsWindow(s, now, op, id);
      case Admin(caller, call) => JobsUntouched(s, now, op); AdminKeepsWindow(s, now, caller, call, id);
      case TokenMove(token, from, to, amount) => MoveKeepsWindow(s, now, token, from, to, amount, id);
      case Cancel(_, _) => OwnerOpKeepsWindow(s, now, op, id);
      case ProposeOwner(_, _, _) => OwnerOpKeepsWindow(s, now, op, id);
      case _ =>
        PartiesUntouched(s, now, op);
        EditKeepsWindow(s, now, op, id);
    }
  }

  lemma SelfKept(s: Storage, now: u64, id: u64)
    requires Exists(s.jobs, id)
    ensures WindowKept(s, now, s, id)
  {
  }

  lemma MoveKeepsWindow(s: Storage, now: u64, token: Address, from: Address, to: Address, amount: i128, id: u64)
    requires MoveToken(s, token, from, to, amount).Ok?
    requires Exists(MoveToken(s, token, from, to, amount).value.jobs, id)
    ensures WindowKept(s, now, MoveToken(s, token, from, to, amount).value, id)
  {
    hide Transfer;
    OtherJobKept(s, MoveToken(s, token, from, to, amount).value, id);
  }

  // ------------------------------------------------------------------ whole histories

  /** Keeper `k` joined by a silent stake at moment `m`. */
  ghost predicate JoinsSilently(h: seq<Moment>, m: nat, k: Address)
    requires 0 < m < |h|
  {
    h[m].op.Some? && SilentStake(h[m - 1].after, h[m].at, h[m].op.value) && h[m].op.value.keeper == k
  }

  /**
   * Every state that was still in force after the window last restarted
   * showed the job exactly as it is now, unless the keeper it is now assigned
   * to joined silently since.
   */
  lemma {:induction false} WindowHistory(h: seq<Moment>, n: nat, id: u64, i: nat)
    requires i < n < |h| && IsHistory(h)
    requires Exists(h[n].after.jobs, id) && 0 < h[n].after.config.gracePeriod
    requires Opened(h[n].after, id) < h[i + 1].at
    requires forall m :: i < m <= n && Holder(h[n].after, id).Some? ==>
                           !JoinsSilently(h, m, Holder(h[n].after, id).value)
    ensures SameView(h[i].after, h[n].after, id)
    decreases n
  {
    hide After, Deployed, Sound, Opened, SilentStake, Holder;
    var s, s' := h[n - 1].after, h[n].after;
    ReachableIsSound(h, n - 1);
    TimeOrder(h, i + 1, n);
    assert !TakesOver(s, h[n].at, h[n].op.value, id) by {
      assert Holder(s', id).Some? ==> !JoinsSilently(h, n, Holder(s', id).value);
    }
    StepKeepsWindow(s, h[n].at, h[n].op.value, id);
    assert SameView(s, s', id) && Opened(s, id) == Opened(s', id);
    if i < n - 1 {
      WindowHistory(h, n - 1, id, i);
    }
  }

  /** The transaction `op` at `now` puts a miss on keeper `k`'s record for job `id`. */
  ghost predicate RecordsMiss(s: Storage, now: u64, op: Op, k: Address, id: u64) {
    && op.Run? && op.id == id && Step(s, now, op).Ok?
    && Exists(s.jobs, id) && Missed(s, now, op.keeper, id) == Some(k)
  }

  ghost predicate MissRecorded(h: seq<Moment>, n: nat, k: Address, id: u64)
    requires 0 < n < |h|
  {
    h[n].op.Some? && RecordsMiss(h[n - 1].after, h[n].at, h[n].op.value, k, id)
  }

  /** A registered keeper's count of misses changes in no other way. */
  lemma OnlyRunsRecordMisses(s: Storage, now: u64, op: Op, k: Address)
    requires k in s.staff.keepers && k in After(s, now, op).staff.keepers
    requires After(s, now, op).staff.keepers[k].missed != s.staff.keepers[k].missed
    ensures op.Run? && RecordsMiss(s, now, op, k, op.id)
  {
    hide After, RecordsMiss;
    if LeavesStaff(op) {
      StaffUntouched(s, now, op);
    } else {
      match op
      case Run(_, _, _) => RunRecordsMiss(s, now, op, k);
      case AddStake(_, _) => StakingRecordsNoMiss(s, now, op, k);
      case Unbond(_) => StakingRecordsNoMiss(s, now, op, k);
      case Release(_) => StakingRecordsNoMiss(s, now, op, k);
      case RunNothing(_) => StakingRecordsNoMiss(s, now, op, k);
    }
  }

  lemma StakingRecordsNoMiss(s: Storage, now: u64, op: Op, k: Address)
    requires op.AddStake? || op.Unbond? || op.Release? || op.RunNothing?
    requires k in s.staff.keepers && k in After(s, now, op).staff.keepers
    ensures After(s, now, op).staff.keepers[k].missed == s.staff.keepers[k].missed
  {
    hide Transfer, UnbondingRelease, ResetWindows;
    match op
    case AddStake(_, _) =>
    case Unbond(_) =>
    case Release(_) =>
    case RunNothing(keeper) => RewrittenReadsTheSame(s, keeper);
  }

  lemma RunRecordsMiss(s: Storage, now: u64, op: Op, k: Address)
    requires op.Run?
    requires k in s.staff.keepers && k in After(s, now, op).staff.keepers
    requires After(s, now, op).staff.keepers[k].missed != s.staff.keepers[k].missed
    ensures RecordsMiss(s, now, op, k, op.id)
  {
    hide MayRun, NextState, RunEvents, Settle, Missed, AddFee, FeeOf, Smooth, AuthorizeKeeper, Recent;
    assert Step(s, now, op).Ok?;
    assert Exists(s.jobs, op.id);
    AuthorizedIsStored(s, op.keeper);
  }

  lemma AuthorizedIsStored(s: Storage, keeper: Address)
    ensures AuthorizeKeeper(s, keeper).Ok? ==>
              keeper in s.staff.keepers && AuthorizeKeeper(s, keeper).value == s.staff.keepers[keeper]
  {
  }

  /** At `t`, nothing on the registry's side stood between keeper `k` and the run of job `id`. */
  ghost predicate CouldRun(s: Storage, t: u64, k: Address, id: u64) {
    && Exists(s.jobs, id)
    && EnsureDue(s.jobs.specs[id], s.jobs.states[id], t).Ok?
    && s.jobs.specs[id].target !in s.windows.halted && !s.config.paused
    && IsEligible(s, k) && Holder(s, id) == Some(k)
    && (s.config.executor.Some? ==>
          AuthorizeKeeper(s, k).Ok? && forall answer: Answer :: MayRun(s, t, k, id, answer).Ok?)
  }

  /** Seen as it was when the miss was recorded, the job could have been run at any time since its window opened. */
  lemma SameViewCouldRun(a: Storage, s: Storage, now: u64, t: u64, other: Address, k: Address, id: u64, answer: Answer)
    requires SameView(a, s, id) && Execute(s, now, other, id, answer).Ok?
    requires Missed(s, now, other, id) == Some(k) && k != a.contract
    requires Opened(s, id) <= t <= now
    requires SameParties(a.config, s.config) && a.contract == s.contract
    ensures CouldRun(a, t, k, id)
  {
    hide Settle, RunEvents, NextState, RecordMiss, SaveRecord, FeeOf, AddFee, RecordAfterRun;
    ExecuteEffect(s, now, other, id, answer);
    hide Execute;
    MayRunFacts(s, now, other, id, answer);
    assert Holder(a, id) == Some(k) == Holder(s, id);
    assert IsEligible(a, k);
    assert a.jobs.specs[id].keepers.Some? ==> k in a.jobs.specs[id].keepers.value;
    hide IsEligible, AssignedKeeper;
    assert EnsureDue(a.jobs.specs[id], a.jobs.states[id], t).Ok?;
  }

  /** State `i` was in force at `t`, within the grace period before the run at moment `n`. */
  ghost predicate InForce(h: seq<Moment>, n: nat, i: nat, t: u64)
    requires i < n < |h|
  {
    var opening := h[n].at - h[n - 1].after.config.gracePeriod;
    opening <= t <= h[n].at && h[i].at <= t <= h[i + 1].at && opening < h[i + 1].at
  }

  /** Keeper `k` joined silently within the grace period before the run at moment `n`. */
  ghost predicate JoinedInWindow(h: seq<Moment>, n: nat, k: Address)
    requires 0 < n < |h|
  {
    exists m :: 0 < m < n && JoinsSilently(h, m, k) && h[n].at - h[n - 1].after.config.gracePeriod < h[m].at
  }

  /**
   * A miss recorded at `now` against keeper `k` for job `id`, who did not join
   * silently during the window, means: at every moment `t` of the preceding
   * grace period, in every state in force at `t`, the job was due, nothing was
   * paused or halted, `k` was the eligible assigned keeper, and (with an
   * executor connected) `k`'s own call would have been let through to the
   * target.
   */
  lemma MissMeansWholeWindow(h: seq<Moment>, n: nat, k: Address, id: u64, i: nat, t: u64)
    requires i < n < |h| && h[n].at < U64_MAX && MissRecorded(h, n, k, id)
    requires InForce(h, n, i, t) && !JoinedInWindow(h, n, k)
    requires IsHistory(h)
    ensures CouldRun(h[i].after, t, k, id)
  {
    hide *;
    MissFactsAt(h, n, k, id, i, t);
    var s, now, op := h[n - 1].after, h[n].at, h[n].op.value;
    SameViewSince(h, n, k, id, i);
    ReachableIsSound(h, n - 1);
    KeeperIsNotRegistry(s, k);
    PartiesForever(h, i, n - 1);
    SameViewCouldRun(h[i].after, s, now, t, op.keeper, k, id, op.answer);
  }

  lemma MissFactsAt(h: seq<Moment>, n: nat, k: Address, id: u64, i: nat, t: u64)
    requires i < n < |h| && h[n].at < U64_MAX && MissRecorded(h, n, k, id) && InForce(h, n, i, t)
    ensures var s, now, op := h[n - 1].after, h[n].at, h[n].op;
            && op.Some? && op.value.Run? && Exists(s.jobs, id) && k in s.staff.keepers
            && Execute(s, now, op.value.keeper, id, op.value.answer).Ok?
            && Missed(s, now, op.value.keeper, id) == Some(k)
            && Opened(s, id) <= t <= now && now - s.config.gracePeriod < h[i + 1].at
  {
    hide RecordsMiss;
    MissFacts(h[n - 1].after, h[n].at, h[n].op.value, k, id);
    hide Execute, Missed, Opened;
  }

  /** Seen from the miss, the job looked the same in every state in force during the window. */
  lemma SameViewSince(h: seq<Moment>, n: nat, k: Address, id: u64, i: nat)
    requires i < n < |h| && h[n].at < U64_MAX && MissRecorded(h, n, k, id) && !JoinedInWindow(h, n, k)
    requires h[n].at - h[n - 1].after.config.gracePeriod < h[i + 1].at && IsHistory(h)
    ensures Exists(h[n - 1].after.jobs, id) && SameView(h[i].after, h[n - 1].after, id)
  {
    hide IsHistory, Opened, Holder, Execute, Missed, SameView, JoinedInWindow, RecordsMiss;
    var s := h[n - 1].after;
    MissFacts(s, h[n].at, h[n].op.value, k, id);
    MissedIsHolder(s, h[n].at, h[n].op.value.keeper, k, id);
    if i < n - 1 {
      NoneJoinedSince(h, n, k, i);
      WindowHistory(h, n - 1, id, i);
    } else {
      SelfView(s, id);
    }
  }

  lemma MissedIsHolder(s: Storage, now: u64, other: Address, k: Address, id: u64)
    requires Exists(s.jobs, id) && Missed(s, now, other, id) == Some(k)
    ensures Holder(s, id) == Some(k)
  {
    hide HadWholeWindow;
  }

  lemma NoneJoinedSince(h: seq<Moment>, n: nat, k: Address, i: nat)
    requires i < n < |h| && !JoinedInWindow(h, n, k)
    requires h[n].at - h[n - 1].after.config.gracePeriod < h[i + 1].at && IsHistory(h)
    ensures forall m :: i < m < n ==> !JoinsSilently(h, m, k)
  {
    hide After, Deployed, JoinsSilently;
    forall m | i < m < n
      ensures !JoinsSilently(h, m, k)
    {
      TimeOrder(h, i + 1, m);
    }
  }

  /**
   * Exactly when a recorded miss is the keeper's own: it could have made the
   * run at every moment of the grace period before, in every state in force
   * then, if and only if it did not join silently during that time.
   */
  lemma MissIsGenuineIff(h: seq<Moment>, n: nat, k: Address, id: u64)
    requires 0 < n < |h| && h[n].at < U64_MAX && MissRecorded(h, n, k, id)
    requires IsHistory(h)
    ensures (forall i: nat, t: u64 :: i < n && InForce(h, n, i, t) ==> CouldRun(h[i].after, t, k, id))
       <==> !JoinedInWindow(h, n, k)
  {
    hide IsHistory, CouldRun, MissRecorded, InForce;
    if JoinedInWindow(h, n, k) {
      var m :| 0 < m < n && JoinsSilently(h, m, k) && h[n].at - h[n - 1].after.config.gracePeriod < h[m].at;
      JoinerIsInForce(h, n, m);
      JoinerCouldNotRun(h[m - 1].after, h[m].at, h[m].op.value, k, id, h[m].at);
      assert InForce(h, n, m - 1, h[m].at) && !CouldRun(h[m - 1].after, h[m].at, k, id);
    } else {
      forall i: nat, t: u64 | i < n && InForce(h, n, i, t)
        ensures CouldRun(h[i].after, t, k, id)
      {
        MissMeansWholeWindow(h, n, k, id, i, t);
      }
    }
  }

  lemma JoinerIsInForce(h: seq<Moment>, n: nat, m: nat)
    requires 0 < m < n < |h| && IsHistory(h) && h[n].at - h[n - 1].after.config.gracePeriod < h[m].at
    ensures InForce(h, n, m - 1, h[m].at)
  {
    hide After, Deployed;
    TimeOrder(h, m - 1, m);
    TimeOrder(h, m, n);
  }

  lemma JoinerCouldNotRun(s: Storage, now: u64, op: Op, k: Address, id: u64, t: u64)
    requires SilentStake(s, now, op) && op.keeper == k
    ensures !CouldRun(s, t, k, id)
  {
    hide Step, EnsureDue, MayRun, AssignedKeeper;
  }

  /**
   * Such a join is enough to be blamed: once a job's window has been open for
   * a grace period, a keeper that joins by a silent stake is at once blamed
   * for it by any other run at the same moment, although it could not have run
   * the job at any time before.
   */
  lemma SilentStakeIsBlamed(s: Storage, now: u64, keeper: Address, amount: i128, other: Address, id: u64)
    requires ConfigSound(s.config) && Exists(s.jobs, id) && other != keeper
    requires SilentStake(s, now, AddStake(keeper, amount))
    requires var spec, state := s.jobs.specs[id], s.jobs.states[id];
             && spec.keepers.Some? && spec.keepers.value != []
             && spec.keepers.value[s.digest(id, state.runs) % |spec.keepers.value|] == keeper
             && HadWholeWindow(s, id, spec, state.nextRun, now)
    ensures Missed(Stake(s, now, keeper, amount).value, now, other, id) == Some(keeper)
    ensures forall t: u64 :: !CouldRun(s, t, keeper, id)
  {
    hide Transfer, EnsureDue, MayRun;
  }

  lemma SelfView(s: Storage, id: u64)
    requires Exists(s.jobs, id)
    ensures SameView(s, s, id)
  {
  }

  lemma MissFacts(s: Storage, now: u64, op: Op, k: Address, id: u64)
    requires RecordsMiss(s, now, op, k, id) && now < U64_MAX
    ensures op.Run? && Exists(s.jobs, id)
    ensures Execute(s, now, op.keeper, id, op.answer).Ok? && Missed(s, now, op.keeper, id) == Some(k)
    ensures Opened(s, id) + s.config.gracePeriod <= now && 0 < s.config.gracePeriod
    ensures k in s.staff.keepers
  {
    hide Execute;
  }

  lemma KeeperIsNotRegistry(s: Storage, k: Address)
    requires Sound(s) && k in s.staff.keepers
    ensures k != s.contract
  {
    hide Indexed, JobsSound, RotationSound, MissesSound;
  }

  /** In the last second a u64 can hold, a window counts as whole although it was not. */
  lemma LastSecondWindow(s: Storage, id: u64, spec: JobSpec, dueAt: u64)
    requires spec.resolver.None? && spec.after.None?
    ensures HadWholeWindow(s, id, spec, dueAt, U64_MAX)
  {
  }

  /** Up to then a window counts as whole exactly when a full grace period fits since it opened. */
  lemma WholeWindowIsWhole(s: Storage, id: u64, spec: JobSpec, dueAt: u64, now: u64)
    requires now < U64_MAX
    ensures HadWholeWindow(s, id, spec, dueAt, now) <==>
              && spec.resolver.None? && spec.after.None?
              && WindowOpened(s.windows, id, spec.target, dueAt) + s.config.gracePeriod <= now
  {
  }

  /**
   * Job and target timestamps live in temporary storage. Forgetting one that
   * is older than the longest window cannot change whether a window was whole.
   */
  lemma ForgottenTimestampsDontMatter(s: Storage, s': Storage, id: u64, spec: JobSpec, dueAt: u64, now: u64)
    requires ConfigSound(s.config) && s'.config == s.config && s'.windows.reset == s.windows.reset
    requires Lookup(s'.windows.touched, id, 0) == Lookup(s.windows.touched, id, 0)
          || (id !in s'.windows.touched && Lookup(s.windows.touched, id, 0) + MAX_GRACE_PERIOD <= now)
    requires Lookup(s'.windows.resumed, spec.target, 0) == Lookup(s.windows.resumed, spec.target, 0)
          || (spec.target !in s'.windows.resumed
              && Lookup(s.windows.resumed, spec.target, 0) + MAX_GRACE_PERIOD <= now)
    ensures HadWholeWindow(s', id, spec, dueAt, now) == HadWholeWindow(s, id, spec, dueAt, now)
  {
  }
}
