/** What every stored job satisfies: sane fees, a calendar that never drifts, an honest leader count. */
module JobFacts {
  import opened Basics
  import opened Types
  import opened Schedules
  import opened Token
  import opened RegistrySpec
  import opened Footprints
  import opened Bookkeeping

  /** A calendar job's interval is its period and it is next due at its own wall-clock time. */
  predicate OnCalendar(spec: JobSpec, nextRun: u64) {
    && IsValid(spec.schedule)
    && (CalendarPeriod(spec.schedule).Some? ==>
          && spec.interval == CalendarPeriod(spec.schedule).value
          && (nextRun == U64_MAX || WallClockMatches(spec.schedule, nextRun)))
  }

  predicate JobSound(id: u64, spec: JobSpec, state: JobState) {
    && 0 < spec.feePerRun && (spec.maxFeePerRun == 0 || spec.feePerRun <= spec.maxFeePerRun)
    && 0 < spec.interval
    && OnCalendar(spec, state.nextRun)
    && 0 <= state.balance
    && (spec.keepers.Some? ==> |spec.keepers.value| <= MAX_JOB_KEEPERS)
    && spec.after != Some(id)
  }

  /** A follower never claims to have seen more runs of its leader than there were. */
  predicate LeaderSound(jobs: JobBook, spec: JobSpec, state: JobState) {
    spec.after.Some? ==>
      && spec.after.value < jobs.nextId
      && (spec.after.value in jobs.states ==> state.leaderRuns <= jobs.states[spec.after.value].runs)
  }

  ghost predicate JobsSound(jobs: JobBook) {
    forall id :: id in jobs.specs && id in jobs.states ==>
                   && JobSound(id, jobs.specs[id], jobs.states[id])
                   && LeaderSound(jobs, jobs.specs[id], jobs.states[id])
  }

  /** Running a calendar job late, however late, leaves it on its calendar. */
  lemma RunStaysOnCalendar(spec: JobSpec, nextRun: u64, now: u64)
    requires OnCalendar(spec, nextRun) && 0 < spec.interval
    ensures OnCalendar(spec, NextRunAfter(nextRun, spec.interval, now))
  {
    hide WallClockMatches, CalendarOffset;
    if CalendarPeriod(spec.schedule).Some? {
      var next := NextRunAfter(nextRun, spec.interval, now);
      NextRunOnGrid(nextRun, spec.interval, now);
      if next != U64_MAX {
        MatchesIffOnGrid(spec.schedule, nextRun);
        MatchesIffOnGrid(spec.schedule, next);
      }
    }
  }

  lemma FirstRunIsOnCalendar(spec: JobSpec, from: u64)
    requires IsValid(spec.schedule)
    requires CalendarPeriod(spec.schedule).Some? ==> spec.interval == CalendarPeriod(spec.schedule).value
    ensures OnCalendar(spec, FirstCalendarRun(spec.schedule, from))
  {
    hide WallClockMatches, FirstCalendarRun;
    FirstRunIsLeastMatch(spec.schedule, from);
  }

  /** Switching calendars reschedules; keeping one, or leaving calendars, keeps the due time. */
  lemma UpdateStaysOnCalendar(spec: JobSpec, state: JobState, spec': JobSpec, now: u64)
    requires OnCalendar(spec, state.nextRun) && IsValid(spec'.schedule)
    requires CalendarPeriod(spec'.schedule).Some? ==> spec'.interval == CalendarPeriod(spec'.schedule).value
    ensures OnCalendar(spec', UpdatedNextRun(spec, state, now, spec'.schedule))
  {
    hide WallClockMatches, FirstCalendarRun;
    FirstRunIsOnCalendar(spec', now);
  }

  /** What `validate_schedule` accepts. */
  lemma ValidScheduleFacts(config: Config, interval: u64, schedule: Schedule, argsLen: nat,
                           feePerRun: i128, maxFeePerRun: i128, keepers: Option<seq<Address>>)
    requires ValidateSchedule(config, interval, schedule, argsLen, feePerRun, maxFeePerRun, keepers).Ok?
    ensures var r := ValidateSchedule(config, interval, schedule, argsLen, feePerRun, maxFeePerRun, keepers).value;
            && 0 < r && IsValid(schedule)
            && r == (match CalendarPeriod(schedule) case Some(p) => p case None => interval)
            && 0 < feePerRun && (maxFeePerRun == 0 || feePerRun <= maxFeePerRun)
            && (keepers.Some? ==> |keepers.value| <= MAX_JOB_KEEPERS)
  {
  }

  /** Only job `id` changed, its leader did not change under anyone, and no run count fell. */
  lemma OneJobChanged(jobs: JobBook, jobs': JobBook, id: u64)
    requires JobsSound(jobs)
    requires jobs'.nextId >= jobs.nextId
    requires forall j :: j != id ==> (j in jobs'.specs && j in jobs'.states ==>
                                        && j in jobs.specs && j in jobs.states
                                        && jobs'.specs[j] == jobs.specs[j] && jobs'.states[j] == jobs.states[j])
    requires id in jobs'.states && id in jobs.states ==> jobs.states[id].runs <= jobs'.states[id].runs
    requires id in jobs'.states && id !in jobs.states ==> jobs.nextId <= id
    requires forall j :: j in jobs'.states && j != id ==> j in jobs.states && jobs'.states[j] == jobs.states[j]
    requires id in jobs'.specs && id in jobs'.states ==>
               && JobSound(id, jobs'.specs[id], jobs'.states[id])
               && LeaderSound(jobs', jobs'.specs[id], jobs'.states[id])
    ensures JobsSound(jobs')
  {
    hide JobSound;
  }

  lemma CreateKeepsJobsSound(s: Storage, now: u64, owner: Address, params: JobParams, deposit: i128)
    requires Indexed(s.jobs) && JobsSound(s.jobs)
    requires CreateJob(s, now, owner, params, deposit).Ok?
    ensures JobsSound(CreateJob(s, now, owner, params, deposit).value.jobs)
  {
    hide Transfer, ValidateSchedule, OnCalendar, FirstCalendarRun, AddOwnerJob;
    ValidScheduleFacts(s.config, params.interval, params.schedule, |params.args|,
                       params.feePerRun, params.maxFeePerRun, params.keepers);
    FirstRunIsOnCalendar(NewSpec(owner, params), Max(params.startAt, now));
    CreateFrame(s, now, owner, params, deposit);
    OneJobChanged(s.jobs, CreateJob(s, now, owner, params, deposit).value.jobs, s.jobs.nextId);
  }

  lemma CreateFrame(s: Storage, now: u64, owner: Address, params: JobParams, deposit: i128)
    requires CreateJob(s, now, owner, params, deposit).Ok?
    ensures var jobs', id := CreateJob(s, now, owner, params, deposit).value.jobs, s.jobs.nextId;
            && jobs'.nextId == id + 1
            && jobs'.specs == s.jobs.specs[id := NewSpec(owner, params)]
            && jobs'.states == s.jobs.states[id := NewState(s.jobs, now, params, deposit)]
            && jobs'.pendingOwners == s.jobs.pendingOwners
            && ValidateJob(s, params, deposit).Ok?
  {
    hide Transfer, ValidateJob, NewSpec, NewState;
  }

  lemma UpdateKeepsJobsSound(s: Storage, now: u64, caller: Address, id: u64, update: JobUpdate)
    requires Indexed(s.jobs) && JobsSound(s.jobs)
    requires UpdateJob(s, now, caller, id, update).Ok?
    ensures JobsSound(UpdateJob(s, now, caller, id, update).value.jobs)
  {
    hide ValidateSchedule, OnCalendar, UpdatedNextRun, Touch;
    ValidScheduleFacts(s.config, update.interval, update.schedule, |update.args|,
                       update.feePerRun, update.maxFeePerRun, update.keepers);
    var jobs' := UpdateJob(s, now, caller, id, update).value.jobs;
    UpdateStaysOnCalendar(s.jobs.specs[id], s.jobs.states[id], jobs'.specs[id], now);
    OneJobChanged(s.jobs, jobs', id);
  }

  lemma RunKeepsJobsSound(s: Storage, now: u64, keeper: Address, id: u64, answer: Answer)
    requires JobsSound(s.jobs)
    requires Execute(s, now, keeper, id, answer).Ok?
    ensures JobsSound(Execute(s, now, keeper, id, answer).value.jobs)
  {
    hide Execute, OnCalendar, NextRunAfter, GivesUp, RampedFee, RunEvents, Settle, MayRun;
    ExecuteEffect(s, now, keeper, id, answer);
    var spec, state := s.jobs.specs[id], s.jobs.states[id];
    MayRunFacts(s, now, keeper, id, answer);
    RunStaysOnCalendar(spec, state.nextRun, now);
    RampedFeeBounds(spec, state, now);
    OneJobChanged(s.jobs, Execute(s, now, keeper, id, answer).value.jobs, id);
  }

  /** The parts of a permitted run that later arguments use. */
  lemma MayRunFacts(s: Storage, now: u64, keeper: Address, id: u64, answer: Answer)
    requires MayRun(s, now, keeper, id, answer).Ok?
    ensures var spec, state := s.jobs.specs[id], s.jobs.states[id];
            && EnsureDue(spec, state, now).Ok?
            && state.nextRun <= now && spec.feePerRun <= state.balance && state.active
            && DependencyMet(s.jobs, spec, state) == Ok(MayRun(s, now, keeper, id, answer).value)
            && !IsForbiddenTarget(s, spec.target) && spec.target !in s.windows.halted
            && (OtherAssigned(s, keeper, id).Some? ==> Sat64(state.nextRun + s.config.gracePeriod) <= now)
  {
    hide OtherAssigned, IsForbiddenTarget, DependencyMet;
  }

  /** Changing a job's escrow, pausing it or renaming its owner disturbs nothing a job promises. */
  lemma SmallEditKeepsJobsSound(jobs: JobBook, jobs': JobBook, id: u64)
    requires JobsSound(jobs) && Exists(jobs, id) && jobs'.nextId == jobs.nextId
    requires id in jobs'.specs && jobs'.specs == jobs.specs[id := jobs.specs[id].(owner := jobs'.specs[id].owner)]
    requires id in jobs'.states && 0 <= jobs'.states[id].balance
    requires var state' := jobs'.states[id];
             jobs'.states == jobs.states[id := jobs.states[id].(balance := state'.balance, active := state'.active,
                                                                failures := state'.failures)]
    ensures JobsSound(jobs')
  {
    hide WallClockMatches, IsValid, CalendarPeriod;
    OneJobChanged(jobs, jobs', id);
  }

  lemma EditKeepsJobsSound(s: Storage, now: u64, op: Op)
    requires JobsSound(s.jobs) && Step(s, now, op).Ok? && Indexed(s.jobs)
    requires op.Fund? || op.Withdraw? || op.SetActive? || op.AcceptOwner?
    ensures JobsSound(After(s, now, op).jobs)
  {
    hide Transfer, OnCalendar, Touch, RemoveOwnerJob, AddOwnerJob, LeaderSound;
    match op
    case Fund(_, id, _) =>
      assert JobSound(id, s.jobs.specs[id], s.jobs.states[id]);
      SmallEditKeepsJobsSound(s.jobs, After(s, now, op).jobs, id);
    case Withdraw(_, id, _) => SmallEditKeepsJobsSound(s.jobs, After(s, now, op).jobs, id);
    case SetActive(_, id, _) =>
      assert JobSound(id, s.jobs.specs[id], s.jobs.states[id]);
      SmallEditKeepsJobsSound(s.jobs, After(s, now, op).jobs, id);
    case AcceptOwner(_, id) =>
      assert JobSound(id, s.jobs.specs[id], s.jobs.states[id]);
      HandOverFrame(s.jobs, id, s.jobs.pendingOwners[id]);
      SmallEditKeepsJobsSound(s.jobs, After(s, now, op).jobs, id);
  }

  lemma HandOverFrame(jobs: JobBook, id: u64, newOwner: Address)
    requires id in jobs.specs
    ensures var jobs' := HandOver(jobs, id, newOwner);
            && jobs'.states == jobs.states && jobs'.nextId == jobs.nextId
            && jobs'.specs == jobs.specs[id := jobs.specs[id].(owner := newOwner)]
            && jobs'.pendingOwners == jobs.pendingOwners - {id}
  {
  }

  lemma OwnerOpsKeepJobsSound(s: Storage, now: u64, op: Op)
    requires Indexed(s.jobs) && JobsSound(s.jobs) && Step(s, now, op).Ok?
    requires op.Cancel? || op.ProposeOwner?
    ensures JobsSound(After(s, now, op).jobs)
  {
    hide Transfer, JobSound;
    match op
    case Cancel(_, id) => OneJobChanged(s.jobs, After(s, now, op).jobs, id);
    case ProposeOwner(_, _, _) =>
  }

  lemma StepKeepsJobsSound(s: Storage, now: u64, op: Op)
    requires Indexed(s.jobs) && JobsSound(s.jobs)
    ensures JobsSound(After(s, now, op).jobs)
  {
    hide JobsSound, Indexed, CreateJob, UpdateJob, FundJob, CancelJob, WithdrawJobBalance, SetJobActive,
      ProposeJobOwner, AcceptJobOwner, Execute, Stake, BeginUnbonding, ReleaseStake, Administer, MoveToken;
    if LeavesJobs(op) {
      JobsUntouched(s, now, op);
    } else if Step(s, now, op).Ok? {
      match op
      case Create(owner, params, deposit) => CreateKeepsJobsSound(s, now, owner, params, deposit);
      case Update(caller, id, update) => UpdateKeepsJobsSound(s, now, caller, id, update);
      case Run(keeper, id, answer) => RunKeepsJobsSound(s, now, keeper, id, answer);
      case Cancel(_, _) => OwnerOpsKeepJobsSound(s, now, op);
      case ProposeOwner(_, _, _) => OwnerOpsKeepJobsSound(s, now, op);
      case _ => EditKeepsJobsSound(s, now, op);
    }
  }

  // ------------------------------------------------------------------ one job across a transaction

  /** What no transaction but its own runs and updates changes about a job. */
  ghost predicate Undisturbed(jobs: JobBook, jobs': JobBook, id: u64)
    requires Exists(jobs, id) && Exists(jobs', id)
  {
    var state, state' := jobs.states[id], jobs'.states[id];
    && jobs'.specs[id] == jobs.specs[id].(owner := jobs'.specs[id].owner)
    && state' == state.(balance := state'.balance, active := state'.active, failures := state'.failures)
  }

  predicate IsUpdateOf(op: Op, id: u64) {
    op.Update? && op.id == id
  }

  lemma EditsLeaveJob(s: Storage, now: u64, op: Op, id: u64)
    requires op.Update? || op.Fund? || op.Withdraw? || op.SetActive?
    requires Exists(s.jobs, id) && Step(s, now, op).Ok?
    ensures Exists(After(s, now, op).jobs, id)
    ensures !IsUpdateOf(op, id) ==> Undisturbed(s.jobs, After(s, now, op).jobs, id)
    ensures After(s, now, op).jobs.states[id].runs == s.jobs.states[id].runs
    ensures After(s, now, op).jobs.states.Keys == s.jobs.states.Keys
    ensures After(s, now, op).jobs.specs[id].after == s.jobs.specs[id].after ==>
              After(s, now, op).jobs.states[id].leaderRuns == s.jobs.states[id].leaderRuns
  {
    hide Transfer, ValidateSchedule, LeaderRuns, Touch, UpdatedNextRun;
    match op
    case Update(_, _, _) =>
    case Fund(_, _, _) =>
    case Withdraw(_, _, _) =>
    case SetActive(_, _, _) =>
  }

  lemma OwnerOpsLeaveJob(s: Storage, now: u64, op: Op, id: u64)
    requires op.Create? || op.Cancel? || op.ProposeOwner? || op.AcceptOwner?
    requires Indexed(s.jobs) && Step(s, now, op).Ok?
    requires Exists(s.jobs, id) && Exists(After(s, now, op).jobs, id)
    ensures Undisturbed(s.jobs, After(s, now, op).jobs, id)
    ensures After(s, now, op).jobs.states.Keys
         == if op.Create? then s.jobs.states.Keys + {s.jobs.nextId}
            else if op.Cancel? then s.jobs.states.Keys - {op.id} else s.jobs.states.Keys
  {
    match op
    case Create(owner, params, deposit) =>
      CreateFrame(s, now, owner, params, deposit);
      hide CreateJob, NewSpec, NewState, ValidateJob;
    case Cancel(_, _) => hide Transfer, RemoveFirst;
    case ProposeOwner(_, _, _) =>
    case AcceptOwner(_, job) =>
      HandOverFrame(s.jobs, job, s.jobs.pendingOwners[job]);
      hide HandOver;
  }

  /** Everything but its own runs and updates leaves a job's settings, due time and counts alone. */
  lemma OthersLeaveJob(s: Storage, now: u64, op: Op, id: u64)
    requires Indexed(s.jobs) && !op.Run?
    requires Exists(s.jobs, id) && Exists(After(s, now, op).jobs, id)
    ensures !IsUpdateOf(op, id) ==> Undisturbed(s.jobs, After(s, now, op).jobs, id)
    ensures After(s, now, op).jobs.states[id].runs == s.jobs.states[id].runs
    ensures After(s, now, op).jobs.specs[id].after == s.jobs.specs[id].after ==>
              After(s, now, op).jobs.states[id].leaderRuns == s.jobs.states[id].leaderRuns
    ensures After(s, now, op).jobs.states.Keys <= s.jobs.states.Keys + {s.jobs.nextId}
  {
    hide Step, Indexed;
    if LeavesJobs(op) {
      JobsUntouched(s, now, op);
    } else if Step(s, now, op).Ok? {
      match op
      case Create(_, _, _) => OwnerOpsLeaveJob(s, now, op, id);
      case Cancel(_, _) => OwnerOpsLeaveJob(s, now, op, id);
      case ProposeOwner(_, _, _) => OwnerOpsLeaveJob(s, now, op, id);
      case AcceptOwner(_, _) => OwnerOpsLeaveJob(s, now, op, id);
      case _ => EditsLeaveJob(s, now, op, id);
    }
  }

  lemma CancelGone(s: Storage, now: u64, op: Op)
    requires op.Cancel? && Step(s, now, op).Ok?
    ensures After(s, now, op).jobs.states == s.jobs.states - {op.id}
    ensures After(s, now, op).jobs.nextId == s.jobs.nextId
    ensures After(s, now, op).jobs.specs == s.jobs.specs - {op.id}
  {
    hide Transfer, RemoveFirst;
  }

  // ------------------------------------------------------------------ recent misses

  /** The scaled share of misses never exceeds 100% in basis points. */
  ghost predicate MissesSound(staff: KeeperBook) {
    forall k :: k in staff.recents ==> staff.recents[k].misses <= 8 * MAX_BPS_SCALE
  }

  lemma StepKeepsMissesSound(s: Storage, now: u64, op: Op)
    requires MissesSound(s.staff)
    ensures MissesSound(After(s, now, op).staff)
    ensures forall k :: Recent(After(s, now, op).staff, k).misses / 8 <= MAX_BPS_SCALE
  {
    hide MayRun, NextState, RunEvents, Settle, Transfer, Missed, AddFee, FeeOf;
    if LeavesStaff(op) {
      StaffUntouched(s, now, op);
    } else if Step(s, now, op).Ok? {
      match op
      case Run(keeper, id, answer) =>
      case AddStake(_, _) =>
      case Unbond(_) =>
      case Release(_) =>
      case RunNothing(keeper) => RewrittenReadsTheSame(s, keeper);
    }
  }
}
