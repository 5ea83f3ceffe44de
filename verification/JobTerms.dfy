/** What a job's owner asks for is what is stored, and what every later run keeps to. */
module JobTerms {
  import opened Basics
  import opened Types
  import opened Schedules
  import opened Token
  import opened RegistrySpec
  import opened Footprints
  import opened Bookkeeping
  import opened JobFacts
  import opened Solvency
  import opened Histories
  import opened RunCounts
  import opened RunRules

  // ------------------------------------------------------------------ what is stored

  /** `t` is the first time from `start` on that suits the schedule, cut off at u64::MAX. */
  ghost predicate FirstOnSchedule(schedule: Schedule, start: int, t: u64) {
    && start <= t
    && (schedule.Interval? ==> t == start)
    && (t < U64_MAX ==> WallClockMatches(schedule, t))
    && (!schedule.Interval? ==> forall u :: start <= u < t ==> !WallClockMatches(schedule, u))
  }

  /** The interval of a schedule: what was asked for, a day or a week. */
  predicate IntervalOf(schedule: Schedule, asked: u64, interval: u64) {
    match schedule
    case Interval => interval == asked
    case Daily(_, _) => interval == 86_400
    case Weekly(_, _, _) => interval == 604_800
  }

  /** Leader runs are counted from now on. */
  ghost predicate CountsFromNow(jobs: JobBook, after: Option<u64>, leaderRuns: u32) {
    match after
    case None => leaderRuns == 0
    case Some(leader) => leader in jobs.states && leaderRuns == jobs.states[leader].runs
  }

  /** No job but `id` changed. */
  ghost predicate OtherJobsKept(jobs: JobBook, jobs': JobBook, id: u64) {
    && jobs'.specs - {id} == jobs.specs - {id}
    && jobs'.states - {id} == jobs.states - {id}
  }

  /** The job book after a creation, field by field. */
  ghost predicate CreatesAsAsked(jobs: JobBook, jobs': JobBook, now: u64, owner: Address, params: JobParams,
                                 deposit: int)
  {
    var id := jobs.nextId;
    && Exists(jobs', id) && jobs'.nextId == id + 1 && OtherJobsKept(jobs, jobs', id)
    && var spec, state := jobs'.specs[id], jobs'.states[id];
       && spec.owner == owner
       && spec.target == params.target && spec.function_ == params.function_ && spec.args == params.args
       && spec.schedule == params.schedule
       && IntervalOf(params.schedule, params.interval, spec.interval)
       && spec.feePerRun == params.feePerRun && spec.maxFeePerRun == params.maxFeePerRun
       && spec.maxRuns == params.maxRuns && spec.endAt == params.endAt
       && spec.resolver == params.resolver && spec.keepers == params.keepers && spec.after == params.after
       && state.balance == deposit && state.runs == 0 && state.failures == 0 && state.active
       && params.startAt <= state.nextRun && now <= state.nextRun
       && FirstOnSchedule(params.schedule, Max(params.startAt, now), state.nextRun)
       && CountsFromNow(jobs, params.after, state.leaderRuns)
  }

  /** An accepted creation stores each of the caller's terms under the next id. */
  lemma CreatedAsAsked(s: Storage, now: u64, owner: Address, params: JobParams, deposit: i128)
    requires CreateJob(s, now, owner, params, deposit).Ok?
    ensures CreatesAsAsked(s.jobs, CreateJob(s, now, owner, params, deposit).value.jobs, now, owner, params, deposit)
  {
    CreateFrame(s, now, owner, params, deposit);
    hide CreateJob, FirstCalendarRun, WallClockMatches;
    ValidJobFacts(s, params, deposit);
    FirstRunIsLeastMatch(params.schedule, Max(params.startAt, now));
    FirstRunOfInterval(params.schedule, Max(params.startAt, now));
    hide ValidateJob;
  }

  lemma FirstRunOfInterval(schedule: Schedule, from: u64)
    ensures schedule.Interval? ==> FirstCalendarRun(schedule, from) == from
  {
  }

  lemma ValidJobFacts(s: Storage, params: JobParams, deposit: i128)
    requires ValidateJob(s, params, deposit).Ok?
    ensures IsValid(params.schedule)
    ensures params.after.Some? ==> params.after.value in s.jobs.states
  {
    hide IsForbiddenTarget, ValidateSchedule;
    ValidScheduleFacts(s.config, params.interval, params.schedule, |params.args|,
                       params.feePerRun, params.maxFeePerRun, params.keepers);
  }

  /** The job book after an update, field by field. */
  ghost predicate UpdatesAsAsked(jobs: JobBook, jobs': JobBook, now: u64, id: u64, update: JobUpdate) {
    && Exists(jobs, id) && Exists(jobs', id) && OtherJobsKept(jobs, jobs', id)
    && var spec, state, spec0, state0 := jobs'.specs[id], jobs'.states[id], jobs.specs[id], jobs.states[id];
       && spec.owner == spec0.owner && spec.target == spec0.target
       && spec.function_ == update.function_ && spec.args == update.args
       && spec.schedule == update.schedule
       && IntervalOf(update.schedule, update.interval, spec.interval)
       && spec.feePerRun == update.feePerRun && spec.maxFeePerRun == update.maxFeePerRun
       && spec.maxRuns == update.maxRuns && spec.endAt == update.endAt
       && spec.resolver == update.resolver && spec.keepers == update.keepers && spec.after == update.after
       && state.balance == state0.balance && state.runs == state0.runs
       && state.failures == state0.failures && state.active == state0.active
       && (if update.schedule.Interval? || update.schedule == spec0.schedule
           then state.nextRun == state0.nextRun
           else FirstOnSchedule(update.schedule, now, state.nextRun))
       && (if update.after == spec0.after then state.leaderRuns == state0.leaderRuns
           else CountsFromNow(jobs, update.after, state.leaderRuns) && update.after != Some(id))
  }

  /** An accepted update stores the new terms and keeps everything else about the job. */
  lemma UpdatedAsAsked(s: Storage, now: u64, caller: Address, id: u64, update: JobUpdate)
    requires UpdateJob(s, now, caller, id, update).Ok?
    ensures UpdatesAsAsked(s.jobs, UpdateJob(s, now, caller, id, update).value.jobs, now, id, update)
  {
    hide ValidateSchedule, FirstCalendarRun, WallClockMatches, Touch;
    ValidScheduleFacts(s.config, update.interval, update.schedule, |update.args|,
                       update.feePerRun, update.maxFeePerRun, update.keepers);
    FirstRunIsLeastMatch(update.schedule, now);
  }

  // ------------------------------------------------------------------ what is accepted

  /** Terms the registry takes: a positive interval or a real wall-clock time, and sane limits. */
  predicate GoodTerms(config: Config, interval: u64, schedule: Schedule, argsLen: nat, fee: i128, maxFee: i128,
                      keepers: Option<seq<Address>>)
  {
    && (match schedule
        case Interval => 0 < interval && config.minInterval <= interval
        case Daily(hour, minute) => interval == 0 && hour < 24 && minute < 60 && config.minInterval <= 86_400
        case Weekly(weekday, hour, minute) =>
          interval == 0 && weekday < 7 && hour < 24 && minute < 60 && config.minInterval <= 604_800)
    && (config.maxArgs == 0 || argsLen <= config.maxArgs)
    && 0 < fee && (maxFee == 0 || fee <= maxFee)
    && (keepers.Some? ==> |keepers.value| <= 10)
  }

  lemma GoodTermsIff(config: Config, interval: u64, schedule: Schedule, argsLen: nat, fee: i128, maxFee: i128,
                     keepers: Option<seq<Address>>)
    ensures ValidateSchedule(config, interval, schedule, argsLen, fee, maxFee, keepers).Ok?
       <==> GoodTerms(config, interval, schedule, argsLen, fee, maxFee, keepers)
  {
  }

  /** A job is created exactly when all of this holds. */
  lemma CreateAcceptedIff(s: Storage, now: u64, owner: Address, params: JobParams, deposit: i128)
    ensures CreateJob(s, now, owner, params, deposit).Ok? <==>
              && !s.config.paused && owner != s.contract
              && GoodTerms(s.config, params.interval, params.schedule, |params.args|, params.feePerRun,
                           params.maxFeePerRun, params.keepers)
              && params.feePerRun <= deposit <= BalanceOf(s.ledger, s.config.feeToken, owner)
              && params.target !in {s.contract, s.config.feeToken, s.config.stakeToken}
              && s.config.executor != Some(params.target)
              && (params.after.Some? ==> params.after.value in s.jobs.states)
              && s.jobs.nextId < U64_MAX
  {
    GoodTermsIff(s.config, params.interval, params.schedule, |params.args|, params.feePerRun, params.maxFeePerRun,
                 params.keepers);
    TransferMoves(s.ledger, s.config.feeToken, owner, s.contract, deposit);
    hide ValidateSchedule, GoodTerms, Transfer, BalanceOf, NewSpec, NewState;
  }

  /** A job is updated exactly when all of this holds. */
  lemma UpdateAcceptedIff(s: Storage, now: u64, caller: Address, id: u64, update: JobUpdate)
    ensures UpdateJob(s, now, caller, id, update).Ok? <==>
              && !s.config.paused && Exists(s.jobs, id)
              && caller == s.jobs.specs[id].owner && caller != s.contract
              && GoodTerms(s.config, update.interval, update.schedule, |update.args|, update.feePerRun,
                           update.maxFeePerRun, update.keepers)
              && (update.after.None? || update.after == s.jobs.specs[id].after
                  || (update.after.value != id && update.after.value in s.jobs.states))
  {
    GoodTermsIff(s.config, update.interval, update.schedule, |update.args|, update.feePerRun, update.maxFeePerRun,
                 update.keepers);
    hide ValidateSchedule, GoodTerms, UpdatedSpec, UpdatedNextRun;
  }

  /** The term that a refusal complains about. */
  predicate TermsLack(config: Config, interval: u64, schedule: Schedule, argsLen: nat, fee: i128, maxFee: i128,
                      keepers: Option<seq<Address>>, error: Error)
  {
    match error
    case InvalidInterval => schedule.Interval? && interval == 0
    case InvalidCalendar => !schedule.Interval? && (interval != 0 || !IsValid(schedule))
    case IntervalTooShort =>
      (match schedule case Interval => interval case Daily(_, _) => 86_400 case Weekly(_, _, _) => 604_800)
      < config.minInterval
    case TooManyArgs => 0 < config.maxArgs < argsLen
    case InvalidFee => fee <= 0
    case InvalidSetting => maxFee != 0 && maxFee < fee
    case TooManyKeepers => keepers.Some? && 10 < |keepers.value|
    case _ => false
  }

  lemma TermsRefusalIsTrue(config: Config, interval: u64, schedule: Schedule, argsLen: nat, fee: i128, maxFee: i128,
                           keepers: Option<seq<Address>>)
    ensures var r := ValidateSchedule(config, interval, schedule, argsLen, fee, maxFee, keepers);
            r.Err? ==> TermsLack(config, interval, schedule, argsLen, fee, maxFee, keepers, r.error)
  {
  }

  /** A refused creation is told a true reason. */
  lemma CreateRefusalIsTrue(s: Storage, now: u64, owner: Address, params: JobParams, deposit: i128)
    ensures var r := CreateJob(s, now, owner, params, deposit);
            r.Err? ==>
              || TermsLack(s.config, params.interval, params.schedule, |params.args|, params.feePerRun,
                           params.maxFeePerRun, params.keepers, r.error)
              || (r.error.Paused? && s.config.paused)
              || (r.error.InvalidAmount? && deposit < params.feePerRun)
              || (r.error.ForbiddenTarget?
                  && (params.target in {s.contract, s.config.feeToken, s.config.stakeToken}
                      || s.config.executor == Some(params.target)))
              || (r.error.JobNotFound? && params.after.Some? && params.after.value !in s.jobs.states)
              || (r.error.HostPanic?
                  && (owner == s.contract || s.jobs.nextId == U64_MAX
                      || !(0 <= deposit <= BalanceOf(s.ledger, s.config.feeToken, owner))))
  {
    TermsRefusalIsTrue(s.config, params.interval, params.schedule, |params.args|, params.feePerRun,
                       params.maxFeePerRun, params.keepers);
    hide ValidateSchedule, TermsLack, BalanceOf, NewSpec, NewState, AddOwnerJob;
  }

  /** A refused update is told a true reason. */
  lemma UpdateRefusalIsTrue(s: Storage, now: u64, caller: Address, id: u64, update: JobUpdate)
    ensures var r := UpdateJob(s, now, caller, id, update);
            r.Err? ==>
              || TermsLack(s.config, update.interval, update.schedule, |update.args|, update.feePerRun,
                           update.maxFeePerRun, update.keepers, r.error)
              || (r.error.Paused? && s.config.paused)
              || (r.error.JobNotFound?
                  && (!Exists(s.jobs, id) || (update.after.Some? && update.after.value !in s.jobs.states)))
              || (r.error.HostPanic? && Exists(s.jobs, id)
                  && (caller != s.jobs.specs[id].owner || caller == s.contract))
              || (r.error.AwaitingDependency? && update.after == Some(id))
  {
    TermsRefusalIsTrue(s.config, update.interval, update.schedule, |update.args|, update.feePerRun,
                       update.maxFeePerRun, update.keepers);
    hide ValidateSchedule, TermsLack, UpdatedSpec, UpdatedNextRun;
  }

  // ------------------------------------------------------------------ terms over time

  /** Until it is updated, a job's terms stay what they were; only its owner can change. */
  lemma {:induction false} TermsStand(h: seq<Moment>, i: nat, n: nat, id: u64)
    requires i <= n < |h| && LeftAlone(h, i, n, id)
    requires IsHistory(h)
    ensures h[n].after.jobs.specs[id] == h[i].after.jobs.specs[id].(owner := h[n].after.jobs.specs[id].owner)
    ensures h[i].after.jobs.states[id].nextRun <= h[n].after.jobs.states[id].nextRun
    decreases n - i
  {
    hide After, Deployed, NextRunAfter, Indexed, JobsSound, Solvent, RotationSound, MissesSound;
    if i < n {
      TermsStand(h, i, n - 1, id);
      ReachableIsSound(h, n - 1);
      StepKeepsTerms(h[n - 1].after, h[n].at, h[n].op.value, id);
    }
  }

  lemma StepKeepsTerms(s: Storage, now: u64, op: Op, id: u64)
    requires Indexed(s.jobs) && JobsSound(s.jobs) && Exists(s.jobs, id) && Exists(After(s, now, op).jobs, id)
    requires !(op.Update? && op.id == id)
    ensures var jobs' := After(s, now, op).jobs;
            && jobs'.specs[id] == s.jobs.specs[id].(owner := jobs'.specs[id].owner)
            && s.jobs.states[id].nextRun <= jobs'.states[id].nextRun
  {
    hide Indexed, JobsSound, MayRun, RunEvents, Settle, FeeOf, GivesUp, Execute, NextRunAfter, Step;
    StepKeepsGrid(s, now, op, id);
    NextRunOnGrid(s.jobs.states[id].nextRun, s.jobs.specs[id].interval, now);
    if op.Run? {
      StepIsExecute(s, now, op);
      if Step(s, now, op).Ok? {
        ExecuteEffect(s, now, op.keeper, op.id, op.answer);
      }
    } else {
      OthersLeaveJob(s, now, op, id);
    }
  }
}
