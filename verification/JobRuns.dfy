/** What a run does to its job: its counters, when it pauses itself, and the terms it keeps to. */
module JobRuns {
  import opened Basics
  import opened Types
  import opened Schedules
  import opened Token
  import opened RegistrySpec
  import opened Footprints
  import opened Bookkeeping
  import opened JobFacts
  import opened Solvency
  import opened Histories
  import opened RunCounts
  import opened RunRules
  import opened JobTerms

  // ------------------------------------------------------------------ one run

  /**
   * What an accepted run leaves of its job: one more run, the fee gone, a
   * failure counted or the count cleared, the job paused when that makes too
   * many in a row, and the leader's runs noted.
   */
  lemma RunLeaves(s: Storage, now: u64, keeper: Address, id: u64, answer: Answer, s': Storage)
    requires Exists(s.jobs, id) && Execute(s, now, keeper, id, answer) == Ok(s')
    requires Indexed(s.jobs) && JobsSound(s.jobs) && Solvent(s)
    ensures Exists(s'.jobs, id) && OtherJobsKept(s.jobs, s'.jobs, id) && s'.jobs.specs[id] == s.jobs.specs[id]
    ensures var spec, was, became := s.jobs.specs[id], s.jobs.states[id], s'.jobs.states[id];
            && became.runs == Min(U32_MAX, was.runs + 1)
            && became.failures == (if answer.targetSucceeds then 0 else Min(U32_MAX, was.failures + 1))
            && (became.active <==>
                  answer.targetSucceeds || s.config.maxFailures == 0 || became.failures < s.config.maxFailures)
            && spec.feePerRun <= was.balance - became.balance <= Max(spec.feePerRun, spec.maxFeePerRun)
            && (match spec.after case None => became.leaderRuns == was.leaderRuns
                case Some(leader) => leader in s.jobs.states && became.leaderRuns == s.jobs.states[leader].runs)
  {
    hide Execute, MayRun, RunEvents, Settle, JobsSound, Indexed, RampedFee, NextState, Missed, Solvent, NextRunAfter,
      SplitFee, GivesUp;
    ExecuteEffect(s, now, keeper, id, answer);
    MayRunFacts(s, now, keeper, id, answer);
    FeeOfRun(s, now, keeper, id, answer);
    StateOfRun(s, now, id, MayRun(s, now, keeper, id, answer).value, answer);
  }

  /** What the events of an accepted run tell is what happened. */
  lemma RunTells(s: Storage, now: u64, keeper: Address, id: u64, answer: Answer, s': Storage)
    requires Exists(s.jobs, id) && Execute(s, now, keeper, id, answer) == Ok(s')
    requires Indexed(s.jobs) && JobsSound(s.jobs) && Solvent(s)
    ensures s.log < s'.log && Exists(s'.jobs, id)
    ensures var events, was, became := s'.log[|s.log|..], s.jobs.states[id], s'.jobs.states[id];
            && (JobDeactivated(id) in events <==> !became.active)
            && (JobExhausted(id, became.balance) in events <==> became.balance < s.jobs.specs[id].feePerRun)
    ensures var was, became := s.jobs.states[id], s'.jobs.states[id];
            var fee := was.balance - became.balance;
            s'.log[|s'.log| - 1]
            == JobExecuted(id, keeper, answer.targetSucceeds, fee, fee * s.config.protocolFeeBps / 10_000,
                           became.runs, became.nextRun, now - was.nextRun, became.failures)
  {
    hide Execute, MayRun, RunEvents, Settle, JobsSound, Indexed, RampedFee, NextState, Missed, Solvent, NextRunAfter,
      SplitFee, GivesUp;
    ExecuteEffect(s, now, keeper, id, answer);
    MayRunFacts(s, now, keeper, id, answer);
    var leaderRuns := MayRun(s, now, keeper, id, answer).value;
    FeeOfRun(s, now, keeper, id, answer);
    StateOfRun(s, now, id, leaderRuns, answer);
    EventsOfRun(s, now, keeper, id, leaderRuns, answer);
    assert s'.log[|s.log|..] == RunEvents(s, now, keeper, id, leaderRuns, answer);
  }

  lemma FeeOfRun(s: Storage, now: u64, keeper: Address, id: u64, answer: Answer)
    requires Indexed(s.jobs) && JobsSound(s.jobs) && Solvent(s) && MayRun(s, now, keeper, id, answer).Ok?
    ensures var spec, fee := s.jobs.specs[id], FeeOf(s.jobs, now, id);
            && spec.feePerRun <= fee <= Max(spec.feePerRun, spec.maxFeePerRun)
            && SplitFee(fee, s.config.protocolFeeBps).1 == fee * s.config.protocolFeeBps / 10_000
  {
    hide MayRun, Indexed, JobsSound, RampedFee, OnCalendar, LeaderSound, SplitFee;
    MayRunFacts(s, now, keeper, id, answer);
    JobsSoundAt(s.jobs, id);
    RampedFeeBounds(s.jobs.specs[id], s.jobs.states[id], now);
    SplitIsExactFloor(FeeOf(s.jobs, now, id), s.config.protocolFeeBps);
  }

  lemma WasActive(s: Storage, now: u64, keeper: Address, id: u64, answer: Answer)
    requires Exists(s.jobs, id) && MayRun(s, now, keeper, id, answer).Ok?
    ensures s.jobs.states[id].active
  {
    hide OtherAssigned, DependencyMet, IsForbiddenTarget;
  }

  lemma StateOfRun(s: Storage, now: u64, id: u64, leaderRuns: u32, answer: Answer)
    requires Exists(s.jobs, id) && s.jobs.states[id].active
    ensures var was, became := s.jobs.states[id], NextState(s, now, id, leaderRuns, answer);
            && became.runs == Min(U32_MAX, was.runs + 1)
            && became.failures == (if answer.targetSucceeds then 0 else Min(U32_MAX, was.failures + 1))
            && became.active == !(!answer.targetSucceeds && 0 < s.config.maxFailures <= became.failures)
            && became.balance == was.balance - FeeOf(s.jobs, now, id)
            && became.leaderRuns == leaderRuns
  {
    hide FeeOf, NextRunAfter;
  }

  lemma EventsOfRun(s: Storage, now: u64, keeper: Address, id: u64, leaderRuns: u32, answer: Answer)
    requires Exists(s.jobs, id) && s.jobs.states[id].nextRun <= now
    ensures var events, became := RunEvents(s, now, keeper, id, leaderRuns, answer),
                                  NextState(s, now, id, leaderRuns, answer);
            var fee := FeeOf(s.jobs, now, id);
            && events != []
            && (JobDeactivated(id) in events
                <==> !answer.targetSucceeds && 0 < s.config.maxFailures <= became.failures)
            && (JobExhausted(id, became.balance) in events <==> became.balance < s.jobs.specs[id].feePerRun)
            && events[|events| - 1]
               == JobExecuted(id, keeper, answer.targetSucceeds, fee, SplitFee(fee, s.config.protocolFeeBps).1,
                              became.runs, became.nextRun, now - s.jobs.states[id].nextRun, became.failures)
  {
    hide FeeOf, NextState, SplitFee, Missed;
  }

  // ------------------------------------------------------------------ leaders

  /** A leader's run frees every follower of it, however far behind - up to the last run the count can hold. */
  lemma LeaderRunFreesFollowers(s: Storage, now: u64, keeper: Address, leader: u64, answer: Answer, id: u64,
                                s': Storage)
    requires Exists(s.jobs, leader) && Exists(s.jobs, id) && s.jobs.specs[id].after == Some(leader)
    requires Execute(s, now, keeper, leader, answer) == Ok(s')
    requires Indexed(s.jobs) && JobsSound(s.jobs) && Solvent(s)
    ensures Exists(s'.jobs, id)
    ensures LeaderHasRun(s'.jobs, id) <==> s.jobs.states[id].leaderRuns < U32_MAX
  {
    hide Execute, Indexed, JobsSound, Solvent, OnCalendar;
    JobsSoundAt(s.jobs, id);
    RunLeaves(s, now, keeper, leader, answer, s');
    KeptOther(s.jobs, s'.jobs, leader, id);
  }

  /** A follower's run uses that up: it waits again until its leader's next run. */
  lemma FollowerWaitsAgain(s: Storage, now: u64, keeper: Address, id: u64, answer: Answer, s': Storage)
    requires Exists(s.jobs, id) && s.jobs.specs[id].after.Some? && Execute(s, now, keeper, id, answer) == Ok(s')
    requires Indexed(s.jobs) && JobsSound(s.jobs) && Solvent(s)
    ensures Exists(s'.jobs, id) && !LeaderHasRun(s'.jobs, id)
  {
    hide Execute, Indexed, JobsSound, Solvent;
    RunLeaves(s, now, keeper, id, answer, s');
    JobsSoundAt(s.jobs, id);
    KeptOther(s.jobs, s'.jobs, id, s.jobs.specs[id].after.value);
  }

  // ------------------------------------------------------------------ run counts over histories

  /** A job's run count is the number of its runs published, at the width it is stored in. */
  ghost predicate Counted(s: Storage) {
    && (forall id :: id in s.jobs.states ==> s.jobs.states[id].runs == Min(U32_MAX, RunsIn(s.log, id)))
    && (forall id: u64 :: s.jobs.nextId <= id ==> RunsIn(s.log, id) == 0)
  }

  lemma {:induction false} RunsAreCounted(h: seq<Moment>, n: nat)
    requires n < |h| && IsHistory(h)
    ensures Counted(h[n].after)
  {
    if n == 0 {
      assert Deployed(h[0].after);
    } else {
      hide After, Deployed, Counted, Sound;
      RunsAreCounted(h, n - 1);
      ReachableIsSound(h, n - 1);
      StepCounts(h[n - 1].after, h[n].at, h[n].op.value);
    }
  }

  lemma StepCounts(s: Storage, now: u64, op: Op)
    requires Counted(s) && Sound(s)
    ensures Counted(After(s, now, op))
  {
    hide After, Indexed, JobsSound, Solvent, RunsIn, RunsAdded;
    forall id: u64
      ensures id in After(s, now, op).jobs.states ==>
                After(s, now, op).jobs.states[id].runs == Min(U32_MAX, RunsIn(After(s, now, op).log, id))
      ensures After(s, now, op).jobs.nextId <= id ==> RunsIn(After(s, now, op).log, id) == 0
    {
      StepCountsRuns(s, now, op, id);
      StepRaisesRuns(s, now, op, id);
      ZeroOrOne(s, now, op, id);
    }
  }

  /** Only a creation makes a job appear, under the next id. */
  lemma OnlyCreationsAppear(s: Storage, now: u64, op: Op)
    requires Indexed(s.jobs) && !op.Create?
    ensures After(s, now, op).jobs.states.Keys <= s.jobs.states.Keys
    ensures After(s, now, op).jobs.specs.Keys <= s.jobs.specs.Keys
    ensures After(s, now, op).jobs.nextId == s.jobs.nextId
  {
    hide Transfer, Execute, ValidateSchedule, LeaderRuns, AddOwnerJob, RemoveOwnerJob, Touch, UpdatedNextRun, MayRun,
      NextState, RunEvents, Settle;
    if LeavesJobs(op) {
      JobsUntouched(s, now, op);
    } else if Step(s, now, op).Ok? {
      match op
      case Run(keeper, job, answer) => ExecuteEffect(s, now, keeper, job, answer);
      case AcceptOwner(_, job) => hide HandOver; HandOverFrame(s.jobs, job, s.jobs.pendingOwners[job]);
      case Cancel(_, _) => CancelGone(s, now, op);
      case Update(_, _, _) =>
      case Fund(_, _, _) =>
      case Withdraw(_, _, _) =>
      case SetActive(_, _, _) =>
      case ProposeOwner(_, _, _) =>
    }
  }

  /** One transaction against one job's run count; a job that appears has not run. */
  lemma StepRaisesRuns(s: Storage, now: u64, op: Op, id: u64)
    requires Sound(s)
    ensures s.jobs.nextId <= After(s, now, op).jobs.nextId
    ensures s.jobs.nextId <= id ==> RunsAdded(s, now, op, id) == 0
    ensures id in After(s, now, op).jobs.states ==>
              After(s, now, op).jobs.states[id].runs
              == if id in s.jobs.states then Min(U32_MAX, s.jobs.states[id].runs + RunsAdded(s, now, op, id)) else 0
    ensures id in After(s, now, op).jobs.states && id !in s.jobs.states ==> s.jobs.nextId <= id
  {
    hide JobsSound, Solvent, Step, Execute, Indexed;
    StepKeepsIndex(s, now, op);
    SameHalves(s.jobs);
    SameHalves(After(s, now, op).jobs);
    if op.Create? {
      CreationCounts(s, now, op, id);
    } else {
      OnlyCreationsAppear(s, now, op);
      if op.Run? {
        StepIsExecute(s, now, op);
        if Step(s, now, op).Ok? {
          RunNeedsJob(s, now, op.keeper, op.id, op.answer);
          RunLeaves(s, now, op.keeper, op.id, op.answer, After(s, now, op));
          if id != op.id {
            KeptOther(s.jobs, After(s, now, op).jobs, op.id, id);
          }
        }
      } else if Exists(s.jobs, id) && Exists(After(s, now, op).jobs, id) {
        OthersLeaveJob(s, now, op, id);
      }
    }
  }

  lemma RunNeedsJob(s: Storage, now: u64, keeper: Address, id: u64, answer: Answer)
    requires Execute(s, now, keeper, id, answer).Ok?
    ensures Exists(s.jobs, id)
  {
    hide Execute, MayRun;
    ExecuteEffect(s, now, keeper, id, answer);
  }

  lemma SameHalves(jobs: JobBook)
    requires Indexed(jobs)
    ensures forall id :: id in jobs.states <==> Exists(jobs, id)
    ensures forall id :: id in jobs.states ==> id < jobs.nextId
  {
  }

  lemma KeptOther(jobs: JobBook, jobs': JobBook, id: u64, other: u64)
    requires OtherJobsKept(jobs, jobs', id) && other != id
    ensures other in jobs.states <==> other in jobs'.states
    ensures other in jobs.states ==> jobs'.states[other] == jobs.states[other]
    ensures other in jobs.specs <==> other in jobs'.specs
    ensures other in jobs.specs ==> jobs'.specs[other] == jobs.specs[other]
  {
    assert other in jobs.states <==> other in jobs.states - {id};
    assert other in jobs.specs <==> other in jobs.specs - {id};
    assert other in jobs'.states - {id} ==> (jobs'.states - {id})[other] == jobs'.states[other];
    assert other in jobs'.specs - {id} ==> (jobs'.specs - {id})[other] == jobs'.specs[other];
  }

  lemma CreationCounts(s: Storage, now: u64, op: Op, id: u64)
    requires op.Create? && Indexed(s.jobs)
    ensures s.jobs.nextId <= After(s, now, op).jobs.nextId
    ensures id in After(s, now, op).jobs.states ==>
              After(s, now, op).jobs.states[id].runs == if id in s.jobs.states then s.jobs.states[id].runs else 0
    ensures id in After(s, now, op).jobs.states && id !in s.jobs.states ==> s.jobs.nextId <= id
  {
    hide CreateJob;
    if CreateJob(s, now, op.owner, op.params, op.deposit).Ok? {
      CreatedAsAsked(s, now, op.owner, op.params, op.deposit);
      if id != s.jobs.nextId {
        KeptOther(s.jobs, After(s, now, op).jobs, s.jobs.nextId, id);
      }
    }
  }

  // ------------------------------------------------------------------ the terms a run keeps to

  /** What an accepted run of job `id` keeps to, given the job's terms and the time it was first due. */
  ghost predicate KeepsTo(spec: JobSpec, due: u64, s: Storage, now: u64, keeper: Address, id: u64, answer: Answer,
                          s': Storage)
    requires Exists(s.jobs, id) && Exists(s'.jobs, id)
  {
    var called, paid := s.jobs.specs[id], s.jobs.states[id].balance - s'.jobs.states[id].balance;
    && called.target == spec.target && called.function_ == spec.function_ && called.args == spec.args
    && due <= now
    && (spec.endAt != 0 ==> now < spec.endAt)
    && (spec.maxRuns != 0 ==> RunsIn(s'.log, id) <= spec.maxRuns)
    && (spec.resolver.Some? ==> answer.resolverAllows)
    && (spec.keepers.Some? ==> keeper in spec.keepers.value)
    && (spec.after.Some? ==> spec.after.value in s.jobs.states)
    && spec.feePerRun <= paid <= Max(spec.feePerRun, spec.maxFeePerRun)
  }

  /** The run made at moment `n + 1`. */
  ghost predicate RunsNext(h: seq<Moment>, n: nat, keeper: Address, id: u64, answer: Answer) {
    && n < |h| - 1 && h[n + 1].op == Some(Run(keeper, id, answer))
    && Execute(h[n].after, h[n + 1].at, keeper, id, answer) == Ok(h[n + 1].after)
  }

  /** Over any history without updates of the job, an accepted run keeps to the terms stored at any moment before. */
  lemma TermsAreKept(h: seq<Moment>, i: nat, n: nat, keeper: Address, id: u64, answer: Answer)
    requires i <= n < |h| - 1 && LeftAlone(h, i, n, id) && RunsNext(h, n, keeper, id, answer)
    requires IsHistory(h)
    ensures Exists(h[n + 1].after.jobs, id)
    ensures KeepsTo(h[i].after.jobs.specs[id], h[i].after.jobs.states[id].nextRun,
                    h[n].after, h[n + 1].at, keeper, id, answer, h[n + 1].after)
  {
    hide IsHistory, Execute, Indexed, JobsSound, Solvent, RunsIn, HeldByAnother, MayServe, InWindow, LeaderHasRun;
    var s, now, s' := h[n].after, h[n + 1].at, h[n + 1].after;
    TermsStand(h, i, n, id);
    ReachableIsSound(h, n);
    RunAcceptedIff(s, now, keeper, id, answer);
    RunLeaves(s, now, keeper, id, answer, s');
    RunsStayBelow(h, n, keeper, id, answer);
  }

  lemma RunsStayBelow(h: seq<Moment>, n: nat, keeper: Address, id: u64, answer: Answer)
    requires n < |h| - 1 && RunsNext(h, n, keeper, id, answer) && Exists(h[n].after.jobs, id)
    requires IsHistory(h)
    ensures var limit := h[n].after.jobs.specs[id].maxRuns;
            limit != 0 ==> RunsIn(h[n + 1].after.log, id) <= limit
  {
    hide IsHistory, Execute, Indexed, JobsSound, Solvent, RunsIn, HeldByAnother, MayServe, InWindow, LeaderHasRun;
    var s, now, op := h[n].after, h[n + 1].at, Run(keeper, id, answer);
    ReachableIsSound(h, n);
    RunsAreCounted(h, n);
    RunAcceptedIff(s, now, keeper, id, answer);
    StepIsExecute(s, now, op);
    StepCountsRuns(s, now, op, id);
    ZeroOrOne(s, now, op, id);
  }

  /** Until the first update, every accepted run keeps to what the creator asked for; none comes before `startAt`. */
  lemma CreatorsTermsHold(h: seq<Moment>, i: nat, n: nat, owner: Address, params: JobParams, deposit: i128,
                          keeper: Address, id: u64, answer: Answer)
    requires 0 < i <= n < |h| - 1 && h[i].op == Some(Create(owner, params, deposit))
    requires CreateJob(h[i - 1].after, h[i].at, owner, params, deposit).Ok? && id == h[i - 1].after.jobs.nextId
    requires LeftAlone(h, i, n, id) && RunsNext(h, n, keeper, id, answer)
    requires IsHistory(h)
    ensures Exists(h[n + 1].after.jobs, id)
    ensures KeepsTo(JobSpec(owner, params.target, params.function_, params.args, params.interval, params.schedule,
                            params.feePerRun, params.maxFeePerRun, params.maxRuns, params.endAt, params.resolver,
                            params.keepers, params.after),
                    Max(params.startAt, h[i].at), h[n].after, h[n + 1].at, keeper, id, answer, h[n + 1].after)
  {
    assert h[i].after == CreateJob(h[i - 1].after, h[i].at, owner, params, deposit).value;
    hide IsHistory, CreateJob, Execute, LeftAlone, RunsIn, FirstOnSchedule;
    CreatedAsAsked(h[i - 1].after, h[i].at, owner, params, deposit);
    TermsAreKept(h, i, n, keeper, id, answer);
  }

  /** After an accepted update, and until the next one, every accepted run keeps to what the update asked for. */
  lemma UpdatersTermsHold(h: seq<Moment>, i: nat, n: nat, caller: Address, update: JobUpdate, keeper: Address, id: u64,
                          answer: Answer)
    requires 0 < i <= n < |h| - 1 && h[i].op == Some(Update(caller, id, update))
    requires UpdateJob(h[i - 1].after, h[i].at, caller, id, update).Ok? && Exists(h[i - 1].after.jobs, id)
    requires LeftAlone(h, i, n, id) && RunsNext(h, n, keeper, id, answer)
    requires IsHistory(h)
    ensures Exists(h[n + 1].after.jobs, id)
    ensures KeepsTo(JobSpec(caller, h[i - 1].after.jobs.specs[id].target, update.function_, update.args,
                            update.interval, update.schedule, update.feePerRun, update.maxFeePerRun, update.maxRuns,
                            update.endAt, update.resolver, update.keepers, update.after),
                    h[i].after.jobs.states[id].nextRun, h[n].after, h[n + 1].at, keeper, id, answer, h[n + 1].after)
  {
    assert h[i].after == UpdateJob(h[i - 1].after, h[i].at, caller, id, update).value;
    hide IsHistory, UpdateJob, Execute, LeftAlone, RunsIn, FirstOnSchedule;
    UpdatedAsAsked(h[i - 1].after, h[i].at, caller, id, update);
    TermsAreKept(h, i, n, keeper, id, answer);
  }
}
