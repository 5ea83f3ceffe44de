/** Whether a job is paused and how often it failed in a row follow from its published events. */
module JobStanding {
  import opened Basics
  import opened Types
  import opened Schedules
  import opened Token
  import opened RegistrySpec
  import opened Footprints
  import opened Bookkeeping
  import opened JobFacts
  import opened Solvency
  import opened Histories
  import opened RunCounts
  import opened JobTerms
  import opened JobRuns

  datatype Standing = Standing(active: bool, failures: nat)

  /** What one event says about job `id`. */
  function Told(r: Standing, e: Event, id: u64): Standing {
    match e
    case JobCreated(job) => if job == id then Standing(true, 0) else r
    case JobActiveSet(job, active) =>
      if job != id then r else if active then Standing(true, 0) else r.(active := false)
    case JobDeactivated(job) => if job == id then r.(active := false) else r
    case JobExecuted(job, _, success, _, _, _, _, _, _) =>
      if job != id then r else r.(failures := if success then 0 else Min(U32_MAX, r.failures + 1))
    case _ => r
  }

  /** What a list of events says about job `id`. */
  function Retold(r: Standing, events: seq<Event>, id: u64): Standing {
    if events == [] then r
    else Told(Retold(r, events[..|events| - 1], id), events[|events| - 1], id)
  }

  function StandingOf(state: JobState): Standing {
    Standing(state.active, state.failures)
  }

  lemma {:induction false} RetoldConcat(r: Standing, a: seq<Event>, b: seq<Event>, id: u64)
    ensures Retold(r, a + b, id) == Retold(Retold(r, a, id), b, id)
  {
    if b == [] {
      assert a + b == a;
    } else {
      RetoldConcat(r, a, b[..|b| - 1], id);
      assert (a + b)[..|a + b| - 1] == a + b[..|b| - 1];
    }
  }

  /** The event says nothing about whether job `id` is paused or how often it failed. */
  predicate Silent(e: Event, id: u64) {
    match e
    case JobCreated(job) => job != id
    case JobActiveSet(job, _) => job != id
    case JobDeactivated(job) => job != id
    case JobExecuted(job, _, _, _, _, _, _, _, _) => job != id
    case _ => true
  }

  lemma {:induction false} NothingTold(r: Standing, events: seq<Event>, id: u64)
    requires forall e :: e in events ==> Silent(e, id)
    ensures Retold(r, events, id) == r
  {
    if events != [] {
      NothingTold(r, events[..|events| - 1], id);
      assert Silent(events[|events| - 1], id);
    }
  }

  lemma ToldOnce(r: Standing, e: Event, id: u64)
    ensures Retold(r, [e], id) == Told(r, e, id)
  {
    assert [e][..0] == [];
  }

  // ------------------------------------------------------------------ one transaction

  /** A run's events start with the job's giving up, if it does, and end with the run itself. */
  lemma RunEventsForJobs(s: Storage, now: u64, keeper: Address, job: u64, leaderRuns: u32, answer: Answer, id: u64)
    returns (stop: seq<Event>, rest: seq<Event>, last: Event)
    requires Exists(s.jobs, job)
    ensures RunEvents(s, now, keeper, job, leaderRuns, answer) == stop + rest + [last]
    ensures forall e :: e in rest ==> Silent(e, id)
    ensures var failures := NextState(s, now, job, leaderRuns, answer).failures;
            stop == if !answer.targetSucceeds && 0 < s.config.maxFailures <= failures then [JobDeactivated(job)] else []
    ensures last.JobExecuted? && last.jobId == job && last.success == answer.targetSucceeds
  {
    hide NextState, FeeOf, SplitFee, Missed;
    var events := RunEvents(s, now, keeper, job, leaderRuns, answer);
    var failures := NextState(s, now, job, leaderRuns, answer).failures;
    stop := if GivesUp(s.config, failures, answer.targetSucceeds) then [JobDeactivated(job)] else [];
    last := events[|events| - 1];
    rest := events[|stop|..|events| - 1];
  }

  lemma RetoldRun(r: Standing, stop: seq<Event>, rest: seq<Event>, last: Event, job: u64, id: u64)
    requires stop == [] || stop == [JobDeactivated(job)]
    requires forall e :: e in rest ==> Silent(e, id)
    requires last.JobExecuted? && last.jobId == job
    ensures Retold(r, stop + rest + [last], id)
         == if job != id then r
            else Standing(r.active && stop == [], if last.success then 0 else Min(U32_MAX, r.failures + 1))
  {
    hide Retold, Silent;
    RetoldConcat(r, stop + rest, [last], id);
    RetoldConcat(r, stop, rest, id);
    NothingTold(Retold(r, stop, id), rest, id);
    ToldOnce(Retold(r, stop, id), last, id);
    if stop == [] {
      NothingTold(r, stop, id);
    } else {
      ToldOnce(r, JobDeactivated(job), id);
    }
  }

  lemma RunIsTold(s: Storage, now: u64, keeper: Address, job: u64, answer: Answer, id: u64, s': Storage)
    requires Exists(s.jobs, job) && Execute(s, now, keeper, job, answer) == Ok(s') && Exists(s.jobs, id)
    requires Indexed(s.jobs) && JobsSound(s.jobs) && Solvent(s)
    ensures id in s'.jobs.states
    ensures StandingOf(s'.jobs.states[id])
         == Retold(StandingOf(s.jobs.states[id]), Published(s, now, Run(keeper, job, answer)), id)
  {
    hide Execute, MayRun, RunEvents, Settle, JobsSound, Indexed, Solvent, NextState, Retold, Silent;
    ExecuteEffect(s, now, keeper, job, answer);
    WasActive(s, now, keeper, job, answer);
    RunLeaves(s, now, keeper, job, answer, s');
    var stop, rest, last :=
      RunEventsForJobs(s, now, keeper, job, MayRun(s, now, keeper, job, answer).value, answer, id);
    RetoldRun(StandingOf(s.jobs.states[id]), stop, rest, last, job, id);
    if id != job {
      KeptOther(s.jobs, s'.jobs, job, id);
    }
  }

  lemma EditIsTold(s: Storage, now: u64, op: Op, id: u64)
    requires op.Update? || op.Fund? || op.Withdraw? || op.SetActive?
    requires Exists(s.jobs, id) && Step(s, now, op).Ok?
    ensures id in After(s, now, op).jobs.states
    ensures StandingOf(After(s, now, op).jobs.states[id])
         == Retold(StandingOf(s.jobs.states[id]), Published(s, now, op), id)
  {
    hide Transfer, ValidateSchedule, LeaderRuns, Touch, UpdatedNextRun, Retold, Silent;
    var r := StandingOf(s.jobs.states[id]);
    if op.SetActive? {
      ToldOnce(r, JobActiveSet(op.id, op.active), id);
    } else {
      EditKeepsStanding(s, now, op, id);
      NothingTold(r, Published(s, now, op), id);
    }
  }

  lemma EditKeepsStanding(s: Storage, now: u64, op: Op, id: u64)
    requires op.Update? || op.Fund? || op.Withdraw?
    requires Exists(s.jobs, id) && Step(s, now, op).Ok?
    ensures id in After(s, now, op).jobs.states
    ensures StandingOf(After(s, now, op).jobs.states[id]) == StandingOf(s.jobs.states[id])
    ensures forall e :: e in Published(s, now, op) ==> Silent(e, id)
  {
    hide Transfer, ValidateSchedule, LeaderRuns, Touch, UpdatedNextRun;
    match op
    case Update(_, _, _) =>
    case Fund(_, _, _) =>
    case Withdraw(_, _, _) =>
  }

  lemma OwnerOpIsTold(s: Storage, now: u64, op: Op, id: u64)
    requires op.Create? || op.Cancel? || op.ProposeOwner? || op.AcceptOwner?
    requires Indexed(s.jobs) && Step(s, now, op).Ok?
    requires Exists(s.jobs, id) && Exists(After(s, now, op).jobs, id)
    ensures StandingOf(After(s, now, op).jobs.states[id])
         == Retold(StandingOf(s.jobs.states[id]), Published(s, now, op), id)
  {
    hide Step, After, Retold, Indexed;
    OwnerOpsLeaveState(s, now, op, id);
    NothingTold(StandingOf(s.jobs.states[id]), Published(s, now, op), id);
  }

  lemma OwnerOpsLeaveState(s: Storage, now: u64, op: Op, id: u64)
    requires op.Create? || op.Cancel? || op.ProposeOwner? || op.AcceptOwner?
    requires Indexed(s.jobs) && Step(s, now, op).Ok?
    requires id in s.jobs.states && id in After(s, now, op).jobs.states
    ensures After(s, now, op).jobs.states[id] == s.jobs.states[id] && id < s.jobs.nextId
  {
    match op
    case Create(owner, params, deposit) =>
      CreateFrame(s, now, owner, params, deposit);
      hide CreateJob, NewSpec, NewState, ValidateJob;
    case Cancel(_, _) => CancelGone(s, now, op); hide Transfer, RemoveFirst;
    case ProposeOwner(_, _, _) =>
    case AcceptOwner(_, job) =>
      HandOverFrame(s.jobs, job, s.jobs.pendingOwners[job]);
      hide HandOver;
  }

  /** Each transaction changes a live job's standing as its events say. */
  lemma StepIsTold(s: Storage, now: u64, op: Op, id: u64)
    requires Indexed(s.jobs) && JobsSound(s.jobs) && Solvent(s)
    requires Exists(s.jobs, id) && Exists(After(s, now, op).jobs, id)
    ensures StandingOf(After(s, now, op).jobs.states[id])
         == Retold(StandingOf(s.jobs.states[id]), Published(s, now, op), id)
  {
    hide Indexed, JobsSound, Solvent, Retold, StandingOf, CreateJob, UpdateJob, FundJob, CancelJob, WithdrawJobBalance,
      SetJobActive, ProposeJobOwner, AcceptJobOwner, Execute, Stake, BeginUnbonding, ReleaseStake, Administer,
      MoveToken, IdleBatch, RunEvents, MayRun, UnbondingRelease;
    var r := StandingOf(s.jobs.states[id]);
    if Step(s, now, op).Err? {
      NothingTold(r, [], id);
    } else if LeavesJobs(op) {
      JobsUntouched(s, now, op);
      NothingTold(r, Published(s, now, op), id);
    } else if op.Run? {
      RunNeedsJob(s, now, op.keeper, op.id, op.answer);
      RunIsTold(s, now, op.keeper, op.id, op.answer, id, After(s, now, op));
    } else if op.Create? || op.Cancel? || op.ProposeOwner? || op.AcceptOwner? {
      OwnerOpIsTold(s, now, op, id);
    } else {
      EditIsTold(s, now, op, id);
    }
  }

  // ------------------------------------------------------------------ whole histories

  /** The events say of every live job what its state says. */
  ghost predicate WellTold(s: Storage) {
    forall id :: id in s.jobs.states ==> StandingOf(s.jobs.states[id]) == Retold(Standing(false, 0), s.log, id)
  }

  /**
   * In every reachable state a job is active, and has failed as often in a
   * row, exactly as its creation, its owner's pauses and resumptions and its
   * runs published so far say.
   */
  lemma {:induction false} StandingIsTheEvents(h: seq<Moment>, n: nat)
    requires n < |h| && IsHistory(h)
    ensures WellTold(h[n].after)
  {
    if n == 0 {
      assert Deployed(h[0].after);
    } else {
      hide After, Deployed, WellTold, Sound;
      StandingIsTheEvents(h, n - 1);
      ReachableIsSound(h, n - 1);
      StepTellsWell(h[n - 1].after, h[n].at, h[n].op.value);
    }
  }

  lemma StepTellsWell(s: Storage, now: u64, op: Op)
    requires WellTold(s) && Sound(s)
    ensures WellTold(After(s, now, op))
  {
    hide After, Indexed, JobsSound, Solvent, Retold, Published, StandingOf;
    StepPublishes(s, now, op);
    StepKeepsIndex(s, now, op);
    SameHalves(s.jobs);
    SameHalves(After(s, now, op).jobs);
    forall id | id in After(s, now, op).jobs.states
      ensures StandingOf(After(s, now, op).jobs.states[id])
           == Retold(Standing(false, 0), After(s, now, op).log, id)
    {
      RetoldConcat(Standing(false, 0), s.log, Published(s, now, op), id);
      if id in s.jobs.states {
        StepIsTold(s, now, op, id);
      } else {
        CreationIsTold(s, now, op, id, Retold(Standing(false, 0), s.log, id));
      }
    }
  }

  lemma CreationIsTold(s: Storage, now: u64, op: Op, id: u64, r: Standing)
    requires Indexed(s.jobs) && id !in s.jobs.states && Exists(After(s, now, op).jobs, id)
    ensures StandingOf(After(s, now, op).jobs.states[id]) == Retold(r, Published(s, now, op), id)
  {
    hide Indexed, CreateJob, Retold;
    if op.Create? {
      assert Step(s, now, op).Ok?;
      CreatedAsAsked(s, now, op.owner, op.params, op.deposit);
      if id != s.jobs.nextId {
        KeptOther(s.jobs, After(s, now, op).jobs, s.jobs.nextId, id);
      }
      ToldOnce(r, JobCreated(s.jobs.nextId), id);
    } else {
      hide After;
      OnlyCreationsAppear(s, now, op);
    }
  }
}
