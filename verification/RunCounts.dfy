/** How often a job can run: once per slot of its grid, and once per run of the job it follows. */
module RunCounts {
  import opened Basics
  import opened Types
  import opened Schedules
  import opened Token
  import opened RegistrySpec
  import opened Footprints
  import opened Bookkeeping
  import opened JobFacts
  import opened Solvency
  import opened Histories

  /** Runs of job `id` among the published events. */
  function RunsIn(log: seq<Event>, id: u64): nat {
    if log == [] then 0
    else RunsIn(log[..|log| - 1], id) + if IsRunOf(log[|log| - 1], id) then 1 else 0
  }

  predicate IsRunOf(event: Event, id: u64) {
    event.JobExecuted? && event.jobId == id
  }

  lemma {:induction false} RunsInConcat(a: seq<Event>, b: seq<Event>, id: u64)
    ensures RunsIn(a + b, id) == RunsIn(a, id) + RunsIn(b, id)
  {
    if b == [] {
      assert a + b == a;
    } else {
      RunsInConcat(a, b[..|b| - 1], id);
      assert (a + b)[..|a + b| - 1] == a + b[..|b| - 1];
    }
  }

  /** A run publishes one `JobExecuted`, for its own job. */
  lemma RunEventsHoldOneRun(s: Storage, now: u64, keeper: Address, job: u64, leaderRuns: u32, answer: Answer, id: u64)
    requires Exists(s.jobs, job)
    ensures RunsIn(RunEvents(s, now, keeper, job, leaderRuns, answer), id) == if id == job then 1 else 0
  {
    hide NextState, FeeOf, Missed, GivesUp, SplitFee;
    var events := RunEvents(s, now, keeper, job, leaderRuns, answer);
    var before := events[..|events| - 1];
    assert forall e :: e in before ==> !e.JobExecuted?;
    NoRuns(before, id);
  }

  lemma {:induction false} NoRuns(log: seq<Event>, id: u64)
    requires forall e :: e in log ==> !IsRunOf(e, id)
    ensures RunsIn(log, id) == 0
  {
    if log != [] {
      NoRuns(log[..|log| - 1], id);
    }
  }

  /** Runs of job `id` this transaction adds. */
  ghost function RunsAdded(s: Storage, now: u64, op: Op, id: u64): int {
    if op.Run? && op.id == id && Step(s, now, op).Ok? then 1 else 0
  }

  lemma StepCountsRuns(s: Storage, now: u64, op: Op, id: u64)
    ensures RunsIn(After(s, now, op).log, id) == RunsIn(s.log, id) + RunsAdded(s, now, op, id)
  {
    StepPublishes(s, now, op);
    RunsInConcat(s.log, Published(s, now, op), id);
    hide After, RunsIn, RunEvents, Execute, MayRun;
    if op.Run? {
      StepIsExecute(s, now, op);
      if Step(s, now, op).Ok? {
        hide Step;
        ExecuteEffect(s, now, op.keeper, op.id, op.answer);
        RunEventsHoldOneRun(s, now, op.keeper, op.id, MayRun(s, now, op.keeper, op.id, op.answer).value, op.answer, id);
      } else {
        NoRuns([], id);
      }
    } else {
      hide Step, UnbondingRelease;
      NoRuns(Published(s, now, op), id);
    }
  }

  // ------------------------------------------------------------------ one run per grid slot

  /** Nobody updated job `id` between moments `i` and `n`, and it existed throughout. */
  ghost predicate LeftAlone(h: seq<Moment>, i: nat, n: nat, id: u64)
    requires i <= n < |h|
  {
    && (forall m :: i <= m <= n ==> Exists(h[m].after.jobs, id))
    && (forall m :: i < m <= n ==> h[m].op.Some? && !(h[m].op.value.Update? && h[m].op.value.id == id))
  }

  /** Only its own runs and updates move a job's due time, and only forward onto its grid. */
  lemma StepKeepsGrid(s: Storage, now: u64, op: Op, id: u64)
    requires Indexed(s.jobs) && JobsSound(s.jobs) && Exists(s.jobs, id) && Exists(After(s, now, op).jobs, id)
    requires !(op.Update? && op.id == id)
    ensures var state, state' := s.jobs.states[id], After(s, now, op).jobs.states[id];
            var interval := s.jobs.specs[id].interval;
            && 0 < interval && After(s, now, op).jobs.specs[id].interval == interval
            && if RunsAdded(s, now, op, id) == 1
               then state.nextRun <= now && state'.nextRun == NextRunAfter(state.nextRun, interval, now)
               else state'.nextRun == state.nextRun
  {
    hide Step, JobSound, LeaderSound, NextRunAfter, Execute, Indexed, JobsSound;
    PositiveInterval(s.jobs, id);
    if op.Run? {
      assert Step(s, now, op) == Execute(s, now, op.keeper, op.id, op.answer) by { StepIsExecute(s, now, op); }
      if Step(s, now, op).Ok? {
        RunKeepsGrid(s, now, op.keeper, op.id, op.answer, id);
      }
    } else {
      OthersLeaveJob(s, now, op, id);
    }
  }

  lemma PositiveInterval(jobs: JobBook, id: u64)
    requires JobsSound(jobs) && Exists(jobs, id)
    ensures 0 < jobs.specs[id].interval
  {
    hide OnCalendar, LeaderSound;
    assert JobSound(id, jobs.specs[id], jobs.states[id]);
  }

  lemma RunKeepsGrid(s: Storage, now: u64, keeper: Address, job: u64, answer: Answer, id: u64)
    requires Execute(s, now, keeper, job, answer).Ok? && Exists(s.jobs, id)
    ensures var jobs', state := Execute(s, now, keeper, job, answer).value.jobs, s.jobs.states[id];
            && Exists(jobs', id) && jobs'.specs[id] == s.jobs.specs[id]
            && jobs'.states[id].nextRun
               == (if id == job then NextRunAfter(state.nextRun, s.jobs.specs[id].interval, now) else state.nextRun)
            && (id == job ==> state.nextRun <= now)
  {
    hide NextRunAfter, MayRun, RunEvents, Settle, FeeOf, GivesUp, Execute;
    ExecuteEffect(s, now, keeper, job, answer);
    MayRunFacts(s, now, keeper, job, answer);
  }

  lemma StepIsExecute(s: Storage, now: u64, op: Op)
    requires op.Run?
    ensures Step(s, now, op) == Execute(s, now, op.keeper, op.id, op.answer)
  {
    hide Execute;
  }

  /** After `k` runs the next slot is at least the `k`-th one after the slot it started from. */
  lemma {:induction false} RunsUseDistinctSlots(h: seq<Moment>, i: nat, n: nat, id: u64)
    requires IsHistory(h) && i <= n < |h| && LeftAlone(h, i, n, id)
    ensures var interval := h[i].after.jobs.specs[id].interval;
            var runs := RunsIn(h[n].after.log, id) - RunsIn(h[i].after.log, id);
            && 0 < interval && 0 <= runs && h[n].after.jobs.specs[id].interval == interval
            && (h[n].after.jobs.states[id].nextRun == U64_MAX
                || GridPoint(h[i].after.jobs.states[id].nextRun, interval, runs) <= h[n].after.jobs.states[id].nextRun)
    decreases n - i
  {
    hide After, Deployed, RunsIn, RunsAdded, NextRunAfter, Indexed, JobsSound;
    if i < n {
      var s, now, op := h[n - 1].after, h[n].at, h[n].op.value;
      RunsUseDistinctSlots(h, i, n - 1, id);
      ReachableIsSound(h, n - 1);
      StepKeepsGrid(s, now, op, id);
      StepCountsRuns(s, now, op, id);
      ZeroOrOne(s, now, op, id);
      NextRunOnGrid(s.jobs.states[id].nextRun, s.jobs.specs[id].interval, now);
      var first, interval := h[i].after.jobs.states[id].nextRun, s.jobs.specs[id].interval;
      var runs := RunsIn(s.log, id) - RunsIn(h[i].after.log, id);
      assert GridPoint(first, interval, runs + 1) == GridPoint(first, interval, runs) + interval;
    } else {
      ReachableIsSound(h, i);
      assert JobSound(id, h[i].after.jobs.specs[id], h[i].after.jobs.states[id]) by {
        assert JobsSound(h[i].after.jobs);
        JobsSoundAt(h[i].after.jobs, id);
      }
    }
  }

  lemma JobsSoundAt(jobs: JobBook, id: u64)
    requires JobsSound(jobs) && Exists(jobs, id)
    ensures JobSound(id, jobs.specs[id], jobs.states[id]) && LeaderSound(jobs, jobs.specs[id], jobs.states[id])
  {
    hide JobSound, LeaderSound;
  }

  lemma ZeroOrOne(s: Storage, now: u64, op: Op, id: u64)
    ensures RunsAdded(s, now, op, id) == 0 || RunsAdded(s, now, op, id) == 1
  {
    hide Step;
  }

  /**
   * Missed runs never fire back to back: a job that was next due at `d` and
   * runs at `t` has by then run at most (t - d) / interval + 1 times.
   */
  lemma RunsFitTheGrid(h: seq<Moment>, i: nat, n: nat, id: u64)
    requires IsHistory(h) && i < n < |h| && LeftAlone(h, i, n, id)
    requires h[n].at < U64_MAX && RunsAdded(h[n - 1].after, h[n].at, h[n].op.value, id) == 1
    ensures var d, interval := h[i].after.jobs.states[id].nextRun, h[i].after.jobs.specs[id].interval;
            && d <= h[n].at && 0 < interval
            && RunsIn(h[n].after.log, id) - RunsIn(h[i].after.log, id) <= (h[n].at - d) / interval + 1
  {
    hide After, Deployed, RunsIn, RunsAdded, NextRunAfter, Sound;
    var s, now, op := h[n - 1].after, h[n].at, h[n].op.value;
    RunsUseDistinctSlots(h, i, n - 1, id);
    ReachableIsSound(h, n - 1);
    GridOfSound(s, now, op, id);
    StepCountsRuns(s, now, op, id);
    var d, interval := h[i].after.jobs.states[id].nextRun, h[i].after.jobs.specs[id].interval;
    QuotientBound(RunsIn(s.log, id) - RunsIn(h[i].after.log, id), now, d, interval);
  }

  lemma GridOfSound(s: Storage, now: u64, op: Op, id: u64)
    requires Sound(s) && Exists(s.jobs, id) && Exists(After(s, now, op).jobs, id)
    requires RunsAdded(s, now, op, id) == 1
    ensures s.jobs.states[id].nextRun <= now
  {
    hide After, Indexed, JobsSound;
    StepKeepsGrid(s, now, op, id);
  }

  lemma QuotientBound(k: nat, now: u64, d: u64, interval: u64)
    requires 0 < interval && GridPoint(d, interval, k) <= now
    ensures d <= now && k <= (now - d) / interval
  {
    TimesMonotone(0, k, interval);
    QuotientAtLeast(k, now - d, interval);
  }

  /** The slot a run uses lies after the time of the run before it. */
  lemma {:induction false} SlotAfterPreviousRun(h: seq<Moment>, m: nat, n: nat, id: u64)
    requires IsHistory(h) && 0 < m <= n < |h| && LeftAlone(h, m - 1, n, id)
    requires h[m].at < U64_MAX && RunsAdded(h[m - 1].after, h[m].at, h[m].op.value, id) == 1
    ensures h[m].at < h[n].after.jobs.states[id].nextRun
    decreases n - m
  {
    hide After, Deployed, RunsAdded, NextRunAfter, Indexed, JobsSound;
    var s, now, op := h[n - 1].after, h[n].at, h[n].op.value;
    ReachableIsSound(h, n - 1);
    StepKeepsGrid(s, now, op, id);
    NextRunOnGrid(s.jobs.states[id].nextRun, s.jobs.specs[id].interval, now);
    NextRunIsInTheFuture(s.jobs.states[id].nextRun, s.jobs.specs[id].interval, now);
    if m < n {
      SlotAfterPreviousRun(h, m, n - 1, id);
      ZeroOrOne(s, now, op, id);
    }
  }

  // ------------------------------------------------------------------ followers

  /** How many runs of its leader job `id` has not used up yet. */
  ghost function Slack(jobs: JobBook, id: u64, leader: u64): int
    requires Exists(jobs, id)
  {
    if leader in jobs.states then jobs.states[leader].runs - jobs.states[id].leaderRuns else 0
  }

  ghost predicate Follows(jobs: JobBook, id: u64, leader: u64) {
    Exists(jobs, id) && jobs.specs[id].after == Some(leader)
  }

  /** Each run of a follower is paid for by a run of its leader. */
  lemma StepKeepsSlack(s: Storage, now: u64, op: Op, id: u64, leader: u64)
    requires Indexed(s.jobs) && JobsSound(s.jobs)
    requires Follows(s.jobs, id, leader) && Follows(After(s, now, op).jobs, id, leader)
    ensures RunsAdded(s, now, op, id) + Slack(After(s, now, op).jobs, id, leader)
         <= RunsAdded(s, now, op, leader) + Slack(s.jobs, id, leader)
    ensures leader !in s.jobs.states ==> leader !in After(s, now, op).jobs.states
  {
    hide Step, Execute, OnCalendar;
    JobsSoundAt(s.jobs, id);
    if op.Run? {
      StepIsExecute(s, now, op);
      if Step(s, now, op).Ok? {
        RunKeepsSlack(s, now, op.keeper, op.id, op.answer, id, leader);
      }
    } else {
      OthersLeaveJob(s, now, op, id);
      if leader in After(s, now, op).jobs.states && leader in s.jobs.states {
        StepKeepsIndex(s, now, op);
        OthersLeaveJob(s, now, op, leader);
      }
    }
  }

  lemma RunKeepsSlack(s: Storage, now: u64, keeper: Address, job: u64, answer: Answer, id: u64, leader: u64)
    requires Indexed(s.jobs) && JobsSound(s.jobs) && Follows(s.jobs, id, leader)
    requires Execute(s, now, keeper, job, answer).Ok?
    ensures var jobs' := Execute(s, now, keeper, job, answer).value.jobs;
            && Exists(jobs', id) && jobs'.states.Keys == s.jobs.states.Keys
            && (if id == job then 1 else 0) + Slack(jobs', id, leader)
               <= (if leader == job then 1 else 0) + Slack(s.jobs, id, leader)
  {
    hide Execute, MayRun, RunEvents, Settle, OnCalendar, NextRunAfter, FeeOf, GivesUp;
    assert LeaderSound(s.jobs, s.jobs.specs[id], s.jobs.states[id]);
    assert JobSound(id, s.jobs.specs[id], s.jobs.states[id]);
    ExecuteEffect(s, now, keeper, job, answer);
    MayRunFacts(s, now, keeper, job, answer);
  }

  /** Job `id` follows `leader` in every state from `i` to `n`. */
  ghost predicate Attached(h: seq<Moment>, i: nat, n: nat, id: u64, leader: u64)
    requires i <= n < |h|
  {
    forall m :: i <= m <= n ==> Follows(h[m].after.jobs, id, leader)
  }

  lemma {:induction false} SlackOverTime(h: seq<Moment>, i: nat, n: nat, id: u64, leader: u64)
    requires IsHistory(h) && i <= n < |h| && Attached(h, i, n, id, leader)
    ensures RunsIn(h[n].after.log, id) - RunsIn(h[i].after.log, id) + Slack(h[n].after.jobs, id, leader)
         <= RunsIn(h[n].after.log, leader) - RunsIn(h[i].after.log, leader) + Slack(h[i].after.jobs, id, leader)
    decreases n - i
  {
    hide After, Deployed, RunsIn, RunsAdded, Slack, Indexed, JobsSound;
    if i < n {
      var s, now, op := h[n - 1].after, h[n].at, h[n].op.value;
      SlackOverTime(h, i, n - 1, id, leader);
      ReachableIsSound(h, n - 1);
      StepKeepsSlack(s, now, op, id, leader);
      StepCountsRuns(s, now, op, id);
      StepCountsRuns(s, now, op, leader);
    }
  }

  lemma CreateLeavesNoSlack(s: Storage, now: u64, owner: Address, params: JobParams, deposit: i128, id: u64,
                            leader: u64)
    requires Indexed(s.jobs) && CreateJob(s, now, owner, params, deposit).Ok?
    requires !Follows(s.jobs, id, leader) && Follows(CreateJob(s, now, owner, params, deposit).value.jobs, id, leader)
    ensures Slack(CreateJob(s, now, owner, params, deposit).value.jobs, id, leader) == 0
    ensures leader in CreateJob(s, now, owner, params, deposit).value.jobs.states && leader != id
  {
    CreateFrame(s, now, owner, params, deposit);
    hide CreateJob, ValidateSchedule, FirstCalendarRun, IsForbiddenTarget;
  }

  lemma UpdateLeavesNoSlack(s: Storage, now: u64, caller: Address, job: u64, update: JobUpdate, id: u64, leader: u64)
    requires Indexed(s.jobs) && UpdateJob(s, now, caller, job, update).Ok?
    requires !Follows(s.jobs, id, leader) && Follows(UpdateJob(s, now, caller, job, update).value.jobs, id, leader)
    ensures Slack(UpdateJob(s, now, caller, job, update).value.jobs, id, leader) == 0
    ensures leader in UpdateJob(s, now, caller, job, update).value.jobs.states && leader != id
  {
    hide ValidateSchedule, UpdatedNextRun, Touch;
  }

  lemma OthersDoNotAttach(s: Storage, now: u64, op: Op, id: u64, leader: u64)
    requires Indexed(s.jobs) && !op.Create? && !op.Update?
    requires Follows(After(s, now, op).jobs, id, leader)
    ensures Follows(s.jobs, id, leader)
  {
    hide Transfer, Execute, RunEvents, Settle, MayRun, NextState, RemoveFirst, Touch;
    if LeavesJobs(op) {
      JobsUntouched(s, now, op);
    } else if Step(s, now, op).Ok? {
      match op
      case Run(keeper, job, answer) => ExecuteEffect(s, now, keeper, job, answer);
      case AcceptOwner(_, job) => hide AddOwnerJob, RemoveOwnerJob;
      case Fund(_, _, _) =>
      case Cancel(_, _) =>
      case Withdraw(_, _, _) =>
      case SetActive(_, _, _) =>
      case ProposeOwner(_, _, _) =>
    }
  }

  /** A job starts following with nothing left over from earlier runs of its leader. */
  lemma AttachingLeavesNoSlack(s: Storage, now: u64, op: Op, id: u64, leader: u64)
    requires Indexed(s.jobs)
    requires !Follows(s.jobs, id, leader) && Follows(After(s, now, op).jobs, id, leader)
    ensures leader in After(s, now, op).jobs.states && leader != id
    ensures Slack(After(s, now, op).jobs, id, leader) == 0
  {
    hide Indexed, Follows, Slack, CreateJob, UpdateJob;
    if !op.Create? && !op.Update? {
      OthersDoNotAttach(s, now, op, id, leader);
    } else if Step(s, now, op).Ok? {
      match op
      case Create(owner, params, deposit) => CreateLeavesNoSlack(s, now, owner, params, deposit, id, leader);
      case Update(caller, job, update) => UpdateLeavesNoSlack(s, now, caller, job, update, id, leader);
    }
  }

  lemma SlackNonNegative(jobs: JobBook, id: u64, leader: u64)
    requires JobsSound(jobs) && Follows(jobs, id, leader)
    ensures 0 <= Slack(jobs, id, leader)
    ensures leader in jobs.states ==> jobs.states[id].leaderRuns <= jobs.states[leader].runs
  {
    hide JobSound;
    JobsSoundAt(jobs, id);
  }

  /** A follower runs at most once per run of its leader, from the moment it starts following. */
  lemma FollowerNeverOutruns(h: seq<Moment>, i: nat, n: nat, id: u64, leader: u64)
    requires IsHistory(h) && 0 < i <= n < |h| && Attached(h, i, n, id, leader)
    requires !Follows(h[i - 1].after.jobs, id, leader)
    ensures RunsIn(h[n].after.log, id) - RunsIn(h[i].after.log, id)
         <= RunsIn(h[n].after.log, leader) - RunsIn(h[i].after.log, leader)
    ensures leader in h[n].after.jobs.states ==>
              h[n].after.jobs.states[id].leaderRuns <= h[n].after.jobs.states[leader].runs
  {
    hide After, Deployed, RunsIn, Indexed, JobsSound, Slack, Follows, Solvent, RotationSound, MissesSound, ConfigSound,
      UpgradeSound;
    ReachableIsSound(h, i - 1);
    ReachableIsSound(h, n);
    AttachingLeavesNoSlack(h[i - 1].after, h[i].at, h[i].op.value, id, leader);
    SlackOverTime(h, i, n, id, leader);
    SlackNonNegative(h[n].after.jobs, id, leader);
  }

  /** A cancelled job's id never comes back, so a leader cannot be swapped for another job. */
  lemma {:induction false} CancelledForever(h: seq<Moment>, i: nat, n: nat, id: u64)
    requires IsHistory(h) && i <= n < |h|
    requires id < h[i].after.jobs.nextId && id !in h[i].after.jobs.states
    ensures id < h[n].after.jobs.nextId && id !in h[n].after.jobs.states
    decreases n - i
  {
    hide After, Deployed, Indexed, JobsSound;
    if i < n {
      CancelledForever(h, i, n - 1, id);
      IdsAreNotReused(h[n - 1].after, h[n].at, h[n].op.value, id);
    }
  }

  lemma IdsAreNotReused(s: Storage, now: u64, op: Op, id: u64)
    requires id < s.jobs.nextId && id !in s.jobs.states
    ensures id < After(s, now, op).jobs.nextId && id !in After(s, now, op).jobs.states
  {
    hide Transfer, Execute, RunEvents, ValidateSchedule, LeaderRuns, ValidateJob, NewSpec, NewState,
      Settle, MayRun, NextState, AddOwnerJob, RemoveOwnerJob, Touch, UpdatedNextRun;
    if LeavesJobs(op) {
      JobsUntouched(s, now, op);
    } else if Step(s, now, op).Ok? {
      match op
      case Run(keeper, job, answer) => ExecuteEffect(s, now, keeper, job, answer);
      case Create(owner, params, deposit) => CreateFrame(s, now, owner, params, deposit);
      case AcceptOwner(_, job) => HandOverFrame(s.jobs, job, s.jobs.pendingOwners[job]);
      case Update(_, _, _) =>
      case Fund(_, _, _) =>
      case Cancel(_, _) => hide HandOver; CancelGone(s, now, op);
      case Withdraw(_, _, _) =>
      case SetActive(_, _, _) =>
      case ProposeOwner(_, _, _) =>
    }
  }
}
