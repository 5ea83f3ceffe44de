/** One job's entry while the events of single transactions are replayed over it. */
module ReplayedEntries {
  import opened Basics
  import opened Types
  import opened Schedules
  import opened Token
  import opened RegistrySpec
  import opened Footprints
  import opened Bookkeeping
  import opened JobFacts
  import opened Histories
  import opened JobIndexing

  /** The entry never promises more than the registry: equal but for a balance that may be too low. */
  predicate AtMost(job: IndexedJob, spec: JobSpec, state: JobState) {
    job == ToIndexed(spec, state).(balance := job.balance) && job.balance <= state.balance
  }

  /**
   * Part-way through replaying old events over a newer refetch, each field of
   * the entry is that of the replayed state or that of the refetched one.
   */
  predicate Between(job: IndexedJob, replayed: IndexedJob, newer: IndexedJob) {
    && (|| (job.nextRun == replayed.nextRun && job.runs == replayed.runs)
        || (job.nextRun == newer.nextRun && job.runs == newer.runs))
    && (job.active == replayed.active || job.active == newer.active)
    && (job.balance <= replayed.balance || job.balance <= newer.balance)
    && job.feePerRun == newer.feePerRun && job.maxRuns == newer.maxRuns && job.endAt == newer.endAt
  }

  /** All events of one transaction, as seen by the entry of one job that the transaction does not replace. */
  function ReplayEntry(job: IndexedJob, events: seq<Event>, id: u64): IndexedJob {
    if events == [] then job
    else
      var job1 := ReplayEntry(job, events[..|events| - 1], id);
      var e := events[|events| - 1];
      if AboutJob(e) && e.jobId == id then ApplyToEntry(job1, e) else job1
  }

  predicate Replaces(event: Event, id: u64) {
    AboutJob(event) && event.jobId == id && (event.JobCreated? || event.JobUpdated? || event.JobCancelled?)
  }

  lemma {:induction false} ReplayIsReplayEntry(index: Index, events: seq<Event>, fetched: Index, id: u64)
    requires id in index && forall e :: e in events ==> !Replaces(e, id)
    ensures id in Replay(index, events, fetched)
    ensures Replay(index, events, fetched)[id] == ReplayEntry(index[id], events, id)
  {
    if events != [] {
      ReplayIsReplayEntry(index, events[..|events| - 1], fetched, id);
      assert !Replaces(events[|events| - 1], id);
    }
  }

  function EntryOf(jobs: JobBook, id: u64): IndexedJob
    requires Exists(jobs, id)
  {
    ToIndexed(jobs.specs[id], jobs.states[id])
  }

  lemma ReplayEntryOne(job: IndexedJob, event: Event, id: u64)
    ensures ReplayEntry(job, [event], id)
         == if AboutJob(event) && event.jobId == id then ApplyToEntry(job, event) else job
  {
    assert [event][..0] == [];
    assert ReplayEntry(job, [], id) == job;
  }

  lemma {:induction false} ReplayEntryConcat(job: IndexedJob, a: seq<Event>, b: seq<Event>, id: u64)
    ensures ReplayEntry(job, a + b, id) == ReplayEntry(ReplayEntry(job, a, id), b, id)
  {
    if b == [] {
      assert a + b == a;
    } else {
      assert (a + b)[..|a + b| - 1] == a + b[..|b| - 1];
      ReplayEntryConcat(job, a, b[..|b| - 1], id);
    }
  }

  lemma {:induction false} NothingForEntry(job: IndexedJob, events: seq<Event>, id: u64)
    requires forall e :: e in events ==> !(AboutJob(e) && e.jobId == id)
    ensures ReplayEntry(job, events, id) == job
  {
    if events != [] {
      NothingForEntry(job, events[..|events| - 1], id);
    }
  }

  /** One of the job's own runs, replayed over a newer entry. */
  lemma LateRun(job: IndexedJob, s: Storage, now: u64, op: Op, id: u64, newer: IndexedJob)
    requires JobsSound(s.jobs) && op.Run? && op.id == id && Step(s, now, op).Ok?
    requires Exists(s.jobs, id) && Exists(After(s, now, op).jobs, id)
    requires Between(job, EntryOf(s.jobs, id), newer)
    ensures forall e :: e in Published(s, now, op) ==> !Replaces(e, id)
    ensures var job' := ReplayEntry(job, Published(s, now, op), id);
            && job'.active == (job.active && EntryOf(After(s, now, op).jobs, id).active)
            && Between(job', EntryOf(After(s, now, op).jobs, id), newer)
  {
    hide Execute, MayRun, RunEvents, Settle, NextRunAfter, RampedFee, OnCalendar, LeaderSound, ReplayEntry;
    ExecuteEffect(s, now, op.keeper, id, op.answer);
    var leaderRuns := MayRun(s, now, op.keeper, id, op.answer).value;
    MayRunFacts(s, now, op.keeper, id, op.answer);
    assert JobSound(id, s.jobs.specs[id], s.jobs.states[id]);
    RampedFeeBounds(s.jobs.specs[id], s.jobs.states[id], now);
    var miss, last := RunEventsShape(s, now, op.keeper, id, leaderRuns, op.answer);
    var next := NextState(s, now, id, leaderRuns, op.answer);
    var stopped := GivesUp(s.config, next.failures, op.answer.targetSucceeds);
    var exhausted := next.balance < s.jobs.specs[id].feePerRun;
    LateNotices(job, id, stopped, exhausted, next.balance, miss, last);
  }

  lemma LateNotices(job: IndexedJob, id: u64, stopped: bool, exhausted: bool, balance: int, miss: seq<Event>,
                    last: Event)
    requires |miss| <= 1 && (forall e :: e in miss ==> !AboutJob(e)) && AboutJob(last) && last.jobId == id
    ensures ReplayEntry(job, (if stopped then [JobDeactivated(id)] else [])
                             + (if exhausted then [JobExhausted(id, balance)] else []) + miss + [last], id)
         == ApplyToEntry(BeforeExecuted(job, stopped, exhausted, balance), last)
  {
    hide ApplyToEntry, ReplayEntry;
    var a := if stopped then [JobDeactivated(id)] else [];
    var b := if exhausted then [JobExhausted(id, balance)] else [];
    var job1 := OptionalEntryEvent(job, a, id);
    var job2 := OptionalEntryEvent(job1, b, id);
    NothingForEntry(job2, miss, id);
    ReplayEntryConcat(job, a, b, id);
    ReplayEntryConcat(job, a + b, miss, id);
    ReplayEntryConcat(job, a + b + miss, [last], id);
    ReplayEntryOne(job2, last, id);
    NoticesApply(job, id, stopped, exhausted, balance);
  }

  lemma OptionalEntryEvent(job: IndexedJob, events: seq<Event>, id: u64) returns (job': IndexedJob)
    requires |events| <= 1 && forall e :: e in events ==> AboutJob(e) && e.jobId == id
    ensures job' == ReplayEntry(job, events, id)
    ensures job' == if events == [] then job else ApplyToEntry(job, events[0])
  {
    job' := ReplayEntry(job, events, id);
    if events != [] {
      assert events == [events[0]];
      ReplayEntryOne(job, events[0], id);
    }
  }

  lemma NoticesApply(job: IndexedJob, id: u64, stopped: bool, exhausted: bool, balance: int)
    ensures BeforeExecuted(job, stopped, exhausted, balance)
         == (var job1 := if stopped then ApplyToEntry(job, JobDeactivated(id)) else job;
             if exhausted then ApplyToEntry(job1, JobExhausted(id, balance)) else job1)
  {
  }

  /** Anything else than one of the job's own runs, replayed over a newer entry. */
  lemma LateOther(job: IndexedJob, s: Storage, now: u64, op: Op, id: u64, newer: IndexedJob)
    requires Indexed(s.jobs) && !(op.Run? && op.id == id) && !IsUpdateOf(op, id)
    requires Exists(s.jobs, id) && Exists(After(s, now, op).jobs, id)
    requires Between(job, EntryOf(s.jobs, id), newer)
    ensures forall e :: e in Published(s, now, op) ==> !Replaces(e, id)
    ensures Between(ReplayEntry(job, Published(s, now, op), id), EntryOf(After(s, now, op).jobs, id), newer)
  {
    if Step(s, now, op).Err? {
      NothingForEntry(job, [], id);
    } else if (op.Fund? || op.Withdraw? || op.SetActive?) && op.id == id {
      LateEdit(job, s, now, op, id, newer);
    } else {
      OtherJobsEntry(s, now, op, id);
      NothingForEntry(job, Published(s, now, op), id);
    }
  }

  lemma LateEdit(job: IndexedJob, s: Storage, now: u64, op: Op, id: u64, newer: IndexedJob)
    requires (op.Fund? || op.Withdraw? || op.SetActive?) && op.id == id && Step(s, now, op).Ok?
    requires Exists(s.jobs, id) && Exists(After(s, now, op).jobs, id)
    requires Between(job, EntryOf(s.jobs, id), newer)
    ensures forall e :: e in Published(s, now, op) ==> !Replaces(e, id)
    ensures Between(ReplayEntry(job, Published(s, now, op), id), EntryOf(After(s, now, op).jobs, id), newer)
  {
    hide Transfer, Touch, ReplayEntry;
    match op
    case Fund(_, _, amount) => ReplayEntryOne(job, JobFunded(id, s.jobs.states[id].balance + amount), id);
    case Withdraw(_, _, amount) => ReplayEntryOne(job, JobWithdrawn(id, s.jobs.states[id].balance - amount), id);
    case SetActive(_, _, active) => ReplayEntryOne(job, JobActiveSet(id, active), id);
  }

  /** A transaction about something else changes neither the job's view nor publishes anything about it. */
  lemma OtherJobsEntry(s: Storage, now: u64, op: Op, id: u64)
    requires Indexed(s.jobs) && Step(s, now, op).Ok?
    requires Exists(s.jobs, id) && Exists(After(s, now, op).jobs, id)
    requires !((op.Fund? || op.Withdraw? || op.SetActive? || op.Run? || op.Update?) && op.id == id)
    ensures EntryOf(After(s, now, op).jobs, id) == EntryOf(s.jobs, id)
    ensures forall e :: e in Published(s, now, op) ==> !(AboutJob(e) && e.jobId == id)
  {
    hide Step, Indexed, RunEvents;
    if op.Run? {
      OtherRunEntry(s, now, op, id);
    } else {
      OthersLeaveJob(s, now, op, id);
      EntryUndisturbed(s, now, op, id);
    }
  }

  lemma OtherRunEntry(s: Storage, now: u64, op: Op, id: u64)
    requires op.Run? && op.id != id && Step(s, now, op).Ok?
    requires Exists(s.jobs, id) && Exists(After(s, now, op).jobs, id)
    ensures EntryOf(After(s, now, op).jobs, id) == EntryOf(s.jobs, id)
    ensures forall e :: e in Published(s, now, op) ==> !(AboutJob(e) && e.jobId == id)
  {
    hide Execute, MayRun, RunEvents, Settle, NextState;
    ExecuteEffect(s, now, op.keeper, op.id, op.answer);
    var leaderRuns := MayRun(s, now, op.keeper, op.id, op.answer).value;
    var miss, last := RunEventsShape(s, now, op.keeper, op.id, leaderRuns, op.answer);
  }

  /** Only funding, withdrawing and pausing change a job's entry besides its runs and updates. */
  lemma EntryUndisturbed(s: Storage, now: u64, op: Op, id: u64)
    requires !op.Run? && Indexed(s.jobs) && Step(s, now, op).Ok?
    requires Exists(s.jobs, id) && Exists(After(s, now, op).jobs, id)
    requires !((op.Fund? || op.Withdraw? || op.SetActive? || op.Update?) && op.id == id)
    requires Undisturbed(s.jobs, After(s, now, op).jobs, id)
    ensures EntryOf(After(s, now, op).jobs, id) == EntryOf(s.jobs, id)
    ensures forall e :: e in Published(s, now, op) ==> !(AboutJob(e) && e.jobId == id)
  {
    hide Transfer, ValidateJob, ValidateSchedule, LeaderRuns, Touch, UpdatedNextRun, RemoveOwnerJob, AddOwnerJob,
      UnbondingRelease, NewSpec, NewState, Administer;
    if LeavesJobs(op) {
      JobsUntouched(s, now, op);
    } else {
      match op
      case Create(owner, params, deposit) => CreateFrame(s, now, owner, params, deposit);
      case AcceptOwner(_, j) => HandOverFrame(s.jobs, j, s.jobs.pendingOwners[j]);
      case Cancel(_, j) => CancelGone(s, now, op);
      case Update(_, _, _) =>
      case Fund(_, _, _) =>
      case Withdraw(_, _, _) =>
      case SetActive(_, _, _) =>
      case ProposeOwner(_, _, _) =>
    }
  }

  lemma BetweenSelf(replayed: IndexedJob, newer: IndexedJob)
    ensures Between(newer, replayed, newer)
  {
  }

  /** One more transaction replayed into the index. */
  lemma LateStep(index: Index, fetched: Index, s: Storage, now: u64, op: Op, id: u64, newer: IndexedJob)
    requires Indexed(s.jobs) && JobsSound(s.jobs)
    requires Exists(s.jobs, id) && Exists(After(s, now, op).jobs, id) && !IsUpdateOf(op, id)
    requires id in index && Between(index[id], EntryOf(s.jobs, id), newer)
    ensures var index' := Replay(index, NewEvents(s, After(s, now, op)), fetched);
            && id in index'
            && index'[id] == ReplayEntry(index[id], Published(s, now, op), id)
            && Between(index'[id], EntryOf(After(s, now, op).jobs, id), newer)
  {
    hide After, Indexed, JobsSound, Replay, ReplayEntry, Between, EntryOf, Published, Replaces;
    StepPublishes(s, now, op);
    assert NewEvents(s, After(s, now, op)) == Published(s, now, op);
    if op.Run? && op.id == id && Step(s, now, op).Ok? {
      LateRun(index[id], s, now, op, id, newer);
    } else {
      LateRejectedOrOther(index[id], s, now, op, id, newer);
    }
    ReplayIsReplayEntry(index, Published(s, now, op), fetched, id);
  }

  /**
   * An entry that agrees with the registry up to a too-low balance keeps doing
   * so: whatever entry is taken for the newer one, the result lies between it
   * and the registry's, so it is the registry's.
   */
  lemma CaughtUpStep(index: Index, fetched: Index, s: Storage, now: u64, op: Op, id: u64)
    requires Indexed(s.jobs) && JobsSound(s.jobs)
    requires Exists(s.jobs, id) && Exists(After(s, now, op).jobs, id) && !IsUpdateOf(op, id)
    requires id in index && AtMost(index[id], s.jobs.specs[id], s.jobs.states[id])
    ensures var index' := Replay(index, NewEvents(s, After(s, now, op)), fetched);
            id in index' && AtMost(index'[id], After(s, now, op).jobs.specs[id], After(s, now, op).jobs.states[id])
  {
    hide After, Indexed, JobsSound, Replay, ReplayEntry, Published;
    var job' := ReplayEntry(index[id], Published(s, now, op), id);
    var elsewhere := index[id].(runs := if job'.runs == 0 then 1 else 0, active := !job'.active,
                                balance := job'.balance - 1);
    LateStep(index, fetched, s, now, op, id, elsewhere);
    TermsKept(s, now, op, id);
  }

  /** Fee, run limit and expiry, which only updates change. */
  predicate SameTerms(a: IndexedJob, b: IndexedJob) {
    a.feePerRun == b.feePerRun && a.maxRuns == b.maxRuns && a.endAt == b.endAt
  }

  lemma TermsKept(s: Storage, now: u64, op: Op, id: u64)
    requires Indexed(s.jobs) && JobsSound(s.jobs)
    requires Exists(s.jobs, id) && Exists(After(s, now, op).jobs, id) && !IsUpdateOf(op, id)
    ensures SameTerms(EntryOf(s.jobs, id), EntryOf(After(s, now, op).jobs, id))
  {
    hide Step, Indexed, JobsSound;
    if op.Run? {
      RunKeepsTerms(s, now, op, id);
    } else {
      OthersLeaveJob(s, now, op, id);
    }
  }

  lemma RunKeepsTerms(s: Storage, now: u64, op: Op, id: u64)
    requires op.Run? && Exists(s.jobs, id)
    ensures After(s, now, op).jobs.specs == s.jobs.specs
  {
    hide Execute, MayRun, RunEvents, Settle, NextState;
    if Execute(s, now, op.keeper, op.id, op.answer).Ok? {
      ExecuteEffect(s, now, op.keeper, op.id, op.answer);
    }
  }

  lemma BetweenBoth(job: IndexedJob, spec: JobSpec, state: JobState)
    requires Between(job, ToIndexed(spec, state), ToIndexed(spec, state))
    ensures AtMost(job, spec, state)
  {
  }

  lemma AtMostIsSound(job: IndexedJob, spec: JobSpec, state: JobState, now: u64)
    requires AtMost(job, spec, state) && MightBeDue(job, now)
    ensures EnsureDue(spec, state, now).Ok?
  {
  }

  lemma LateRejectedOrOther(job: IndexedJob, s: Storage, now: u64, op: Op, id: u64, newer: IndexedJob)
    requires Indexed(s.jobs) && !(op.Run? && op.id == id && Step(s, now, op).Ok?) && !IsUpdateOf(op, id)
    requires Exists(s.jobs, id) && Exists(After(s, now, op).jobs, id)
    requires Between(job, EntryOf(s.jobs, id), newer)
    ensures forall e :: e in Published(s, now, op) ==> !Replaces(e, id)
    ensures Between(ReplayEntry(job, Published(s, now, op), id), EntryOf(After(s, now, op).jobs, id), newer)
  {
    hide Step, Indexed;
    if op.Run? && op.id == id {
      NothingForEntry(job, [], id);
    } else {
      LateOther(job, s, now, op, id, newer);
    }
  }
}
