/** The keeper's local copy of the registry's jobs, kept current from published events. */
module JobIndexing {
  import opened Basics
  import opened Types
  import opened Schedules
  import opened Token
  import opened RegistrySpec
  import opened Footprints
  import opened Bookkeeping
  import opened JobFacts
  import opened Histories

  /** What the keeper tracks per job. */
  datatype IndexedJob = IndexedJob(
    nextRun: u64,
    active: bool,
    balance: int,
    feePerRun: int,
    maxRuns: u32,
    runs: u32,
    endAt: u64)

  type Index = map<u64, IndexedJob>

  function ToIndexed(spec: JobSpec, state: JobState): IndexedJob {
    IndexedJob(state.nextRun, state.active, state.balance, spec.feePerRun, spec.maxRuns, state.runs, spec.endAt)
  }

  predicate MightBeDue(job: IndexedJob, now: u64) {
    && job.active
    && (job.maxRuns == 0 || job.runs < job.maxRuns)
    && (job.endAt == 0 || now < job.endAt)
    && job.feePerRun <= job.balance
    && job.nextRun <= now
  }

  /** Every live job as the registry's views show it. */
  function View(jobs: JobBook): Index {
    map id | id in jobs.specs && id in jobs.states :: ToIndexed(jobs.specs[id], jobs.states[id])
  }

  /** One event applied to one job's entry. */
  function ApplyToEntry(job: IndexedJob, event: Event): IndexedJob {
    match event
    case JobExecuted(_, _, _, fee, _, run, nextRun, _, _) =>
      job.(nextRun := nextRun, runs := run, balance := job.balance - fee)
    case JobFunded(_, balance) => job.(balance := balance)
    case JobWithdrawn(_, balance) => job.(balance := balance)
    case JobExhausted(_, balance) => job.(balance := balance)
    case JobActiveSet(_, active) => job.(active := active)
    case JobDeactivated(_) => job.(active := false)
    case _ => job
  }

  predicate AboutJob(event: Event) {
    !event.KeeperMissedWindow? && !event.KeeperUnbonding?
  }

  /** One event applied to the index; `fetched` is what `getJob` answers for a created or updated job. */
  function Apply(index: Index, event: Event, fetched: Index): Index {
    if !AboutJob(event) then index
    else
      var id := event.jobId;
      if event.JobCreated? || event.JobUpdated? then
        if id in fetched then index[id := fetched[id]] else index
      else if event.JobCancelled? then index - {id}
      else if id in index then index[id := ApplyToEntry(index[id], event)]
      else index
  }

  function Replay(index: Index, events: seq<Event>, fetched: Index): Index {
    if events == [] then index
    else Apply(Replay(index, events[..|events| - 1], fetched), events[|events| - 1], fetched)
  }

  lemma {:induction false} ReplayConcat(index: Index, a: seq<Event>, b: seq<Event>, fetched: Index)
    ensures Replay(index, a + b, fetched) == Replay(Replay(index, a, fetched), b, fetched)
  {
    if b == [] {
      assert a + b == a;
    } else {
      assert (a + b)[..|a + b| - 1] == a + b[..|b| - 1];
      ReplayConcat(index, a, b[..|b| - 1], fetched);
    }
  }

  lemma ReplayOne(index: Index, event: Event, fetched: Index)
    ensures Replay(index, [event], fetched) == Apply(index, event, fetched)
  {
    assert [event][..0] == [];
    assert Replay(index, [], fetched) == index;
  }

  // ------------------------------------------------------------------ agreement with the registry

  /**
   * A job's entry says what the registry's does. Its balance may be too low
   * only when the job cannot pay for another run anyway: `JobExhausted`
   * already carries the new balance when `JobExecuted` subtracts the fee.
   */
  predicate Agrees(job: IndexedJob, spec: JobSpec, state: JobState) {
    && job == ToIndexed(spec, state).(balance := job.balance)
    && (job.balance == state.balance || job.balance <= state.balance < spec.feePerRun)
  }

  ghost predicate InStep(index: Index, jobs: JobBook) {
    && index.Keys == View(jobs).Keys
    && forall id :: id in index ==> Agrees(index[id], jobs.specs[id], jobs.states[id])
  }

  /** An index in step names exactly the due jobs, at any time. */
  lemma DueExactly(index: Index, jobs: JobBook, id: u64, now: u64)
    requires InStep(index, jobs)
    ensures (id in index && MightBeDue(index[id], now))
       <==> (Exists(jobs, id) && EnsureDue(jobs.specs[id], jobs.states[id], now).Ok?)
  {
    assert id in View(jobs) <==> Exists(jobs, id);
  }

  /** The events a transaction published. */
  ghost function NewEvents(s: Storage, s': Storage): seq<Event> {
    if |s.log| <= |s'.log| then s'.log[|s.log|..] else []
  }

  /** A transaction about one job: the index changes at that job, as the registry does. */
  lemma OneJobInStep(index: Index, jobs: JobBook, index': Index, jobs': JobBook, id: u64)
    requires InStep(index, jobs) && Exists(jobs', id) && id in index'
    requires index'.Keys == index.Keys + {id} && View(jobs').Keys == View(jobs).Keys + {id}
    requires forall j :: j in index && j != id ==>
                           index'[j] == index[j] && jobs'.states[j] == jobs.states[j]
                           && ToIndexed(jobs'.specs[j], jobs'.states[j]) == ToIndexed(jobs.specs[j], jobs.states[j])
    requires Agrees(index'[id], jobs'.specs[id], jobs'.states[id])
    ensures InStep(index', jobs')
  {
    hide Agrees;
    forall j | j in index'
      ensures Agrees(index'[j], jobs'.specs[j], jobs'.states[j])
    {
      if j != id {
        assert Agrees(index[j], jobs.specs[j], jobs.states[j]);
        SameEntry(index[j], jobs.specs[j], jobs.states[j], jobs'.specs[j]);
      }
    }
  }

  lemma SameEntry(job: IndexedJob, spec: JobSpec, state: JobState, spec': JobSpec)
    requires Agrees(job, spec, state) && ToIndexed(spec', state) == ToIndexed(spec, state)
    ensures Agrees(job, spec', state)
  {
  }

  lemma EditKeepsStep(index: Index, s: Storage, now: u64, op: Op)
    requires InStep(index, s.jobs) && Indexed(s.jobs) && Step(s, now, op).Ok?
    requires op.Update? || op.Fund? || op.Withdraw? || op.SetActive?
    ensures InStep(Replay(index, NewEvents(s, After(s, now, op)), View(After(s, now, op).jobs)), After(s, now, op).jobs)
  {
    hide Transfer, ValidateSchedule, LeaderRuns, Touch, UpdatedNextRun, Replay, InStep, Indexed, View;
    var s' := After(s, now, op);
    match op
    case Update(_, id, _) =>
      assert NewEvents(s, s') == [JobUpdated(id)];
      ReplayOne(index, JobUpdated(id), View(s'.jobs));
      EntryInStep(index, s.jobs, s'.jobs, id, JobUpdated(id));
    case Fund(_, id, amount) =>
      BothHalves(s.jobs, id);
      var e := JobFunded(id, s'.jobs.states[id].balance);
      assert NewEvents(s, s') == [e];
      ReplayOne(index, e, View(s'.jobs));
      EntryInStep(index, s.jobs, s'.jobs, id, e);
    case Withdraw(_, id, amount) =>
      var e := JobWithdrawn(id, s'.jobs.states[id].balance);
      assert NewEvents(s, s') == [e];
      ReplayOne(index, e, View(s'.jobs));
      EntryInStep(index, s.jobs, s'.jobs, id, e);
    case SetActive(_, id, active) =>
      assert NewEvents(s, s') == [JobActiveSet(id, active)];
      ReplayOne(index, JobActiveSet(id, active), View(s'.jobs));
      EntryInStep(index, s.jobs, s'.jobs, id, JobActiveSet(id, active));
  }

  lemma FreshAgrees(spec: JobSpec, state: JobState)
    ensures Agrees(ToIndexed(spec, state), spec, state)
  {
  }

  lemma BothHalves(jobs: JobBook, id: u64)
    requires Indexed(jobs) && id in jobs.states
    ensures Exists(jobs, id)
  {
  }

  /** One event about one edited job. */
  lemma EntryInStep(index: Index, jobs: JobBook, jobs': JobBook, id: u64, event: Event)
    requires InStep(index, jobs) && Indexed(jobs) && Exists(jobs, id)
    requires id in jobs'.specs && id in jobs'.states
    requires jobs'.specs == jobs.specs[id := jobs'.specs[id]] && jobs'.states == jobs.states[id := jobs'.states[id]]
    requires AboutJob(event) && event.jobId == id && !event.JobCancelled?
    requires event.JobUpdated?
          || (!event.JobCreated? && jobs'.specs[id].feePerRun == jobs.specs[id].feePerRun
              && forall job: IndexedJob :: Agrees(job, jobs.specs[id], jobs.states[id]) ==>
                                             Agrees(ApplyToEntry(job, event), jobs'.specs[id], jobs'.states[id]))
    ensures InStep(Apply(index, event, View(jobs')), jobs')
  {
    hide ApplyToEntry, Agrees;
    FreshAgrees(jobs'.specs[id], jobs'.states[id]);
    assert id in View(jobs) && id in View(jobs');
    assert View(jobs').Keys == View(jobs).Keys;
    var index' := Apply(index, event, View(jobs'));
    assert Agrees(index'[id], jobs'.specs[id], jobs'.states[id]);
    OneJobInStep(index, jobs, index', jobs', id);
  }

  lemma NewJobInStep(index: Index, jobs: JobBook, jobs': JobBook, id: u64, spec: JobSpec, state: JobState)
    requires InStep(index, jobs)
    requires jobs'.specs == jobs.specs[id := spec] && jobs'.states == jobs.states[id := state]
    ensures InStep(index[id := ToIndexed(spec, state)], jobs')
    ensures id in View(jobs') && View(jobs')[id] == ToIndexed(spec, state)
  {
    hide Agrees, ToIndexed;
    FreshAgrees(spec, state);
    assert View(jobs').Keys == View(jobs).Keys + {id};
  }

  lemma CreateKeepsStep(index: Index, s: Storage, now: u64, owner: Address, params: JobParams, deposit: i128)
    requires InStep(index, s.jobs) && CreateJob(s, now, owner, params, deposit).Ok?
    ensures var s' := CreateJob(s, now, owner, params, deposit).value;
            InStep(Replay(index, NewEvents(s, s'), View(s'.jobs)), s'.jobs)
  {
    hide InStep, View, Replay, Transfer, ValidateJob, InsertJob, NewSpec, NewState;
    var s', id := CreateJob(s, now, owner, params, deposit).value, s.jobs.nextId;
    assert NewEvents(s, s') == [JobCreated(id)];
    CreateFrame(s, now, owner, params, deposit);
    NewJobInStep(index, s.jobs, s'.jobs, id, NewSpec(owner, params), NewState(s.jobs, now, params, deposit));
    ReplayOne(index, JobCreated(id), View(s'.jobs));
  }

  lemma CancelKeepsStep(index: Index, s: Storage, caller: Address, id: u64)
    requires InStep(index, s.jobs) && CancelJob(s, caller, id).Ok?
    ensures var s' := CancelJob(s, caller, id).value;
            InStep(Replay(index, NewEvents(s, s'), View(s'.jobs)), s'.jobs)
  {
    hide Transfer, RemoveFirst, Agrees, Replay;
    var s' := CancelJob(s, caller, id).value;
    assert NewEvents(s, s') == [JobCancelled(id)];
    ReplayOne(index, JobCancelled(id), View(s'.jobs));
  }

  /** What the events before `JobExecuted` do to the running job's entry. */
  function BeforeExecuted(job: IndexedJob, stopped: bool, exhausted: bool, balance: int): IndexedJob {
    var job1 := if stopped then job.(active := false) else job;
    if exhausted then job1.(balance := balance) else job1
  }

  lemma NoticesReplayed(index: Index, id: u64, stopped: bool, exhausted: bool, balance: int, miss: seq<Event>,
                        fetched: Index)
    requires id in index && |miss| <= 1 && forall e :: e in miss ==> !AboutJob(e)
    ensures Replay(index, (if stopped then [JobDeactivated(id)] else [])
                          + (if exhausted then [JobExhausted(id, balance)] else []) + miss, fetched)
         == index[id := BeforeExecuted(index[id], stopped, exhausted, balance)]
  {
    hide Replay;
    var a := if stopped then [JobDeactivated(id)] else [];
    var b := if exhausted then [JobExhausted(id, balance)] else [];
    var i1 := OptionalEvent(index, a, fetched);
    var i2 := OptionalEvent(i1, b, fetched);
    var i3 := OptionalEvent(i2, miss, fetched);
    ReplayConcat(index, a, b, fetched);
    ReplayConcat(index, a + b, miss, fetched);
  }

  /** All events of one run of a due job, in their published order. */
  lemma RunReplayed(index: Index, s: Storage, now: u64, keeper: Address, id: u64, leaderRuns: u32, answer: Answer,
                    fetched: Index)
    requires JobsSound(s.jobs) && MayRun(s, now, keeper, id, answer) == Ok(leaderRuns)
    requires id in index && Agrees(index[id], s.jobs.specs[id], s.jobs.states[id])
    ensures var index' := Replay(index, RunEvents(s, now, keeper, id, leaderRuns, answer), fetched);
            && id in index' && index' == index[id := index'[id]]
            && Agrees(index'[id], s.jobs.specs[id], NextState(s, now, id, leaderRuns, answer))
  {
    hide MayRun, Replay, RunEvents, NextState, Agrees, ApplyToEntry, BeforeExecuted, GivesUp, FeeOf, JobsSound;
    var next := NextState(s, now, id, leaderRuns, answer);
    var stopped := GivesUp(s.config, next.failures, answer.targetSucceeds);
    var exhausted := next.balance < s.jobs.specs[id].feePerRun;
    var miss, last := RunEventsShape(s, now, keeper, id, leaderRuns, answer);
    EntryAfterRun(index[id], s, now, keeper, id, leaderRuns, answer, last);
    NoticesReplayed(index, id, stopped, exhausted, next.balance, miss, fetched);
    var noticed := index[id := BeforeExecuted(index[id], stopped, exhausted, next.balance)];
    ReplayConcat(index, (if stopped then [JobDeactivated(id)] else [])
                        + (if exhausted then [JobExhausted(id, next.balance)] else []) + miss, [last], fetched);
    ReplayOne(noticed, last, fetched);
  }

  /** The fee is subtracted after the exhausted balance was already reported, and the entry still agrees. */
  lemma EntryAfterRun(job: IndexedJob, s: Storage, now: u64, keeper: Address, id: u64, leaderRuns: u32,
                      answer: Answer, last: Event)
    requires JobsSound(s.jobs) && MayRun(s, now, keeper, id, answer) == Ok(leaderRuns)
    requires Agrees(job, s.jobs.specs[id], s.jobs.states[id])
    requires var next := NextState(s, now, id, leaderRuns, answer);
             && last.JobExecuted? && last.fee == FeeOf(s.jobs, now, id)
             && last.run == next.runs && last.nextRun == next.nextRun
    ensures var next := NextState(s, now, id, leaderRuns, answer);
            var noticed := BeforeExecuted(job, GivesUp(s.config, next.failures, answer.targetSucceeds),
                                          next.balance < s.jobs.specs[id].feePerRun, next.balance);
            Agrees(ApplyToEntry(noticed, last), s.jobs.specs[id], next)
  {
    hide MayRun, RampedFee, NextRunAfter, OnCalendar, LeaderSound;
    MayRunFacts(s, now, keeper, id, answer);
    assert JobSound(id, s.jobs.specs[id], s.jobs.states[id]);
    RampedFeeBounds(s.jobs.specs[id], s.jobs.states[id], now);
  }

  lemma RunEventsShape(s: Storage, now: u64, keeper: Address, id: u64, leaderRuns: u32, answer: Answer)
    returns (miss: seq<Event>, last: Event)
    requires Exists(s.jobs, id)
    ensures |miss| <= 1 && (forall e :: e in miss ==> !AboutJob(e))
    ensures var next := NextState(s, now, id, leaderRuns, answer);
            && last.JobExecuted? && last.jobId == id && last.fee == FeeOf(s.jobs, now, id)
            && last.run == next.runs && last.nextRun == next.nextRun
            && RunEvents(s, now, keeper, id, leaderRuns, answer)
               == (if GivesUp(s.config, next.failures, answer.targetSucceeds) then [JobDeactivated(id)] else [])
                  + (if next.balance < s.jobs.specs[id].feePerRun then [JobExhausted(id, next.balance)] else [])
                  + miss + [last]
  {
    hide NextState, FeeOf, Missed, GivesUp, SplitFee;
    var events := RunEvents(s, now, keeper, id, leaderRuns, answer);
    var missed := Missed(s, now, keeper, id);
    miss :=
      if missed.Some? && missed.value in s.staff.keepers then [KeeperMissedWindow(missed.value, id, keeper)] else [];
    last := events[|events| - 1];
  }

  lemma OptionalEvent(index: Index, events: seq<Event>, fetched: Index) returns (index': Index)
    requires |events| <= 1
    ensures index' == Replay(index, events, fetched)
    ensures index' == if events == [] then index else Apply(index, events[0], fetched)
  {
    index' := Replay(index, events, fetched);
    if events != [] {
      assert events == [events[0]];
      ReplayOne(index, events[0], fetched);
    }
  }

  lemma RunKeepsStep(index: Index, s: Storage, now: u64, keeper: Address, id: u64, answer: Answer)
    requires InStep(index, s.jobs) && Indexed(s.jobs) && JobsSound(s.jobs) && Execute(s, now, keeper, id, answer).Ok?
    ensures var s' := Execute(s, now, keeper, id, answer).value;
            InStep(Replay(index, NewEvents(s, s'), View(s'.jobs)), s'.jobs)
  {
    hide Execute, MayRun, RunEvents, Settle, Replay, Agrees, NextState, JobsSound;
    var s' := Execute(s, now, keeper, id, answer).value;
    ExecuteEffect(s, now, keeper, id, answer);
    var leaderRuns := MayRun(s, now, keeper, id, answer).value;
    var events := RunEvents(s, now, keeper, id, leaderRuns, answer);
    assert NewEvents(s, s') == events;
    assert id in View(s.jobs);
    assert Agrees(index[id], s.jobs.specs[id], s.jobs.states[id]);
    RunReplayed(index, s, now, keeper, id, leaderRuns, answer, View(s'.jobs));
    var index' := Replay(index, events, View(s'.jobs));
    assert View(s'.jobs).Keys == View(s.jobs).Keys;
    OneJobInStep(index, s.jobs, index', s'.jobs, id);
  }

  lemma SilentOpKeepsStep(index: Index, s: Storage, now: u64, op: Op)
    requires InStep(index, s.jobs) && Step(s, now, op).Ok?
    requires LeavesJobs(op) || op.ProposeOwner? || op.AcceptOwner?
    ensures InStep(Replay(index, NewEvents(s, After(s, now, op)), View(After(s, now, op).jobs)), After(s, now, op).jobs)
  {
    SilentOpTellsNothing(s, now, op);
    hide After, Step, Agrees, InStep, Replay;
    NothingAboutJobs(index, s, After(s, now, op));
  }

  lemma SilentOpTellsNothing(s: Storage, now: u64, op: Op)
    requires Step(s, now, op).Ok?
    requires LeavesJobs(op) || op.ProposeOwner? || op.AcceptOwner?
    ensures var s' := After(s, now, op);
            && View(s'.jobs) == View(s.jobs) && s'.jobs.states == s.jobs.states
            && (s'.log == s.log || exists e :: s'.log == s.log + [e] && !AboutJob(e))
  {
    hide Transfer, Administer, UnbondingRelease, RemoveOwnerJob, AddOwnerJob, ResetWindows;
    match op
    case AddStake(_, _) =>
    case Unbond(_) =>
    case Release(_) =>
    case RunNothing(keeper) => RewrittenReadsTheSame(s, keeper);
    case TokenMove(_, _, _, _) =>
    case Admin(caller, call) => AdministerEffect(s, now, caller, call);
    case ProposeOwner(_, _, _) =>
    case AcceptOwner(_, id) => HandOverFrame(s.jobs, id, s.jobs.pendingOwners[id]);
  }

  lemma NothingAboutJobs(index: Index, s: Storage, s': Storage)
    requires InStep(index, s.jobs) && View(s'.jobs) == View(s.jobs)
    requires s'.jobs.states == s.jobs.states
    requires s'.log == s.log || exists e :: s'.log == s.log + [e] && !AboutJob(e)
    ensures InStep(Replay(index, NewEvents(s, s'), View(s'.jobs)), s'.jobs)
  {
    hide Agrees, Replay;
    var events := NewEvents(s, s');
    var index' := OptionalEvent(index, events, View(s'.jobs));
    assert index' == index;
    forall id | id in index
      ensures Agrees(index[id], s'.jobs.specs[id], s'.jobs.states[id])
    {
      assert id in View(s.jobs) && View(s'.jobs)[id] == View(s.jobs)[id];
      SameEntry(index[id], s.jobs.specs[id], s.jobs.states[id], s'.jobs.specs[id]);
    }
  }

  /** Replaying a transaction's events, with refetches as of that transaction, keeps the index in step. */
  lemma StepKeepsStep(index: Index, s: Storage, now: u64, op: Op)
    requires InStep(index, s.jobs) && Indexed(s.jobs) && JobsSound(s.jobs)
    ensures InStep(Replay(index, NewEvents(s, After(s, now, op)), View(After(s, now, op).jobs)), After(s, now, op).jobs)
  {
    hide InStep, Indexed, JobsSound, View, CreateJob, UpdateJob, FundJob, CancelJob, WithdrawJobBalance, SetJobActive,
      ProposeJobOwner, AcceptJobOwner, Execute, Stake, BeginUnbonding, ReleaseStake, Administer, MoveToken;
    if Step(s, now, op).Err? {
      assert NewEvents(s, s) == [];
    } else {
      match op
      case Create(owner, params, deposit) => CreateKeepsStep(index, s, now, owner, params, deposit);
      case Cancel(caller, id) => CancelKeepsStep(index, s, caller, id);
      case Run(keeper, id, answer) => RunKeepsStep(index, s, now, keeper, id, answer);
      case Update(_, _, _) => EditKeepsStep(index, s, now, op);
      case Fund(_, _, _) => EditKeepsStep(index, s, now, op);
      case Withdraw(_, _, _) => EditKeepsStep(index, s, now, op);
      case SetActive(_, _, _) => EditKeepsStep(index, s, now, op);
      case _ => SilentOpKeepsStep(index, s, now, op);
    }
  }

  /** The index of a keeper that took its snapshot at moment `i` and replayed every event since, once. */
  ghost function Followed(h: seq<Moment>, i: nat, n: nat): Index
    requires i <= n < |h|
    decreases n - i
  {
    if n == i then View(h[i].after.jobs)
    else Replay(Followed(h, i, n - 1), NewEvents(h[n - 1].after, h[n].after), View(h[n].after.jobs))
  }

  /** From any snapshot on, over any history, the index names exactly the due jobs at every time. */
  lemma {:induction false} IndexAgreesForever(h: seq<Moment>, i: nat, n: nat)
    requires IsHistory(h) && i <= n < |h|
    ensures InStep(Followed(h, i, n), h[n].after.jobs)
    ensures forall id: u64, now: u64 ::
              (id in Followed(h, i, n) && MightBeDue(Followed(h, i, n)[id], now))
              <==> (Exists(h[n].after.jobs, id)
                    && EnsureDue(h[n].after.jobs.specs[id], h[n].after.jobs.states[id], now).Ok?)
    decreases n - i
  {
    hide After, Deployed, InStep, Indexed, JobsSound, MightBeDue, EnsureDue, Replay, NewEvents;
    if i < n {
      IndexAgreesForever(h, i, n - 1);
      ReachableIsSound(h, n - 1);
      StepKeepsStep(Followed(h, i, n - 1), h[n - 1].after, h[n].at, h[n].op.value);
    } else {
      SnapshotInStep(h[i].after.jobs);
    }
    forall id: u64, now: u64
      ensures (id in Followed(h, i, n) && MightBeDue(Followed(h, i, n)[id], now))
         <==> (Exists(h[n].after.jobs, id)
               && EnsureDue(h[n].after.jobs.specs[id], h[n].after.jobs.states[id], now).Ok?)
    {
      DueExactly(Followed(h, i, n), h[n].after.jobs, id, now);
    }
  }

  lemma SnapshotInStep(jobs: JobBook)
    ensures InStep(View(jobs), jobs)
  {
  }
}
