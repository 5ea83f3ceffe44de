/**
 * Exactly which due jobs a sync finds: a refetched balance already reflects
 * the runs that are replayed after it, so their fees are subtracted twice.
 */
module SyncBalances {
  import opened Basics
  import opened Types
  import opened Schedules
  import opened Token
  import opened RegistrySpec
  import opened Footprints
  import opened Bookkeeping
  import opened JobFacts
  import opened Histories
  import opened JobIndexing
  import opened ReplayedEntries
  import opened LateRefetches

  /**
   * How far an entry's balance is below the one it is judged by: the replayed
   * balance while it follows the events, the refetched one after a refetch.
   * `Drained` is the moment between `JobExhausted` and its `JobExecuted`.
   */
  datatype Lag = Following(short: int) | Refetched(short: int) | Drained(short: int)

  function LagAfter(lag: Lag, event: Event, id: u64): Lag {
    if !AboutJob(event) || event.jobId != id then lag
    else
      match event
      case JobCreated(_) => Refetched(0)
      case JobUpdated(_) => Refetched(0)
      case JobFunded(_, _) => Following(0)
      case JobWithdrawn(_, _) => Following(0)
      case JobExhausted(_, _) => Drained(0)
      case JobExecuted(_, _, _, fee, _, _, _, _, _) =>
        (match lag
         case Following(short) => Following(short)
         case Refetched(short) => Refetched(short + fee)
         case Drained(short) => Following(short + fee))
      case _ => lag
  }

  function LagOf(lag: Lag, events: seq<Event>, id: u64): Lag {
    if events == [] then lag else LagAfter(LagOf(lag, events[..|events| - 1], id), events[|events| - 1], id)
  }

  /** What a sync over `events` leaves missing from job `id`'s balance, for an index that stood at `index` before. */
  function Shortfall(index: Index, jobs: JobBook, events: seq<Event>, id: u64): int {
    LagOf(StartLag(index, jobs, id), events, id).short
  }

  function StartLag(index: Index, jobs: JobBook, id: u64): Lag {
    Following(if id in index && id in jobs.states then jobs.states[id].balance - index[id].balance else 0)
  }

  predicate Holds(lag: Lag, entry: int, replayed: int, fetched: int) {
    match lag
    case Following(short) => entry == replayed - short
    case Refetched(short) => entry == fetched - short
    case Drained(_) => false
  }

  lemma {:induction false} LagConcat(lag: Lag, a: seq<Event>, b: seq<Event>, id: u64)
    ensures LagOf(lag, a + b, id) == LagOf(LagOf(lag, a, id), b, id)
  {
    if b == [] {
      assert a + b == a;
    } else {
      assert (a + b)[..|a + b| - 1] == a + b[..|b| - 1];
      LagConcat(lag, a, b[..|b| - 1], id);
    }
  }

  lemma LagOfOne(lag: Lag, event: Event, id: u64)
    ensures LagOf(lag, [event], id) == LagAfter(lag, event, id)
  {
    assert [event][..0] == [];
    assert LagOf(lag, [], id) == lag;
  }

  lemma {:induction false} LagIgnores(lag: Lag, events: seq<Event>, id: u64)
    requires forall e :: e in events ==> !(AboutJob(e) && e.jobId == id)
    ensures LagOf(lag, events, id) == lag
  {
    if events != [] {
      LagIgnores(lag, events[..|events| - 1], id);
    }
  }

  // ------------------------------------------------------------------ one transaction

  lemma LagStep(job: IndexedJob, s: Storage, now: u64, op: Op, id: u64, lag: Lag, fetched: int)
    requires Indexed(s.jobs) && JobsSound(s.jobs) && Step(s, now, op).Ok? && !IsUpdateOf(op, id)
    requires Exists(s.jobs, id) && Exists(After(s, now, op).jobs, id)
    requires Holds(lag, job.balance, s.jobs.states[id].balance, fetched)
    ensures Holds(LagOf(lag, Published(s, now, op), id), ReplayEntry(job, Published(s, now, op), id).balance,
                  After(s, now, op).jobs.states[id].balance, fetched)
  {
    if op.Run? && op.id == id {
      LagRun(job, s, now, op, id, lag, fetched);
    } else if (op.Fund? || op.Withdraw? || op.SetActive?) && op.id == id {
      LagEdit(job, s, now, op, id, lag, fetched);
    } else {
      hide Step, After, Indexed, JobsSound, Published, ReplayEntry, LagOf;
      OtherJobsEntry(s, now, op, id);
      NothingForEntry(job, Published(s, now, op), id);
      LagIgnores(lag, Published(s, now, op), id);
    }
  }

  lemma LagEdit(job: IndexedJob, s: Storage, now: u64, op: Op, id: u64, lag: Lag, fetched: int)
    requires (op.Fund? || op.Withdraw? || op.SetActive?) && op.id == id && Step(s, now, op).Ok?
    requires Exists(s.jobs, id) && Exists(After(s, now, op).jobs, id)
    requires Holds(lag, job.balance, s.jobs.states[id].balance, fetched)
    ensures Holds(LagOf(lag, Published(s, now, op), id), ReplayEntry(job, Published(s, now, op), id).balance,
                  After(s, now, op).jobs.states[id].balance, fetched)
  {
    hide Transfer, Touch, ReplayEntry, LagOf;
    var e :=
      match op
      case Fund(_, _, amount) => JobFunded(id, s.jobs.states[id].balance + amount)
      case Withdraw(_, _, amount) => JobWithdrawn(id, s.jobs.states[id].balance - amount)
      case SetActive(_, _, active) => JobActiveSet(id, active);
    ReplayEntryOne(job, e, id);
    LagOfOne(lag, e, id);
    match op
    case Fund(_, _, _) =>
    case Withdraw(_, _, _) =>
    case SetActive(_, _, _) =>
  }

  lemma LagRun(job: IndexedJob, s: Storage, now: u64, op: Op, id: u64, lag: Lag, fetched: int)
    requires JobsSound(s.jobs) && op.Run? && op.id == id && Step(s, now, op).Ok?
    requires Exists(s.jobs, id) && Exists(After(s, now, op).jobs, id)
    requires Holds(lag, job.balance, s.jobs.states[id].balance, fetched)
    ensures Holds(LagOf(lag, Published(s, now, op), id), ReplayEntry(job, Published(s, now, op), id).balance,
                  After(s, now, op).jobs.states[id].balance, fetched)
  {
    hide Execute, MayRun, RunEvents, Settle, NextRunAfter, RampedFee, OnCalendar, LeaderSound, ReplayEntry, LagOf,
      FeeOf;
    ExecuteEffect(s, now, op.keeper, id, op.answer);
    var leaderRuns := MayRun(s, now, op.keeper, id, op.answer).value;
    var miss, last := RunEventsShape(s, now, op.keeper, id, leaderRuns, op.answer);
    var next := NextState(s, now, id, leaderRuns, op.answer);
    var stopped := GivesUp(s.config, next.failures, op.answer.targetSucceeds);
    LagNotices(job, id, stopped, next.balance < s.jobs.specs[id].feePerRun, next.balance, miss, last, lag);
  }

  /** The events of a run, for an entry and for its lag. */
  lemma LagNotices(job: IndexedJob, id: u64, stopped: bool, exhausted: bool, balance: int, miss: seq<Event>,
                   last: Event, lag: Lag)
    requires |miss| <= 1 && (forall e :: e in miss ==> !AboutJob(e)) && last.JobExecuted? && last.jobId == id
    ensures var events := (if stopped then [JobDeactivated(id)] else [])
                          + (if exhausted then [JobExhausted(id, balance)] else []) + miss + [last];
            && ReplayEntry(job, events, id).balance == (if exhausted then balance else job.balance) - last.fee
            && LagOf(lag, events, id) == LagAfter(if exhausted then Drained(0) else lag, last, id)
  {
    var a := if stopped then [JobDeactivated(id)] else [];
    var b := if exhausted then [JobExhausted(id, balance)] else [];
    hide ReplayEntry, LagOf;
    PrefixForBoth(job, [], a, id, lag);
    LagOptional(job, a, id, lag);
    LagOptional(ReplayEntry(job, a, id), b, id, LagOf(lag, a, id));
    PrefixForBoth(job, a, b, id, lag);
    NothingForEntry(ReplayEntry(job, a + b, id), miss, id);
    LagIgnores(LagOf(lag, a + b, id), miss, id);
    PrefixForBoth(job, a + b, miss, id, lag);
    PrefixForBoth(job, a + b + miss, [last], id, lag);
    LagOptional(ReplayEntry(job, a + b + miss, id), [last], id, LagOf(lag, a + b + miss, id));
  }

  lemma PrefixForBoth(job: IndexedJob, a: seq<Event>, b: seq<Event>, id: u64, lag: Lag)
    ensures ReplayEntry(job, a + b, id) == ReplayEntry(ReplayEntry(job, a, id), b, id)
    ensures LagOf(lag, a + b, id) == LagOf(LagOf(lag, a, id), b, id)
  {
    ReplayEntryConcat(job, a, b, id);
    LagConcat(lag, a, b, id);
  }

  lemma LagOptional(job: IndexedJob, events: seq<Event>, id: u64, lag: Lag)
    requires |events| <= 1
    ensures ReplayEntry(job, events, id)
         == if events != [] && AboutJob(events[0]) && events[0].jobId == id then ApplyToEntry(job, events[0]) else job
    ensures LagOf(lag, events, id) == if events == [] then lag else LagAfter(lag, events[0], id)
  {
    if events != [] {
      assert events == [events[0]];
      ReplayEntryOne(job, events[0], id);
      LagOfOne(lag, events[0], id);
    }
  }

  // ------------------------------------------------------------------ a whole sync

  /** Part-way through a sync at moment `n`, every survivor's balance is as far off as its lag says. */
  lemma {:induction false} LagTracks(h: seq<Moment>, start: Index, u: nat, k: nat, n: nat, id: u64)
    requires u <= k <= n < |h| && IsHistory(h) && CaughtUp(start, h[u].after.jobs)
    requires Exists(h[k].after.jobs, id) && Exists(h[n].after.jobs, id)
    ensures h[u].after.log <= h[k].after.log
    ensures var backlog := h[k].after.log[|h[u].after.log|..];
            var index := Replay(start, backlog, View(h[n].after.jobs));
            && id in index
            && Holds(LagOf(StartLag(start, h[u].after.jobs, id), backlog, id), index[id].balance,
                     h[k].after.jobs.states[id].balance, h[n].after.jobs.states[id].balance)
    decreases k - u
  {
    hide IsHistory, After, Step, CaughtUp, Replay, View, NewEvents, LagOf, Holds, Indexed, JobsSound, Published,
      Refetches;
    LogGrowsForever(h, u, k);
    if u == k {
      NothingPending(h[u].after.log, start, View(h[n].after.jobs));
      StartHolds(h[u].after.jobs, start, h[u].after.log, id, h[n].after.jobs.states[id].balance);
    } else {
      var s, now, op := h[k - 1].after, h[k].at, h[k].op;
      NextMoment(h, k - 1);
      BacklogGrows(h, u, k);
      var before := s.log[|h[u].after.log|..];
      var index := Replay(start, before, View(h[n].after.jobs));
      var lag := LagOf(StartLag(start, h[u].after.jobs, id), before, id);
      ReplayConcat(start, before, NewEvents(s, h[k].after), View(h[n].after.jobs));
      LagConcat(StartLag(start, h[u].after.jobs, id), before, NewEvents(s, h[k].after), id);
      if !Refetches(s, now, op.value, id) {
        PublishedLives(s, now, op.value, id);
        LagTracks(h, start, u, k - 1, n, id);
      }
      LagTracksOne(index, s, now, op.value, id, lag, h[n].after.jobs);
    }
  }

  lemma StartHolds(jobs: JobBook, start: Index, log: seq<Event>, id: u64, fetched: int)
    requires CaughtUp(start, jobs) && Exists(jobs, id)
    ensures id in start
    ensures Holds(LagOf(StartLag(start, jobs, id), log[|log|..], id), start[id].balance, jobs.states[id].balance,
                  fetched)
  {
    assert id in View(jobs);
    assert log[|log|..] == [];
  }

  lemma LagTracksOne(index: Index, s: Storage, now: u64, op: Op, id: u64, lag: Lag, views: JobBook)
    requires Indexed(s.jobs) && JobsSound(s.jobs) && Exists(After(s, now, op).jobs, id) && Exists(views, id)
    requires Refetches(s, now, op, id) || (Exists(s.jobs, id) && id in index
             && Holds(lag, index[id].balance, s.jobs.states[id].balance, views.states[id].balance))
    ensures var events := NewEvents(s, After(s, now, op));
            var index' := Replay(index, events, View(views));
            id in index' && Holds(LagOf(lag, events, id), index'[id].balance, After(s, now, op).jobs.states[id].balance,
                                  views.states[id].balance)
  {
    LogGrows(s, now, op);
    StepPublishes(s, now, op);
    if Refetches(s, now, op, id) {
      ViewIsEntry(views, id);
      RefetchedEntry(index, s, now, op, id, View(views));
      PublishedLives(s, now, op, id);
      hide After, Step, Indexed, JobsSound, Replay, View, NewEvents, Published, Refetches, LagOf;
      var e :| Published(s, now, op) == [e] && (e == JobCreated(id) || e == JobUpdated(id));
      assert NewEvents(s, After(s, now, op)) == [e];
      LagOfOne(lag, e, id);
    } else if Step(s, now, op).Err? {
      RejectedChangesNothing(index, s, now, op, View(views));
      assert NewEvents(s, After(s, now, op)) == [];
    } else {
      assert !IsUpdateOf(op, id);
      hide After, Step, Indexed, JobsSound, Replay, View, NewEvents, Published, Refetches, LagOf, Holds, Between;
      assert NewEvents(s, After(s, now, op)) == Published(s, now, op);
      BetweenSelf(EntryOf(s.jobs, id), index[id]);
      LateStep(index, View(views), s, now, op, id, index[id]);
      LagStep(index[id], s, now, op, id, lag, views.states[id].balance);
    }
  }

  /**
   * What a sync finds, exactly: a job is called due if and only if it is due
   * and its balance still covers a run after the sync's shortfall is taken
   * off. The shortfall can be read off the events the sync replays.
   */
  lemma SyncFindsExactly(h: seq<Moment>, start: Index, u: nat, id: u64, now: u64)
    requires u < |h| && IsHistory(h) && CaughtUp(start, h[u].after.jobs)
    ensures h[u].after.log <= h[|h| - 1].after.log
    ensures var chain := h[|h| - 1].after;
            var backlog := chain.log[|h[u].after.log|..];
            var index := Replay(start, backlog, View(chain.jobs));
            (id in index && MightBeDue(index[id], now)) <==>
              (&& Exists(chain.jobs, id) && EnsureDue(chain.jobs.specs[id], chain.jobs.states[id], now).Ok?
               && chain.jobs.specs[id].feePerRun + Shortfall(start, h[u].after.jobs, backlog, id)
                  <= chain.jobs.states[id].balance)
  {
    hide IsHistory, CaughtUp, Replay, View, LagOf, MightBeDue, EnsureDue;
    var n := |h| - 1;
    var chain := h[n].after;
    SyncCatchesUp(h, start, u);
    var index := Replay(start, chain.log[|h[u].after.log|..], View(chain.jobs));
    if Exists(chain.jobs, id) {
      LagTracks(h, start, u, n, n, id);
      CaughtUpEntry(index, chain.jobs, id);
      DueUpToBalance(index[id], chain.jobs.specs[id], chain.jobs.states[id], now);
    } else if id in index && MightBeDue(index[id], now) {
      CaughtUpIsSound(index, chain.jobs, id, now);
    }
  }

  lemma CaughtUpEntry(index: Index, jobs: JobBook, id: u64)
    requires CaughtUp(index, jobs) && id in index && Exists(jobs, id)
    ensures AtMost(index[id], jobs.specs[id], jobs.states[id])
  {
    hide AtMost;
  }

  lemma DueUpToBalance(job: IndexedJob, spec: JobSpec, state: JobState, now: u64)
    requires AtMost(job, spec, state)
    ensures MightBeDue(job, now) <==> EnsureDue(spec, state, now).Ok? && spec.feePerRun <= job.balance
  {
  }

  // ------------------------------------------------------------------ a due job that is missed

  /**
   * An update and a run in one backlog: the refetched balance already has the
   * run's fee taken off, and loses it again. The job is due, but missed while
   * its balance is below twice its fee.
   */
  lemma DueJobCanBeMissed(h: seq<Moment>, start: Index, id: u64, now: u64)
    requires 3 <= |h| && IsHistory(h) && CaughtUp(start, h[|h| - 3].after.jobs)
    requires var n := |h| - 1;
             && h[n - 1].op.Some? && IsUpdateOf(h[n - 1].op.value, id)
             && Step(h[n - 2].after, h[n - 1].at, h[n - 1].op.value).Ok?
             && h[n].op.Some? && h[n].op.value.Run? && h[n].op.value.id == id
             && Step(h[n - 1].after, h[n].at, h[n].op.value).Ok?
    requires var jobs := h[|h| - 1].after.jobs;
             && Exists(jobs, id) && EnsureDue(jobs.specs[id], jobs.states[id], now).Ok?
             && jobs.states[id].balance < 2 * jobs.specs[id].feePerRun
    ensures h[|h| - 3].after.log <= h[|h| - 1].after.log
    ensures var chain := h[|h| - 1].after;
            var index := Replay(start, chain.log[|h[|h| - 3].after.log|..], View(chain.jobs));
            !(id in index && MightBeDue(index[id], now))
  {
    hide IsHistory, After, Step, CaughtUp, Replay, View, EnsureDue, MightBeDue, LagOf, NewEvents, Published, Indexed,
      JobsSound;
    var n := |h| - 1;
    SyncFindsExactly(h, start, n - 2, id, now);
    var lag0 := StartLag(start, h[n - 2].after.jobs, id);
    BacklogGrows(h, n - 2, n);
    LogGrowsForever(h, n - 2, n - 1);
    BacklogGrows(h, n - 2, n - 1);
    var first, second := NewEvents(h[n - 2].after, h[n - 1].after), NewEvents(h[n - 1].after, h[n].after);
    assert h[n - 2].after.log[|h[n - 2].after.log|..] == [];
    assert h[n].after.log[|h[n - 2].after.log|..] == first + second;
    LagConcat(lag0, first, second, id);
    NextMoment(h, n - 2);
    NextMoment(h, n - 1);
    UpdateRefetches(h[n - 2].after, h[n - 1].at, h[n - 1].op.value, id, lag0);
    DueIsFunded(h[n].after.jobs.specs[id], h[n].after.jobs.states[id], now);
    RunChargesAgain(h[n - 1].after, h[n].at, h[n].op.value, id);
  }

  lemma DueIsFunded(spec: JobSpec, state: JobState, now: u64)
    requires EnsureDue(spec, state, now).Ok?
    ensures spec.feePerRun <= state.balance
  {
  }

  lemma UpdateRefetches(s: Storage, now: u64, op: Op, id: u64, lag: Lag)
    requires Indexed(s.jobs) && IsUpdateOf(op, id) && Step(s, now, op).Ok?
    ensures LagOf(lag, NewEvents(s, After(s, now, op)), id) == Refetched(0)
  {
    hide Step, Indexed, LagOf;
    StepPublishes(s, now, op);
    assert NewEvents(s, After(s, now, op)) == [JobUpdated(id)];
    LagOfOne(lag, JobUpdated(id), id);
  }

  lemma RunChargesAgain(s: Storage, now: u64, op: Op, id: u64)
    requires JobsSound(s.jobs) && op.Run? && op.id == id && Step(s, now, op).Ok?
    requires Exists(After(s, now, op).jobs, id)
    requires After(s, now, op).jobs.specs[id].feePerRun <= After(s, now, op).jobs.states[id].balance
    ensures var lag := LagOf(Refetched(0), NewEvents(s, After(s, now, op)), id);
            lag.Refetched? && After(s, now, op).jobs.specs[id].feePerRun <= lag.short
  {
    hide Execute, MayRun, RunEvents, Settle, NextRunAfter, RampedFee, OnCalendar, LeaderSound, ReplayEntry, LagOf;
    ExecuteEffect(s, now, op.keeper, id, op.answer);
    StepPublishes(s, now, op);
    MayRunFacts(s, now, op.keeper, id, op.answer);
    var leaderRuns := MayRun(s, now, op.keeper, id, op.answer).value;
    var miss, last := RunEventsShape(s, now, op.keeper, id, leaderRuns, op.answer);
    var next := NextState(s, now, id, leaderRuns, op.answer);
    var stopped := GivesUp(s.config, next.failures, op.answer.targetSucceeds);
    assert JobSound(id, s.jobs.specs[id], s.jobs.states[id]);
    RampedFeeBounds(s.jobs.specs[id], s.jobs.states[id], now);
    LagNotices(EntryOf(s.jobs, id), id, stopped, false, next.balance, miss, last, Refetched(0));
    assert NewEvents(s, After(s, now, op)) == Published(s, now, op);
  }
}
