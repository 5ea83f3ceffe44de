/**
 * The index when `getJob` answers with a later state than the event it was
 * asked for, as it does whenever several transactions are pending.
 */
module LateRefetches {
  import opened Basics
  import opened Types
  import opened Schedules
  import opened Token
  import opened RegistrySpec
  import opened Footprints
  import opened Bookkeeping
  import opened JobFacts
  import opened Histories
  import opened JobIndexing
  import opened ReplayedEntries
  import RunCounts

  /** The index knows exactly the live jobs and never promises more about them than the registry. */
  ghost predicate CaughtUp(index: Index, jobs: JobBook) {
    && index.Keys == View(jobs).Keys
    && forall id :: id in index ==> AtMost(index[id], jobs.specs[id], jobs.states[id])
  }

  /** Whatever an index that is caught up calls due is due. */
  lemma CaughtUpIsSound(index: Index, jobs: JobBook, id: u64, now: u64)
    requires CaughtUp(index, jobs) && id in index && MightBeDue(index[id], now)
    ensures Exists(jobs, id) && EnsureDue(jobs.specs[id], jobs.states[id], now).Ok?
  {
    hide MightBeDue, EnsureDue;
    AtMostIsSound(index[id], jobs.specs[id], jobs.states[id], now);
  }

  /** At cursor `k` the entry is the registry's but for a low balance, or on its way to a refetched later state. */
  ghost predicate OnItsWay(h: seq<Moment>, job: IndexedJob, k: nat, n: nat, id: u64)
    requires k <= n < |h| && Exists(h[k].after.jobs, id)
  {
    || AtMost(job, h[k].after.jobs.specs[id], h[k].after.jobs.states[id])
    || exists m :: k <= m <= n && Leads(h, job, k, m, id)
  }

  ghost predicate Leads(h: seq<Moment>, job: IndexedJob, k: nat, m: nat, id: u64)
    requires k <= m < |h| && Exists(h[k].after.jobs, id)
  {
    Exists(h[m].after.jobs, id) && Between(job, EntryOf(h[k].after.jobs, id), EntryOf(h[m].after.jobs, id))
  }

  /** At cursor `k`, with all refetches answered by moment `n`: no dead entries, and every survivor is on its way. */
  ghost predicate Covered(h: seq<Moment>, index: Index, k: nat, n: nat)
    requires k <= n < |h|
  {
    && (forall id :: id in index ==> Exists(h[k].after.jobs, id))
    && (forall id: u64 :: Exists(h[k].after.jobs, id) && Exists(h[n].after.jobs, id) ==>
                            id in index && OnItsWay(h, index[id], k, n, id))
  }

  lemma CaughtUpIsCovered(h: seq<Moment>, index: Index, k: nat, n: nat)
    requires k <= n < |h| && CaughtUp(index, h[k].after.jobs)
    ensures Covered(h, index, k, n)
  {
    hide AtMost;
    assert forall id :: id in index <==> id in View(h[k].after.jobs);
  }

  lemma CoveredIsCaughtUp(h: seq<Moment>, index: Index, n: nat)
    requires n < |h| && Covered(h, index, n, n)
    ensures CaughtUp(index, h[n].after.jobs)
  {
    var jobs := h[n].after.jobs;
    hide AtMost, Between;
    forall id | id in index
      ensures AtMost(index[id], jobs.specs[id], jobs.states[id])
    {
      if !AtMost(index[id], jobs.specs[id], jobs.states[id]) {
        assert Leads(h, index[id], n, n, id);
        BetweenBoth(index[id], jobs.specs[id], jobs.states[id]);
      }
    }
    assert forall id :: id in index <==> id in View(jobs);
  }

  // ------------------------------------------------------------------ lives of jobs

  lemma NextIdGrows(s: Storage, now: u64, op: Op)
    ensures s.jobs.nextId <= After(s, now, op).jobs.nextId
  {
    hide Transfer, Execute, ValidateSchedule, LeaderRuns, ValidateJob, NewSpec, NewState, AddOwnerJob,
      RemoveOwnerJob, Touch, UpdatedNextRun;
    if LeavesJobs(op) {
      JobsUntouched(s, now, op);
    } else if Step(s, now, op).Ok? {
      match op
      case Run(keeper, job, answer) => ExecuteEffect(s, now, keeper, job, answer);
      case Create(owner, params, deposit) => CreateFrame(s, now, owner, params, deposit);
      case AcceptOwner(_, job) => HandOverFrame(s.jobs, job, s.jobs.pendingOwners[job]);
      case Cancel(_, _) => CancelGone(s, now, op);
      case Update(_, _, _) =>
      case Fund(_, _, _) =>
      case Withdraw(_, _, _) =>
      case SetActive(_, _, _) =>
      case ProposeOwner(_, _, _) =>
    }
  }

  lemma {:induction false} NextIdGrowsForever(h: seq<Moment>, i: nat, n: nat)
    requires i <= n < |h| && IsHistory(h)
    ensures h[i].after.jobs.nextId <= h[n].after.jobs.nextId
    decreases n - i
  {
    hide After, Deployed;
    if i < n {
      NextIdGrowsForever(h, i, n - 1);
      NextIdGrows(h[n - 1].after, h[n].at, h[n].op.value);
    }
  }

  /** A job that is live at two moments is live at every moment between. */
  lemma LiveBetween(h: seq<Moment>, i: nat, m: nat, n: nat, id: u64)
    requires i <= m <= n < |h| && IsHistory(h)
    requires Exists(h[i].after.jobs, id) && Exists(h[n].after.jobs, id)
    ensures Exists(h[m].after.jobs, id)
  {
    ReachableIsSound(h, i);
    ReachableIsSound(h, m);
    NextIdGrowsForever(h, i, m);
    hide IsHistory;
    if !Exists(h[m].after.jobs, id) {
      RunCounts.CancelledForever(h, m, n, id);
    }
  }

  // ------------------------------------------------------------------ one transaction

  /** The transaction creates or updates job `id`, so that its entry is fetched again. */
  predicate Refetches(s: Storage, now: u64, op: Op, id: u64) {
    Step(s, now, op).Ok? && ((op.Create? && id == s.jobs.nextId) || (op.Update? && op.id == id))
  }

  lemma {:induction false} KeysOfReplay(index: Index, events: seq<Event>, fetched: Index, id: u64)
    requires forall e :: e in events ==> !(e.JobCreated? && e.jobId == id) && !(e.JobUpdated? && e.jobId == id)
    ensures id in Replay(index, events, fetched) ==>
              id in index && forall e :: e in events ==> !(e.JobCancelled? && e.jobId == id)
  {
    if events != [] {
      var last := |events| - 1;
      KeysOfReplay(index, events[..last], fetched, id);
      assert events == events[..last] + [events[last]];
    }
  }

  /** Which events about job `id` a transaction publishes that concern whether it has an entry. */
  lemma PublishedLives(s: Storage, now: u64, op: Op, id: u64)
    requires Indexed(s.jobs)
    ensures var events := Published(s, now, op);
            && (Refetches(s, now, op, id) ==>
                  exists e :: events == [e] && (e == JobCreated(id) || e == JobUpdated(id)))
            && (!Refetches(s, now, op, id) ==>
                  forall e :: e in events ==> !(e.JobCreated? && e.jobId == id) && !(e.JobUpdated? && e.jobId == id))
            && (Exists(s.jobs, id) && !Exists(After(s, now, op).jobs, id) ==> JobCancelled(id) in events)
    ensures Refetches(s, now, op, id) ==> Exists(After(s, now, op).jobs, id)
    ensures Exists(After(s, now, op).jobs, id) ==> Exists(s.jobs, id) || Refetches(s, now, op, id)
  {
    hide Transfer, ValidateJob, ValidateSchedule, LeaderRuns, Touch, UpdatedNextRun, RemoveOwnerJob, AddOwnerJob,
      UnbondingRelease, NewSpec, NewState, Administer, Execute, MayRun, RunEvents, NextState, Settle, Indexed;
    if Step(s, now, op).Ok? {
      if LeavesJobs(op) {
        JobsUntouched(s, now, op);
      } else {
        match op
        case Create(owner, params, deposit) => CreateFrame(s, now, owner, params, deposit);
        case AcceptOwner(_, j) => HandOverFrame(s.jobs, j, s.jobs.pendingOwners[j]);
        case Cancel(_, j) => CancelGone(s, now, op);
        case Run(keeper, job, answer) => RunTellsNoLives(s, now, keeper, job, answer);
        case Update(_, _, _) =>
        case Fund(_, _, _) =>
        case Withdraw(_, _, _) =>
        case SetActive(_, _, _) =>
        case ProposeOwner(_, _, _) =>
      }
    }
  }

  lemma RunTellsNoLives(s: Storage, now: u64, keeper: Address, id: u64, answer: Answer)
    requires Execute(s, now, keeper, id, answer).Ok?
    ensures Execute(s, now, keeper, id, answer).value.jobs.states.Keys == s.jobs.states.Keys
    ensures Execute(s, now, keeper, id, answer).value.jobs.specs == s.jobs.specs
    ensures forall e :: e in Published(s, now, Run(keeper, id, answer)) ==>
                          !e.JobCreated? && !e.JobUpdated? && !e.JobCancelled?
  {
    hide Execute, MayRun, NextState, Settle, FeeOf, Missed, GivesUp, SplitFee;
    ExecuteEffect(s, now, keeper, id, answer);
  }

  /** An entry that the transaction fetched again is the one that was answered. */
  lemma RefetchedEntry(index: Index, s: Storage, now: u64, op: Op, id: u64, fetched: Index)
    requires Indexed(s.jobs) && Refetches(s, now, op, id) && id in fetched
    ensures var index' := Replay(index, NewEvents(s, After(s, now, op)), fetched);
            id in index' && index'[id] == fetched[id]
  {
    PublishedLives(s, now, op, id);
    StepPublishes(s, now, op);
    hide After, Step, Published, Indexed, Refetches, Replay;
    var e :| Published(s, now, op) == [e] && (e == JobCreated(id) || e == JobUpdated(id));
    assert NewEvents(s, After(s, now, op)) == [e];
    ReplayOne(index, e, fetched);
  }

  /** No entry outlives its job. */
  lemma NoDeadEntries(index: Index, s: Storage, now: u64, op: Op, id: u64, fetched: Index)
    requires Indexed(s.jobs) && (id in index ==> Exists(s.jobs, id))
    ensures id in Replay(index, NewEvents(s, After(s, now, op)), fetched) ==> Exists(After(s, now, op).jobs, id)
  {
    PublishedLives(s, now, op, id);
    StepPublishes(s, now, op);
    hide After, Step, Published, Indexed, Refetches, Replay;
    assert NewEvents(s, After(s, now, op)) == Published(s, now, op);
    if !Refetches(s, now, op, id) {
      KeysOfReplay(index, Published(s, now, op), fetched, id);
    }
  }

  lemma RejectedChangesNothing(index: Index, s: Storage, now: u64, op: Op, fetched: Index)
    requires Step(s, now, op).Err?
    ensures After(s, now, op) == s && Replay(index, NewEvents(s, After(s, now, op)), fetched) == index
  {
    hide Step;
    assert NewEvents(s, s) == [];
  }

  // ------------------------------------------------------------------ one transaction of a history

  /** The survivor `id` stays on its way when the events of moment `k + 1` are replayed. */
  lemma SurvivorStaysOnItsWay(h: seq<Moment>, index: Index, k: nat, n: nat, a: nat, id: u64)
    requires k < n < |h| && k + 1 <= a <= n && IsHistory(h)
    requires Exists(h[k + 1].after.jobs, id) && Exists(h[n].after.jobs, id)
    requires Covered(h, index, k, n)
    ensures var index' := Replay(index, NewEvents(h[k].after, h[k + 1].after), View(h[a].after.jobs));
            id in index' && OnItsWay(h, index'[id], k + 1, n, id)
  {
    var s, now, op := h[k].after, h[k + 1].at, h[k + 1].op.value;
    NextMoment(h, k);
    LiveBetween(h, k + 1, a, n, id);
    hide IsHistory, After, Indexed, JobsSound, Replay, NewEvents, AtMost, Between, Refetches, EntryOf;
    PublishedLives(s, now, op, id);
    if Refetches(s, now, op, id) {
      RefetchedEntry(index, s, now, op, id, View(h[a].after.jobs));
      BetweenSelf(EntryOf(h[k + 1].after.jobs, id), EntryOf(h[a].after.jobs, id));
      ViewIsEntry(h[a].after.jobs, id);
      assert Leads(h, EntryOf(h[a].after.jobs, id), k + 1, a, id);
    } else {
      KeptOnItsWay(h, index, k, n, View(h[a].after.jobs), id);
    }
  }

  /** An entry that is not fetched again follows its job's events. */
  lemma KeptOnItsWay(h: seq<Moment>, index: Index, k: nat, n: nat, fetched: Index, id: u64)
    requires k < n < |h| && IsHistory(h) && Covered(h, index, k, n)
    requires Exists(h[k].after.jobs, id) && Exists(h[k + 1].after.jobs, id) && Exists(h[n].after.jobs, id)
    requires h[k + 1].op.Some? && !Refetches(h[k].after, h[k + 1].at, h[k + 1].op.value, id)
    ensures var index' := Replay(index, NewEvents(h[k].after, h[k + 1].after), fetched);
            id in index' && OnItsWay(h, index'[id], k + 1, n, id)
  {
    var s, now, op := h[k].after, h[k + 1].at, h[k + 1].op.value;
    NextMoment(h, k);
    var m := Target(h, index[id], k, n, id);
    hide IsHistory, After, Indexed, JobsSound, Replay, NewEvents, AtMost, Between, EntryOf, Covered;
    if Step(s, now, op).Err? {
      RejectedChangesNothing(index, s, now, op, fetched);
      assert k < m ==> Leads(h, index[id], k + 1, m, id);
    } else {
      hide Step;
      if m == k {
        CaughtUpStep(index, fetched, s, now, op, id);
      } else {
        LateStep(index, fetched, s, now, op, id, EntryOf(h[m].after.jobs, id));
        assert Leads(h, Replay(index, NewEvents(s, h[k + 1].after), fetched)[id], k + 1, m, id);
      }
    }
  }

  /** Where an entry is heading: to a later moment, or nowhere when it is the registry's already. */
  lemma Target(h: seq<Moment>, job: IndexedJob, k: nat, n: nat, id: u64) returns (m: nat)
    requires k <= n < |h| && Exists(h[k].after.jobs, id) && OnItsWay(h, job, k, n, id)
    ensures k <= m <= n
    ensures m == k ==> AtMost(job, h[k].after.jobs.specs[id], h[k].after.jobs.states[id])
    ensures k < m ==> Leads(h, job, k, m, id)
  {
    hide AtMost, Between;
    if AtMost(job, h[k].after.jobs.specs[id], h[k].after.jobs.states[id]) {
      m := k;
    } else {
      m :| k <= m <= n && Leads(h, job, k, m, id);
      if m == k {
        BetweenBoth(job, h[k].after.jobs.specs[id], h[k].after.jobs.states[id]);
      }
    }
  }

  lemma NextMoment(h: seq<Moment>, k: nat)
    requires k + 1 < |h| && IsHistory(h)
    ensures h[k + 1].op.Some? && h[k + 1].after == After(h[k].after, h[k + 1].at, h[k + 1].op.value)
    ensures Indexed(h[k].after.jobs) && JobsSound(h[k].after.jobs)
  {
    ReachableIsSound(h, k);
    hide After, Deployed;
  }

  lemma ViewIsEntry(jobs: JobBook, id: u64)
    requires Exists(jobs, id)
    ensures id in View(jobs) && View(jobs)[id] == EntryOf(jobs, id)
  {
  }

  lemma StepKeepsCovered(h: seq<Moment>, index: Index, k: nat, n: nat, a: nat)
    requires k < n < |h| && k + 1 <= a <= n && IsHistory(h) && Covered(h, index, k, n)
    ensures Covered(h, Replay(index, NewEvents(h[k].after, h[k + 1].after), View(h[a].after.jobs)), k + 1, n)
  {
    var index' := Replay(index, NewEvents(h[k].after, h[k + 1].after), View(h[a].after.jobs));
    NextMoment(h, k);
    hide IsHistory, After, Replay, NewEvents, OnItsWay, Indexed, JobsSound, View;
    forall id | id in index'
      ensures Exists(h[k + 1].after.jobs, id)
    {
      NoDeadEntries(index, h[k].after, h[k + 1].at, h[k + 1].op.value, id, View(h[a].after.jobs));
    }
    forall id: u64 | Exists(h[k + 1].after.jobs, id) && Exists(h[n].after.jobs, id)
      ensures id in index' && OnItsWay(h, index'[id], k + 1, n, id)
    {
      SurvivorStaysOnItsWay(h, index, k, n, a, id);
    }
  }

  // ------------------------------------------------------------------ whole histories

  /** Every refetch made for an event after `u` is answered at or after that event, and by moment `n`. */
  predicate AnsweredBy(seen: seq<nat>, u: nat, n: nat) {
    n < |seen| && forall k :: u < k <= n ==> k <= seen[k] <= n
  }

  /** The index after replaying the events of moments `u + 1` to `k`; those of `j` fetch jobs as of moment `seen[j]`. */
  ghost function FollowedLate(h: seq<Moment>, start: Index, seen: seq<nat>, u: nat, k: nat, n: nat): Index
    requires u <= k <= n < |h| && AnsweredBy(seen, u, n)
    decreases k - u
  {
    if k == u then start
    else
      Replay(FollowedLate(h, start, seen, u, k - 1, n), NewEvents(h[k - 1].after, h[k].after),
             View(h[seen[k]].after.jobs))
  }

  /** Part-way, too, every entry is on its way and none is dead. */
  lemma {:induction false} LateRefetchesStayCovered(h: seq<Moment>, start: Index, seen: seq<nat>, u: nat, k: nat,
                                                    n: nat)
    requires u <= k <= n < |h| && AnsweredBy(seen, u, n) && IsHistory(h)
    requires Covered(h, start, u, n)
    ensures Covered(h, FollowedLate(h, start, seen, u, k, n), k, n)
    decreases k - u
  {
    hide IsHistory, Covered, Replay, NewEvents, View;
    if u < k {
      LateRefetchesStayCovered(h, start, seen, u, k - 1, n);
      StepKeepsCovered(h, FollowedLate(h, start, seen, u, k - 1, n), k - 1, n, seen[k]);
    }
  }

  /**
   * However late each refetch is answered, an index that was caught up and has
   * replayed every event since, up to the moment of the last answer, is caught
   * up again: it holds exactly the live jobs, and what it calls due is due.
   */
  lemma LateRefetchesAreSound(h: seq<Moment>, start: Index, seen: seq<nat>, u: nat, n: nat)
    requires u <= n < |h| && AnsweredBy(seen, u, n) && IsHistory(h)
    requires CaughtUp(start, h[u].after.jobs)
    ensures var index := FollowedLate(h, start, seen, u, n, n);
            && CaughtUp(index, h[n].after.jobs)
            && forall id: u64, now: u64 :: id in index && MightBeDue(index[id], now) ==>
                 && Exists(h[n].after.jobs, id)
                 && EnsureDue(h[n].after.jobs.specs[id], h[n].after.jobs.states[id], now).Ok?
  {
    hide IsHistory, Covered, CaughtUp, MightBeDue, EnsureDue, FollowedLate;
    var index := FollowedLate(h, start, seen, u, n, n);
    CaughtUpIsCovered(h, start, u, n);
    LateRefetchesStayCovered(h, start, seen, u, n, n);
    CoveredIsCaughtUp(h, index, n);
    forall id: u64, now: u64 | id in index && MightBeDue(index[id], now)
      ensures Exists(h[n].after.jobs, id)
      ensures EnsureDue(h[n].after.jobs.specs[id], h[n].after.jobs.states[id], now).Ok?
    {
      CaughtUpIsSound(index, h[n].after.jobs, id, now);
    }
  }

  // ------------------------------------------------------------------ one sync

  lemma LogGrows(s: Storage, now: u64, op: Op)
    ensures s.log <= After(s, now, op).log
    ensures s.log + NewEvents(s, After(s, now, op)) == After(s, now, op).log
  {
    hide After, Published;
    StepPublishes(s, now, op);
  }

  lemma {:induction false} LogGrowsForever(h: seq<Moment>, u: nat, n: nat)
    requires u <= n < |h| && IsHistory(h)
    ensures h[u].after.log <= h[n].after.log
    decreases n - u
  {
    hide After, Deployed, NewEvents;
    if u < n {
      LogGrowsForever(h, u, n - 1);
      LogGrows(h[n - 1].after, h[n].at, h[n].op.value);
    }
  }

  /** A sync replays everything since the cursor and fetches jobs as they are when it runs. */
  lemma {:induction false} SyncIsFollowing(h: seq<Moment>, start: Index, u: nat, k: nat, n: nat)
    requires u <= k <= n < |h| && IsHistory(h)
    ensures h[u].after.log <= h[k].after.log
    ensures var seen := seq(n + 1, _ => n);
            AnsweredBy(seen, u, n)
            && Replay(start, h[k].after.log[|h[u].after.log|..], View(h[n].after.jobs))
               == FollowedLate(h, start, seen, u, k, n)
    decreases k - u
  {
    hide IsHistory, After, Replay, View, NewEvents;
    LogGrowsForever(h, u, k);
    var from, views := |h[u].after.log|, View(h[n].after.jobs);
    if u < k {
      SyncIsFollowing(h, start, u, k - 1, n);
      BacklogGrows(h, u, k);
      ReplayConcat(start, h[k - 1].after.log[from..], NewEvents(h[k - 1].after, h[k].after), views);
    } else {
      NothingPending(h[u].after.log, start, views);
    }
  }

  /** The events since the cursor, one transaction later. */
  lemma BacklogGrows(h: seq<Moment>, u: nat, k: nat)
    requires u < k < |h| && IsHistory(h)
    ensures h[u].after.log <= h[k - 1].after.log && h[u].after.log <= h[k].after.log
    ensures h[k].after.log[|h[u].after.log|..]
         == h[k - 1].after.log[|h[u].after.log|..] + NewEvents(h[k - 1].after, h[k].after)
  {
    hide IsHistory, After, NewEvents, Indexed, JobsSound;
    LogGrowsForever(h, u, k - 1);
    LogGrowsForever(h, u, k);
    NextMoment(h, k - 1);
    LogGrows(h[k - 1].after, h[k].at, h[k].op.value);
  }

  lemma NothingPending(log: seq<Event>, index: Index, views: Index)
    ensures Replay(index, log[|log|..], views) == index
  {
    assert log[|log|..] == [];
  }

  /** What a sync leaves: an index that is caught up with the registry as it is when the sync ends. */
  lemma SyncCatchesUp(h: seq<Moment>, start: Index, u: nat)
    requires u < |h| && IsHistory(h) && CaughtUp(start, h[u].after.jobs)
    ensures h[u].after.log <= h[|h| - 1].after.log
    ensures var chain := h[|h| - 1].after;
            CaughtUp(Replay(start, chain.log[|h[u].after.log|..], View(chain.jobs)), chain.jobs)
  {
    hide IsHistory, CaughtUp, FollowedLate, Replay, View;
    var n := |h| - 1;
    SyncIsFollowing(h, start, u, n, n);
    LateRefetchesAreSound(h, start, seq(n + 1, _ => n), u, n);
  }
}
