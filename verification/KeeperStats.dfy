/** A keeper's record says what the published events say about it, no more and no less. */
module KeeperStats {
  import opened Basics
  import opened Types
  import opened Schedules
  import opened Token
  import opened RegistrySpec
  import opened Footprints
  import opened Bookkeeping
  import opened JobFacts
  import opened Histories
  import opened MissedWindows
  import opened RunRules

  /** What is on a registered keeper's record. */
  datatype Stats = Stats(executions: nat, missed: nat, totalLateness: nat, lateness: u64, misses: u64)

  function StatsOf(staff: KeeperBook, k: Address): Stats
    requires k in staff.keepers
  {
    var info := staff.keepers[k];
    var recent := if k in staff.recents then staff.recents[k] else KeeperRecent(0, 0);
    Stats(info.executions, info.missed, info.totalLateness, recent.lateness, recent.misses)
  }

  /** What one event adds to keeper `k`'s record. */
  function Noted(r: Stats, e: Event, k: Address): Stats {
    if e.JobExecuted? && e.keeper == k then
      Stats(Min(U32_MAX, r.executions + 1), r.missed, Min(U64_MAX, r.totalLateness + e.lateness),
            Smooth(r.lateness, e.lateness), Smooth(r.misses, 0))
    else if e.KeeperMissedWindow? && e.keeper == k then
      r.(missed := Min(U32_MAX, r.missed + 1), misses := Smooth(r.misses, 10_000))
    else r
  }

  /** A record after a list of events. */
  function Replayed(r: Stats, events: seq<Event>, k: Address): Stats {
    if events == [] then r
    else Noted(Replayed(r, events[..|events| - 1], k), events[|events| - 1], k)
  }

  predicate Concerns(e: Event, k: Address) {
    (e.JobExecuted? && e.keeper == k) || (e.KeeperMissedWindow? && e.keeper == k)
  }

  lemma {:induction false} ReplayedConcat(r: Stats, a: seq<Event>, b: seq<Event>, k: Address)
    ensures Replayed(r, a + b, k) == Replayed(Replayed(r, a, k), b, k)
  {
    if b == [] {
      assert a + b == a;
    } else {
      ReplayedConcat(r, a, b[..|b| - 1], k);
      assert (a + b)[..|a + b| - 1] == a + b[..|b| - 1];
    }
  }

  lemma {:induction false} NothingNoted(r: Stats, events: seq<Event>, k: Address)
    requires forall e :: e in events ==> !Concerns(e, k)
    ensures Replayed(r, events, k) == r
  {
    if events != [] {
      assert !Concerns(events[|events| - 1], k);
      NothingNoted(r, events[..|events| - 1], k);
    }
  }

  // ------------------------------------------------------------------ one transaction

  /** The keeper book a run leaves. */
  lemma RunStaff(s: Storage, now: u64, keeper: Address, id: u64, answer: Answer)
    requires Execute(s, now, keeper, id, answer).Ok?
    ensures Exists(s.jobs, id) && keeper in s.staff.keepers
    ensures Execute(s, now, keeper, id, answer).value.staff
         == SaveRecord(RecordMiss(s.staff, Missed(s, now, keeper, id)), keeper,
                       RecordAfterRun(KeeperRecord(s.staff.keepers[keeper], Recent(s.staff, keeper)),
                                      Less(now, s.jobs.states[id].nextRun)))
  {
    hide MayRun, NextState, RunEvents, Settle, FeeOf, AddFee, Missed, Smooth, RecordMiss, SaveRecord, RecordAfterRun,
      EnsureActiveKeeper;
  }

  /** The last event of a run names its keeper and how late it was; the others name at most who missed it. */
  lemma RunEventsForKeepers(s: Storage, now: u64, keeper: Address, id: u64, leaderRuns: u32, answer: Answer, k: Address)
    returns (before: seq<Event>, miss: seq<Event>, last: Event)
    requires Exists(s.jobs, id)
    ensures RunEvents(s, now, keeper, id, leaderRuns, answer) == before + miss + [last]
    ensures forall e :: e in before ==> !Concerns(e, k)
    ensures var missed := Missed(s, now, keeper, id);
            miss == if missed.Some? && missed.value in s.staff.keepers
                    then [KeeperMissedWindow(missed.value, id, keeper)] else []
    ensures last.JobExecuted? && last.keeper == keeper && last.lateness == Less(now, s.jobs.states[id].nextRun)
  {
    hide NextState, FeeOf, SplitFee, GivesUp, Missed;
    var events := RunEvents(s, now, keeper, id, leaderRuns, answer);
    var missed := Missed(s, now, keeper, id);
    miss := if missed.Some? && missed.value in s.staff.keepers
            then [KeeperMissedWindow(missed.value, id, keeper)] else [];
    last := events[|events| - 1];
    before := events[..|events| - 1 - |miss|];
  }

  /** Saving a run changes the record of the keeper that ran and of the one that missed the window. */
  lemma SavedStats(staff: KeeperBook, missed: Option<Address>, keeper: Address, lateness: u64, k: Address)
    requires keeper in staff.keepers && k in staff.keepers && missed != Some(keeper)
    ensures var record := KeeperRecord(staff.keepers[keeper], Recent(staff, keeper));
            var staff' := SaveRecord(RecordMiss(staff, missed), keeper, RecordAfterRun(record, lateness));
            var r := StatsOf(staff, k);
            && k in staff'.keepers
            && StatsOf(staff', k) ==
               if k == keeper then
                 Stats(Min(U32_MAX, r.executions + 1), r.missed, Min(U64_MAX, r.totalLateness + lateness),
                       Smooth(r.lateness, lateness), Smooth(r.misses, 0))
               else if missed == Some(k) then
                 r.(missed := Min(U32_MAX, r.missed + 1), misses := Smooth(r.misses, 10_000))
               else r
  {
    hide Smooth;
  }

  lemma RunIsNoted(s: Storage, now: u64, keeper: Address, id: u64, answer: Answer, k: Address)
    requires Execute(s, now, keeper, id, answer).Ok? && k in s.staff.keepers
    ensures var s' := Execute(s, now, keeper, id, answer).value;
            && k in s'.staff.keepers
            && StatsOf(s'.staff, k)
               == Replayed(StatsOf(s.staff, k), Published(s, now, Run(keeper, id, answer)), k)
  {
    hide Execute, MayRun, RunEvents, Smooth, Missed, Settle, NextState, FeeOf, IsEligible, Replayed, StatsOf,
      RecordMiss, SaveRecord, RecordAfterRun, Recent;
    RunStaff(s, now, keeper, id, answer);
    ExecuteEffect(s, now, keeper, id, answer);
    var r := StatsOf(s.staff, k);
    var missed := Missed(s, now, keeper, id);
    if missed.Some? {
      MissedIsAnotherKeeper(s, now, keeper, id);
    }
    SavedStats(s.staff, missed, keeper, Less(now, s.jobs.states[id].nextRun), k);
    var before, miss, last :=
      RunEventsForKeepers(s, now, keeper, id, MayRun(s, now, keeper, id, answer).value, answer, k);
    ReplayedConcat(r, before + miss, [last], k);
    ReplayedConcat(r, before, miss, k);
    NothingNoted(r, before, k);
    NotedLast(r, miss, k);
    NotedLast(Replayed(r, miss, k), [last], k);
  }

  lemma NotedLast(r: Stats, events: seq<Event>, k: Address)
    requires |events| <= 1
    ensures Replayed(r, events, k) == if events == [] then r else Noted(r, events[0], k)
  {
    if events != [] {
      assert events[..0] == [];
    }
  }

  lemma StakingNotesNothing(s: Storage, now: u64, op: Op, k: Address)
    requires op.AddStake? || op.Unbond? || op.Release?
    requires k in s.staff.keepers && k in After(s, now, op).staff.keepers
    ensures StatsOf(After(s, now, op).staff, k) == StatsOf(s.staff, k)
  {
    hide Transfer, UnbondingRelease, ResetWindows;
    match op
    case AddStake(_, _) =>
    case Unbond(_) =>
    case Release(_) =>
  }

  lemma RewritingNotesNothing(s: Storage, now: u64, keeper: Address, k: Address)
    requires k in s.staff.keepers
    ensures var staff' := After(s, now, RunNothing(keeper)).staff;
            k in staff'.keepers && StatsOf(staff', k) == StatsOf(s.staff, k)
  {
    hide AuthorizeKeeper;
    RewrittenReadsTheSame(s, keeper);
  }

  lemma OthersNoteNothing(s: Storage, now: u64, op: Op, k: Address)
    requires !op.Run? && k in s.staff.keepers && k in After(s, now, op).staff.keepers
    ensures StatsOf(After(s, now, op).staff, k) == StatsOf(s.staff, k)
    ensures forall e :: e in Published(s, now, op) ==> !Concerns(e, k)
  {
    hide After, Step, UnbondingRelease, StatsOf;
    if LeavesStaff(op) {
      StaffUntouched(s, now, op);
    } else if op.RunNothing? {
      RewritingNotesNothing(s, now, op.keeper, k);
    } else {
      StakingNotesNothing(s, now, op, k);
    }
  }

  /** While a keeper stays registered, each transaction adds to its record what its events say, and nothing else. */
  lemma StepIsNoted(s: Storage, now: u64, op: Op, k: Address)
    requires k in s.staff.keepers && k in After(s, now, op).staff.keepers
    ensures StatsOf(After(s, now, op).staff, k) == Replayed(StatsOf(s.staff, k), Published(s, now, op), k)
  {
    hide Execute, StatsOf, Replayed, MayRun, RunEvents;
    if op.Run? {
      if Execute(s, now, op.keeper, op.id, op.answer).Ok? {
        RunIsNoted(s, now, op.keeper, op.id, op.answer, k);
      } else {
        NothingNoted(StatsOf(s.staff, k), [], k);
      }
    } else {
      OthersNoteNothing(s, now, op, k);
      NothingNoted(StatsOf(s.staff, k), Published(s, now, op), k);
    }
  }

  // ------------------------------------------------------------------ whole histories

  /** Keeper `k` is registered at every moment from `i` to `n`. */
  ghost predicate StaysOn(h: seq<Moment>, i: nat, n: nat, k: Address)
    requires i <= n < |h|
  {
    forall m :: i <= m <= n ==> k in h[m].after.staff.keepers
  }

  /** Over any history, a keeper's record is its record at any earlier moment plus the events published since. */
  lemma {:induction false} RecordIsTheEvents(h: seq<Moment>, i: nat, n: nat, k: Address)
    requires i <= n < |h| && StaysOn(h, i, n, k)
    requires IsHistory(h)
    ensures |h[i].after.log| <= |h[n].after.log|
    ensures StatsOf(h[n].after.staff, k)
         == Replayed(StatsOf(h[i].after.staff, k), h[n].after.log[|h[i].after.log|..], k)
    decreases n - i
  {
    hide After, Deployed, StatsOf, Replayed, Published;
    if i < n {
      RecordIsTheEvents(h, i, n - 1, k);
      var s, now, op := h[n - 1].after, h[n].at, h[n].op.value;
      assert h[n].after == After(s, now, op);
      StepPublishes(s, now, op);
      StepIsNoted(s, now, op, k);
      var since := s.log[|h[i].after.log|..];
      assert h[n].after.log[|h[i].after.log|..] == since + Published(s, now, op);
      ReplayedConcat(StatsOf(h[i].after.staff, k), since, Published(s, now, op), k);
    } else {
      assert h[n].after.log[|h[n].after.log|..] == [];
      NothingNoted(StatsOf(h[n].after.staff, k), [], k);
    }
  }

  /** How many of the events record a run by `k`, or a window that `k` missed. */
  function RunsBy(events: seq<Event>, k: Address): nat {
    if events == [] then 0
    else
      var last := events[|events| - 1];
      RunsBy(events[..|events| - 1], k) + if last.JobExecuted? && last.keeper == k then 1 else 0
  }

  function MissesOf(events: seq<Event>, k: Address): nat {
    if events == [] then 0
    else
      var last := events[|events| - 1];
      MissesOf(events[..|events| - 1], k) + if last.KeeperMissedWindow? && last.keeper == k then 1 else 0
  }

  lemma {:induction false} ReplayedCounts(r: Stats, events: seq<Event>, k: Address)
    requires r.executions <= U32_MAX && r.missed <= U32_MAX
    ensures Replayed(r, events, k).executions == Min(U32_MAX, r.executions + RunsBy(events, k))
    ensures Replayed(r, events, k).missed == Min(U32_MAX, r.missed + MissesOf(events, k))
  {
    hide Smooth;
    if events != [] {
      ReplayedCounts(r, events[..|events| - 1], k);
    }
  }

  /** The two counters, at the width they are stored in. */
  lemma CountersAreTheEvents(h: seq<Moment>, i: nat, n: nat, k: Address)
    requires i <= n < |h| && StaysOn(h, i, n, k)
    requires IsHistory(h)
    ensures |h[i].after.log| <= |h[n].after.log|
    ensures var since := h[n].after.log[|h[i].after.log|..];
            var was, became := h[i].after.staff.keepers[k], h[n].after.staff.keepers[k];
            && became.executions == Min(U32_MAX, was.executions + RunsBy(since, k))
            && became.missed == Min(U32_MAX, was.missed + MissesOf(since, k))
  {
    hide IsHistory, Replayed, RunsBy, MissesOf;
    RecordIsTheEvents(h, i, n, k);
    ReplayedCounts(StatsOf(h[i].after.staff, k), h[n].after.log[|h[i].after.log|..], k);
  }

  /** A first stake, also one after leaving, starts a blank record. */
  lemma FirstStakeIsBlank(h: seq<Moment>, n: nat, k: Address)
    requires 0 < n < |h| && k !in h[n - 1].after.staff.keepers && k in h[n].after.staff.keepers
    requires IsHistory(h)
    ensures exists amount: i128 :: h[n].op == Some(AddStake(k, amount))
    ensures StatsOf(h[n].after.staff, k) == Stats(0, 0, 0, 0, 0)
  {
    hide IsHistory, Registered, After, StatsOf;
    OnlyRegisteredHaveAverages(h, n - 1);
    assert h[n].op.Some? && h[n].after == After(h[n - 1].after, h[n].at, h[n].op.value) by { MomentFacts(h, n); }
    StepRegisters(h[n - 1].after, h[n].at, h[n].op.value, k);
    assert h[n].op == Some(AddStake(k, h[n].op.value.amount));
  }

  /** Averages are kept for registered keepers only. */
  ghost predicate Registered(staff: KeeperBook) {
    staff.recents.Keys <= staff.keepers.Keys
  }

  lemma {:induction false} OnlyRegisteredHaveAverages(h: seq<Moment>, n: nat)
    requires n < |h| && IsHistory(h)
    ensures Registered(h[n].after.staff)
  {
    if n == 0 {
      assert Deployed(h[0].after);
    } else {
      hide After, Deployed, Registered;
      OnlyRegisteredHaveAverages(h, n - 1);
      StepRegisters(h[n - 1].after, h[n].at, h[n].op.value, h[n].after.contract);
    }
  }

  lemma StepRegisters(s: Storage, now: u64, op: Op, k: Address)
    requires Registered(s.staff)
    ensures Registered(After(s, now, op).staff)
    ensures k !in s.staff.keepers && k in After(s, now, op).staff.keepers ==>
              op.AddStake? && op.keeper == k && StatsOf(After(s, now, op).staff, k) == Stats(0, 0, 0, 0, 0)
  {
    if LeavesStaff(op) {
      hide Step;
      StaffUntouched(s, now, op);
    } else if op.Run? {
      if Execute(s, now, op.keeper, op.id, op.answer).Ok? {
        RunStaff(s, now, op.keeper, op.id, op.answer);
      }
      hide Execute, Missed, Smooth;
    } else {
      hide Transfer, UnbondingRelease, AuthorizeKeeper;
      match op
      case AddStake(_, _) =>
      case Unbond(_) =>
      case Release(_) =>
      case RunNothing(_) =>
    }
  }

  /** A run that misses a registered keeper's window raises that keeper's count by one. */
  lemma MissRaisesCount(s: Storage, now: u64, op: Op, k: Address, id: u64)
    requires RecordsMiss(s, now, op, k, id) && k in s.staff.keepers
    ensures k in After(s, now, op).staff.keepers
    ensures var was, became := s.staff.keepers[k], After(s, now, op).staff.keepers[k];
            became.missed == Min(U32_MAX, was.missed + 1) && became.executions == was.executions
  {
    hide Execute, Missed;
    RunStaff(s, now, op.keeper, id, op.answer);
    MissedIsAnotherKeeper(s, now, op.keeper, id);
    SavedStats(s.staff, Some(k), op.keeper, Less(now, s.jobs.states[id].nextRun), k);
    hide SaveRecord, RecordMiss, RecordAfterRun, IsEligible;
  }
}
