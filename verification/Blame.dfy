/** Windows restart only for the reasons listed here, so a holder that lets a quiet window pass is always blamed. */
module Blame {
  import opened Basics
  import opened Types
  import opened Schedules
  import opened Token
  import opened RegistrySpec
  import opened Footprints
  import opened Bookkeeping
  import opened JobFacts
  import opened Histories
  import opened RunCounts
  import opened RunRules

  /** Everything that restarts the window of job `id`, whose calls go to `target`. */
  predicate Restarts(s: Storage, op: Op, id: u64, target: Address) {
    match op
    case Update(_, job, _) => job == id
    case Fund(_, job, _) => job == id
    case Withdraw(_, job, _) => job == id
    case SetActive(_, job, _) => job == id
    case AddStake(k, _) => !CanServe(s, k) || (k !in s.staff.rotation && |s.staff.rotation| < 64)
    case Unbond(_) => true
    case Admin(_, SetPaused(paused)) => !paused
    case Admin(_, SetTargetHalted(t, halted)) => t == target && !halted
    case Admin(_, SetMinStake(_)) => true
    case Admin(_, SetKeeperWindows(_)) => true
    case _ => false
  }

  /** The times from which windows of job `id` count. */
  ghost predicate SameClock(a: WindowBook, b: WindowBook, id: u64, target: Address) {
    && a.reset == b.reset
    && Lookup(a.touched, id, 0) == Lookup(b.touched, id, 0)
    && Lookup(a.resumed, target, 0) == Lookup(b.resumed, target, 0)
  }

  /** Transactions whose only trace in the window book is the job's own timestamp. */
  predicate EditsJob(op: Op) {
    op.Update? || op.Fund? || op.Withdraw? || op.SetActive?
  }

  lemma EditTouches(s: Storage, now: u64, op: Op)
    requires EditsJob(op)
    ensures var w := After(s, now, op).windows;
            w == s.windows || w == s.windows.(touched := s.windows.touched[op.id := now])
  {
    hide Transfer, ValidateSchedule, LeaderRuns, UpdatedNextRun;
    match op
    case Update(_, _, _) =>
    case Fund(_, _, _) =>
    case Withdraw(_, _, _) =>
    case SetActive(_, _, _) =>
  }

  lemma StaffMoveResets(s: Storage, now: u64, op: Op, id: u64, target: Address)
    requires op.AddStake? || op.Unbond?
    ensures var w := After(s, now, op).windows;
            w == s.windows || (w == s.windows.(reset := now) && Restarts(s, op, id, target))
  {
    hide Transfer, UnbondingRelease;
    match op
    case AddStake(_, _) =>
    case Unbond(_) =>
  }

  lemma AdminResets(s: Storage, now: u64, op: Op, id: u64, target: Address)
    requires op.Admin?
    ensures var w := After(s, now, op).windows;
            || w == s.windows
            || (w == s.windows.(reset := now) && Restarts(s, op, id, target))
            || (op.call.SetTargetHalted?
                && w == s.windows.(halted := w.halted,
                                   resumed := if op.call.halted then s.windows.resumed
                                              else s.windows.resumed[op.call.target := now]))
  {
    hide Administer;
    if Administer(s, now, op.caller, op.call).Ok? {
      AdministerEffect(s, now, op.caller, op.call);
    }
    hide NewConfig, NewUpgrades, SameParties;
  }

  lemma OthersLeaveWindows(s: Storage, now: u64, op: Op)
    requires !EditsJob(op) && !op.AddStake? && !op.Unbond? && !op.Admin?
    ensures After(s, now, op).windows == s.windows
  {
    hide Transfer, ValidateJob, InsertJob, HandOver, Execute, RemoveOwnerJob, AuthorizeKeeper;
    match op
    case Run(keeper, id, answer) =>
      if Execute(s, now, keeper, id, answer).Ok? {
        ExecuteEffect(s, now, keeper, id, answer);
      }
    case Create(_, _, _) =>
    case Cancel(_, _) =>
    case ProposeOwner(_, _, _) =>
    case AcceptOwner(_, _) =>
    case Release(_) =>
    case RunNothing(_) =>
    case TokenMove(_, _, _, _) =>
  }

  /** No other transaction restarts it, and none sets a clock to another time than its own. */
  lemma OnlyTheseRestart(s: Storage, now: u64, op: Op, id: u64, target: Address)
    ensures !Restarts(s, op, id, target) ==> SameClock(s.windows, After(s, now, op).windows, id, target)
    ensures forall before: u64 :: before <= now && Past(s.windows, before) ==> Past(After(s, now, op).windows, now)
  {
    hide After;
    if EditsJob(op) {
      EditTouches(s, now, op);
    } else if op.AddStake? || op.Unbond? {
      StaffMoveResets(s, now, op, id, target);
    } else if op.Admin? {
      AdminResets(s, now, op, id, target);
    } else {
      OthersLeaveWindows(s, now, op);
    }
  }

  /** No restart lies in the future. */
  ghost predicate Past(windows: WindowBook, now: u64) {
    && windows.reset <= now
    && (forall id :: id in windows.touched ==> windows.touched[id] <= now)
    && (forall t :: t in windows.resumed ==> windows.resumed[t] <= now)
  }

  lemma {:induction false} ClocksArePast(h: seq<Moment>, n: nat)
    requires n < |h| && IsHistory(h)
    ensures Past(h[n].after.windows, h[n].at)
  {
    if n == 0 {
      assert Deployed(h[0].after);
    } else {
      hide After, Deployed, Past;
      ClocksArePast(h, n - 1);
      OnlyTheseRestart(h[n - 1].after, h[n].at, h[n].op.value, 0, h[n].after.contract);
    }
  }

  /** From moment `i` to moment `n` nothing restarted the window of job `id`. */
  ghost predicate Quiet(h: seq<Moment>, i: nat, n: nat, id: u64, target: Address)
    requires i <= n < |h|
  {
    forall m :: i < m <= n ==> h[m].op.Some? && !Restarts(h[m - 1].after, h[m].op.value, id, target)
  }

  lemma {:induction false} QuietClock(h: seq<Moment>, i: nat, n: nat, id: u64, target: Address)
    requires i <= n < |h| && Quiet(h, i, n, id, target)
    requires IsHistory(h)
    ensures SameClock(h[i].after.windows, h[n].after.windows, id, target)
    decreases n - i
  {
    hide After, Deployed, Restarts;
    if i < n {
      QuietClock(h, i, n - 1, id, target);
      OnlyTheseRestart(h[n - 1].after, h[n].at, h[n].op.value, id, target);
    }
  }

  /**
   * The converse of a genuine miss: when a grace period has passed since the
   * run was due and since moment `i`, and nothing restarted the window after
   * moment `i`, any other keeper's accepted run is a miss of the holder.
   */
  lemma QuietWindowIsBlamed(h: seq<Moment>, i: nat, n: nat, keeper: Address, id: u64, answer: Answer, k: Address)
    requires i <= n < |h| - 1 && h[n + 1].at < U64_MAX && h[n + 1].op == Some(Run(keeper, id, answer))
    requires var s, now := h[n].after, h[n + 1].at;
             && Execute(s, now, keeper, id, answer).Ok? && Exists(s.jobs, id)
             && s.jobs.specs[id].resolver.None? && s.jobs.specs[id].after.None?
             && HoldsWindow(s, id, k) && k != keeper
             && Max(h[i].at, s.jobs.states[id].nextRun) + s.config.gracePeriod <= now
             && Quiet(h, i, n, id, s.jobs.specs[id].target)
    requires IsHistory(h)
    ensures KeeperMissedWindow(k, id, keeper) in h[n + 1].after.log
  {
    var s, now := h[n].after, h[n + 1].at;
    assert h[n + 1].after == After(s, now, Run(keeper, id, answer));
    hide *;
    ClockPassed(h, i, n, id);
    LateRunIsBlamedIff(s, now, keeper, id, answer, k);
    StepPublishes(s, now, Run(keeper, id, answer));
  }

  lemma ClockPassed(h: seq<Moment>, i: nat, n: nat, id: u64)
    requires i <= n < |h| - 1 && Exists(h[n].after.jobs, id)
    requires Max(h[i].at, h[n].after.jobs.states[id].nextRun) + h[n].after.config.gracePeriod <= h[n + 1].at
    requires Quiet(h, i, n, id, h[n].after.jobs.specs[id].target)
    requires IsHistory(h)
    ensures WholeWindowPassed(h[n].after, h[n + 1].at, id)
  {
    hide IsHistory, Quiet;
    ClocksArePast(h, i);
    QuietClock(h, i, n, id, h[n].after.jobs.specs[id].target);
  }
}
