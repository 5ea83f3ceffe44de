/**
 * The registry contract itself: one field per storage key, entry points that
 * read and overwrite them step by step. Each entry point answers and leaves
 * what its specification function says; a call that fails leaves every field
 * as it was, as the host reverts it. Token transfers are therefore made
 * before anything is written.
 */
module RegistryContract {
  import opened Basics
  import opened Types
  import opened Schedules
  import opened RegistrySpec
  import opened Histories
  import opened Batching
  import opened RunRules
  import opened JobTerms
  import Token

  /** The call answered `r` and left `after`, as `spec` demands. */
  ghost predicate Answers<T>(before: Storage, spec: Result<Storage>, after: Storage, r: Result<T>) {
    match spec
    case Ok(s') => r.Ok? && after == s'
    case Err(e) => r == Err(e) && after == before
  }

  class Registry {
    const contract: Address
    const digest: (u64, u32) -> u64
    var config: Config
    var jobs: JobBook
    var staff: KeeperBook
    var windows: WindowBook
    var upgrades: UpgradeBook
    /** Balances kept by the token contracts. */
    var ledger: Ledger
    /** Published events. */
    var log: seq<Event>

    ghost function Contents(): Storage
      reads this
    {
      Storage(contract, digest, config, jobs, staff, windows, upgrades, ledger, log)
    }

    constructor (self_: Address, digest_: (u64, u32) -> u64, balances: Ledger, admin: Address, feeToken: Address,
                 stakeToken: Address, minStake: i128, unbondingPeriod: u64)
      requires 0 <= minStake
      requires forall a :: a in balances ==> 0 <= balances[a]
      ensures Deployed(Contents()) && Sound(Contents())
      ensures Contents().ledger == balances && config.admin == admin && config.minStake == minStake
    {
      contract, digest := self_, digest_;
      config := Config(admin, feeToken, stakeToken, minStake, unbondingPeriod, false, None, 0, 0, 0, None,
                       DEFAULT_MAX_FAILURES, 0, 0, 0);
      jobs := JobBook(0, map[], map[], map[], map[]);
      staff := KeeperBook(map[], map[], []);
      windows := WindowBook({}, map[], map[], 0);
      upgrades := UpgradeBook(0, None);
      ledger, log := balances, [];
      new;
      DeployedIsSound(Contents());
    }

    // ---------------------------------------------------------------- storage helpers

    /** `token.transfer`: moves the amount or reports that the call must fail. */
    method Transfer(token: Address, from: Address, to: Address, amount: int) returns (ok: bool)
      modifies this`ledger
      ensures ok == Token.Transfer(old(ledger), token, from, to, amount).Ok?
      ensures ledger == if ok then Token.Transfer(old(ledger), token, from, to, amount).value else old(ledger)
    {
      var available := Token.BalanceOf(ledger, token, from);
      if amount < 0 || available < amount {
        return false;
      }
      ledger := ledger[Types.Account(token, from) := available - amount];
      ledger := ledger[Types.Account(token, to) := Token.BalanceOf(ledger, token, to) + amount];
      ok := true;
    }

    method Publish(event: Event)
      modifies this`log
      ensures log == old(log) + [event]
    {
      log := log + [event];
    }

    method AddOwnerJob(owner: Address, id: u64)
      modifies this`jobs
      ensures jobs == RegistrySpec.AddOwnerJob(old(jobs), owner, id)
    {
      var ids := Lookup(jobs.ownerJobs, owner, []);
      jobs := jobs.(ownerJobs := jobs.ownerJobs[owner := ids + [id]]);
    }

    /** Finds the id's position in the owner's list and drops it; a missing id changes nothing. */
    method RemoveOwnerJob(owner: Address, id: u64)
      modifies this`jobs
      ensures jobs == RegistrySpec.RemoveOwnerJob(old(jobs), owner, id)
    {
      var ids := Lookup(jobs.ownerJobs, owner, []);
      var index := FirstIndexOf(ids, id);
      if index < |ids| {
        jobs := jobs.(ownerJobs := jobs.ownerJobs[owner := ids[..index] + ids[index + 1..]]);
      }
    }

    /** Restarts the job's window bookkeeping while windows are on. */
    method TouchJob(now: u64, id: u64)
      modifies this`windows
      ensures windows == Touch(old(Contents()), now, id)
    {
      if 0 < config.gracePeriod {
        windows := windows.(touched := windows.touched[id := now]);
      }
    }

    // ---------------------------------------------------------------- jobs

    method InsertJob(now: u64, owner: Address, params: JobParams, deposit: i128) returns (id: u64)
      requires jobs.nextId < U64_MAX
      modifies this`jobs, this`log
      ensures id == old(jobs.nextId)
      ensures Ok(jobs) == RegistrySpec.InsertJob(old(jobs), now, owner, params, deposit)
      ensures log == old(log) + [JobCreated(id)] && jobs.nextId == id + 1
    {
      id := jobs.nextId;
      jobs := jobs.(nextId := id + 1);
      var leaderRuns: u32 := 0;
      if params.after.Some? && params.after.value in jobs.states {
        leaderRuns := jobs.states[params.after.value].runs;
      }
      var earliest := Max(params.startAt, now);
      jobs := jobs.(specs := jobs.specs[id := NewSpec(owner, params)]);
      var state := JobState(FirstCalendarRun(params.schedule, earliest), deposit, 0, 0, true, leaderRuns);
      jobs := jobs.(states := jobs.states[id := state]);
      AddOwnerJob(owner, id);
      Publish(JobCreated(id));
    }

    method CreateJob(now: u64, owner: Address, params: JobParams, deposit: i128) returns (r: Result<u64>)
      modifies this
      ensures Answers(old(Contents()),
                      RegistrySpec.CreateJob(old(Contents()), now, owner, params, deposit), Contents(), r)
      ensures r.Ok? ==> r.value == old(jobs.nextId)
                        && CreatesAsAsked(old(jobs), jobs, now, owner, params, deposit)
    {
      ghost var s := Contents();
      if config.paused {
        return Err(Paused);
      }
      if owner == contract {
        return Err(HostPanic);
      }
      var valid := CheckJob(params, deposit);
      if valid.Err? {
        return Err(valid.error);
      }
      var before := ledger;
      var paid := Transfer(config.feeToken, owner, contract, deposit);
      if !paid || jobs.nextId == U64_MAX {
        ledger := before;
        return Err(HostPanic);
      }
      var id := InsertJob(now, owner, params, deposit);
      CreatedAsAsked(s, now, owner, params, deposit);
      hide CreatesAsAsked;
      r := Ok(id);
    }

    /** `validate_job`, read from the stored settings and jobs. */
    method CheckJob(params: JobParams, deposit: i128) returns (r: Result<()>)
      ensures r == ValidateJob(Contents(), params, deposit)
    {
      var schedule := ValidateSchedule(config, params.interval, params.schedule, |params.args|,
                                       params.feePerRun, params.maxFeePerRun, params.keepers);
      if schedule.Err? {
        return Err(schedule.error);
      }
      if deposit < params.feePerRun {
        return Err(InvalidAmount);
      }
      if params.target == contract || config.executor == Some(params.target)
         || params.target == config.feeToken || params.target == config.stakeToken {
        return Err(ForbiddenTarget);
      }
      if params.after.Some? && params.after.value !in jobs.states {
        return Err(JobNotFound);
      }
      r := Ok(());
    }

    /** All-or-nothing: one pass of checks, one transfer of the total, then the insertions in order. */
    method CreateJobs(now: u64, owner: Address, list: seq<JobParams>, deposits: seq<i128>) returns (r: Result<seq<u64>>)
      modifies this
      ensures Answers(old(Contents()), Batching.CreateJobs(old(Contents()), now, owner, list, deposits), Contents(), r)
      ensures r.Ok? ==> |list| == |deposits|
      ensures r.Ok? ==> Batching.CreateEach(old(Contents()), now, owner, list, deposits) == Ok(Contents())
      ensures r.Ok? ==> |r.value| == |list| && forall i :: 0 <= i < |list| ==> r.value[i] == old(jobs.nextId) + i
    {
      hide Token.Transfer, ValidateJob, RegistrySpec.InsertJob, Batching.CreateEach;
      ghost var s := Contents();
      if config.paused {
        return Err(Paused);
      }
      if owner == contract {
        return Err(HostPanic);
      }
      if list == [] || MAX_BATCH < |list| {
        return Err(InvalidBatchSize);
      }
      if |list| != |deposits| {
        return Err(LengthMismatch);
      }
      var checked := CheckJobs(list, deposits);
      if checked.Err? {
        return Err(checked.error);
      }
      TransferError(ledger, config.feeToken, owner, contract, checked.value);
      InsertNeedsIds(jobs, now, owner, list, deposits);
      var before := ledger;
      var paid := Transfer(config.feeToken, owner, contract, checked.value);
      if !paid || U64_MAX < jobs.nextId + |list| {
        ledger := before;
        return Err(HostPanic);
      }
      var ids := InsertJobs(now, owner, list, deposits);
      CreateJobsIsEach(s, now, owner, list, deposits);
      r := Ok(ids);
    }

    /** Validates every job in order and adds up the deposits. */
    method CheckJobs(list: seq<JobParams>, deposits: seq<i128>) returns (r: Result<int>)
      requires |list| == |deposits|
      ensures r == ValidateAll(Contents(), list, deposits)
    {
      hide ValidateJob;
      var total: int := 0;
      for i := 0 to |list|
        invariant ValidateAll(Contents(), list[..i], deposits[..i]) == Ok(total)
      {
        var valid := CheckJob(list[i], deposits[i]);
        assert list[..i + 1][..i] == list[..i] && deposits[..i + 1][..i] == deposits[..i];
        if valid.Err? {
          FirstErrorStays(Contents(), list, deposits, i + 1);
          return Err(valid.error);
        }
        total := total + deposits[i];
        if I128_MAX < total {
          FirstErrorStays(Contents(), list, deposits, i + 1);
          return Err(InvalidAmount);
        }
      }
      assert list[..|list|] == list && deposits[..|list|] == deposits;
      r := Ok(total);
    }

    method InsertJobs(now: u64, owner: Address, list: seq<JobParams>, deposits: seq<i128>) returns (ids: seq<u64>)
      requires |list| == |deposits| && jobs.nextId + |list| <= U64_MAX
      modifies this`jobs, this`log
      ensures InsertAll(old(jobs), now, owner, list, deposits) == Ok(jobs)
      ensures log == old(log) + CreatedEvents(old(jobs.nextId), |list|)
      ensures |ids| == |list| && forall i :: 0 <= i < |list| ==> ids[i] == old(jobs.nextId) + i
    {
      hide RegistrySpec.InsertJob;
      var first := jobs.nextId;
      ids := [];
      for i := 0 to |list|
        invariant jobs.nextId == first + i
        invariant InsertAll(old(jobs), now, owner, list[..i], deposits[..i]) == Ok(jobs)
        invariant log == old(log) + CreatedEvents(first, i)
        invariant |ids| == i && forall j :: 0 <= j < i ==> ids[j] == first + j
      {
        assert list[..i + 1][..i] == list[..i] && deposits[..i + 1][..i] == deposits[..i];
        var id := InsertJob(now, owner, list[i], deposits[i]);
        assert CreatedEvents(first, i) + [JobCreated(id)] == CreatedEvents(first, i + 1);
        ids := ids + [id];
      }
      assert list[..|list|] == list && deposits[..|list|] == deposits;
    }

    static lemma {:induction false} FirstErrorStays(s: Storage, jobs: seq<JobParams>, deposits: seq<i128>, n: nat)
      requires |jobs| == |deposits| && n <= |jobs| && ValidateAll(s, jobs[..n], deposits[..n]).Err?
      ensures ValidateAll(s, jobs, deposits) == ValidateAll(s, jobs[..n], deposits[..n])
      decreases |jobs|
    {
      if n == |jobs| {
        assert jobs[..n] == jobs && deposits[..n] == deposits;
      } else {
        var m := |jobs| - 1;
        assert jobs[..m][..n] == jobs[..n] && deposits[..m][..n] == deposits[..n];
        FirstErrorStays(s, jobs[..m], deposits[..m], n);
      }
    }

    static lemma {:induction false} InsertNeedsIds(book: JobBook, now: u64, owner: Address, jobs: seq<JobParams>,
                                                   deposits: seq<i128>)
      requires |jobs| == |deposits|
      ensures var r := InsertAll(book, now, owner, jobs, deposits);
              if book.nextId + |jobs| <= U64_MAX then r.Ok? && r.value.nextId == book.nextId + |jobs|
              else r == Err(HostPanic)
    {
      hide NewState, NewSpec;
      if jobs != [] {
        InsertNeedsIds(book, now, owner, jobs[..|jobs| - 1], deposits[..|jobs| - 1]);
      }
    }

    method UpdateJob(now: u64, caller: Address, id: u64, update: JobUpdate) returns (r: Result<()>)
      modifies this
      ensures Answers(old(Contents()), RegistrySpec.UpdateJob(old(Contents()), now, caller, id, update), Contents(), r)
      ensures r.Ok? ==> UpdatesAsAsked(old(jobs), jobs, now, id, update)
    {
      ghost var s := Contents();
      if config.paused {
        return Err(Paused);
      }
      if id !in jobs.states || id !in jobs.specs {
        return Err(JobNotFound);
      }
      var spec, state := jobs.specs[id], jobs.states[id];
      if caller != spec.owner || caller == contract {
        return Err(HostPanic);
      }
      var interval := ValidateSchedule(config, update.interval, update.schedule, |update.args|,
                                       update.feePerRun, update.maxFeePerRun, update.keepers);
      if interval.Err? {
        return Err(interval.error);
      }
      if update.schedule != Interval && update.schedule != spec.schedule {
        state := state.(nextRun := FirstCalendarRun(update.schedule, now));
      }
      if update.after != spec.after {
        match update.after {
          case None => state := state.(leaderRuns := 0);
          case Some(leader) =>
            if leader == id {
              return Err(AwaitingDependency);
            }
            if leader !in jobs.states {
              return Err(JobNotFound);
            }
            state := state.(leaderRuns := jobs.states[leader].runs);
        }
      }
      jobs := jobs.(specs := jobs.specs[id := UpdatedSpec(spec, interval.value, update)]);
      jobs := jobs.(states := jobs.states[id := state]);
      TouchJob(now, id);
      Publish(JobUpdated(id));
      UpdatedAsAsked(s, now, caller, id, update);
      hide UpdatesAsAsked;
      r := Ok(());
    }

    method FundJob(now: u64, from: Address, id: u64, amount: i128) returns (r: Result<int>)
      modifies this
      ensures Answers(old(Contents()), RegistrySpec.FundJob(old(Contents()), now, from, id, amount), Contents(), r)
      ensures r.Ok? ==> id in jobs.states && r.value == jobs.states[id].balance
    {
      if config.paused {
        return Err(Paused);
      }
      if from == contract {
        return Err(HostPanic);
      }
      if amount <= 0 {
        return Err(InvalidAmount);
      }
      if id !in jobs.states {
        return Err(JobNotFound);
      }
      var paid := Transfer(config.feeToken, from, contract, amount);
      if !paid {
        return Err(HostPanic);
      }
      var state := jobs.states[id].(balance := jobs.states[id].balance + amount);
      jobs := jobs.(states := jobs.states[id := state]);
      TouchJob(now, id);
      Publish(JobFunded(id, state.balance));
      r := Ok(state.balance);
    }

    method CancelJob(caller: Address, id: u64) returns (r: Result<int>)
      modifies this
      ensures Answers(old(Contents()), RegistrySpec.CancelJob(old(Contents()), caller, id), Contents(), r)
      ensures r.Ok? ==> id in old(jobs.states) && r.value == old(jobs.states)[id].balance
    {
      if id !in jobs.states || id !in jobs.specs {
        return Err(JobNotFound);
      }
      var owner, refund := jobs.specs[id].owner, jobs.states[id].balance;
      if caller != owner || caller == contract {
        return Err(HostPanic);
      }
      if 0 < refund {
        var paid := Transfer(config.feeToken, contract, owner, refund);
        if !paid {
          return Err(HostPanic);
        }
      }
      jobs := jobs.(specs := jobs.specs - {id});
      jobs := jobs.(states := jobs.states - {id});
      jobs := jobs.(pendingOwners := jobs.pendingOwners - {id});
      RemoveOwnerJob(owner, id);
      Publish(JobCancelled(id));
      r := Ok(refund);
    }

    method WithdrawJobBalance(now: u64, caller: Address, id: u64, amount: i128) returns (r: Result<int>)
      modifies this
      ensures Answers(old(Contents()),
                      RegistrySpec.WithdrawJobBalance(old(Contents()), now, caller, id, amount), Contents(), r)
      ensures r.Ok? ==> id in jobs.states && r.value == jobs.states[id].balance
    {
      if id !in jobs.states || id !in jobs.specs {
        return Err(JobNotFound);
      }
      var owner, state := jobs.specs[id].owner, jobs.states[id];
      if caller != owner || caller == contract {
        return Err(HostPanic);
      }
      if amount <= 0 || state.balance < amount {
        return Err(InvalidAmount);
      }
      var paid := Transfer(config.feeToken, contract, owner, amount);
      if !paid {
        return Err(HostPanic);
      }
      state := state.(balance := state.balance - amount);
      jobs := jobs.(states := jobs.states[id := state]);
      TouchJob(now, id);
      Publish(JobWithdrawn(id, state.balance));
      r := Ok(state.balance);
    }

    method SetJobActive(now: u64, caller: Address, id: u64, active: bool) returns (r: Result<()>)
      modifies this
      ensures Answers(old(Contents()),
                      RegistrySpec.SetJobActive(old(Contents()), now, caller, id, active), Contents(), r)
    {
      if id !in jobs.states || id !in jobs.specs {
        return Err(JobNotFound);
      }
      if caller != jobs.specs[id].owner || caller == contract {
        return Err(HostPanic);
      }
      var state := jobs.states[id].(active := active);
      if active {
        state := state.(failures := 0);
      }
      jobs := jobs.(states := jobs.states[id := state]);
      TouchJob(now, id);
      Publish(JobActiveSet(id, active));
      r := Ok(());
    }

    method ProposeJobOwner(caller: Address, id: u64, newOwner: Address) returns (r: Result<()>)
      modifies this
      ensures Answers(old(Contents()),
                      RegistrySpec.ProposeJobOwner(old(Contents()), caller, id, newOwner), Contents(), r)
    {
      if id !in jobs.specs {
        return Err(JobNotFound);
      }
      var owner := jobs.specs[id].owner;
      if caller != owner || caller == contract {
        return Err(HostPanic);
      }
      if newOwner == owner {
        jobs := jobs.(pendingOwners := jobs.pendingOwners - {id});
      } else {
        jobs := jobs.(pendingOwners := jobs.pendingOwners[id := newOwner]);
      }
      r := Ok(());
    }

    method AcceptJobOwner(caller: Address, id: u64) returns (r: Result<()>)
      modifies this
      ensures Answers(old(Contents()), RegistrySpec.AcceptJobOwner(old(Contents()), caller, id), Contents(), r)
    {
      if id !in jobs.specs {
        return Err(JobNotFound);
      }
      if id !in jobs.pendingOwners {
        return Err(NoPendingOwner);
      }
      var spec, newOwner := jobs.specs[id], jobs.pendingOwners[id];
      if caller != newOwner || caller == contract {
        return Err(HostPanic);
      }
      jobs := jobs.(pendingOwners := jobs.pendingOwners - {id});
      RemoveOwnerJob(spec.owner, id);
      AddOwnerJob(newOwner, id);
      jobs := jobs.(specs := jobs.specs[id := spec.(owner := newOwner)]);
      r := Ok(());
    }

    // ---------------------------------------------------------------- execution

    /** `assigned_keeper_for`, read from the stored staff.rotation and staff.keepers. */
    method FindAssigned(id: u64, spec: JobSpec, state: JobState) returns (k: Option<Address>)
      ensures k == AssignedKeeper(Contents(), id, spec, state)
      ensures forall c ::
                k == Some(c) <==>
                  && 0 < config.gracePeriod && CanServe(Contents(), c)
                  && (spec.keepers.Some? ==> DrawnFrom(spec.keepers.value, digest(id, state.runs), c))
                  && (spec.keepers.None? ==> DrawnFrom(staff.rotation, digest(id, state.runs), c))
    {
      if config.gracePeriod == 0 {
        return None;
      }
      var candidates := if spec.keepers.Some? then spec.keepers.value else staff.rotation;
      if candidates == [] {
        return None;
      }
      var chosen := candidates[digest(id, state.runs) % |candidates|];
      if chosen !in staff.keepers || EnsureActiveKeeper(config, staff.keepers[chosen]).Err? {
        return None;
      }
      k := Some(chosen);
    }

    /** Every check before the target is called, in the order they are made. */
    method CheckRun(now: u64, keeper: Address, id: u64, answer: Answer) returns (r: Result<u32>, other: Option<Address>)
      ensures r == MayRun(Contents(), now, keeper, id, answer)
      ensures r.Ok? ==> other == OtherAssigned(Contents(), keeper, id)
    {
      hide AssignedKeeper;
      other := None;
      if id !in jobs.states || id !in jobs.specs {
        return Err(JobNotFound), None;
      }
      var spec, state := jobs.specs[id], jobs.states[id];
      var due := EnsureDue(spec, state, now);
      if due.Err? {
        return Err(due.error), None;
      }
      if spec.target == contract || config.executor == Some(spec.target)
         || spec.target == config.feeToken || spec.target == config.stakeToken {
        return Err(ForbiddenTarget), None;
      }
      if spec.target in windows.halted {
        return Err(TargetHalted), None;
      }
      if spec.keepers.Some? && keeper !in spec.keepers.value {
        return Err(KeeperNotAllowed), None;
      }
      other := FindAssigned(id, spec, state);
      if other == Some(keeper) {
        other := None;
      }
      if other.Some? && now < Sat64(state.nextRun + config.gracePeriod) {
        return Err(NotAssignedKeeper), None;
      }
      var leaderRuns := state.leaderRuns;
      if spec.after.Some? {
        var leader := spec.after.value;
        if leader !in jobs.states || jobs.states[leader].runs <= state.leaderRuns {
          return Err(AwaitingDependency), None;
        }
        leaderRuns := jobs.states[leader].runs;
      }
      if spec.resolver.Some? && !answer.resolverAllows {
        return Err(ResolverRejected), None;
      }
      r := Ok(leaderRuns);
    }

    /** Notes that `missed` let its whole window pass, if there is such a keeper. */
    method RecordMiss(missed: Option<Address>, ranBy: Address, id: u64)
      modifies this`staff, this`log
      ensures staff == RegistrySpec.RecordMiss(old(staff), missed)
      ensures log == old(log) + if missed.Some? && missed.value in old(staff.keepers)
                                then [KeeperMissedWindow(missed.value, id, ranBy)] else []
      // one more miss on that keeper's record, and nothing else on anybody's
      ensures staff.keepers.Keys == old(staff.keepers).Keys
      ensures forall k :: k in staff.keepers ==>
                var was := old(staff.keepers)[k];
                staff.keepers[k]
                == was.(missed := if missed == Some(k) then Min(U32_MAX, was.missed + 1) else was.missed)
    {
      if missed.None? || missed.value !in staff.keepers {
        return;
      }
      var keeper := missed.value;
      var recent := Lookup(staff.recents, keeper, KeeperRecent(0, 0));
      var info := staff.keepers[keeper];
      info := info.(missed := Sat32(info.missed + 1));
      staff := staff.(keepers := staff.keepers[keeper := info]);
      recent := recent.(misses := Smooth(recent.misses, MAX_BPS_SCALE));
      staff := staff.(recents := staff.recents[keeper := recent]);
      log := log + [KeeperMissedWindow(keeper, id, ranBy)];
    }

    /** Advances the job's schedule, charges the fee and counts failures, pausing a job that keeps failing. */
    method AdvanceJob(now: u64, id: u64, leaderRuns: u32, fee: int, success: bool) returns (state: JobState)
      requires Exists(jobs, id)
      modifies this`jobs, this`log
      ensures state == StateAfterRun(config, old(jobs.specs)[id], old(jobs.states)[id], now, leaderRuns, fee, success)
      ensures jobs == old(jobs).(states := old(jobs.states)[id := state])
      ensures log == old(log)
                  + (if GivesUp(config, state.failures, success) then [JobDeactivated(id)] else [])
                  + (if state.balance < old(jobs.specs)[id].feePerRun then [JobExhausted(id, state.balance)] else [])
    {
      hide NextRunAfter;
      var spec := jobs.specs[id];
      state := jobs.states[id];
      state := state.(runs := Sat32(state.runs + 1), leaderRuns := leaderRuns, balance := state.balance - fee,
                      nextRun := NextRunAfter(state.nextRun, spec.interval, now));
      if success {
        state := state.(failures := 0);
      } else {
        state := state.(failures := Sat32(state.failures + 1));
        if config.maxFailures != 0 && config.maxFailures <= state.failures {
          state := state.(active := false);
          log := log + [JobDeactivated(id)];
        }
      }
      jobs := jobs.(states := jobs.states[id := state]);
      if state.balance < spec.feePerRun {
        log := log + [JobExhausted(id, state.balance)];
      }
    }

    /** The stored part of a permitted run: the job advances, a whole missed window is noted, the run is published. */
    method StoreRun(now: u64, keeper: Address, id: u64, leaderRuns: u32, other: Option<Address>, fee: int,
                    answer: Answer)
      requires Exists(jobs, id) && other == OtherAssigned(Contents(), keeper, id) && fee == FeeOf(jobs, now, id)
      modifies this`jobs, this`staff, this`log
      ensures Contents() == StoreAfterRun(old(Contents()), now, keeper, id, leaderRuns, answer)
    {
      hide OtherAssigned, RampedFee, SplitFee, HadWholeWindow, StateAfterRun, GivesUp, Smooth,
        RegistrySpec.RecordMiss;
      var spec, dueAt := jobs.specs[id], jobs.states[id].nextRun;
      var wholeWindow := IsWhole(id, spec, dueAt, now);
      var state := AdvanceJob(now, id, leaderRuns, fee, answer.targetSucceeds);
      if wholeWindow {
        RecordMiss(other, keeper, id);
      }
      log := log + [JobExecuted(id, keeper, answer.targetSucceeds, fee, SplitFee(fee, config.protocolFeeBps).1,
                                state.runs, state.nextRun, Less(now, dueAt), state.failures)];
      NoMissNoChange(old(staff));
    }

    /** Runs one job, adding to the caller's cached record and payout; nothing is written when it is refused. */
    method RunJob(now: u64, keeper: Address, record: KeeperRecord, id: u64, answer: Answer, payout: Payout)
      returns (r: Result<()>, record': KeeperRecord, payout': Payout)
      modifies this`jobs, this`staff, this`log
      ensures match RegistrySpec.RunJob(Progress(old(Contents()), record, payout), now, keeper, id, answer)
              case Ok(p) => r.Ok? && p == Progress(Contents(), record', payout')
              case Err(e) => r == Err(e) && Contents() == old(Contents()) && record' == record && payout' == payout
    {
      hide MayRun, OtherAssigned, RampedFee, SplitFee, StoreAfterRun, Smooth;
      record', payout' := record, payout;
      var leaderRuns, other := CheckRun(now, keeper, id, answer);
      if leaderRuns.Err? {
        return Err(leaderRuns.error), record', payout';
      }
      var state := jobs.states[id];
      var fee := RampedFee(jobs.specs[id], state, now);
      var (keeperFee, protocolFee) := SplitFee(fee, config.protocolFeeBps);
      var lateness := Less(now, state.nextRun);
      StoreRun(now, keeper, id, leaderRuns.value, other, fee, answer);
      record' := KeeperRecord(
        record.info.(executions := Sat32(record.info.executions + 1),
                     totalLateness := Sat64(record.info.totalLateness + lateness)),
        KeeperRecent(Smooth(record.recent.lateness, lateness), Smooth(record.recent.misses, 0)));
      payout' := Payout(payout.keeperFees + keeperFee, payout.protocolFees + protocolFee);
      r := Ok(());
    }

    static lemma NoMissNoChange(staff: KeeperBook)
      ensures RegistrySpec.RecordMiss(staff, None) == staff
    {
    }

    /** `had_whole_window`, read from the stored timestamps. */
    method IsWhole(id: u64, spec: JobSpec, dueAt: u64, now: u64) returns (whole: bool)
      ensures whole == HadWholeWindow(Contents(), id, spec, dueAt, now)
    {
      if spec.resolver.Some? || spec.after.Some? {
        return false;
      }
      var openedAt := Max(dueAt, Lookup(windows.touched, id, 0));
      openedAt := Max(openedAt, windows.reset);
      openedAt := Max(openedAt, Lookup(windows.resumed, spec.target, 0));
      whole := Sat64(openedAt + config.gracePeriod) <= now;
    }

    /** Checks the registry and the keeper, and loads the keeper's record. */
    method LoadKeeper(keeper: Address) returns (r: Result<KeeperRecord>)
      ensures match Begin(Contents(), keeper)
              case Ok(p) => r == Ok(p.record) && p == Progress(Contents(), r.value, Payout(0, 0))
              case Err(e) => r == Err(e)
    {
      if config.paused {
        return Err(Paused);
      }
      if config.executor.None? {
        return Err(ExecutorNotSet);
      }
      if keeper == contract {
        return Err(HostPanic);
      }
      if keeper !in staff.keepers {
        return Err(KeeperNotFound);
      }
      var active := EnsureActiveKeeper(config, staff.keepers[keeper]);
      if active.Err? {
        return Err(active.error);
      }
      r := Ok(KeeperRecord(staff.keepers[keeper], Lookup(staff.recents, keeper, KeeperRecent(0, 0))));
    }

    /** Pays the earnings, then the treasury's share, and writes the record back. */
    method SaveAndSettle(keeper: Address, record: KeeperRecord, payout: Payout) returns (ok: bool)
      modifies this`staff, this`ledger
      ensures match Commit(Progress(old(Contents()), record, payout), keeper)
              case Ok(s') => ok && Contents() == s'
              case Err(e) => !ok && e == HostPanic && ledger == old(ledger) && staff == old(staff)
    {
      hide Token.Transfer;
      TransferError(ledger, config.feeToken, contract, keeper, payout.keeperFees);
      var before := ledger;
      if 0 < payout.keeperFees {
        ok := Transfer(config.feeToken, contract, keeper, payout.keeperFees);
        if !ok {
          return;
        }
      }
      if 0 < payout.protocolFees && config.treasury.Some? {
        TransferError(ledger, config.feeToken, contract, config.treasury.value, payout.protocolFees);
        ok := Transfer(config.feeToken, contract, config.treasury.value, payout.protocolFees);
        if !ok {
          ledger := before;
          return;
        }
      }
      staff := staff.(keepers := staff.keepers[keeper := record.info]);
      staff := staff.(recents := staff.recents[keeper := record.recent]);
      ok := true;
    }

    static lemma TransferError(l: Ledger, token: Address, from: Address, to: Address, amount: int)
      ensures Token.Transfer(l, token, from, to, amount).Err? ==>
                Token.Transfer(l, token, from, to, amount) == Err(HostPanic)
    {
    }

    method Execute(now: u64, keeper: Address, id: u64, answer: Answer) returns (r: Result<()>)
      modifies this
      ensures Answers(old(Contents()), RegistrySpec.Execute(old(Contents()), now, keeper, id, answer), Contents(), r)
    {
      hide RegistrySpec.RunJob, Begin, Commit;
      var jobs0, staff0, log0 := jobs, staff, log;
      var record := LoadKeeper(keeper);
      if record.Err? {
        return Err(record.error);
      }
      var ran, record', payout := RunJob(now, keeper, record.value, id, answer, Payout(0, 0));
      if ran.Err? {
        return Err(ran.error);
      }
      var paid := SaveAndSettle(keeper, record', payout);
      if !paid {
        jobs, staff, log := jobs0, staff0, log0;
        return Err(HostPanic);
      }
      r := Ok(());
    }

    /**
     * Runs the jobs in order with one cached record and one summed payout.
     * From a sound state this is, exactly, `execute` on each id in turn.
     */
    method ExecuteBatch(now: u64, keeper: Address, ids: seq<u64>, answers: seq<Answer>) returns (r: Result<seq<bool>>)
      requires |ids| == |answers|
      modifies this
      ensures Answers(old(Contents()), Batching.ExecuteBatch(old(Contents()), now, keeper, ids, answers), Contents(), r)
      ensures r.Ok? ==> |r.value| == |ids|
      ensures r.Ok? && Sound(old(Contents())) ==>
                && Contents() == Rewritten(ExecuteEach(old(Contents()), now, keeper, ids, answers), keeper)
                && forall i :: 0 <= i < |ids| ==>
                     (r.value[i] <==>
                      RegistrySpec.Execute(ExecuteEach(old(Contents()), now, keeper, ids[..i], answers[..i]),
                                           now, keeper, ids[i], answers[i]).Ok?)
    {
      hide RegistrySpec.RunJob, Begin, Commit, RegistrySpec.Execute, Sound, Rewritten, ExecuteEach;
      if ids == [] || MAX_BATCH < |ids| {
        return Err(InvalidBatchSize);
      }
      ghost var s := Contents();
      var jobs0, staff0, log0 := jobs, staff, log;
      var loaded := LoadKeeper(keeper);
      if loaded.Err? {
        return Err(loaded.error);
      }
      ghost var p := Begin(s, keeper).value;
      var record, payout := loaded.value, Payout(0, 0);
      var flags := [];
      for i := 0 to |ids|
        invariant Progress(Contents(), record, payout) == RunAll(p, now, keeper, ids[..i], answers[..i])
        invariant flags == RanFlags(p, now, keeper, ids[..i], answers[..i])
        invariant Contents() == s.(jobs := jobs, staff := staff, log := log)
      {
        assert ids[..i + 1][..i] == ids[..i] && answers[..i + 1][..i] == answers[..i];
        var ran;
        ran, record, payout := RunJob(now, keeper, record, ids[i], answers[i], payout);
        flags := flags + [ran.Ok?];
      }
      assert ids[..|ids|] == ids && answers[..|ids|] == answers;
      var paid := SaveAndSettle(keeper, record, payout);
      if !paid {
        jobs, staff, log := jobs0, staff0, log0;
        return Err(HostPanic);
      }
      if Sound(s) {
        BatchNeedsAuthority(s, keeper);
        BatchIsEach(s, now, keeper, ids, answers);
      }
      r := Ok(flags);
    }

    static lemma BatchNeedsAuthority(s: Storage, keeper: Address)
      ensures Begin(s, keeper).Ok? <==> AuthorizeKeeper(s, keeper).Ok?
    {
      hide AuthorizeKeeper;
    }

    // ---------------------------------------------------------------- staff.keepers

    method Stake(now: u64, keeper: Address, amount: i128) returns (r: Result<int>)
      modifies this
      ensures Answers(old(Contents()), RegistrySpec.Stake(old(Contents()), now, keeper, amount), Contents(), r)
      ensures r.Ok? ==> keeper in staff.keepers && r.value == staff.keepers[keeper].stake
    {
      if config.paused {
        return Err(Paused);
      }
      if keeper == contract {
        return Err(HostPanic);
      }
      if amount <= 0 {
        return Err(InvalidAmount);
      }
      var info := Lookup(staff.keepers, keeper, Keeper(0, None, 0, 0, 0, 0));
      if info.unbondingAt.Some? {
        return Err(Error.KeeperUnbonding);
      }
      var wasEligible := EnsureActiveKeeper(config, info).Ok?;
      var paid := Transfer(config.stakeToken, keeper, contract, amount);
      if !paid {
        return Err(HostPanic);
      }
      info := info.(stake := info.stake + amount);
      staff := staff.(keepers := staff.keepers[keeper := info]);
      var joined := AddActiveKeeper(keeper);
      if joined || !wasEligible {
        windows := windows.(reset := now);
      }
      r := Ok(info.stake);
    }

    method AddActiveKeeper(keeper: Address) returns (added: bool)
      modifies this`staff
      ensures added == Joins(old(staff), keeper)
      ensures staff == if added then old(staff).(rotation := old(staff.rotation) + [keeper]) else old(staff)
    {
      if keeper in staff.rotation || MAX_ACTIVE_KEEPERS <= |staff.rotation| {
        return false;
      }
      staff := staff.(rotation := staff.rotation + [keeper]);
      added := true;
    }

    method BeginUnbonding(now: u64, keeper: Address) returns (r: Result<u64>)
      modifies this
      ensures Answers(old(Contents()), RegistrySpec.BeginUnbonding(old(Contents()), now, keeper), Contents(), r)
      ensures r.Ok? ==> keeper in staff.keepers && staff.keepers[keeper].unbondingAt == Some(r.value)
    {
      hide UnbondingRelease;
      if keeper == contract {
        return Err(HostPanic);
      }
      if keeper !in staff.keepers {
        return Err(KeeperNotFound);
      }
      var info := staff.keepers[keeper];
      if info.unbondingAt.Some? {
        return Err(Error.KeeperUnbonding);
      }
      var at := UnbondingRelease(now, config.unbondingPeriod, config.unbondingEpoch);
      staff := staff.(keepers := staff.keepers[keeper := info.(unbondingAt := Some(at))]);
      var index := FirstIndexOf(staff.rotation, keeper);
      if index < |staff.rotation| {
        staff := staff.(rotation := staff.rotation[..index] + staff.rotation[index + 1..]);
      }
      windows := windows.(reset := now);
      Publish(Event.KeeperUnbonding(keeper, at));
      r := Ok(at);
    }

    /** `release_stake`: pays the whole stake back once unbonding has finished. */
    method ReleaseStake(now: u64, keeper: Address) returns (r: Result<int>)
      modifies this
      ensures Answers(old(Contents()), RegistrySpec.ReleaseStake(old(Contents()), now, keeper), Contents(), r)
      ensures r.Ok? ==> keeper in old(staff.keepers) && r.value == old(staff.keepers)[keeper].stake
    {
      if keeper !in staff.keepers {
        return Err(KeeperNotFound);
      }
      var info := staff.keepers[keeper];
      if info.unbondingAt.None? {
        return Err(UnbondingNotStarted);
      }
      if now < info.unbondingAt.value {
        return Err(UnbondingNotFinished);
      }
      if 0 < info.stake {
        var paid := Transfer(config.stakeToken, contract, keeper, info.stake);
        if !paid {
          return Err(HostPanic);
        }
      }
      staff := staff.(keepers := staff.keepers - {keeper});
      staff := staff.(recents := staff.recents - {keeper});
      r := Ok(info.stake);
    }

    /** Settles every listed keeper that is ready; the others are released 0. */
    method WithdrawStakes(now: u64, list: seq<Address>) returns (r: Result<seq<int>>)
      modifies this
      ensures list == [] || MAX_BATCH < |list| ==> r == Err(InvalidBatchSize) && Contents() == old(Contents())
      ensures 0 < |list| <= MAX_BATCH ==>
                && r.Ok? && |r.value| == |list| && Contents() == ReleaseEach(old(Contents()), now, list)
                && r.value == PaidOutEach(old(Contents()), now, list)
    {
      if list == [] || MAX_BATCH < |list| {
        return Err(InvalidBatchSize);
      }
      ghost var s := Contents();
      var released := [];
      for i := 0 to |list|
        invariant Contents() == ReleaseEach(s, now, list[..i])
        invariant released == PaidOutEach(s, now, list[..i])
      {
        assert list[..i + 1][..i] == list[..i];
        ghost var f := Contents();
        var one := ReleaseStake(now, list[i]);
        assert Contents() == After(f, now, Release(list[i])) by {
          hide RegistrySpec.ReleaseStake;
        }
        released := released + [if one.Ok? then one.value else 0];
      }
      assert list[..|list|] == list;
      r := Ok(released);
    }

    // ---------------------------------------------------------------- admin

    method SetPaused(now: u64, caller: Address, paused: bool) returns (r: Result<()>)
      modifies this
      ensures Answers(old(Contents()),
                      Administer(old(Contents()), now, caller, AdminCall.SetPaused(paused)), Contents(), r)
    {
      if caller != config.admin || caller == contract {
        return Err(HostPanic);
      }
      config := config.(paused := paused);
      if !paused {
        windows := windows.(reset := now);
      }
      r := Ok(());
    }

    method SetTargetHalted(now: u64, caller: Address, target: Address, halt: bool) returns (r: Result<()>)
      modifies this
      ensures Answers(old(Contents()),
                      Administer(old(Contents()), now, caller, AdminCall.SetTargetHalted(target, halt)),
                      Contents(), r)
    {
      if caller != config.admin || caller == contract {
        return Err(HostPanic);
      }
      if halt {
        windows := windows.(halted := windows.halted + {target});
      } else {
        windows := windows.(halted := windows.halted - {target});
        windows := windows.(resumed := windows.resumed[target := now]);
      }
      r := Ok(());
    }

    /** The executor can be connected once. */
    method SetExecutor(now: u64, caller: Address, executor: Address) returns (r: Result<()>)
      modifies this
      ensures Answers(old(Contents()), Administer(old(Contents()), now, caller, AdminCall.SetExecutor(executor)),
                      Contents(), r)
    {
      if caller != config.admin || caller == contract {
        return Err(HostPanic);
      }
      if config.executor.Some? {
        return Err(ExecutorAlreadySet);
      }
      config := config.(executor := Some(executor));
      r := Ok(());
    }

    method SetMinStake(now: u64, caller: Address, minStake: i128) returns (r: Result<()>)
      modifies this
      ensures Answers(old(Contents()), Administer(old(Contents()), now, caller, AdminCall.SetMinStake(minStake)),
                      Contents(), r)
    {
      if caller != config.admin || caller == contract {
        return Err(HostPanic);
      }
      if minStake < 0 {
        return Err(InvalidAmount);
      }
      config := config.(minStake := minStake);
      windows := windows.(reset := now);
      r := Ok(());
    }

    method SetProtocolFee(now: u64, caller: Address, bps: u32, treasury: Option<Address>) returns (r: Result<()>)
      modifies this
      ensures Answers(old(Contents()),
                      Administer(old(Contents()), now, caller, AdminCall.SetProtocolFee(bps, treasury)),
                      Contents(), r)
    {
      if caller != config.admin || caller == contract {
        return Err(HostPanic);
      }
      if MAX_BPS < bps || (0 < bps && treasury.None?) {
        return Err(InvalidSetting);
      }
      config := config.(protocolFeeBps := bps, treasury := treasury);
      r := Ok(());
    }

    method SetKeeperWindows(now: u64, caller: Address, gracePeriod: u64) returns (r: Result<()>)
      modifies this
      ensures Answers(old(Contents()),
                      Administer(old(Contents()), now, caller, AdminCall.SetKeeperWindows(gracePeriod)),
                      Contents(), r)
    {
      if caller != config.admin || caller == contract {
        return Err(HostPanic);
      }
      if MAX_GRACE_PERIOD < gracePeriod {
        return Err(InvalidSetting);
      }
      config := config.(gracePeriod := gracePeriod, slashBps := 0);
      windows := windows.(reset := now);
      r := Ok(());
    }

    /** A longer epoch or delay pushes a pending upgrade back; a shorter one never brings it forward. */
    method PushBack()
      modifies this`upgrades
      ensures upgrades == PushBackPendingUpgrade(old(upgrades), config)
    {
      if upgrades.pending.Some? {
        var pending := upgrades.pending.value;
        var delay := Max(upgrades.delay, Sat64(config.unbondingPeriod + config.unbondingEpoch));
        var at := Sat64(pending.proposedAt + delay);
        if pending.availableAt < at {
          upgrades := upgrades.(pending := Some(pending.(availableAt := at)));
        }
      }
    }

    method SetUnbondingEpoch(now: u64, caller: Address, epoch: u64) returns (r: Result<()>)
      modifies this
      ensures Answers(old(Contents()), Administer(old(Contents()), now, caller, AdminCall.SetUnbondingEpoch(epoch)),
                      Contents(), r)
    {
      if caller != config.admin || caller == contract {
        return Err(HostPanic);
      }
      if MAX_UNBONDING_EPOCH < epoch {
        return Err(InvalidSetting);
      }
      config := config.(unbondingEpoch := epoch);
      PushBack();
      r := Ok(());
    }

    method SetUpgradeDelay(now: u64, caller: Address, delay: u64) returns (r: Result<()>)
      modifies this
      ensures Answers(old(Contents()), Administer(old(Contents()), now, caller, AdminCall.SetUpgradeDelay(delay)),
                      Contents(), r)
    {
      if caller != config.admin || caller == contract {
        return Err(HostPanic);
      }
      if delay < Sat64(config.unbondingPeriod + config.unbondingEpoch) {
        return Err(InvalidSetting);
      }
      upgrades := upgrades.(delay := delay);
      PushBack();
      r := Ok(());
    }

    method ProposeUpgrade(now: u64, caller: Address, wasmHash: int) returns (r: Result<u64>)
      modifies this
      ensures Answers(old(Contents()), Administer(old(Contents()), now, caller, AdminCall.ProposeUpgrade(wasmHash)),
                      Contents(), r)
      ensures r.Ok? ==> upgrades.pending == Some(PendingUpgrade(wasmHash, now, r.value))
    {
      if caller != config.admin || caller == contract {
        return Err(HostPanic);
      }
      var delay := Max(upgrades.delay, Sat64(config.unbondingPeriod + config.unbondingEpoch));
      var availableAt := Sat64(now + delay);
      upgrades := upgrades.(pending := Some(PendingUpgrade(wasmHash, now, availableAt)));
      r := Ok(availableAt);
    }

    /** Accepts the pending upgrade once its delay has passed; installing the code is outside this model. */
    method ApplyUpgrade(now: u64, caller: Address) returns (r: Result<()>)
      modifies this
      ensures Answers(old(Contents()), Administer(old(Contents()), now, caller, AdminCall.ApplyUpgrade), Contents(), r)
    {
      if caller != config.admin || caller == contract {
        return Err(HostPanic);
      }
      if upgrades.pending.None? {
        return Err(NoPendingUpgrade);
      }
      if now < upgrades.pending.value.availableAt {
        return Err(UpgradeNotReady);
      }
      upgrades := upgrades.(pending := None);
      r := Ok(());
    }

    method CancelUpgrade(now: u64, caller: Address) returns (r: Result<()>)
      modifies this
      ensures Answers(old(Contents()), Administer(old(Contents()), now, caller, AdminCall.CancelUpgrade), Contents(), r)
    {
      if caller != config.admin || caller == contract {
        return Err(HostPanic);
      }
      if upgrades.pending.None? {
        return Err(NoPendingUpgrade);
      }
      upgrades := upgrades.(pending := None);
      r := Ok(());
    }
  }
}
