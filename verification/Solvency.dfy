/**
 * The registry always holds exactly what it owes: live job balances plus
 * registered stakes, next to whatever surplus reached it some other way.
 */
module Solvency {
  import opened Basics
  import opened Types
  import opened Schedules
  import opened Token
  import opened RegistrySpec
  import opened Footprints
  import opened Bookkeeping
  import opened JobFacts

  ghost function Balances(jobs: JobBook): map<u64, int> {
    map id | id in jobs.states :: jobs.states[id].balance
  }

  ghost function Stakes(staff: KeeperBook): map<Address, int> {
    map k | k in staff.keepers :: staff.keepers[k].stake
  }

  /** Tokens of kind `token` that belong to job owners or keepers. */
  ghost function Owed(s: Storage, token: Address): int {
    (if token == s.config.feeToken then MapSum(Balances(s.jobs)) else 0)
    + (if token == s.config.stakeToken then MapSum(Stakes(s.staff)) else 0)
  }

  ghost function Surplus(s: Storage, token: Address): int {
    BalanceOf(s.ledger, token, s.contract) - Owed(s, token)
  }

  /** The registry is never its own customer, and a protocol fee always has a receiver. */
  ghost predicate PartiesSound(s: Storage) {
    && (forall id :: id in s.jobs.specs ==> s.jobs.specs[id].owner != s.contract)
    && (forall k :: k in s.staff.keepers ==> k != s.contract && 0 <= s.staff.keepers[k].stake)
    && s.config.protocolFeeBps <= MAX_BPS
    && (0 < s.config.protocolFeeBps ==> s.config.treasury.Some?)
  }

  ghost predicate Solvent(s: Storage) {
    PartiesSound(s) && forall token: Address :: 0 <= Surplus(s, token)
  }

  // ------------------------------------------------------------------ sums

  lemma BalanceSet(jobs: JobBook, jobs': JobBook, id: u64, state: JobState)
    requires jobs'.states == jobs.states[id := state]
    ensures MapSum(Balances(jobs')) ==
            MapSum(Balances(jobs)) + state.balance - (if id in jobs.states then jobs.states[id].balance else 0)
  {
    assert Balances(jobs') == Balances(jobs)[id := state.balance];
    MapSumSet(Balances(jobs), id, state.balance);
  }

  lemma BalanceDropped(jobs: JobBook, jobs': JobBook, id: u64)
    requires id in jobs.states && jobs'.states == jobs.states - {id}
    ensures MapSum(Balances(jobs')) == MapSum(Balances(jobs)) - jobs.states[id].balance
  {
    assert Balances(jobs') == Balances(jobs) - {id};
    MapSumTake(Balances(jobs), id);
  }

  lemma StakeSet(staff: KeeperBook, staff': KeeperBook, k: Address, info: Keeper)
    requires staff'.keepers == staff.keepers[k := info]
    ensures MapSum(Stakes(staff')) ==
            MapSum(Stakes(staff)) + info.stake - (if k in staff.keepers then staff.keepers[k].stake else 0)
  {
    assert Stakes(staff') == Stakes(staff)[k := info.stake];
    MapSumSet(Stakes(staff), k, info.stake);
  }

  lemma StakeDropped(staff: KeeperBook, staff': KeeperBook, k: Address)
    requires k in staff.keepers && staff'.keepers == staff.keepers - {k}
    ensures MapSum(Stakes(staff')) == MapSum(Stakes(staff)) - staff.keepers[k].stake
  {
    assert Stakes(staff') == Stakes(staff) - {k};
    MapSumTake(Stakes(staff), k);
  }

  lemma SameStakes(staff: KeeperBook, staff': KeeperBook)
    requires SameBonds(staff.keepers, staff'.keepers)
    ensures Stakes(staff') == Stakes(staff)
  {
  }

  /** Each single job balance and each single stake is covered by what the registry holds. */
  lemma EachClaimIsHeld(s: Storage)
    requires Indexed(s.jobs) && JobsSound(s.jobs) && Solvent(s)
    ensures forall id :: id in s.jobs.states ==>
                           s.jobs.states[id].balance <= BalanceOf(s.ledger, s.config.feeToken, s.contract)
    ensures forall k :: k in s.staff.keepers ==>
                          s.staff.keepers[k].stake <= BalanceOf(s.ledger, s.config.stakeToken, s.contract)
    ensures 0 <= MapSum(Balances(s.jobs)) && 0 <= MapSum(Stakes(s.staff))
  {
    var held := BalanceOf(s.ledger, s.config.feeToken, s.contract);
    var bonded := BalanceOf(s.ledger, s.config.stakeToken, s.contract);
    assert 0 <= Surplus(s, s.config.feeToken) && 0 <= Surplus(s, s.config.stakeToken);
    BalancesNonNegative(s.jobs);
    MapSumNonNegative(Balances(s.jobs));
    MapSumNonNegative(Stakes(s.staff));
    forall id | id in s.jobs.states
      ensures s.jobs.states[id].balance <= held
    {
      MapSumCovers(Balances(s.jobs), id);
    }
    forall k | k in s.staff.keepers
      ensures s.staff.keepers[k].stake <= bonded
    {
      MapSumCovers(Stakes(s.staff), k);
    }
  }

  lemma BalancesNonNegative(jobs: JobBook)
    requires Indexed(jobs) && JobsSound(jobs)
    ensures forall id :: id in Balances(jobs) ==> 0 <= Balances(jobs)[id]
  {
    hide OnCalendar, LeaderSound;
    forall id | id in Balances(jobs)
      ensures 0 <= Balances(jobs)[id]
    {
      assert JobSound(id, jobs.specs[id], jobs.states[id]);
    }
  }

  // ------------------------------------------------------------------ payments

  /** A payout the registry's balance covers is always paid, and costs the registry exactly that. */
  lemma SettlePays(ledger: Ledger, contract: Address, config: Config, keeper: Address, payout: Payout)
    requires keeper != contract && 0 <= payout.keeperFees && 0 <= payout.protocolFees
    requires 0 < payout.protocolFees ==> config.treasury.Some?
    requires payout.keeperFees + payout.protocolFees <= BalanceOf(ledger, config.feeToken, contract)
    ensures Settle(ledger, contract, config, keeper, payout).Ok?
    ensures forall t: Address, a: Address ::
              BalanceOf(Settle(ledger, contract, config, keeper, payout).value, t, a)
              == BalanceOf(ledger, t, a)
                 + (if t != config.feeToken then 0
                    else (if a == keeper then payout.keeperFees else 0)
                         + (if Some(a) == config.treasury then payout.protocolFees else 0)
                         - (if a == contract then payout.keeperFees + payout.protocolFees else 0))
  {
    hide Transfer, BalanceOf;
    TransferMoves(ledger, config.feeToken, contract, keeper, payout.keeperFees);
    if 0 < payout.keeperFees {
      var l1 := Transfer(ledger, config.feeToken, contract, keeper, payout.keeperFees).value;
      if 0 < payout.protocolFees {
        TransferMoves(l1, config.feeToken, contract, config.treasury.value, payout.protocolFees);
      }
    } else if 0 < payout.protocolFees {
      TransferMoves(ledger, config.feeToken, contract, config.treasury.value, payout.protocolFees);
    }
  }

  /** A run splits its fee between keeper and treasury without losing any of it. */
  lemma RunPayoutIsTheFee(s: Storage, now: u64, keeper: Address, id: u64, answer: Answer)
    requires JobsSound(s.jobs) && PartiesSound(s) && MayRun(s, now, keeper, id, answer).Ok?
    ensures var payout, fee := RunPayout(s, now, id), FeeOf(s.jobs, now, id);
            && payout.keeperFees + payout.protocolFees == fee
            && 0 < payout.keeperFees && 0 <= payout.protocolFees
            && (0 < payout.protocolFees ==> s.config.treasury.Some?)
            && 0 < fee <= s.jobs.states[id].balance
            && payout.protocolFees == SplitFee(fee, s.config.protocolFeeBps).1
  {
    hide RampedFee, OnCalendar, LeaderSound, MayRun;
    MayRunFacts(s, now, keeper, id, answer);
    assert JobSound(id, s.jobs.specs[id], s.jobs.states[id]);
    RampedFeeBounds(s.jobs.specs[id], s.jobs.states[id], now);
    SplitShare(FeeOf(s.jobs, now, id), s.config.protocolFeeBps);
  }

  lemma SplitShare(amount: int, bps: u32)
    requires 0 < amount && bps <= MAX_BPS
    ensures 0 <= SplitFee(amount, bps).1 < amount
    ensures SplitFee(amount, bps).0 + SplitFee(amount, bps).1 == amount
    ensures 0 < SplitFee(amount, bps).1 ==> 0 < bps
  {
    var q, r := amount / 10_000, amount % 10_000;
    TimesMonotone(bps, MAX_BPS, q);
    TimesMonotone(bps, MAX_BPS, r);
    assert q * bps <= q * 1_000 && 0 <= q * bps;
    assert 0 <= r * bps <= r * 1_000;
  }

  // ------------------------------------------------------------------ conservation

  /** What a transaction adds to the registry's surplus. */
  ghost function Windfall(s: Storage, now: u64, op: Op, token: Address): int {
    if Step(s, now, op).Err? then 0
    else match op
      case TokenMove(t, _, to, amount) => if t == token && to == s.contract then amount else 0
      case Run(_, id, _) =>
        if token == s.config.feeToken && s.config.treasury == Some(s.contract) && Exists(s.jobs, id)
        then RunPayout(s, now, id).protocolFees else 0
      case _ => 0
  }

  lemma CreateMoneyConserved(s: Storage, now: u64, owner: Address, params: JobParams, deposit: i128, token: Address)
    requires Indexed(s.jobs) && PartiesSound(s) && CreateJob(s, now, owner, params, deposit).Ok?
    ensures Surplus(CreateJob(s, now, owner, params, deposit).value, token) == Surplus(s, token)
  {
    hide Transfer, BalanceOf, ValidateJob, NewSpec, FirstCalendarRun, AddOwnerJob;
    var jobs' := CreateJob(s, now, owner, params, deposit).value.jobs;
    TransferMoves(s.ledger, s.config.feeToken, owner, s.contract, deposit);
    CreateFrame(s, now, owner, params, deposit);
    BalanceSet(s.jobs, jobs', s.jobs.nextId, jobs'.states[s.jobs.nextId]);
  }

  lemma JobMoneyConserved(s: Storage, now: u64, op: Op, token: Address)
    requires PartiesSound(s) && Step(s, now, op).Ok?
    requires op.Fund? || op.Withdraw?
    ensures Surplus(After(s, now, op), token) == Surplus(s, token)
  {
    hide Transfer, BalanceOf, Touch;
    var fee, jobs' := s.config.feeToken, After(s, now, op).jobs;
    match op
    case Fund(from, id, amount) =>
      TransferMoves(s.ledger, fee, from, s.contract, amount);
      BalanceSet(s.jobs, jobs', id, jobs'.states[id]);
    case Withdraw(caller, id, amount) =>
      TransferMoves(s.ledger, fee, s.contract, caller, amount);
      BalanceSet(s.jobs, jobs', id, jobs'.states[id]);
  }

  lemma CancelMoneyConserved(s: Storage, caller: Address, id: u64, token: Address)
    requires Indexed(s.jobs) && JobsSound(s.jobs) && PartiesSound(s) && CancelJob(s, caller, id).Ok?
    ensures Surplus(CancelJob(s, caller, id).value, token) == Surplus(s, token)
  {
    hide Transfer, BalanceOf, RemoveFirst, OnCalendar, LeaderSound;
    assert JobSound(id, s.jobs.specs[id], s.jobs.states[id]);
    TransferMoves(s.ledger, s.config.feeToken, s.contract, caller, s.jobs.states[id].balance);
    BalanceDropped(s.jobs, CancelJob(s, caller, id).value.jobs, id);
  }

  lemma RunMoneyConserved(s: Storage, now: u64, op: Op, token: Address)
    requires Indexed(s.jobs) && JobsSound(s.jobs) && Solvent(s) && Step(s, now, op).Ok? && op.Run?
    ensures Surplus(After(s, now, op), token) == Surplus(s, token) + Windfall(s, now, op, token)
  {
    hide Execute, MayRun, RunEvents, Settle, RunPayout, BalanceOf, RampedFee, JobsSound, Indexed, FeeOf;
    var s', keeper, id := After(s, now, op), op.keeper, op.id;
    ExecuteEffect(s, now, keeper, id, op.answer);
    RunPayoutIsTheFee(s, now, keeper, id, op.answer);
    EachClaimIsHeld(s);
    SettlePays(s.ledger, s.contract, s.config, keeper, RunPayout(s, now, id));
    BalanceSet(s.jobs, s'.jobs, id, s'.jobs.states[id]);
    SameStakes(s.staff, s'.staff);
  }

  lemma StaffMoneyConserved(s: Storage, now: u64, op: Op, token: Address)
    requires PartiesSound(s) && Step(s, now, op).Ok?
    requires op.AddStake? || op.Unbond? || op.Release? || op.RunNothing?
    ensures Surplus(After(s, now, op), token) == Surplus(s, token)
  {
    hide Transfer, BalanceOf, UnbondingRelease;
    var stake, staff' := s.config.stakeToken, After(s, now, op).staff;
    match op
    case AddStake(keeper, amount) =>
      TransferMoves(s.ledger, stake, keeper, s.contract, amount);
      StakeSet(s.staff, staff', keeper, staff'.keepers[keeper]);
    case Unbond(keeper) =>
      StakeSet(s.staff, staff', keeper, staff'.keepers[keeper]);
    case RunNothing(keeper) =>
      RewrittenReadsTheSame(s, keeper);
      SameStakes(s.staff, staff');
    case Release(keeper) =>
      TransferMoves(s.ledger, stake, s.contract, keeper, s.staff.keepers[keeper].stake);
      StakeDropped(s.staff, staff', keeper);
  }

  lemma OtherMoneyConserved(s: Storage, now: u64, op: Op, token: Address)
    requires Indexed(s.jobs) && Step(s, now, op).Ok?
    requires op.Update? || op.SetActive? || op.ProposeOwner? || op.AcceptOwner? || op.Admin? || op.TokenMove?
    ensures Surplus(After(s, now, op), token) == Surplus(s, token) + Windfall(s, now, op, token)
  {
    hide Transfer, BalanceOf, ValidateSchedule, LeaderRuns, RemoveOwnerJob, AddOwnerJob, Administer, Touch,
      UpdatedNextRun;
    var s' := After(s, now, op);
    match op
    case Update(_, id, _) => BalanceSet(s.jobs, s'.jobs, id, s'.jobs.states[id]);
    case SetActive(_, id, _) => BalanceSet(s.jobs, s'.jobs, id, s'.jobs.states[id]);
    case ProposeOwner(_, _, _) => assert Balances(s'.jobs) == Balances(s.jobs);
    case AcceptOwner(_, id) =>
      HandOverFrame(s.jobs, id, s.jobs.pendingOwners[id]);
      assert Balances(s'.jobs) == Balances(s.jobs);
    case Admin(caller, call) => AdministerEffect(s, now, caller, call);
    case TokenMove(t, from, to, amount) => TransferMoves(s.ledger, t, from, to, amount);
  }

  /**
   * Nothing the registry owes is ever refused for lack of tokens: each
   * outgoing payment goes through whenever the call's own checks pass.
   */
  lemma NoPaymentFails(s: Storage, now: u64)
    requires Indexed(s.jobs) && JobsSound(s.jobs) && Solvent(s)
    ensures forall caller: Address, id: u64 ::
              CancelJob(s, caller, id).Ok? <==> Exists(s.jobs, id) && Signed(s, caller, s.jobs.specs[id].owner)
    ensures forall caller: Address, id: u64, amount: i128 ::
              WithdrawJobBalance(s, now, caller, id, amount).Ok? <==>
                && Exists(s.jobs, id) && Signed(s, caller, s.jobs.specs[id].owner)
                && 0 < amount <= s.jobs.states[id].balance
    ensures forall keeper: Address ::
              ReleaseStake(s, now, keeper).Ok? <==>
                && keeper in s.staff.keepers && s.staff.keepers[keeper].unbondingAt.Some?
                && s.staff.keepers[keeper].unbondingAt.value <= now
    ensures forall keeper: Address, id: u64, answer: Answer ::
              Execute(s, now, keeper, id, answer).Ok? <==>
                AuthorizeKeeper(s, keeper).Ok? && MayRun(s, now, keeper, id, answer).Ok?
  {
    hide Indexed, JobsSound, Execute, RemoveOwnerJob, MayRun, AuthorizeKeeper, Touch, WithBalance;
    EachClaimIsHeld(s);
    forall keeper: Address, id: u64, answer: Answer
      ensures Execute(s, now, keeper, id, answer).Ok? <==>
                AuthorizeKeeper(s, keeper).Ok? && MayRun(s, now, keeper, id, answer).Ok?
    {
      PermittedRunIsPaid(s, now, keeper, id, answer);
    }
  }

  lemma PermittedRunIsPaid(s: Storage, now: u64, keeper: Address, id: u64, answer: Answer)
    requires Indexed(s.jobs) && JobsSound(s.jobs) && Solvent(s)
    ensures Execute(s, now, keeper, id, answer).Ok? <==>
              AuthorizeKeeper(s, keeper).Ok? && MayRun(s, now, keeper, id, answer).Ok?
  {
    hide Indexed, JobsSound, MayRun, StoreAfterRun, RecordAfterRun, Settle, FeeOf, AddFee, SaveRecord;
    if AuthorizeKeeper(s, keeper).Ok? && MayRun(s, now, keeper, id, answer).Ok? {
      EachClaimIsHeld(s);
      RunPayoutIsTheFee(s, now, keeper, id, answer);
      SettlePays(s.ledger, s.contract, s.config, keeper, RunPayout(s, now, id));
      StoreAfterRunFrame(s, now, keeper, id, MayRun(s, now, keeper, id, answer).value, answer);
    }
  }

  lemma StoreAfterRunFrame(s: Storage, now: u64, keeper: Address, id: u64, leaderRuns: u32, answer: Answer)
    requires Exists(s.jobs, id)
    ensures var s' := StoreAfterRun(s, now, keeper, id, leaderRuns, answer);
            s' == s.(jobs := s'.jobs, staff := s'.staff, log := s'.log)
  {
    hide NextState, RecordMiss, RunEvents, Missed;
  }

  /**
   * Conservation: each transaction changes the registry's surplus of each
   * token by exactly its windfall, which is nothing unless someone sends the
   * registry tokens directly or the registry is its own treasury.
   */
  lemma MoneyConserved(s: Storage, now: u64, op: Op, token: Address)
    requires Indexed(s.jobs) && JobsSound(s.jobs) && Solvent(s)
    ensures Surplus(After(s, now, op), token) == Surplus(s, token) + Windfall(s, now, op, token)
    ensures 0 <= Windfall(s, now, op, token)
  {
    hide Surplus, Indexed, JobsSound, PartiesSound, Transfer, RunPayout, CreateJob, UpdateJob, FundJob, CancelJob,
      WithdrawJobBalance, SetJobActive, ProposeJobOwner, AcceptJobOwner, Execute, Stake, BeginUnbonding,
      ReleaseStake, Administer;
    if Step(s, now, op).Ok? {
      match op
      case Create(owner, params, deposit) => CreateMoneyConserved(s, now, owner, params, deposit, token);
      case Fund(_, _, _) => JobMoneyConserved(s, now, op, token);
      case Withdraw(_, _, _) => JobMoneyConserved(s, now, op, token);
      case Cancel(caller, id) => CancelMoneyConserved(s, caller, id, token);
      case Run(keeper, id, answer) =>
        RunMoneyConserved(s, now, op, token);
        ExecuteEffect(s, now, keeper, id, answer);
        RunPayoutIsTheFee(s, now, keeper, id, answer);
      case AddStake(_, _) => StaffMoneyConserved(s, now, op, token);
      case Unbond(_) => StaffMoneyConserved(s, now, op, token);
      case Release(_) => StaffMoneyConserved(s, now, op, token);
      case RunNothing(_) => StaffMoneyConserved(s, now, op, token);
      case TokenMove(t, from, to, amount) =>
        OtherMoneyConserved(s, now, op, token);
        TransferMoves(s.ledger, t, from, to, amount);
      case _ => OtherMoneyConserved(s, now, op, token);
    }
  }

  lemma StepKeepsParties(s: Storage, now: u64, op: Op)
    requires Indexed(s.jobs) && PartiesSound(s)
    ensures PartiesSound(After(s, now, op))
  {
    OwnersStayOutside(s, now, op);
    KeepersStayOutside(s, now, op);
    FeeKeepsReceiver(s, now, op);
    PartiesUntouched(s, now, op);
    hide After;
  }

  lemma OwnersStayOutside(s: Storage, now: u64, op: Op)
    requires Indexed(s.jobs) && PartiesSound(s)
    ensures var jobs' := After(s, now, op).jobs;
            forall id :: id in jobs'.specs ==> jobs'.specs[id].owner != s.contract
  {
    hide Execute, Transfer, ValidateJob, NewState, InsertJob, HandOver, RemoveFirst, Administer, ValidateSchedule,
      UpdatedNextRun, Touch, LeaderRuns, MayRun, NextState, RunEvents, Settle;
    if LeavesJobs(op) {
      JobsUntouched(s, now, op);
    } else if Step(s, now, op).Ok? {
      match op
      case Create(owner, params, deposit) => CreateFrame(s, now, owner, params, deposit);
      case Run(keeper, id, answer) => ExecuteEffect(s, now, keeper, id, answer);
      case AcceptOwner(_, id) => HandOverFrame(s.jobs, id, s.jobs.pendingOwners[id]);
      case Update(_, _, _) =>
      case Fund(_, _, _) =>
      case Cancel(_, _) =>
      case Withdraw(_, _, _) =>
      case SetActive(_, _, _) =>
      case ProposeOwner(_, _, _) =>
    }
  }

  lemma KeepersStayOutside(s: Storage, now: u64, op: Op)
    requires PartiesSound(s)
    ensures var staff' := After(s, now, op).staff;
            forall k :: k in staff'.keepers ==> k != s.contract && 0 <= staff'.keepers[k].stake
  {
    hide Execute, Transfer, UnbondingRelease, MayRun, NextState, RunEvents, Settle;
    if LeavesStaff(op) {
      StaffUntouched(s, now, op);
    } else if Step(s, now, op).Ok? {
      match op
      case Run(keeper, id, answer) => ExecuteEffect(s, now, keeper, id, answer);
      case AddStake(_, _) =>
      case Unbond(_) =>
      case Release(_) =>
      case RunNothing(keeper) => RewrittenReadsTheSame(s, keeper);
    }
  }

  lemma FeeKeepsReceiver(s: Storage, now: u64, op: Op)
    requires PartiesSound(s)
    ensures var config' := After(s, now, op).config;
            config'.protocolFeeBps <= MAX_BPS && (0 < config'.protocolFeeBps ==> config'.treasury.Some?)
  {
    hide After;
    PartiesUntouched(s, now, op);
    if op.Admin? {
      AdminKeepsReceiver(s, now, op.caller, op.call);
    }
  }

  lemma AdminKeepsReceiver(s: Storage, now: u64, caller: Address, call: AdminCall)
    requires PartiesSound(s)
    ensures var config' := After(s, now, Admin(caller, call)).config;
            config'.protocolFeeBps <= MAX_BPS && (0 < config'.protocolFeeBps ==> config'.treasury.Some?)
  {
    hide NewWindows, NewUpgrades;
  }

  lemma StepKeepsSolvent(s: Storage, now: u64, op: Op)
    requires Indexed(s.jobs) && JobsSound(s.jobs) && Solvent(s)
    ensures Solvent(After(s, now, op))
  {
    hide After, Windfall, Surplus, Indexed, JobsSound, PartiesSound;
    StepKeepsParties(s, now, op);
    forall token: Address
      ensures 0 <= Surplus(After(s, now, op), token)
    {
      MoneyConserved(s, now, op, token);
    }
  }
}
