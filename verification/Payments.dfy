/** Every token an entry point moves: between whom, and how much. */
module Payments {
  import opened Basics
  import opened Types
  import opened Schedules
  import opened Token
  import opened RegistrySpec
  import opened Footprints
  import opened Bookkeeping
  import opened JobFacts
  import opened Solvency
  import opened RunCounts
  import opened JobRuns

  /** `amount` of `token` goes from `from` to `to` and no other balance changes. */
  ghost predicate Pays(before: Ledger, after: Ledger, token: Address, from: Address, to: Address, amount: int) {
    forall t: Address, a: Address ::
      BalanceOf(after, t, a) == BalanceOf(before, t, a)
                                + (if t == token && a == to then amount else 0)
                                - (if t == token && a == from then amount else 0)
  }

  /** A run's fee leaves the registry: the protocol's share, rounded down, to the treasury, the rest to the keeper. */
  ghost predicate PaysFee(s: Storage, after: Ledger, keeper: Address, fee: int) {
    var share := fee * s.config.protocolFeeBps / 10_000;
    forall t: Address, a: Address ::
      BalanceOf(after, t, a) == BalanceOf(s.ledger, t, a)
                                + (if t == s.config.feeToken && a == keeper then fee - share else 0)
                                + (if t == s.config.feeToken && Some(a) == s.config.treasury then share else 0)
                                - (if t == s.config.feeToken && a == s.contract then fee else 0)
  }

  /** The payment an accepted transaction makes. */
  ghost predicate PaysAsDue(s: Storage, op: Op, s': Storage) {
    var fees, stakes := s.config.feeToken, s.config.stakeToken;
    match op
    case Create(owner, _, deposit) => Pays(s.ledger, s'.ledger, fees, owner, s.contract, deposit)
    case Fund(from, _, amount) => Pays(s.ledger, s'.ledger, fees, from, s.contract, amount)
    case Cancel(_, id) =>
      Exists(s.jobs, id)
      && Pays(s.ledger, s'.ledger, fees, s.contract, s.jobs.specs[id].owner, s.jobs.states[id].balance)
    case Withdraw(_, id, amount) =>
      Exists(s.jobs, id) && Pays(s.ledger, s'.ledger, fees, s.contract, s.jobs.specs[id].owner, amount)
    case Run(keeper, id, _) =>
      Exists(s.jobs, id) && Exists(s'.jobs, id)
      && PaysFee(s, s'.ledger, keeper, s.jobs.states[id].balance - s'.jobs.states[id].balance)
    case AddStake(keeper, amount) => Pays(s.ledger, s'.ledger, stakes, keeper, s.contract, amount)
    case Release(keeper) =>
      keeper in s.staff.keepers
      && Pays(s.ledger, s'.ledger, stakes, s.contract, keeper, s.staff.keepers[keeper].stake)
    case TokenMove(token, from, to, amount) => Pays(s.ledger, s'.ledger, token, from, to, amount)
    case _ => s'.ledger == s.ledger
  }

  lemma RunPays(s: Storage, now: u64, keeper: Address, id: u64, answer: Answer, s': Storage)
    requires Exists(s.jobs, id) && Execute(s, now, keeper, id, answer) == Ok(s')
    requires Indexed(s.jobs) && JobsSound(s.jobs) && Solvent(s)
    ensures Exists(s'.jobs, id)
    ensures PaysFee(s, s'.ledger, keeper, s.jobs.states[id].balance - s'.jobs.states[id].balance)
  {
    hide Execute, MayRun, RunEvents, Settle, JobsSound, Indexed, NextState, FeeOf, SplitFee, BalanceOf, RunPayout;
    ExecuteEffect(s, now, keeper, id, answer);
    RunPayoutIsTheFee(s, now, keeper, id, answer);
    EachClaimIsHeld(s);
    FeeOfRun(s, now, keeper, id, answer);
    WasActive(s, now, keeper, id, answer);
    StateOfRun(s, now, id, MayRun(s, now, keeper, id, answer).value, answer);
    SettlePays(s.ledger, s.contract, s.config, keeper, RunPayout(s, now, id));
  }

  lemma JobOpPays(s: Storage, now: u64, op: Op)
    requires op.Create? || op.Fund? || op.Withdraw? || op.Cancel?
    requires Indexed(s.jobs) && JobsSound(s.jobs) && Step(s, now, op).Ok?
    ensures PaysAsDue(s, op, After(s, now, op))
  {
    hide ValidateJob, InsertJob, RemoveOwnerJob, Touch, Transfer, BalanceOf, JobsSound, Indexed;
    var fees := s.config.feeToken;
    match op
    case Create(owner, _, deposit) => TransferMoves(s.ledger, fees, owner, s.contract, deposit);
    case Fund(from, _, amount) => TransferMoves(s.ledger, fees, from, s.contract, amount);
    case Withdraw(_, id, amount) => TransferMoves(s.ledger, fees, s.contract, s.jobs.specs[id].owner, amount);
    case Cancel(_, id) =>
      JobsSoundAt(s.jobs, id);
      TransferMoves(s.ledger, fees, s.contract, s.jobs.specs[id].owner, s.jobs.states[id].balance);
  }

  lemma StaffOpPays(s: Storage, now: u64, op: Op)
    requires op.AddStake? || op.Release? || op.TokenMove?
    requires PartiesSound(s) && Step(s, now, op).Ok?
    ensures PaysAsDue(s, op, After(s, now, op))
  {
    hide Transfer, BalanceOf;
    var stakes := s.config.stakeToken;
    match op
    case AddStake(keeper, amount) => TransferMoves(s.ledger, stakes, keeper, s.contract, amount);
    case Release(keeper) =>
      TransferMoves(s.ledger, stakes, s.contract, keeper, s.staff.keepers[keeper].stake);
    case TokenMove(token, from, to, amount) => TransferMoves(s.ledger, token, from, to, amount);
  }

  lemma OthersPayNothing(s: Storage, now: u64, op: Op)
    requires op.Update? || op.SetActive? || op.ProposeOwner? || op.AcceptOwner? || op.RunNothing? || op.Unbond?
          || op.Admin?
    ensures After(s, now, op).ledger == s.ledger
  {
    hide ValidateSchedule, LeaderRuns, UpdatedNextRun, HandOver, Touch, UnbondingRelease, Administer, AuthorizeKeeper;
    match op
    case Admin(caller, call) =>
      if Administer(s, now, caller, call).Ok? {
        AdministerEffect(s, now, caller, call);
      }
    case Update(_, _, _) =>
    case SetActive(_, _, _) =>
    case ProposeOwner(_, _, _) =>
    case AcceptOwner(_, _) =>
    case RunNothing(_) =>
    case Unbond(_) =>
  }

  /** An accepted transaction moves exactly the tokens it is for, a refused one none. */
  lemma StepPaysAsDue(s: Storage, now: u64, op: Op)
    requires Indexed(s.jobs) && JobsSound(s.jobs) && Solvent(s)
    ensures if Step(s, now, op).Ok? then PaysAsDue(s, op, After(s, now, op))
            else After(s, now, op).ledger == s.ledger
  {
    hide Indexed, JobsSound, Pays, PaysFee, Execute;
    if Step(s, now, op).Ok? {
      if op.Run? {
        RunNeedsJob(s, now, op.keeper, op.id, op.answer);
        RunPays(s, now, op.keeper, op.id, op.answer, After(s, now, op));
      } else if op.Create? || op.Fund? || op.Withdraw? || op.Cancel? {
        hide Step;
        JobOpPays(s, now, op);
      } else if op.AddStake? || op.Release? || op.TokenMove? {
        hide Step;
        StaffOpPays(s, now, op);
      } else {
        hide Step;
        OthersPayNothing(s, now, op);
      }
    }
  }
}
