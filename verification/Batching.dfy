/**
 * `execute_batch` loads the keeper's record once, saves it once and pays once.
 * It leaves what calling `execute` on each id in turn, ignoring rejections,
 * would have left.
 */
module Batching {
  import opened Basics
  import opened Types
  import opened Schedules
  import opened Token
  import opened RegistrySpec
  import opened Footprints
  import opened Bookkeeping
  import opened JobFacts
  import opened Solvency
  import opened Histories

  // ------------------------------------------------------------------ the batch

  /** The job run if it may run, the progress so far otherwise. */
  function TryRun(p: Progress, now: u64, keeper: Address, id: u64, answer: Answer): Progress {
    match RunJob(p, now, keeper, id, answer)
    case Ok(p') => p'
    case Err(_) => p
  }

  function RunAll(p: Progress, now: u64, keeper: Address, ids: seq<u64>, answers: seq<Answer>): Progress
    requires |ids| == |answers|
  {
    if ids == [] then p
    else
      var n := |ids| - 1;
      TryRun(RunAll(p, now, keeper, ids[..n], answers[..n]), now, keeper, ids[n], answers[n])
  }

  /** Per input id, whether it ran. */
  function RanFlags(p: Progress, now: u64, keeper: Address, ids: seq<u64>, answers: seq<Answer>): (flags: seq<bool>)
    requires |ids| == |answers|
    ensures |flags| == |ids|
  {
    if ids == [] then []
    else
      var n := |ids| - 1;
      RanFlags(p, now, keeper, ids[..n], answers[..n])
      + [RunJob(RunAll(p, now, keeper, ids[..n], answers[..n]), now, keeper, ids[n], answers[n]).Ok?]
  }

  function ExecuteBatch(s: Storage, now: u64, keeper: Address, ids: seq<u64>, answers: seq<Answer>): Result<Storage>
    requires |ids| == |answers|
  {
    if ids == [] || MAX_BATCH < |ids| then Err(InvalidBatchSize)
    else
      var p :- Begin(s, keeper);
      Commit(RunAll(p, now, keeper, ids, answers), keeper)
  }

  /** `execute` called on each id in order; a rejected call leaves no trace. */
  function ExecuteEach(s: Storage, now: u64, keeper: Address, ids: seq<u64>, answers: seq<Answer>): Storage
    requires |ids| == |answers|
  {
    if ids == [] then s
    else
      var n := |ids| - 1;
      After(ExecuteEach(s, now, keeper, ids[..n], answers[..n]), now, Run(keeper, ids[n], answers[n]))
  }

  // ------------------------------------------------------------------ the two keeper books

  /** `one` is `many` with the cached record of `k` written into it. */
  ghost predicate SameStaff(many: KeeperBook, record: KeeperRecord, one: KeeperBook, k: Address) {
    && one.rotation == many.rotation
    && k in many.keepers
    && many.keepers[k].stake == record.info.stake && many.keepers[k].unbondingAt == record.info.unbondingAt
    && one.keepers == many.keepers[k := record.info]
    && Recent(one, k) == record.recent
    && one.recents[k := record.recent] == many.recents[k := record.recent]
  }

  lemma SameEligibility(many: Storage, record: KeeperRecord, one: Storage, k: Address)
    requires SameStaff(many.staff, record, one.staff, k) && many.config == one.config
    ensures forall a :: IsEligible(many, a) == IsEligible(one, a)
  {
  }

  /** Recording another keeper's miss commutes with the cached record, because it never names that keeper. */
  lemma MissKeepsSameStaff(many: KeeperBook, record: KeeperRecord, one: KeeperBook, k: Address,
                           missed: Option<Address>, record': KeeperRecord)
    requires SameStaff(many, record, one, k) && missed != Some(k)
    requires record'.info.stake == record.info.stake && record'.info.unbondingAt == record.info.unbondingAt
    ensures SameStaff(RecordMiss(many, missed), record', SaveRecord(RecordMiss(one, missed), k, record'), k)
  {
    hide Smooth;
    var many', one' := RecordMiss(many, missed), RecordMiss(one, missed);
    if missed.Some? && missed.value in many.keepers {
      var m, r := missed.value, record.recent;
      SameRecent(one.recents, many.recents, k, r, m);
      assert Recent(one, m) == Recent(many, m);
      var x := one'.recents[m];
      assert one.recents[m := x][k := r] == one.recents[k := r][m := x];
      assert many.recents[m := x][k := r] == many.recents[k := r][m := x];
    }
    assert one'.keepers[k := record'.info] == many'.keepers[k := record'.info];
    assert one'.recents[k := record.recent] == many'.recents[k := record.recent];
    assert one'.recents[k := record'.recent] == one'.recents[k := record.recent][k := record'.recent];
    assert many'.recents[k := record'.recent] == many'.recents[k := record.recent][k := record'.recent];
  }

  lemma SameRecent(a: map<Address, KeeperRecent>, b: map<Address, KeeperRecent>, k: Address, r: KeeperRecent,
                   m: Address)
    requires a[k := r] == b[k := r] && m != k
    ensures m in a <==> m in b
    ensures m in a ==> a[m] == b[m]
  {
    assert m in a <==> m in a[k := r];
    assert m in b <==> m in b[k := r];
    if m in a {
      assert a[m] == a[k := r][m];
    }
  }

  // ------------------------------------------------------------------ paying once or twice

  /** The accounts a payout writes. */
  ghost function Payees(contract: Address, config: Config, keeper: Address, payout: Payout): set<Account> {
    (if 0 < payout.keeperFees then {Account(config.feeToken, contract), Account(config.feeToken, keeper)} else {})
    + (if 0 < payout.protocolFees && config.treasury.Some?
       then {Account(config.feeToken, contract), Account(config.feeToken, config.treasury.value)} else {})
  }

  lemma SettleKeys(ledger: Ledger, contract: Address, config: Config, keeper: Address, payout: Payout)
    requires Settle(ledger, contract, config, keeper, payout).Ok?
    ensures Settle(ledger, contract, config, keeper, payout).value.Keys
         == ledger.Keys + Payees(contract, config, keeper, payout)
  {
  }

  ghost predicate Payable(ledger: Ledger, contract: Address, config: Config, keeper: Address, payout: Payout) {
    && keeper != contract && 0 <= payout.keeperFees && 0 <= payout.protocolFees
    && (0 < payout.protocolFees ==> config.treasury.Some?)
    && payout.keeperFees + payout.protocolFees <= BalanceOf(ledger, config.feeToken, contract)
  }

  function Sum(a: Payout, b: Payout): Payout {
    Payout(a.keeperFees + b.keeperFees, a.protocolFees + b.protocolFees)
  }

  /** One transfer of the sum and two transfers of the parts leave the same balances. */
  lemma SettleTwice(l: Ledger, contract: Address, config: Config, keeper: Address, a: Payout, b: Payout)
    requires Payable(l, contract, config, keeper, a) && Payable(l, contract, config, keeper, Sum(a, b))
    requires Settle(l, contract, config, keeper, a).Ok?
    requires Payable(Settle(l, contract, config, keeper, a).value, contract, config, keeper, b)
    ensures Settle(Settle(l, contract, config, keeper, a).value, contract, config, keeper, b)
         == Settle(l, contract, config, keeper, Sum(a, b))
  {
    SettlePays(l, contract, config, keeper, a);
    var l1 := Settle(l, contract, config, keeper, a).value;
    SettlePays(l1, contract, config, keeper, b);
    SettlePays(l, contract, config, keeper, Sum(a, b));
    var two := Settle(l1, contract, config, keeper, b).value;
    var once := Settle(l, contract, config, keeper, Sum(a, b)).value;
    SettleKeys(l, contract, config, keeper, a);
    SettleKeys(l1, contract, config, keeper, b);
    SettleKeys(l, contract, config, keeper, Sum(a, b));
    hide Settle;
    assert two.Keys == once.Keys;
    forall account | account in two
      ensures two[account] == once[account]
    {
      assert BalanceOf(two, account.token, account.holder) == BalanceOf(once, account.token, account.holder);
    }
    assert two == once;
  }

  lemma SettleNothing(l: Ledger, contract: Address, config: Config, keeper: Address)
    ensures Settle(l, contract, config, keeper, Payout(0, 0)) == Ok(l)
  {
  }

  // ------------------------------------------------------------------ simulation

  /** What is still owed plus what this call has earned is covered by what the registry holds. */
  ghost predicate Backed(q: Progress, k: Address) {
    && Payable(q.store.ledger, q.store.contract, q.store.config, k, q.payout)
    && q.payout.keeperFees + q.payout.protocolFees + MapSum(Balances(q.store.jobs))
       <= BalanceOf(q.store.ledger, q.store.config.feeToken, q.store.contract)
  }

  /** The batch's progress `q`, once committed, is the storage `f` that single calls have reached. */
  ghost predicate Mirrors(q: Progress, f: Storage, k: Address) {
    && q.store == f.(staff := q.store.staff, ledger := q.store.ledger)
    && SameStaff(q.store.staff, q.record, f.staff, k)
    && Backed(q, k)
    && Settle(q.store.ledger, q.store.contract, q.store.config, k, q.payout) == Ok(f.ledger)
    && AuthorizeKeeper(f, k).Ok?
    && Sound(f)
  }

  lemma SamePermission(q: Progress, f: Storage, now: u64, k: Address, id: u64, answer: Answer)
    requires q.store == f.(staff := q.store.staff, ledger := q.store.ledger)
    requires SameStaff(q.store.staff, q.record, f.staff, k)
    ensures MayRun(q.store, now, k, id, answer) == MayRun(f, now, k, id, answer)
    ensures Exists(f.jobs, id) ==> Missed(q.store, now, k, id) == Missed(f, now, k, id)
  {
    SameEligibility(q.store, q.record, f, k);
    hide IsEligible, SameStaff, EnsureDue, Recent;
    assert q.store.staff.rotation == f.staff.rotation by { RotationOf(q.store.staff, q.record, f.staff, k); }
    if Exists(f.jobs, id) {
      assert AssignedKeeper(q.store, id, f.jobs.specs[id], f.jobs.states[id])
          == AssignedKeeper(f, id, f.jobs.specs[id], f.jobs.states[id]);
      hide AssignedKeeper;
      assert OtherAssigned(q.store, k, id) == OtherAssigned(f, k, id);
      hide OtherAssigned;
    }
  }

  lemma RotationOf(many: KeeperBook, record: KeeperRecord, one: KeeperBook, k: Address)
    requires SameStaff(many, record, one, k)
    ensures one.rotation == many.rotation
  {
  }

  /** The same run, made from the batch's progress and from the single calls' storage. */
  lemma SameEvents(q: Progress, f: Storage, now: u64, k: Address, id: u64, leaderRuns: u32, answer: Answer)
    requires q.store == f.(staff := q.store.staff, ledger := q.store.ledger)
    requires SameStaff(q.store.staff, q.record, f.staff, k) && Exists(f.jobs, id)
    requires Missed(q.store, now, k, id) == Missed(f, now, k, id)
    ensures NextState(q.store, now, id, leaderRuns, answer) == NextState(f, now, id, leaderRuns, answer)
    ensures RunEvents(q.store, now, k, id, leaderRuns, answer) == RunEvents(f, now, k, id, leaderRuns, answer)
  {
    hide Missed, FeeOf, SplitFee, GivesUp, StateAfterRun;
  }

  /** A run keeps the batch backed: its fee leaves the job's balance and joins the payout. */
  lemma RunKeepsBacked(q: Progress, f: Storage, now: u64, k: Address, id: u64, answer: Answer)
    requires Mirrors(q, f, k) && MayRun(f, now, k, id, answer).Ok? && RunJob(q, now, k, id, answer).Ok?
    ensures Backed(RunJob(q, now, k, id, answer).value, k)
    ensures RunJob(q, now, k, id, answer).value.payout == Sum(q.payout, RunPayout(f, now, id))
  {
    hide MayRun, FeeOf, SplitFee, Settle, SameStaff, AuthorizeKeeper, Indexed, JobsSound, RotationSound, MissesSound,
      ConfigSound, UpgradeSound, RunEvents, RecordMiss, Missed, RecordAfterRun, BalanceOf;
    RunPayoutIsTheFee(f, now, k, id, answer);
    var q' := RunJob(q, now, k, id, answer).value;
    BalanceSet(q.store.jobs, q'.store.jobs, id, q'.store.jobs.states[id]);
    BalancesStayNonNegative(f);
    assert q'.payout == Sum(q.payout, RunPayout(f, now, id));
    BalancesOfRun(f, now, k, id, answer, q'.store.jobs);
  }

  lemma BalancesStayNonNegative(f: Storage)
    requires Sound(f)
    ensures 0 <= MapSum(Balances(f.jobs))
  {
    hide RotationSound, MissesSound, Indexed, JobsSound, ConfigSound, UpgradeSound;
    EachClaimIsHeld(f);
  }

  lemma BalancesOfRun(f: Storage, now: u64, k: Address, id: u64, answer: Answer, jobs': JobBook)
    requires Sound(f) && MayRun(f, now, k, id, answer).Ok?
    requires id in jobs'.states && jobs'.states == f.jobs.states[id := jobs'.states[id]]
    requires jobs'.states[id].balance == f.jobs.states[id].balance - FeeOf(f.jobs, now, id)
    ensures 0 <= MapSum(Balances(jobs'))
  {
    hide MayRun, FeeOf, RotationSound, MissesSound, ConfigSound, UpgradeSound, OnCalendar, LeaderSound;
    RunPayoutIsTheFee(f, now, k, id, answer);
    BalancesNonNegative(f.jobs);
    assert forall j :: j in Balances(jobs') && j != id ==> Balances(jobs')[j] == Balances(f.jobs)[j];
    MapSumNonNegative(Balances(jobs'));
  }

  lemma RunKeepsMirror(q: Progress, f: Storage, now: u64, k: Address, id: u64, answer: Answer)
    requires Mirrors(q, f, k)
    ensures RunJob(q, now, k, id, answer).Ok? <==> Execute(f, now, k, id, answer).Ok?
    ensures Mirrors(TryRun(q, now, k, id, answer), After(f, now, Run(k, id, answer)), k)
  {
    var op := Run(k, id, answer);
    assert After(f, now, op) == (match Execute(f, now, k, id, answer) case Ok(f') => f' case Err(_) => f) by {
      hide Execute;
    }
    hide After, MayRun, AuthorizeKeeper, Settle, SameStaff, Backed, Sound, Execute, StoreAfterRun, FeeOf, AddFee,
      RecordAfterRun;
    StepKeepsSound(f, now, op);
    SamePermission(q, f, now, k, id, answer);
    MirrorFacts(q, f, k);
    PermittedRunIsPaid(f, now, k, id, answer);
    if MayRun(f, now, k, id, answer).Ok? {
      RunKeepsBacked(q, f, now, k, id, answer);
      RunMirrorsStore(q, f, now, k, id, answer);
    }
  }

  lemma MirrorFacts(q: Progress, f: Storage, k: Address)
    requires Mirrors(q, f, k)
    ensures Indexed(f.jobs) && JobsSound(f.jobs) && Solvent(f)
    ensures k in f.staff.keepers && f.staff.keepers[k] == q.record.info && Recent(f.staff, k) == q.record.recent
    ensures AuthorizeKeeper(f, k) == Ok(q.record.info)
  {
    hide Indexed, JobsSound, Solvent, Backed, Settle, RotationSound, MissesSound;
  }

  lemma RunMirrorsStore(q: Progress, f: Storage, now: u64, k: Address, id: u64, answer: Answer)
    requires Mirrors(q, f, k)
    requires MayRun(q.store, now, k, id, answer) == MayRun(f, now, k, id, answer) && MayRun(f, now, k, id, answer).Ok?
    requires Missed(q.store, now, k, id) == Missed(f, now, k, id)
    requires Execute(f, now, k, id, answer).Ok?
    requires Backed(RunJob(q, now, k, id, answer).value, k)
    requires RunJob(q, now, k, id, answer).value.payout == Sum(q.payout, RunPayout(f, now, id))
    requires Sound(Execute(f, now, k, id, answer).value)
    ensures Mirrors(RunJob(q, now, k, id, answer).value, Execute(f, now, k, id, answer).value, k)
  {
    hide MayRun, Settle, SameStaff, Sound, FeeOf, AddFee, RunEvents, NextState, Missed, RecordMiss, SaveRecord, Recent,
      EnsureActiveKeeper, BalanceOf;
    MirrorFacts(q, f, k);
    var leaderRuns := MayRun(f, now, k, id, answer).value;
    SameEvents(q, f, now, k, id, leaderRuns, answer);
    if Missed(f, now, k, id).Some? {
      MissedIsAnotherKeeper(f, now, k, id);
    }
    MissKeepsSameStaff(q.store.staff, q.record, f.staff, k, Missed(f, now, k, id),
                       RecordAfterRun(q.record, Less(now, f.jobs.states[id].nextRun)));
    RunPayoutIsTheFee(f, now, k, id, answer);
    EachClaimIsHeld(f);
    SettleTwice(q.store.ledger, q.store.contract, q.store.config, k, q.payout, RunPayout(f, now, id));
    var q', f' := RunJob(q, now, k, id, answer).value, Execute(f, now, k, id, answer).value;
    assert q'.store == f'.(staff := q'.store.staff, ledger := q'.store.ledger);
    assert SameStaff(q'.store.staff, q'.record, f'.staff, k);
    assert Settle(q'.store.ledger, q'.store.contract, q'.store.config, k, q'.payout) == Ok(f'.ledger);
    StillAuthorized(f, now, k, id, answer);
  }

  /** Running a job does not cost a keeper its right to run the next one. */
  lemma StillAuthorized(f: Storage, now: u64, k: Address, id: u64, answer: Answer)
    requires Execute(f, now, k, id, answer).Ok?
    ensures AuthorizeKeeper(Execute(f, now, k, id, answer).value, k).Ok?
  {
    hide Execute, MayRun, Settle, RunEvents, NextState;
    ExecuteEffect(f, now, k, id, answer);
  }

  lemma {:induction false} BatchMirrorsEach(p: Progress, s: Storage, now: u64, k: Address, ids: seq<u64>,
                                            answers: seq<Answer>)
    requires |ids| == |answers| && Mirrors(p, s, k)
    ensures Mirrors(RunAll(p, now, k, ids, answers), ExecuteEach(s, now, k, ids, answers), k)
    ensures forall i :: 0 <= i < |ids| ==>
                          (RanFlags(p, now, k, ids, answers)[i]
                           <==> Execute(ExecuteEach(s, now, k, ids[..i], answers[..i]), now, k, ids[i], answers[i]).Ok?)
  {
    hide Mirrors, After, TryRun, RunJob, Execute;
    if ids != [] {
      var n := |ids| - 1;
      BatchMirrorsEach(p, s, now, k, ids[..n], answers[..n]);
      RunKeepsMirror(RunAll(p, now, k, ids[..n], answers[..n]), ExecuteEach(s, now, k, ids[..n], answers[..n]),
                     now, k, ids[n], answers[n]);
      forall i | 0 <= i < n
        ensures ids[..n][..i] == ids[..i] && answers[..n][..i] == answers[..i]
      {
      }
    }
  }

  lemma BeginMirrors(s: Storage, k: Address)
    requires Sound(s) && Begin(s, k).Ok?
    ensures Mirrors(Begin(s, k).value, s, k)
  {
    hide Settle, Indexed, JobsSound, RotationSound, MissesSound, ConfigSound, UpgradeSound;
    SettleNothing(s.ledger, s.contract, s.config, k);
    BalancesStayNonNegative(s);
    BalancesAreHeld(s);
    assert s.staff.keepers[k := s.staff.keepers[k]] == s.staff.keepers;
  }

  lemma BalancesAreHeld(s: Storage)
    requires Sound(s)
    ensures MapSum(Balances(s.jobs)) <= BalanceOf(s.ledger, s.config.feeToken, s.contract)
  {
    hide RotationSound, MissesSound, Indexed, JobsSound, ConfigSound, UpgradeSound;
    EachClaimIsHeld(s);
    assert 0 <= Surplus(s, s.config.feeToken);
  }

  lemma CommitOfMirror(q: Progress, f: Storage, k: Address)
    requires Mirrors(q, f, k)
    ensures Commit(q, k) == Ok(Rewritten(f, k))
  {
    hide Settle, Sound, Backed, AuthorizeKeeper;
    var r := Rewritten(f, k);
    assert r.staff.keepers == f.staff.keepers;
    assert Commit(q, k).value.staff == r.staff;
  }

  /**
   * A batch succeeds whenever the keeper may execute at all, reports exactly
   * which single calls would have succeeded, and leaves exactly the storage
   * those calls leave, with the keeper's own entries written back.
   */
  lemma BatchIsEach(s: Storage, now: u64, k: Address, ids: seq<u64>, answers: seq<Answer>)
    requires Sound(s) && |ids| == |answers| && 0 < |ids| <= MAX_BATCH
    ensures ExecuteBatch(s, now, k, ids, answers)
         == if AuthorizeKeeper(s, k).Ok? then Ok(Rewritten(ExecuteEach(s, now, k, ids, answers), k))
            else Err(AuthorizeKeeper(s, k).error)
    ensures AuthorizeKeeper(s, k).Ok? ==>
              forall i :: 0 <= i < |ids| ==>
                (RanFlags(Begin(s, k).value, now, k, ids, answers)[i] <==>
                 Execute(ExecuteEach(s, now, k, ids[..i], answers[..i]), now, k, ids[i], answers[i]).Ok?)
  {
    hide Mirrors, Sound, RunAll, ExecuteEach, RanFlags, Execute, Commit, Rewritten, AuthorizeKeeper;
    if AuthorizeKeeper(s, k).Ok? {
      BeginMirrors(s, k);
      BatchMirrorsEach(Begin(s, k).value, s, now, k, ids, answers);
      CommitOfMirror(RunAll(Begin(s, k).value, now, k, ids, answers), ExecuteEach(s, now, k, ids, answers), k);
    }
  }

  lemma {:induction false} EachKeepsSound(s: Storage, now: u64, k: Address, ids: seq<u64>, answers: seq<Answer>)
    requires Sound(s) && |ids| == |answers|
    ensures Sound(ExecuteEach(s, now, k, ids, answers))
  {
    hide Sound, Execute;
    if ids != [] {
      var n := |ids| - 1;
      EachKeepsSound(s, now, k, ids[..n], answers[..n]);
      var f := ExecuteEach(s, now, k, ids[..n], answers[..n]);
      StepKeepsSound(f, now, Run(k, ids[n], answers[n]));
    }
  }

  /** What holds in every reachable state also holds after a batch. */
  lemma BatchKeepsSound(s: Storage, now: u64, k: Address, ids: seq<u64>, answers: seq<Answer>)
    requires Sound(s) && |ids| == |answers| && ExecuteBatch(s, now, k, ids, answers).Ok?
    ensures Sound(ExecuteBatch(s, now, k, ids, answers).value)
  {
    BatchNotEmpty(s, now, k, ids, answers);
    BatchIsEach(s, now, k, ids, answers);
    EachKeepsSound(s, now, k, ids, answers);
    hide ExecuteBatch, ExecuteEach;
    RewritingKeepsSound(ExecuteEach(s, now, k, ids, answers), k);
  }

  lemma BatchNotEmpty(s: Storage, now: u64, k: Address, ids: seq<u64>, answers: seq<Answer>)
    requires |ids| == |answers| && ExecuteBatch(s, now, k, ids, answers).Ok?
    ensures 0 < |ids| <= MAX_BATCH
  {
    hide RunAll, Commit, Begin;
  }

  lemma RewritingKeepsSound(f: Storage, k: Address)
    requires Sound(f)
    ensures Sound(Rewritten(f, k))
  {
    RewrittenReadsTheSame(f, k);
    var r := Rewritten(f, k);
    assert r.staff.keepers == f.staff.keepers && r.staff.rotation == f.staff.rotation;
    forall a | a in r.staff.recents
      ensures r.staff.recents[a].misses <= 8 * MAX_BPS_SCALE
    {
      assert Recent(r.staff, a) == Recent(f.staff, a);
    }
    forall token: Address
      ensures Surplus(r, token) == Surplus(f, token)
    {
      assert Stakes(r.staff) == Stakes(f.staff);
    }
    hide Rewritten, Indexed, JobsSound, Surplus;
  }

  // ------------------------------------------------------------------ the other batched entry points

  /** `withdraw_stakes` pays out each listed keeper in turn and skips those that are not ready. */
  function ReleaseEach(s: Storage, now: u64, keepers: seq<Address>): Storage {
    if keepers == [] then s
    else After(ReleaseEach(s, now, keepers[..|keepers| - 1]), now, Release(keepers[|keepers| - 1]))
  }

  /** What one payout of `withdraw_stakes` reports: the stake that was released, 0 for a keeper that is not ready. */
  function PaidOut(s: Storage, now: u64, keeper: Address): int {
    if ReleaseStake(s, now, keeper).Ok? then s.staff.keepers[keeper].stake else 0
  }

  function PaidOutEach(s: Storage, now: u64, keepers: seq<Address>): (paid: seq<int>)
    ensures |paid| == |keepers|
  {
    if keepers == [] then []
    else
      var n := |keepers| - 1;
      PaidOutEach(s, now, keepers[..n]) + [PaidOut(ReleaseEach(s, now, keepers[..n]), now, keepers[n])]
  }

  /** Each reported amount is what that keeper's turn released, after the turns before it. */
  lemma {:induction false} PaidOutInTurn(s: Storage, now: u64, keepers: seq<Address>, i: nat)
    requires i < |keepers|
    ensures PaidOutEach(s, now, keepers)[i] == PaidOut(ReleaseEach(s, now, keepers[..i]), now, keepers[i])
  {
    hide PaidOut, ReleaseEach;
    var n := |keepers| - 1;
    if i < n {
      PaidOutInTurn(s, now, keepers[..n], i);
      assert keepers[..n][..i] == keepers[..i];
    }
  }

  /** Checks every job before anything is stored; the sum of the deposits. */
  function ValidateAll(s: Storage, jobs: seq<JobParams>, deposits: seq<i128>): Result<int>
    requires |jobs| == |deposits|
  {
    if jobs == [] then Ok(0)
    else
      var n := |jobs| - 1;
      var total :- ValidateAll(s, jobs[..n], deposits[..n]);
      var _ :- ValidateJob(s, jobs[n], deposits[n]);
      if I128_MAX < total + deposits[n] then Err(InvalidAmount) else Ok(total + deposits[n])
  }

  function InsertAll(book: JobBook, now: u64, owner: Address, jobs: seq<JobParams>, deposits: seq<i128>)
    : Result<JobBook>
    requires |jobs| == |deposits|
  {
    if jobs == [] then Ok(book)
    else
      var n := |jobs| - 1;
      var book1 :- InsertAll(book, now, owner, jobs[..n], deposits[..n]);
      InsertJob(book1, now, owner, jobs[n], deposits[n])
  }

  function CreatedEvents(first: u64, n: nat): seq<Event>
    requires first + n <= U64_MAX
  {
    seq(n, i requires 0 <= i < n => JobCreated(first + i))
  }

  /** `create_jobs`: one validation pass, one transfer of the total, then the insertions. */
  function CreateJobs(s: Storage, now: u64, owner: Address, jobs: seq<JobParams>, deposits: seq<i128>)
    : Result<Storage>
  {
    if s.config.paused then Err(Paused)
    else if owner == s.contract then Err(HostPanic)
    else if jobs == [] || MAX_BATCH < |jobs| then Err(InvalidBatchSize)
    else if |jobs| != |deposits| then Err(LengthMismatch)
    else
      var total :- ValidateAll(s, jobs, deposits);
      var ledger :- Transfer(s.ledger, s.config.feeToken, owner, s.contract, total);
      var book :- InsertAll(s.jobs, now, owner, jobs, deposits);
      if U64_MAX < s.jobs.nextId + |jobs| then Err(HostPanic)
      else Ok(s.(ledger := ledger, jobs := book, log := s.log + CreatedEvents(s.jobs.nextId, |jobs|)))
  }

  /** `create_job` called on each job in order, as long as every call succeeds. */
  function CreateEach(s: Storage, now: u64, owner: Address, jobs: seq<JobParams>, deposits: seq<i128>): Result<Storage>
    requires |jobs| == |deposits|
  {
    if jobs == [] then Ok(s)
    else
      var n := |jobs| - 1;
      var s1 :- CreateEach(s, now, owner, jobs[..n], deposits[..n]);
      CreateJob(s1, now, owner, jobs[n], deposits[n])
  }

  /** Two payments from one account to another are one payment of their sum. */
  lemma TransferTwice(l: Ledger, token: Address, from: Address, to: Address, a: int, b: int)
    requires from != to && 0 <= a && 0 <= b && a + b <= BalanceOf(l, token, from)
    ensures Transfer(l, token, from, to, a).Ok?
    ensures Transfer(Transfer(l, token, from, to, a).value, token, from, to, b) == Transfer(l, token, from, to, a + b)
  {
    var l1 := Transfer(l, token, from, to, a).value;
    var two, once := Transfer(l1, token, from, to, b).value, Transfer(l, token, from, to, a + b).value;
    assert two.Keys == once.Keys;
    assert two == once;
  }

  /** A valid job stays valid when other jobs are added, and its deposit is positive. */
  lemma StillValid(s: Storage, s1: Storage, params: JobParams, deposit: i128)
    requires ValidateJob(s, params, deposit).Ok?
    requires s1.config == s.config && s1.contract == s.contract && s.jobs.states.Keys <= s1.jobs.states.Keys
    ensures ValidateJob(s1, params, deposit).Ok? && 0 < deposit
  {
    hide ValidateSchedule;
    ValidScheduleFacts(s.config, params.interval, params.schedule, |params.args|,
                       params.feePerRun, params.maxFeePerRun, params.keepers);
  }

  lemma InsertFrame(book: JobBook, now: u64, owner: Address, params: JobParams, deposit: i128)
    requires InsertJob(book, now, owner, params, deposit).Ok?
    ensures var book' := InsertJob(book, now, owner, params, deposit).value;
            book'.nextId == book.nextId + 1 && book'.states.Keys == book.states.Keys + {book.nextId}
  {
    hide NewState, NewSpec;
  }

  lemma {:induction false} CreatesOneByOne(s: Storage, now: u64, owner: Address, jobs: seq<JobParams>,
                                           deposits: seq<i128>)
    requires !s.config.paused && owner != s.contract
    requires |jobs| == |deposits| && ValidateAll(s, jobs, deposits).Ok?
    requires ValidateAll(s, jobs, deposits).value <= BalanceOf(s.ledger, s.config.feeToken, owner)
    requires InsertAll(s.jobs, now, owner, jobs, deposits).Ok?
    ensures var total := ValidateAll(s, jobs, deposits).value;
            var book := InsertAll(s.jobs, now, owner, jobs, deposits).value;
            && |jobs| <= total
            && book.nextId == s.jobs.nextId + |jobs| && s.jobs.states.Keys <= book.states.Keys
            && CreateEach(s, now, owner, jobs, deposits).Ok?
            && var s' := CreateEach(s, now, owner, jobs, deposits).value;
               && s' == s.(ledger := s'.ledger, jobs := book, log := s'.log)
               && s'.log == s.log + CreatedEvents(s.jobs.nextId, |jobs|)
               && (jobs == [] ==> s'.ledger == s.ledger)
               && (jobs != [] ==> Ok(s'.ledger) == Transfer(s.ledger, s.config.feeToken, owner, s.contract, total))
  {
    hide ValidateJob, InsertJob, Transfer, BalanceOf;
    if jobs != [] {
      var n := |jobs| - 1;
      var total := ValidateAll(s, jobs[..n], deposits[..n]).value;
      StillValid(s, s, jobs[n], deposits[n]);
      CreatesOneByOne(s, now, owner, jobs[..n], deposits[..n]);
      var s1 := CreateEach(s, now, owner, jobs[..n], deposits[..n]).value;
      StillValid(s, s1, jobs[n], deposits[n]);
      InsertFrame(s1.jobs, now, owner, jobs[n], deposits[n]);
      TransferTwice(s.ledger, s.config.feeToken, owner, s.contract, total, deposits[n]);
      TransferMoves(s.ledger, s.config.feeToken, owner, s.contract, total + deposits[n]);
      assert CreateJob(s1, now, owner, jobs[n], deposits[n]).Ok?;
      assert CreatedEvents(s.jobs.nextId, n) + [JobCreated(s.jobs.nextId + n)] == CreatedEvents(s.jobs.nextId, n + 1);
    }
  }

  /** A successful `create_jobs` is the same as that many successful `create_job` calls. */
  lemma CreateJobsIsEach(s: Storage, now: u64, owner: Address, jobs: seq<JobParams>, deposits: seq<i128>)
    requires CreateJobs(s, now, owner, jobs, deposits).Ok?
    ensures |jobs| == |deposits|
    ensures CreateJobs(s, now, owner, jobs, deposits) == CreateEach(s, now, owner, jobs, deposits)
  {
    hide ValidateAll, InsertAll, CreateEach, Transfer;
    TransferMoves(s.ledger, s.config.feeToken, owner, s.contract, ValidateAll(s, jobs, deposits).value);
    CreatesOneByOne(s, now, owner, jobs, deposits);
  }
}
