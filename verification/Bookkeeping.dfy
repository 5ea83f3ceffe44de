/** Owner lists, job ids and the keeper rotation stay consistent with what they index. */
module Bookkeeping {
  import opened Basics
  import opened Types
  import opened Token
  import opened RegistrySpec
  import opened Footprints

  lemma {:induction false} RemoveFirstOfDistinct<T>(xs: seq<T>, x: T)
    requires Distinct(xs)
    ensures Distinct(RemoveFirst(xs, x)) && x !in RemoveFirst(xs, x)
  {
    if xs != [] {
      var tail := xs[1..];
      assert forall y :: y in tail ==> y != xs[0];
      if xs[0] != x {
        RemoveFirstOfDistinct(tail, x);
        DistinctCons(xs[0], RemoveFirst(tail, x));
      }
    }
  }

  lemma DistinctCons<T>(x: T, ys: seq<T>)
    requires Distinct(ys) && x !in ys
    ensures Distinct([x] + ys)
  {
  }

  lemma DistinctSnoc<T>(xs: seq<T>, y: T)
    requires Distinct(xs) && y !in xs
    ensures Distinct(xs + [y])
  {
  }

  // ------------------------------------------------------------------ jobs

  /**
   * A job id is in an owner's list exactly when a live job with that id has
   * that owner; both halves of a job exist together; ids are never reissued;
   * a handover is only ever pending for a live job, to somebody else.
   */
  ghost predicate Indexed(jobs: JobBook) {
    && jobs.specs.Keys == jobs.states.Keys
    && (forall id :: id in jobs.specs ==> id < jobs.nextId)
    && (forall o: Address, id: u64 :: id in OwnerJobs(jobs, o) <==> id in jobs.specs && jobs.specs[id].owner == o)
    && (forall o: Address :: Distinct(OwnerJobs(jobs, o)))
    && (forall id :: id in jobs.pendingOwners ==> id in jobs.specs && jobs.pendingOwners[id] != jobs.specs[id].owner)
  }

  /** The owner lists after `id` was dropped from `from`'s list and appended to `to`'s. */
  ghost predicate Moved(jobs: JobBook, jobs': JobBook, id: u64, from: Option<Address>, to: Option<Address>) {
    forall o: Address ::
      OwnerJobs(jobs', o) ==
        (if Some(o) == from then RemoveFirst(OwnerJobs(jobs, o), id) else OwnerJobs(jobs, o))
        + (if Some(o) == to then [id] else [])
  }

  lemma MovedKeepsLists(jobs: JobBook, jobs': JobBook, id: u64, from: Option<Address>, to: Option<Address>)
    requires Indexed(jobs) && Moved(jobs, jobs', id, from, to)
    requires if from.Some? then id in jobs.specs && jobs.specs[id].owner == from.value else id !in jobs.specs
    requires from != to
    ensures forall o: Address :: Distinct(OwnerJobs(jobs', o))
    ensures forall o: Address, j: u64 ::
              j in OwnerJobs(jobs', o) <==> if j == id then Some(o) == to else j in OwnerJobs(jobs, o)
  {
    forall o: Address
      ensures Distinct(OwnerJobs(jobs', o))
      ensures forall j: u64 ::
                j in OwnerJobs(jobs', o) <==> if j == id then Some(o) == to else j in OwnerJobs(jobs, o)
    {
      RemoveFirstOfDistinct(OwnerJobs(jobs, o), id);
      if Some(o) == to {
        DistinctSnoc(OwnerJobs(jobs, o), id);
      }
    }
  }

  lemma InsertKeepsIndex(jobs: JobBook, now: u64, owner: Address, params: JobParams, deposit: i128)
    requires Indexed(jobs) && InsertJob(jobs, now, owner, params, deposit).Ok?
    ensures Indexed(InsertJob(jobs, now, owner, params, deposit).value)
  {
    hide NewState;
    var jobs' := InsertJob(jobs, now, owner, params, deposit).value;
    assert Moved(jobs, jobs', jobs.nextId, None, Some(owner));
    MovedKeepsLists(jobs, jobs', jobs.nextId, None, Some(owner));
  }

  lemma CancelKeepsIndex(s: Storage, caller: Address, id: u64)
    requires Indexed(s.jobs) && CancelJob(s, caller, id).Ok?
    ensures Indexed(CancelJob(s, caller, id).value.jobs)
  {
    hide Transfer;
    var jobs' := CancelJob(s, caller, id).value.jobs;
    var owner := s.jobs.specs[id].owner;
    assert Moved(s.jobs, jobs', id, Some(owner), None);
    MovedKeepsLists(s.jobs, jobs', id, Some(owner), None);
  }

  lemma HandOverKeepsIndex(jobs: JobBook, id: u64)
    requires Indexed(jobs) && id in jobs.pendingOwners
    ensures Indexed(HandOver(jobs, id, jobs.pendingOwners[id]))
  {
    var owner, newOwner := jobs.specs[id].owner, jobs.pendingOwners[id];
    var jobs' := HandOver(jobs, id, newOwner);
    assert Moved(jobs, jobs', id, Some(owner), Some(newOwner));
    MovedKeepsLists(jobs, jobs', id, Some(owner), Some(newOwner));
  }

  /** Keys, owners, owner lists and the id counter are as before. */
  ghost predicate SameIndex(jobs: JobBook, jobs': JobBook) {
    && jobs'.nextId == jobs.nextId && jobs'.ownerJobs == jobs.ownerJobs
    && jobs'.specs.Keys == jobs.specs.Keys && jobs'.states.Keys == jobs.states.Keys
    && (forall id :: id in jobs.specs ==> jobs'.specs[id].owner == jobs.specs[id].owner)
  }

  lemma SameIndexKeeps(jobs: JobBook, jobs': JobBook)
    requires Indexed(jobs) && SameIndex(jobs, jobs')
    requires forall id :: id in jobs'.pendingOwners ==>
                            id in jobs.specs && jobs'.pendingOwners[id] != jobs.specs[id].owner
    ensures Indexed(jobs')
  {
    assert forall o: Address :: OwnerJobs(jobs', o) == OwnerJobs(jobs, o);
  }

  lemma EditKeepsIndex(s: Storage, now: u64, op: Op)
    requires Step(s, now, op).Ok?
    requires op.Update? || op.Fund? || op.Withdraw? || op.SetActive? || op.Run?
    ensures SameIndex(s.jobs, After(s, now, op).jobs)
    ensures After(s, now, op).jobs.pendingOwners == s.jobs.pendingOwners
  {
    hide Transfer, ValidateSchedule, LeaderRuns, Execute, MayRun, NextState, RunEvents, Settle;
    match op
    case Update(_, _, _) =>
    case Fund(_, _, _) =>
    case Withdraw(_, _, _) =>
    case SetActive(_, _, _) =>
    case Run(keeper, id, answer) => ExecuteEffect(s, now, keeper, id, answer);
  }

  lemma StepKeepsIndex(s: Storage, now: u64, op: Op)
    requires Indexed(s.jobs)
    ensures Indexed(After(s, now, op).jobs)
  {
    hide UpdateJob, FundJob, WithdrawJobBalance, SetJobActive, Execute, Transfer, ValidateJob, InsertJob,
      CancelJob, HandOver, RemoveOwnerJob, Stake, BeginUnbonding, ReleaseStake, Administer;
    if LeavesJobs(op) {
      JobsUntouched(s, now, op);
    } else if Step(s, now, op).Ok? {
      match op
      case Create(owner, params, deposit) => InsertKeepsIndex(s.jobs, now, owner, params, deposit);
      case Cancel(caller, id) => CancelKeepsIndex(s, caller, id);
      case AcceptOwner(caller, id) => HandOverKeepsIndex(s.jobs, id);
      case ProposeOwner(caller, id, newOwner) => SameIndexKeeps(s.jobs, After(s, now, op).jobs);
      case _ => EditKeepsIndex(s, now, op); SameIndexKeeps(s.jobs, After(s, now, op).jobs);
    }
  }

  // ------------------------------------------------------------------ keepers

  /** At most 64 distinct keepers rotate; all of them are registered and none is unbonding. */
  ghost predicate RotationSound(staff: KeeperBook) {
    && |staff.rotation| <= MAX_ACTIVE_KEEPERS
    && Distinct(staff.rotation)
    && forall k :: k in staff.rotation ==> k in staff.keepers && staff.keepers[k].unbondingAt.None?
  }

  lemma StepKeepsRotation(s: Storage, now: u64, op: Op)
    requires RotationSound(s.staff)
    ensures RotationSound(After(s, now, op).staff)
  {
    hide Execute, MayRun, NextState, RunEvents, Settle, Transfer;
    if LeavesStaff(op) {
      StaffUntouched(s, now, op);
    } else if Step(s, now, op).Ok? {
      match op
      case Run(keeper, id, answer) => ExecuteEffect(s, now, keeper, id, answer);
      case AddStake(keeper, _) =>
        if Joins(s.staff, keeper) {
          DistinctSnoc(s.staff.rotation, keeper);
        }
      case Unbond(keeper) => RemoveFirstOfDistinct(s.staff.rotation, keeper);
      case Release(_) =>
      case RunNothing(keeper) => RewrittenReadsTheSame(s, keeper);
    }
  }
}
