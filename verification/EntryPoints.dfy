/** When the registry accepts the smaller calls, and exactly what an accepted one stores. */
module EntryPoints {
  import opened Basics
  import opened Types
  import opened Schedules
  import opened Token
  import opened RegistrySpec
  import opened Footprints
  import opened Bookkeeping
  import opened JobFacts
  import opened Histories
  import opened JobTerms
  import opened RunRules

  // ------------------------------------------------------------------ jobs

  /** A top-up is taken from anyone who can pay it, while the registry is open, and only raises that job's balance. */
  lemma FundedAsAsked(s: Storage, now: u64, from: Address, id: u64, amount: i128)
    ensures var r := FundJob(s, now, from, id, amount);
            && (r.Ok? <==> !s.config.paused && from != s.contract && id in s.jobs.states
                           && 0 < amount <= BalanceOf(s.ledger, s.config.feeToken, from))
            && (r.Ok? ==>
                  && r.value.jobs == s.jobs.(states := r.value.jobs.states) && OtherJobsKept(s.jobs, r.value.jobs, id)
                  && id in r.value.jobs.states
                  && r.value.jobs.states[id]
                     == s.jobs.states[id].(balance := s.jobs.states[id].balance + amount))
  {
    TransferMoves(s.ledger, s.config.feeToken, from, s.contract, amount);
    hide Transfer, BalanceOf, Touch;
  }

  /** A withdrawal only lowers that job's balance; when it is accepted is `Solvency.NoPaymentFails`. */
  lemma WithdrawnAsAsked(s: Storage, now: u64, caller: Address, id: u64, amount: i128)
    requires WithdrawJobBalance(s, now, caller, id, amount).Ok?
    ensures var jobs' := WithdrawJobBalance(s, now, caller, id, amount).value.jobs;
            && jobs' == s.jobs.(states := jobs'.states) && OtherJobsKept(s.jobs, jobs', id)
            && id in s.jobs.states && id in jobs'.states
            && jobs'.states[id] == s.jobs.states[id].(balance := s.jobs.states[id].balance - amount)
  {
    hide Transfer, Touch;
  }

  /** The owner's switch: pausing keeps the failure count, resuming clears it. */
  lemma SwitchedAsAsked(s: Storage, now: u64, caller: Address, id: u64, active: bool)
    ensures var r := SetJobActive(s, now, caller, id, active);
            && (r.Ok? <==> Exists(s.jobs, id) && caller == s.jobs.specs[id].owner && caller != s.contract)
            && (r.Ok? ==>
                  && r.value.jobs == s.jobs.(states := r.value.jobs.states) && OtherJobsKept(s.jobs, r.value.jobs, id)
                  && id in r.value.jobs.states
                  && var was, became := s.jobs.states[id], r.value.jobs.states[id];
                     && became == was.(active := active, failures := became.failures)
                     && became.failures == if active then 0 else was.failures)
  {
    hide Touch;
  }

  /** Who may take over job `id`. */
  function OfferedTo(jobs: JobBook, id: u64): Option<Address> {
    if id in jobs.pendingOwners then Some(jobs.pendingOwners[id]) else None
  }

  /** Only the owner proposes; naming the owner itself withdraws the proposal. Nothing else about the job changes. */
  lemma ProposedAsAsked(s: Storage, caller: Address, id: u64, newOwner: Address)
    ensures var r := ProposeJobOwner(s, caller, id, newOwner);
            && (r.Ok? <==> id in s.jobs.specs && caller == s.jobs.specs[id].owner && caller != s.contract)
            && (r.Ok? ==>
                  && r.value == s.(jobs := s.jobs.(pendingOwners := r.value.jobs.pendingOwners))
                  && r.value.jobs.pendingOwners - {id} == s.jobs.pendingOwners - {id}
                  && OfferedTo(r.value.jobs, id) == if newOwner == caller then None else Some(newOwner))
  {
  }

  /** Only the proposed owner accepts; it becomes the owner, the proposal is gone and the rest of the job stays. */
  lemma AcceptedAsAsked(s: Storage, caller: Address, id: u64)
    ensures var r := AcceptJobOwner(s, caller, id);
            && (r.Ok? <==> id in s.jobs.specs && OfferedTo(s.jobs, id) == Some(caller) && caller != s.contract)
            && (r.Ok? ==>
                  && r.value.jobs.states == s.jobs.states && OtherJobsKept(s.jobs, r.value.jobs, id)
                  && id in r.value.jobs.specs
                  && r.value.jobs.specs[id] == s.jobs.specs[id].(owner := caller)
                  && r.value.jobs.pendingOwners == s.jobs.pendingOwners - {id})
  {
    hide HandOver;
    if id in s.jobs.specs && id in s.jobs.pendingOwners {
      HandOverFrame(s.jobs, id, s.jobs.pendingOwners[id]);
    }
  }

  // ------------------------------------------------------------------ keepers

  /** No keeper but `k` changed. */
  ghost predicate OtherKeepersKept(staff: KeeperBook, staff': KeeperBook, k: Address) {
    staff'.keepers - {k} == staff.keepers - {k} && staff'.recents - {k} == staff.recents - {k}
  }

  /**
   * A stake is taken from a keeper that can pay it and is not leaving. It
   * raises the keeper's stake, starts a blank record for a new keeper, and
   * puts the keeper at the end of the rotation while that has room.
   */
  lemma StakedAsAsked(s: Storage, now: u64, k: Address, amount: i128)
    ensures var r := Stake(s, now, k, amount);
            && (r.Ok? <==> !s.config.paused && k != s.contract
                           && (k in s.staff.keepers ==> s.staff.keepers[k].unbondingAt.None?)
                           && 0 < amount <= BalanceOf(s.ledger, s.config.stakeToken, k))
            && (r.Ok? ==>
                  && k in r.value.staff.keepers && OtherKeepersKept(s.staff, r.value.staff, k)
                  && r.value.staff.recents == s.staff.recents
                  && r.value.staff.rotation
                     == (if k in s.staff.rotation || 64 <= |s.staff.rotation| then s.staff.rotation
                         else s.staff.rotation + [k])
                  && var became := r.value.staff.keepers[k];
                     && (k in s.staff.keepers ==>
                           became == s.staff.keepers[k].(stake := s.staff.keepers[k].stake + amount))
                     && (k !in s.staff.keepers ==> became == Keeper(amount, None, 0, 0, 0, 0)))
  {
    TransferMoves(s.ledger, s.config.stakeToken, k, s.contract, amount);
    hide Transfer, BalanceOf;
  }

  /**
   * Unbonding, once, by a registered keeper: it is released a period after
   * the end of the running epoch and is out of the rotation at once.
   */
  lemma UnbondedAsAsked(s: Storage, now: u64, k: Address)
    requires RotationSound(s.staff)
    ensures var r := BeginUnbonding(s, now, k);
            && (r.Ok? <==> k != s.contract && k in s.staff.keepers && s.staff.keepers[k].unbondingAt.None?)
            && (r.Ok? ==>
                  && k in r.value.staff.keepers && OtherKeepersKept(s.staff, r.value.staff, k)
                  && r.value.staff.recents == s.staff.recents
                  && k !in r.value.staff.rotation
                  && (forall other :: other != k ==>
                        (other in r.value.staff.rotation <==> other in s.staff.rotation))
                  && var became := r.value.staff.keepers[k];
                     && became.unbondingAt.Some? && became == s.staff.keepers[k].(unbondingAt := became.unbondingAt)
                     && became.unbondingAt.value
                        == UnbondingRelease(now, s.config.unbondingPeriod, s.config.unbondingEpoch))
  {
    hide UnbondingRelease, ResetWindows;
    RemoveFirstOfDistinct(s.staff.rotation, k);
  }

  /** A released keeper leaves no entry behind; when it is released is `Solvency.NoPaymentFails`. */
  lemma ReleasedAsAsked(s: Storage, now: u64, k: Address)
    requires ReleaseStake(s, now, k).Ok?
    ensures var staff' := ReleaseStake(s, now, k).value.staff;
            && k !in staff'.keepers && k !in staff'.recents && OtherKeepersKept(s.staff, staff', k)
            && staff'.rotation == s.staff.rotation
  {
    hide Transfer;
  }
}
