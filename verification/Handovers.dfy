/** A job changes hands only when its owner offered it to the new one, who accepted. */
module Handovers {
  import opened Basics
  import opened Types
  import opened Schedules
  import opened Token
  import opened RegistrySpec
  import opened Footprints
  import opened Bookkeeping
  import opened JobFacts
  import opened Histories
  import opened RunCounts
  import opened JobTerms
  import opened JobRuns
  import opened EntryPoints

  function OwnerOf(jobs: JobBook, id: u64): Option<Address> {
    if id in jobs.specs then Some(jobs.specs[id].owner) else None
  }

  /** Neither the owner nor the offer of any live job is touched. */
  ghost predicate SameHands(jobs: JobBook, jobs': JobBook) {
    && jobs'.pendingOwners == jobs.pendingOwners
    && forall id :: id in jobs.specs ==> OwnerOf(jobs', id) == OwnerOf(jobs, id)
  }

  lemma OthersTouchNoHands(s: Storage, now: u64, op: Op)
    requires Indexed(s.jobs) && !op.Cancel? && !op.ProposeOwner? && !op.AcceptOwner?
    ensures SameHands(s.jobs, After(s, now, op).jobs)
  {
    hide Transfer, ValidateJob, ValidateSchedule, LeaderRuns, UpdatedNextRun, MayRun, NextState, RunEvents, Settle,
      Execute, Touch, NewState, FirstCalendarRun;
    if LeavesJobs(op) {
      JobsUntouched(s, now, op);
    } else if Step(s, now, op).Ok? {
      match op
      case Create(owner, params, deposit) => CreateFrame(s, now, owner, params, deposit); hide CreateJob;
      case Run(keeper, job, answer) => ExecuteEffect(s, now, keeper, job, answer);
      case Update(_, _, _) =>
      case Fund(_, _, _) =>
      case Withdraw(_, _, _) =>
      case SetActive(_, _, _) =>
    }
  }

  lemma CancelTouchesNoOthers(s: Storage, now: u64, op: Op, id: u64)
    requires op.Cancel? && Indexed(s.jobs)
    ensures OwnerOf(After(s, now, op).jobs, id).Some? || OfferedTo(After(s, now, op).jobs, id).Some? ==>
              && OwnerOf(After(s, now, op).jobs, id) == OwnerOf(s.jobs, id)
              && OfferedTo(After(s, now, op).jobs, id) == OfferedTo(s.jobs, id)
  {
    hide Transfer, RemoveFirst;
  }

  /** The owner offers job `id` to `to`, and the offer is recorded. */
  ghost predicate Offers(s: Storage, op: Op, id: u64, to: Address) {
    && op.ProposeOwner? && op.id == id && op.newOwner == to
    && OwnerOf(s.jobs, id) == Some(op.caller) && ProposeJobOwner(s, op.caller, id, to).Ok?
  }

  /** `to` accepts job `id`, which it has been offered. */
  ghost predicate Accepts(s: Storage, op: Op, id: u64, to: Address) {
    op == AcceptOwner(to, id) && OfferedTo(s.jobs, id) == Some(to) && AcceptJobOwner(s, to, id).Ok?
  }

  /** What one transaction can do to the hands a job is in. */
  lemma StepKeepsHands(s: Storage, now: u64, op: Op, id: u64)
    requires Indexed(s.jobs)
    ensures var was, became := OwnerOf(s.jobs, id), OwnerOf(After(s, now, op).jobs, id);
            was.Some? && became.Some? && was != became ==> Accepts(s, op, id, became.value)
    ensures var offered := OfferedTo(After(s, now, op).jobs, id);
            offered.Some? ==>
              && OwnerOf(s.jobs, id).Some? && OwnerOf(After(s, now, op).jobs, id) == OwnerOf(s.jobs, id)
              && (offered == OfferedTo(s.jobs, id)
                  || (Offers(s, op, id, offered.value) && op.caller == OwnerOf(s.jobs, id).value))
  {
    OfferedIsOwned(s.jobs, id);
    hide Step, Indexed;
    match op
    case Cancel(_, _) => CancelTouchesNoOthers(s, now, op, id);
    case ProposeOwner(_, _, _) => OfferChangesHands(s, now, op, id);
    case AcceptOwner(_, _) => AcceptanceChangesHands(s, now, op, id);
    case _ => OthersTouchNoHands(s, now, op);
  }

  lemma OfferedIsOwned(jobs: JobBook, id: u64)
    requires Indexed(jobs)
    ensures OfferedTo(jobs, id).Some? ==> OwnerOf(jobs, id).Some?
  {
  }

  lemma OfferChangesHands(s: Storage, now: u64, op: Op, id: u64)
    requires op.ProposeOwner?
    ensures OwnerOf(After(s, now, op).jobs, id) == OwnerOf(s.jobs, id)
    ensures var offered := OfferedTo(After(s, now, op).jobs, id);
            offered.Some? ==> offered == OfferedTo(s.jobs, id) || Offers(s, op, id, offered.value)
  {
    ProposedAsAsked(s, op.caller, op.id, op.newOwner);
    if id != op.id {
      hide ProposeJobOwner;
      assert Step(s, now, op).Ok? ==>
          (id in s.jobs.pendingOwners - {op.id} <==> id in s.jobs.pendingOwners);
      assert Step(s, now, op).Ok? && id in After(s, now, op).jobs.pendingOwners ==>
          id in After(s, now, op).jobs.pendingOwners - {op.id};
    }
  }

  lemma AcceptanceChangesHands(s: Storage, now: u64, op: Op, id: u64)
    requires op.AcceptOwner?
    ensures OwnerOf(s.jobs, id).Some? ==>
              var became := OwnerOf(After(s, now, op).jobs, id);
              became.Some? && (became == OwnerOf(s.jobs, id) || Accepts(s, op, id, became.value))
    ensures var offered := OfferedTo(After(s, now, op).jobs, id);
            offered.Some? ==> offered == OfferedTo(s.jobs, id)
                              && OwnerOf(After(s, now, op).jobs, id) == OwnerOf(s.jobs, id)
  {
    hide AcceptJobOwner;
    AcceptedAsAsked(s, op.caller, op.id);
    if Step(s, now, op).Ok? && id != op.id {
      KeptOther(s.jobs, After(s, now, op).jobs, op.id, id);
    }
  }

  // ------------------------------------------------------------------ whole histories

  /** The transaction at moment `m`, seen from the state before it. */
  ghost predicate OffersAt(h: seq<Moment>, m: nat, id: u64, from: Address, to: Address)
    requires 0 < m < |h|
  {
    h[m].op.Some? && Offers(h[m - 1].after, h[m].op.value, id, to) && h[m].op.value.caller == from
  }

  /** An offer that stands was made by the present owner. */
  lemma {:induction false} OfferIsTheOwners(h: seq<Moment>, n: nat, id: u64) returns (m: nat)
    requires n < |h| && OfferedTo(h[n].after.jobs, id).Some?
    requires IsHistory(h)
    ensures 0 < m <= n && OwnerOf(h[n].after.jobs, id).Some?
    ensures OffersAt(h, m, id, OwnerOf(h[n].after.jobs, id).value, OfferedTo(h[n].after.jobs, id).value)
  {
    hide IsHistory, After, Sound, Offers, Accepts;
    NothingOfferedAtFirst(h, id);
    var s := h[n - 1].after;
    MomentFacts(h, n);
    ReachableIsSound(h, n - 1);
    IndexedOfSound(s);
    StepKeepsHands(s, h[n].at, h[n].op.value, id);
    if OfferedTo(h[n].after.jobs, id) == OfferedTo(s.jobs, id) {
      m := OfferIsTheOwners(h, n - 1, id);
    } else {
      m := n;
    }
  }

  lemma NothingOfferedAtFirst(h: seq<Moment>, id: u64)
    requires IsHistory(h)
    ensures OfferedTo(h[0].after.jobs, id).None?
  {
    hide After;
  }

  lemma IndexedOfSound(s: Storage)
    requires Sound(s)
    ensures Indexed(s.jobs)
  {
  }

  /**
   * Over any history during which job `id` lives, it has another owner at the
   * end than at the start only if the last change was an acceptance by the
   * new owner of an offer that the owner before had made to it.
   */
  lemma {:induction false} HandedOverByConsent(h: seq<Moment>, i: nat, n: nat, id: u64)
    returns (offer: nat, acceptance: nat)
    requires i <= n < |h| && (forall m :: i <= m <= n ==> OwnerOf(h[m].after.jobs, id).Some?)
    requires OwnerOf(h[n].after.jobs, id) != OwnerOf(h[i].after.jobs, id)
    requires IsHistory(h)
    ensures 0 < offer < acceptance && i < acceptance <= n && h[acceptance].op.Some?
    ensures var from, to := OwnerOf(h[acceptance - 1].after.jobs, id), OwnerOf(h[n].after.jobs, id);
            && from.Some? && to.Some? && from != to
            && OffersAt(h, offer, id, from.value, to.value)
            && Accepts(h[acceptance - 1].after, h[acceptance].op.value, id, to.value)
            && forall m :: acceptance <= m <= n ==> OwnerOf(h[m].after.jobs, id) == to
    decreases n - i
  {
    hide IsHistory, After, Sound, Offers, OfferedTo;
    var s := h[n - 1].after;
    assert OwnerOf(s.jobs, id).Some?;
    MomentFacts(h, n);
    ReachableIsSound(h, n - 1);
    IndexedOfSound(s);
    StepKeepsHands(s, h[n].at, h[n].op.value, id);
    if OwnerOf(h[n].after.jobs, id) == OwnerOf(s.jobs, id) {
      offer, acceptance := HandedOverByConsent(h, i, n - 1, id);
    } else {
      acceptance := n;
      offer := OfferIsTheOwners(h, n - 1, id);
    }
  }
}
