/**
 * The batched entry points as parts of histories: what each of them leaves is
 * also reached by single calls at the same moment, so every theorem about
 * histories covers registries that are called in batches.
 */
module BatchHistories {
  import opened Basics
  import opened Types
  import opened RegistrySpec
  import opened Histories
  import opened Batching

  /** The storage after some transactions at the same moment. */
  function AfterAll(s: Storage, now: u64, ops: seq<Op>): Storage {
    if ops == [] then s else After(AfterAll(s, now, ops[..|ops| - 1]), now, ops[|ops| - 1])
  }

  /** `h` goes on with `ops`, all at `now`. */
  ghost predicate Continues(h: seq<Moment>, now: u64, ops: seq<Op>, h': seq<Moment>) {
    && |h'| == |h| + |ops| && h == h'[..|h|]
    && forall i :: |h| <= i < |h'| ==> h'[i].at == now && h'[i].op == Some(ops[i - |h|])
  }

  lemma OneMoreMoment(h: seq<Moment>, now: u64, op: Op)
    requires IsHistory(h) && h[|h| - 1].at <= now
    ensures IsHistory(h + [Moment(now, Some(op), After(h[|h| - 1].after, now, op))])
  {
    hide After, Deployed;
  }

  lemma GoesOn(h: seq<Moment>, now: u64, ops: seq<Op>, h1: seq<Moment>, op: Op, last: Storage)
    requires Continues(h, now, ops, h1)
    ensures Continues(h, now, ops + [op], h1 + [Moment(now, Some(op), last)])
  {
  }

  lemma {:induction false} HistoryGoesOn(h: seq<Moment>, now: u64, ops: seq<Op>) returns (h': seq<Moment>)
    requires IsHistory(h) && h[|h| - 1].at <= now
    ensures IsHistory(h') && Continues(h, now, ops, h') && h' != []
    ensures h'[|h'| - 1].after == AfterAll(h[|h| - 1].after, now, ops) && h'[|h'| - 1].at <= now
  {
    hide After, Deployed;
    if ops == [] {
      h' := h;
      assert h[..|h|] == h;
    } else {
      var n := |ops| - 1;
      var h1 := HistoryGoesOn(h, now, ops[..n]);
      hide IsHistory, Continues;
      var last := After(h1[|h1| - 1].after, now, ops[n]);
      h' := h1 + [Moment(now, Some(ops[n]), last)];
      OneMoreMoment(h1, now, ops[n]);
      GoesOn(h, now, ops[..n], h1, ops[n], last);
      assert ops == ops[..n] + [ops[n]];
    }
  }

  // ------------------------------------------------------------------ execute_batch

  /** The single calls a batch stands for: one run per id, then the keeper's record is written back. */
  function BatchOps(k: Address, ids: seq<u64>, answers: seq<Answer>): seq<Op>
    requires |ids| == |answers|
  {
    RunOps(k, ids, answers) + [RunNothing(k)]
  }

  function RunOps(k: Address, ids: seq<u64>, answers: seq<Answer>): seq<Op>
    requires |ids| == |answers|
  {
    seq(|ids|, i requires 0 <= i < |ids| => Run(k, ids[i], answers[i]))
  }

  lemma {:induction false} RunsAreEach(s: Storage, now: u64, k: Address, ids: seq<u64>, answers: seq<Answer>)
    requires |ids| == |answers|
    ensures AfterAll(s, now, RunOps(k, ids, answers)) == ExecuteEach(s, now, k, ids, answers)
    ensures AuthorizeKeeper(s, k).Ok? ==> AuthorizeKeeper(ExecuteEach(s, now, k, ids, answers), k).Ok?
  {
    hide Execute, AuthorizeKeeper;
    if ids != [] {
      var n := |ids| - 1;
      RunsAreEach(s, now, k, ids[..n], answers[..n]);
      assert RunOps(k, ids, answers)[..n] == RunOps(k, ids[..n], answers[..n]);
      var f := ExecuteEach(s, now, k, ids[..n], answers[..n]);
      if Execute(f, now, k, ids[n], answers[n]).Ok? {
        StillAuthorized(f, now, k, ids[n], answers[n]);
      }
    }
  }

  /** Whatever an accepted batch leaves behind, a history of single calls at the same moment reaches. */
  lemma BatchIsHistory(h: seq<Moment>, now: u64, k: Address, ids: seq<u64>, answers: seq<Answer>)
    returns (h': seq<Moment>)
    requires IsHistory(h) && h[|h| - 1].at <= now && |ids| == |answers|
    requires ExecuteBatch(h[|h| - 1].after, now, k, ids, answers).Ok?
    ensures IsHistory(h') && Continues(h, now, BatchOps(k, ids, answers), h')
    ensures h'[|h'| - 1].after == ExecuteBatch(h[|h| - 1].after, now, k, ids, answers).value
  {
    ReachableIsSound(h, |h| - 1);
    BatchIsSingleCalls(h[|h| - 1].after, now, k, ids, answers);
    hide IsHistory, Continues, ExecuteBatch, BatchOps, Sound;
    h' := HistoryGoesOn(h, now, BatchOps(k, ids, answers));
  }

  lemma BatchIsSingleCalls(s: Storage, now: u64, k: Address, ids: seq<u64>, answers: seq<Answer>)
    requires Sound(s) && |ids| == |answers| && ExecuteBatch(s, now, k, ids, answers).Ok?
    ensures AfterAll(s, now, BatchOps(k, ids, answers)) == ExecuteBatch(s, now, k, ids, answers).value
  {
    BatchNotEmpty(s, now, k, ids, answers);
    BatchIsEach(s, now, k, ids, answers);
    RunsAreEach(s, now, k, ids, answers);
    hide ExecuteBatch, ExecuteEach, AuthorizeKeeper, Rewritten, Sound;
    assert BatchOps(k, ids, answers)[..|ids|] == RunOps(k, ids, answers);
  }

  // ------------------------------------------------------------------ create_jobs and withdraw_stakes

  function CreateOps(owner: Address, jobs: seq<JobParams>, deposits: seq<i128>): seq<Op>
    requires |jobs| == |deposits|
  {
    seq(|jobs|, i requires 0 <= i < |jobs| => Create(owner, jobs[i], deposits[i]))
  }

  lemma {:induction false} CreatesAreEach(s: Storage, now: u64, owner: Address, jobs: seq<JobParams>,
                                          deposits: seq<i128>)
    requires |jobs| == |deposits| && CreateEach(s, now, owner, jobs, deposits).Ok?
    ensures AfterAll(s, now, CreateOps(owner, jobs, deposits)) == CreateEach(s, now, owner, jobs, deposits).value
  {
    hide CreateJob;
    if jobs != [] {
      var n := |jobs| - 1;
      CreatesAreEach(s, now, owner, jobs[..n], deposits[..n]);
      assert CreateOps(owner, jobs, deposits)[..n] == CreateOps(owner, jobs[..n], deposits[..n]);
    }
  }

  /** The same for an accepted `create_jobs`. */
  lemma CreateJobsIsHistory(h: seq<Moment>, now: u64, owner: Address, jobs: seq<JobParams>, deposits: seq<i128>)
    returns (h': seq<Moment>)
    requires IsHistory(h) && h[|h| - 1].at <= now
    requires CreateJobs(h[|h| - 1].after, now, owner, jobs, deposits).Ok?
    ensures |jobs| == |deposits| && IsHistory(h') && Continues(h, now, CreateOps(owner, jobs, deposits), h')
    ensures h'[|h'| - 1].after == CreateJobs(h[|h| - 1].after, now, owner, jobs, deposits).value
  {
    CreateJobsIsEach(h[|h| - 1].after, now, owner, jobs, deposits);
    CreatesAreEach(h[|h| - 1].after, now, owner, jobs, deposits);
    hide IsHistory, Continues, CreateJobs, CreateEach;
    h' := HistoryGoesOn(h, now, CreateOps(owner, jobs, deposits));
  }

  function ReleaseOps(keepers: seq<Address>): seq<Op> {
    seq(|keepers|, i requires 0 <= i < |keepers| => Release(keepers[i]))
  }

  lemma {:induction false} ReleasesAreEach(s: Storage, now: u64, keepers: seq<Address>)
    ensures AfterAll(s, now, ReleaseOps(keepers)) == ReleaseEach(s, now, keepers)
  {
    hide After;
    if keepers != [] {
      var n := |keepers| - 1;
      ReleasesAreEach(s, now, keepers[..n]);
      assert ReleaseOps(keepers)[..n] == ReleaseOps(keepers[..n]);
    }
  }

  /** The same for `withdraw_stakes`, which leaves what `ReleaseEach` says. */
  lemma WithdrawStakesIsHistory(h: seq<Moment>, now: u64, keepers: seq<Address>) returns (h': seq<Moment>)
    requires IsHistory(h) && h[|h| - 1].at <= now
    ensures IsHistory(h') && Continues(h, now, ReleaseOps(keepers), h')
    ensures h'[|h'| - 1].after == ReleaseEach(h[|h| - 1].after, now, keepers)
  {
    ReleasesAreEach(h[|h| - 1].after, now, keepers);
    hide IsHistory, Continues;
    h' := HistoryGoesOn(h, now, ReleaseOps(keepers));
  }
}
