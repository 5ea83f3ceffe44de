/** Who may run a job and when, and who is blamed for a late run, spelt out condition by condition. */
module RunRules {
  import opened Basics
  import opened Types
  import opened Schedules
  import opened RegistrySpec
  import opened Footprints
  import opened Bookkeeping
  import opened JobFacts
  import opened Solvency
  import opened Histories

  /** A registered keeper that is not leaving and has the minimum stake. */
  predicate CanServe(s: Storage, k: Address) {
    && k in s.staff.keepers && s.staff.keepers[k].unbondingAt.None?
    && s.config.minStake <= s.staff.keepers[k].stake
  }

  /** The digest's place in a list of keepers holds `k`. */
  predicate DrawnFrom(list: seq<Address>, draw: u64, k: Address) {
    list != [] && list[draw % |list|] == k
  }

  /**
   * With windows on, `k` is drawn for the job's next run, from the job's own
   * allowlist or else from the rotation, and can serve.
   */
  predicate HoldsWindow(s: Storage, id: u64, k: Address)
    requires Exists(s.jobs, id)
  {
    var draw := s.digest(id, s.jobs.states[id].runs);
    && 0 < s.config.gracePeriod && CanServe(s, k)
    && (s.jobs.specs[id].keepers.Some? ==> DrawnFrom(s.jobs.specs[id].keepers.value, draw, k))
    && (s.jobs.specs[id].keepers.None? ==> DrawnFrom(s.staff.rotation, draw, k))
  }

  ghost predicate HeldByAnother(s: Storage, id: u64, keeper: Address)
    requires Exists(s.jobs, id)
  {
    exists k :: HoldsWindow(s, id, k) && k != keeper
  }

  /** The registry is open and `keeper` may run jobs on it. */
  predicate MayServe(s: Storage, keeper: Address) {
    !s.config.paused && s.config.executor.Some? && keeper != s.contract && CanServe(s, keeper)
  }

  /** The job itself is ready to be run by `keeper`, leaving windows, leader and resolver aside. */
  predicate IsReadyFor(s: Storage, now: u64, keeper: Address, id: u64)
    requires Exists(s.jobs, id)
  {
    var spec, state := s.jobs.specs[id], s.jobs.states[id];
    && state.active && state.nextRun <= now && spec.feePerRun <= state.balance
    && (spec.maxRuns == 0 || state.runs < spec.maxRuns)
    && (spec.endAt == 0 || now < spec.endAt)
    && spec.target != s.contract && Some(spec.target) != s.config.executor
    && spec.target != s.config.feeToken && spec.target != s.config.stakeToken
    && spec.target !in s.windows.halted
    && (spec.keepers.Some? ==> keeper in spec.keepers.value)
  }

  /** The job follows nobody, or its leader is alive and has run since. */
  predicate LeaderHasRun(jobs: JobBook, id: u64)
    requires Exists(jobs, id)
  {
    match jobs.specs[id].after
    case None => true
    case Some(leader) => leader in jobs.states && jobs.states[id].leaderRuns < jobs.states[leader].runs
  }

  /** The run's window, counted from its due time, has not passed yet. */
  predicate InWindow(s: Storage, now: u64, id: u64)
    requires Exists(s.jobs, id)
  {
    now < Min(U64_MAX, s.jobs.states[id].nextRun + s.config.gracePeriod)
  }

  lemma HolderIsAssigned(s: Storage, id: u64, k: Address)
    requires Exists(s.jobs, id)
    ensures HoldsWindow(s, id, k) <==> AssignedKeeper(s, id, s.jobs.specs[id], s.jobs.states[id]) == Some(k)
  {
  }

  lemma AnotherIsAssigned(s: Storage, id: u64, keeper: Address)
    requires Exists(s.jobs, id)
    ensures HeldByAnother(s, id, keeper) <==> OtherAssigned(s, keeper, id).Some?
    ensures forall k :: OtherAssigned(s, keeper, id) == Some(k) <==> HoldsWindow(s, id, k) && k != keeper
  {
    var holder := AssignedKeeper(s, id, s.jobs.specs[id], s.jobs.states[id]);
    forall k: Address
      ensures HoldsWindow(s, id, k) <==> holder == Some(k)
    {
      HolderIsAssigned(s, id, k);
    }
    hide HoldsWindow, AssignedKeeper;
    if holder.Some? {
      assert HoldsWindow(s, id, holder.value);
    }
  }

  /** The keeper in charge of a run is unique. */
  lemma OneHolder(s: Storage, id: u64, k: Address, k': Address)
    requires Exists(s.jobs, id) && HoldsWindow(s, id, k) && HoldsWindow(s, id, k')
    ensures k == k'
  {
  }

  /**
   * A keeper that could otherwise run a job is told that it is not the
   * assigned keeper exactly while the window lasts and another keeper holds it.
   */
  lemma NotAssignedIff(s: Storage, now: u64, keeper: Address, id: u64, answer: Answer)
    requires Exists(s.jobs, id) && MayServe(s, keeper) && IsReadyFor(s, now, keeper, id)
    ensures Execute(s, now, keeper, id, answer) == Err(NotAssignedKeeper)
       <==> InWindow(s, now, id) && HeldByAnother(s, id, keeper)
  {
    AnotherIsAssigned(s, id, keeper);
    hide HeldByAnother, HoldsWindow, OtherAssigned, StoreAfterRun, RecordAfterRun, Settle, FeeOf, AddFee, SaveRecord;
  }

  /** Whatever else is wrong, the holder of a window is never told that it is not the assigned keeper. */
  lemma HolderIsLetIn(s: Storage, now: u64, k: Address, id: u64, answer: Answer)
    requires Exists(s.jobs, id) && HoldsWindow(s, id, k)
    ensures Execute(s, now, k, id, answer) != Err(NotAssignedKeeper)
  {
    HolderIsAssigned(s, id, k);
    hide HoldsWindow, AssignedKeeper, StoreAfterRun, RecordAfterRun, Settle, FeeOf, AddFee, SaveRecord;
  }

  /** A run is accepted exactly when every one of these conditions holds; what it owes is always paid. */
  lemma RunAcceptedIff(s: Storage, now: u64, keeper: Address, id: u64, answer: Answer)
    requires Indexed(s.jobs) && JobsSound(s.jobs) && Solvent(s)
    ensures Execute(s, now, keeper, id, answer).Ok? <==>
              && MayServe(s, keeper)
              && Exists(s.jobs, id) && IsReadyFor(s, now, keeper, id)
              && !(InWindow(s, now, id) && HeldByAnother(s, id, keeper))
              && LeaderHasRun(s.jobs, id)
              && (s.jobs.specs[id].resolver.Some? ==> answer.resolverAllows)
  {
    hide *;
    PermittedRunIsPaid(s, now, keeper, id, answer);
    MayServeIff(s, keeper);
    MayRunIff(s, now, keeper, id, answer);
  }

  lemma MayServeIff(s: Storage, keeper: Address)
    ensures AuthorizeKeeper(s, keeper).Ok? <==> MayServe(s, keeper)
  {
  }

  lemma MayRunIff(s: Storage, now: u64, keeper: Address, id: u64, answer: Answer)
    ensures MayRun(s, now, keeper, id, answer).Ok? <==>
              && Exists(s.jobs, id) && IsReadyFor(s, now, keeper, id)
              && !(InWindow(s, now, id) && HeldByAnother(s, id, keeper))
              && LeaderHasRun(s.jobs, id)
              && (s.jobs.specs[id].resolver.Some? ==> answer.resolverAllows)
  {
    hide HeldByAnother, HoldsWindow, OtherAssigned;
    if Exists(s.jobs, id) {
      AnotherIsAssigned(s, id, keeper);
    }
  }

  /** The condition that a refused run's error complains about. */
  ghost predicate RunLacks(s: Storage, now: u64, keeper: Address, id: u64, answer: Answer, error: Error) {
    match error
    case Paused => s.config.paused
    case ExecutorNotSet => s.config.executor.None?
    case HostPanic => keeper == s.contract
    case KeeperNotFound => keeper !in s.staff.keepers
    case KeeperUnbonding => keeper in s.staff.keepers && s.staff.keepers[keeper].unbondingAt.Some?
    case InsufficientStake => keeper in s.staff.keepers && s.staff.keepers[keeper].stake < s.config.minStake
    case JobNotFound => !Exists(s.jobs, id)
    case _ => Exists(s.jobs, id) && JobLacks(s, now, keeper, id, answer, error)
  }

  ghost predicate JobLacks(s: Storage, now: u64, keeper: Address, id: u64, answer: Answer, error: Error)
    requires Exists(s.jobs, id)
  {
    var spec, state := s.jobs.specs[id], s.jobs.states[id];
    match error
    case JobPaused => !state.active
    case MaxRunsReached => 0 < spec.maxRuns <= state.runs
    case JobExpired => 0 < spec.endAt <= now
    case InsufficientJobBalance => state.balance < spec.feePerRun
    case JobNotDue => now < state.nextRun
    case ForbiddenTarget =>
      spec.target in {s.contract, s.config.feeToken, s.config.stakeToken} || Some(spec.target) == s.config.executor
    case TargetHalted => spec.target in s.windows.halted
    case KeeperNotAllowed => spec.keepers.Some? && keeper !in spec.keepers.value
    case NotAssignedKeeper => InWindow(s, now, id) && HeldByAnother(s, id, keeper)
    case AwaitingDependency => !LeaderHasRun(s.jobs, id)
    case ResolverRejected => spec.resolver.Some? && !answer.resolverAllows
    case _ => false
  }

  /** A refused run is told a true reason. */
  lemma RunRefusalIsTrue(s: Storage, now: u64, keeper: Address, id: u64, answer: Answer)
    requires Indexed(s.jobs) && JobsSound(s.jobs) && Solvent(s)
    ensures var r := Execute(s, now, keeper, id, answer);
            r.Err? ==> RunLacks(s, now, keeper, id, answer, r.error)
  {
    hide Indexed, JobsSound, Solvent, RunLacks, MayRun, AuthorizeKeeper, StoreAfterRun, RecordAfterRun, Settle, FeeOf,
      AddFee, SaveRecord, Execute;
    PermittedRunIsPaid(s, now, keeper, id, answer);
    RefusedByChecks(s, now, keeper, id, answer);
    KeeperRefusal(s, now, keeper, id, answer);
    JobRefusal(s, now, keeper, id, answer);
  }

  lemma RefusedByChecks(s: Storage, now: u64, keeper: Address, id: u64, answer: Answer)
    ensures AuthorizeKeeper(s, keeper).Err? ==>
              Execute(s, now, keeper, id, answer) == Err(AuthorizeKeeper(s, keeper).error)
    ensures AuthorizeKeeper(s, keeper).Ok? && MayRun(s, now, keeper, id, answer).Err? ==>
              Execute(s, now, keeper, id, answer) == Err(MayRun(s, now, keeper, id, answer).error)
  {
    hide MayRun, AuthorizeKeeper, StoreAfterRun, RecordAfterRun, Settle, FeeOf, AddFee, SaveRecord;
  }

  lemma KeeperRefusal(s: Storage, now: u64, keeper: Address, id: u64, answer: Answer)
    ensures var r := AuthorizeKeeper(s, keeper); r.Err? ==> RunLacks(s, now, keeper, id, answer, r.error)
  {
  }

  lemma JobRefusal(s: Storage, now: u64, keeper: Address, id: u64, answer: Answer)
    ensures var r := MayRun(s, now, keeper, id, answer); r.Err? ==> RunLacks(s, now, keeper, id, answer, r.error)
  {
    hide HeldByAnother, HoldsWindow, OtherAssigned;
    if Exists(s.jobs, id) {
      AnotherIsAssigned(s, id, keeper);
    }
  }

  // ------------------------------------------------------------------ blame

  /** A grace period has passed since the run was due and since each event that restarts its window. */
  predicate WholeWindowPassed(s: Storage, now: u64, id: u64)
    requires Exists(s.jobs, id)
  {
    var since := now - s.config.gracePeriod;
    && s.jobs.states[id].nextRun <= since && s.windows.reset <= since
    && (id in s.windows.touched ==> s.windows.touched[id] <= since)
    && (s.jobs.specs[id].target in s.windows.resumed ==> s.windows.resumed[s.jobs.specs[id].target] <= since)
  }

  /**
   * An accepted run by another keeper publishes a miss of the window's holder
   * exactly when the job has neither resolver nor leader and a grace period
   * has passed since the run was due, the job was last touched, all windows
   * were last reset and its target was last resumed.
   */
  lemma LateRunIsBlamedIff(s: Storage, now: u64, keeper: Address, id: u64, answer: Answer, k: Address)
    requires Execute(s, now, keeper, id, answer).Ok? && now < U64_MAX
    ensures Exists(s.jobs, id)
    ensures KeeperMissedWindow(k, id, keeper) in Published(s, now, Run(keeper, id, answer)) <==>
              && HoldsWindow(s, id, k) && k != keeper
              && s.jobs.specs[id].resolver.None? && s.jobs.specs[id].after.None?
              && WholeWindowPassed(s, now, id)
  {
    hide Execute, MayRun, NextState, FeeOf, Settle, OtherAssigned, HoldsWindow, HeldByAnother, IsEligible, RunEvents,
      WholeWindowPassed, HadWholeWindow;
    ExecuteEffect(s, now, keeper, id, answer);
    AnotherIsAssigned(s, id, keeper);
    HolderServes(s, id, k);
    WholeWindowIff(s, now, id);
    MissEvents(s, now, keeper, id, MayRun(s, now, keeper, id, answer).value, answer, k);
  }

  lemma HolderServes(s: Storage, id: u64, k: Address)
    requires Exists(s.jobs, id)
    ensures HoldsWindow(s, id, k) ==> k in s.staff.keepers
  {
  }

  lemma WholeWindowIff(s: Storage, now: u64, id: u64)
    requires Exists(s.jobs, id) && now < U64_MAX
    ensures HadWholeWindow(s, id, s.jobs.specs[id], s.jobs.states[id].nextRun, now) <==>
              && s.jobs.specs[id].resolver.None? && s.jobs.specs[id].after.None?
              && WholeWindowPassed(s, now, id)
  {
  }

  lemma MissEvents(s: Storage, now: u64, keeper: Address, id: u64, leaderRuns: u32, answer: Answer, k: Address)
    requires Exists(s.jobs, id)
    ensures KeeperMissedWindow(k, id, keeper) in RunEvents(s, now, keeper, id, leaderRuns, answer)
       <==> Missed(s, now, keeper, id) == Some(k) && k in s.staff.keepers
  {
    hide NextState, FeeOf, SplitFee, GivesUp, Missed;
  }
}
