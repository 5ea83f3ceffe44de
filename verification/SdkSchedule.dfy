/** The SDK's view of a job's status and fee, next to the registry's own: packages/sdk/src/schedule.ts. */
module SdkSchedule {
  import opened Basics
  import opened Types
  import opened Schedules
  import opened RegistrySpec

  datatype JobStatus = StatusPaused | Failing | Completed | Expired | Underfunded | Scheduled | Due

  function StatusOf(spec: JobSpec, state: JobState, now: u64): JobStatus {
    if !state.active then (if 0 < state.failures then Failing else StatusPaused)
    else if spec.maxRuns != 0 && spec.maxRuns <= state.runs then Completed
    else if spec.endAt != 0 && spec.endAt <= now then Expired
    else if state.balance < spec.feePerRun then Underfunded
    else if now < state.nextRun then Scheduled
    else Due
  }

  /** What the registry answers to a keeper who tries to run a job of this status. */
  function RefusalFor(status: JobStatus): Result<()> {
    match status
    case StatusPaused => Err(JobPaused)
    case Failing => Err(JobPaused)
    case Completed => Err(MaxRunsReached)
    case Expired => Err(JobExpired)
    case Underfunded => Err(InsufficientJobBalance)
    case Scheduled => Err(JobNotDue)
    case Due => Ok(())
  }

  /** The SDK's status names exactly the registry's answer, and tells a failing job from one its owner paused. */
  lemma StatusMirrorsRegistry(spec: JobSpec, state: JobState, now: u64)
    ensures RefusalFor(StatusOf(spec, state, now)) == EnsureDue(spec, state, now)
    ensures StatusOf(spec, state, now) == Failing <==> !state.active && 0 < state.failures
  {
  }

  /** The SDK's fee, in integers without bound. */
  function CurrentFee(spec: JobSpec, state: JobState, now: u64): int {
    var base := spec.feePerRun;
    var fee :=
      if base < spec.maxFeePerRun && 0 < spec.interval then
        var late := if state.nextRun < now then now - state.nextRun else 0;
        if spec.interval <= late then spec.maxFeePerRun
        else base + (spec.maxFeePerRun - base) * late / spec.interval
      else base;
    if fee < state.balance then fee else state.balance
  }

  /** The registry's multiplication overflows: it charges the whole span at once. */
  predicate RampOverflows(spec: JobSpec, late: u64) {
    && spec.feePerRun < spec.maxFeePerRun
    && late < spec.interval
    && I128_MAX < (spec.maxFeePerRun - spec.feePerRun) * late
  }

  /** What the ramp would charge at this lateness without any limit on the product. */
  function ExactRamp(spec: JobSpec, late: u64): int
    requires 0 < spec.interval
  {
    spec.feePerRun + (spec.maxFeePerRun - spec.feePerRun) * late / spec.interval
  }

  /**
   * The SDK never names more than the registry pays, and names exactly that
   * unless the registry's product overflows i128 while the balance would
   * still cover more than the exact ramp.
   */
  lemma SdkFeeAgainstRegistry(spec: JobSpec, state: JobState, now: u64)
    ensures CurrentFee(spec, state, now) <= RampedFee(spec, state, now)
    ensures CurrentFee(spec, state, now) == RampedFee(spec, state, now) <==>
            (!RampOverflows(spec, Less(now, state.nextRun))
             || state.balance <= ExactRamp(spec, Less(now, state.nextRun)))
  {
    var late := Less(now, state.nextRun);
    if spec.feePerRun < spec.maxFeePerRun && late < spec.interval {
      RampWithinSpan(spec.maxFeePerRun - spec.feePerRun, late, spec.interval);
    }
  }

  /** A job, allowed by the registry's checks, where the SDK's fee falls short of what the registry pays. */
  lemma SdkFeeCanFallShort(spec: JobSpec, state: JobState)
    requires spec.feePerRun == 1 && spec.maxFeePerRun == I128_MAX && spec.interval == 4
    requires state.nextRun == 0 && state.balance == I128_MAX
    ensures RampedFee(spec, state, 2) == I128_MAX
    ensures CurrentFee(spec, state, 2) == 1 + (I128_MAX - 1) / 2
  {
  }

  /** Runs the balance still pays for at the base fee, capped by the job's own limit. */
  function RunsRemaining(spec: JobSpec, state: JobState): int {
    var funded := if 0 < spec.feePerRun then state.balance / spec.feePerRun else 0;
    if spec.maxRuns == 0 then funded
    else Min(funded, Max(spec.maxRuns - state.runs, 0))
  }

  function DepositFor(runs: int, feePerRun: int): int {
    runs * feePerRun
  }

  /** `n` more runs remain exactly when their deposit is held and the job's limit leaves room for them. */
  lemma RemainingRunsAreCovered(spec: JobSpec, state: JobState, n: nat)
    requires 0 < spec.feePerRun && 0 <= state.balance && 0 < n
    ensures n <= RunsRemaining(spec, state)
       <==> DepositFor(n, spec.feePerRun) <= state.balance && (spec.maxRuns == 0 || state.runs + n <= spec.maxRuns)
  {
    var q := state.balance / spec.feePerRun;
    assert state.balance == q * spec.feePerRun + state.balance % spec.feePerRun;
    TimesMonotone(n, q, spec.feePerRun);
    if n * spec.feePerRun <= state.balance {
      QuotientAtLeast(n, state.balance, spec.feePerRun);
    }
  }
}
