/** Values stored by the registry contract, and everything one call can answer. */
module Types {
  import opened Basics

  /** An account or contract address. */
  datatype Address = Address(key: int)

  /** One argument of a scheduled call. */
  datatype Val = Val(bits: int)

  datatype Error =
    | Paused
    | JobNotFound
    | InvalidInterval
    | InvalidFee
    | InvalidAmount
    | ForbiddenTarget
    | JobNotDue
    | InsufficientJobBalance
    | MaxRunsReached
    | ResolverRejected
    | KeeperNotFound
    | InsufficientStake
    | KeeperUnbonding
    | UnbondingNotStarted
    | UnbondingNotFinished
    | ExecutorNotSet
    | ExecutorAlreadySet
    | JobPaused
    | JobExpired
    | IntervalTooShort
    | TooManyArgs
    | InvalidBatchSize
    | LengthMismatch
    | KeeperNotAllowed
    | NotAssignedKeeper
    | TargetHalted
    | InvalidCalendar
    | InvalidSetting
    | TooManyKeepers
    | AwaitingDependency
    | NoPendingUpgrade
    | UpgradeNotReady
    | NoPendingOwner
      /** Missing authorization, a failed token transfer or an overflow panic. */
    | HostPanic

  datatype Result<+T> = Ok(value: T) | Err(error: Error) {
    predicate IsFailure() {
      Err?
    }

    function PropagateFailure<U>(): Result<U>
      requires Err?
    {
      Err(error)
    }

    function Extract(): T
      requires Ok?
    {
      value
    }
  }

  datatype Config = Config(
    admin: Address,
    feeToken: Address,
    stakeToken: Address,
    minStake: i128,
    unbondingPeriod: u64,
    paused: bool,
    executor: Option<Address>,
    minInterval: u64,
    maxArgs: u32,
    protocolFeeBps: u32,
    treasury: Option<Address>,
    maxFailures: u32,
    gracePeriod: u64,
    slashBps: u32,
    unbondingEpoch: u64)

  /** Calendar times are UTC; weekday 0 is Monday. */
  datatype Schedule =
    | Interval
    | Daily(hour: u32, minute: u32)
    | Weekly(weekday: u32, hour: u32, minute: u32)

  datatype JobParams = JobParams(
    target: Address,
    function_: string,
    args: seq<Val>,
    interval: u64,
    schedule: Schedule,
    startAt: u64,
    feePerRun: i128,
    maxFeePerRun: i128,
    maxRuns: u32,
    endAt: u64,
    resolver: Option<Address>,
    keepers: Option<seq<Address>>,
    after: Option<u64>)

  datatype JobUpdate = JobUpdate(
    function_: string,
    args: seq<Val>,
    interval: u64,
    schedule: Schedule,
    feePerRun: i128,
    maxFeePerRun: i128,
    maxRuns: u32,
    endAt: u64,
    resolver: Option<Address>,
    keepers: Option<seq<Address>>,
    after: Option<u64>)

  /** The half of a job that only its owner changes. */
  datatype JobSpec = JobSpec(
    owner: Address,
    target: Address,
    function_: string,
    args: seq<Val>,
    interval: u64,
    schedule: Schedule,
    feePerRun: i128,
    maxFeePerRun: i128,
    maxRuns: u32,
    endAt: u64,
    resolver: Option<Address>,
    keepers: Option<seq<Address>>,
    after: Option<u64>)

  /** The half of a job that every run rewrites. */
  datatype JobState = JobState(
    nextRun: u64,
    balance: int,
    runs: u32,
    failures: u32,
    active: bool,
    leaderRuns: u32)

  datatype Keeper = Keeper(
    stake: int,
    unbondingAt: Option<u64>,
    executions: u32,
    totalLateness: u64,
    missed: u32,
    slashed: i128)

  /** Moving averages, scaled by eight. */
  datatype KeeperRecent = KeeperRecent(lateness: u64, misses: u64)

  datatype PendingUpgrade = PendingUpgrade(wasmHash: int, proposedAt: u64, availableAt: u64)

  /** A token balance entry. */
  datatype Account = Account(token: Address, holder: Address)

  type Ledger = map<Account, int>

  /** Published events that an index or a keeper's record is built from. */
  datatype Event =
    | JobCreated(jobId: u64)
    | JobUpdated(jobId: u64)
    | JobFunded(jobId: u64, balance: int)
    | JobWithdrawn(jobId: u64, balance: int)
    | JobCancelled(jobId: u64)
    | JobActiveSet(jobId: u64, active: bool)
    | JobDeactivated(jobId: u64)
    | JobExhausted(jobId: u64, balance: int)
    | JobExecuted(jobId: u64, keeper: Address, success: bool, fee: int, protocolFee: int,
                  run: u32, nextRun: u64, lateness: u64, failures: u32)
    | KeeperMissedWindow(keeper: Address, jobId: u64, ranBy: Address)
    | KeeperUnbonding(keeper: Address, withdrawableAt: u64)

  /** What the resolver and the target answer when one job is run. */
  datatype Answer = Answer(resolverAllows: bool, targetSucceeds: bool)

  /** The entries kept per job and per job owner. */
  datatype JobBook = JobBook(
    nextId: u64,
    specs: map<u64, JobSpec>,
    states: map<u64, JobState>,
    pendingOwners: map<u64, Address>,
    ownerJobs: map<Address, seq<u64>>)

  /** The entries kept per keeper, and the assigned-window rotation in staking order. */
  datatype KeeperBook = KeeperBook(
    keepers: map<Address, Keeper>,
    recents: map<Address, KeeperRecent>,
    rotation: seq<Address>)

  /** Halted targets, and when runs last became possible again. */
  datatype WindowBook = WindowBook(
    halted: set<Address>,
    touched: map<u64, u64>,
    resumed: map<Address, u64>,
    reset: u64)

  datatype UpgradeBook = UpgradeBook(delay: u64, pending: Option<PendingUpgrade>)

  /**
   * Everything the registry keeps, plus the token balances it moves and the
   * events it has published. `digest` stands for the first eight bytes of
   * sha256 over a job id and its run count.
   */
  datatype Storage = Storage(
    contract: Address,
    digest: (u64, u32) -> u64,
    config: Config,
    jobs: JobBook,
    staff: KeeperBook,
    windows: WindowBook,
    upgrades: UpgradeBook,
    ledger: Ledger,
    log: seq<Event>)
}
