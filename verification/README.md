# Verified model of SoroCron

SoroCron is a job scheduler on Soroban. A registry contract escrows each job's
fees, keepers stake to run due jobs, and off-chain keeper programs decide which
jobs to run and in which batches. This project models the registry, the two
keeper programs' decisions, the example timelock, the channel pool and the SDK's
pure helpers, and proves what they are for.

To verify the project: `dafny verify dfyconfig.toml`.

## How the model is built

**The registry.** `Types` holds the stored values. `RegistrySpec` says, as
functions on the whole storage (`Storage`: jobs, keepers, window timestamps,
pending upgrade, token balances, published events), what each entry point does,
with the source's order of checks and its error cases. `RegistryContract.Registry`
is the contract itself: one field per kind of storage entry, changed step by
step, each method proved to answer and leave exactly what its specification
function says, and to change nothing when it refuses. `Histories` strings
transactions together: any sequence of calls, by anyone, at non-decreasing
times, interleaved with arbitrary transfers in the token contracts. The history
theorems (`Solvency`, `MissedWindows`, `Blame`, `KeeperStats`, `UpgradeTimelock`,
`RunCounts`, `JobRuns`, `JobStanding`, `Handovers`, `Switches`, `JobIndexing`,
`LateRefetches`, `SyncBalances`) quantify over all of them.

The specification functions say what is computed. What it means is stated beside
them without naming them, so that a change of both a method and its specification
shows: `RunRules` lists the conditions of a run and of a recorded miss, `JobTerms`
and `EntryPoints` what is accepted and stored field by field, `Payments` who pays
whom, `KeeperStats` and `JobStanding` that records and counters are exactly what
the published events say, `JobRuns` that runs keep to the terms asked for.

- `require_auth` is a caller argument; nobody can sign for the registry itself.
- `sha256(job id, runs)` is an arbitrary function (`Storage.digest`).
- What the target and the resolver answer is an argument of each run; they
  cannot re-enter the registry.
- A failed token transfer, missing authorization or an overflow panic is the
  error `HostPanic`, which reverts the whole call.
- `execute_batch`, `create_jobs` and `withdraw_stakes` are proved equal to
  sequences of single calls at the same moment (`BatchHistories`), so histories
  need only the single calls, one of which is a batch in which nothing runs.
- Widths are explicit: u64, u32 and i128 are subset types, every saturating or
  checked operation of the source is written out (`Sat64`, `Sat32`, `Less`).

**The keeper programs.** `JobIndexing`, `ReplayedEntries`, `LateRefetches` and
`SyncBalances` are about the event-fed job index, `KeeperIndex.JobIndex` is the
index as a program. `TickSpec` specifies the recursive batch runner of the
TypeScript keeper; `TickFacts`, `TickOutcomes`, `TickModel` and `TickProfit` prove
what it keeps and what the network's answers decide; `KeeperTick.Keeper` is the
program with its shared summary. `WorkQueue` is the Rust keeper's queue as a state
machine, `QueueOutcomes` which side each decision falls on, `RustTick` the program.
The network answers every call as it likes, possibly differently each time;
results that need a rule for the answers name it (`PoisonModel`, `Behaves`).

**The rest.** `Timelocks`, `Channels`, `Quarantines`, `Amounts` and `SdkSchedule`.

## Where the code and its description differ

- `run_job` publishes `JobExhausted` (new balance) before `JobExecuted` (fee),
  so the index subtracts the last fee twice. It stays harmless: the balance is
  too low only for jobs that cannot pay for another run (`JobIndexing.Agrees`).
- `getJob` answers with the job as it is now, also for an event further back in
  the backlog. A run that follows the update in the same backlog then takes its
  fee off a balance that already reflects it, so a due job can be missed until
  it is funded, updated or reloaded (`SyncBalances.DueJobCanBeMissed`). The
  index never names a job that is not due, and which due jobs it misses is
  `SyncBalances.SyncFindsExactly`.
- A stake restarts every assigned window it can affect, except when the minimum
  stake is 0, windows are on, the rotation is full and the keeper is new: it was
  already counted as eligible while unregistered. Such a silent stake can take
  over a job whose window is open, and the newcomer is then blamed for it
  (`MissedWindows.SilentStakeIsBlamed`). A recorded miss is the keeper's own
  exactly when that keeper did not join silently within the grace period before
  (`MissedWindows.MissIsGenuineIff`); other keepers' silent stakes do not
  matter, and with a positive minimum stake there are none.
- The upgrade delay is there "so everyone can leave before new code runs". That
  holds for keepers that begin unbonding once the upgrade is announced. One that
  began earlier, under a longer epoch, can be left behind
  (`UpgradeTimelock.EarlierUnbonderCanBeLate`, with the exact condition in
  `UpgradeTimelock.EarlierUnbonderIsOutFirstIff`).
- At u64::MAX seconds saturation makes a window count as whole and leaves a run
  due again at once, despite "always after now"
  (`MissedWindows.LastSecondWindow`, `Schedules.NextRunIsInTheFuture`).
- The SDK's `currentFee` is described as mirroring the registry. It can name
  less: where `span * lateness` overflows i128 the registry charges the whole
  span (`SdkSchedule.SdkFeeAgainstRegistry` gives the exact condition).
- The keeper tries an unprofitable batch in halves "so jobs that pay for
  themselves still run". A job that is the only runnable one of its batch is
  judged by the cost of the whole batch, idle neighbours included, so a paying
  job can be given up (`TickProfit.PayingJobCanBeDropped`). Whether a given tick
  does so is `TickProfit.UnprofitableMeansAloneIff`, whether a cost rule ever
  leads to it `TickProfit.NeverDropsPayingIff`.
- `execute_batch` re-saves the keeper's record even when nothing ran, which adds
  a blank average where none was stored; nobody can tell by reading
  (`Footprints.RewrittenReadsTheSame`).

## Model

| member | source | states |
|---|---|---|
| Histories.ReachableIsSound | contracts/registry/src/lib.rs:97-131 | Every state reached by any sequence of transactions at non-decreasing times, from any deployment, satisfies all invariants below together: index and rotation sound, jobs sound, misses bounded, solvent, settings within their limits, upgrade delay covering unbonding. |
| Histories.StepKeepsSound | contracts/registry/src/lib.rs:136-841 | No transaction, accepted or refused, breaks any of those invariants. |
| Histories.DeployedIsSound | contracts/registry/src/lib.rs:97-128 | A freshly deployed registry satisfies them, whatever token balances exist already. |
| Histories.PartiesForever | contracts/registry/src/lib.rs:568-580 | Over any history the registry's tokens and address stay the same and a connected executor is never replaced. |
| Histories.MoneyConservedForever | contracts/registry/src/invariants.rs:160-184 | Over any history a token's surplus (held minus owed) equals the initial surplus plus the windfalls, which are never negative. |
| Histories.NewUpgradesSound | contracts/registry/src/lib.rs:1441-1465 | Every interleaving of epoch changes, delay changes, proposals, cancellations keeps `available_at` at or after `proposed_at` plus the delay in force. |
| Solvency.MoneyConserved | contracts/registry/src/lib.rs:136-559 | Each transaction changes (registry holding - job balances - stakes) of each token by exactly its windfall: tokens sent to the registry directly, or protocol fees when the registry is its own treasury; 0 otherwise. |
| Solvency.StepKeepsSolvent | contracts/registry/src/invariants.rs:160-184 | Holdings cover live job balances plus registered stakes in every token, also when both tokens are the same one. |
| Solvency.EachClaimIsHeld | contracts/registry/src/lib.rs:1358-1376 | Each single job balance and each single stake is covered by what the registry holds. |
| Solvency.NoPaymentFails | contracts/registry/src/lib.rs:279-331 | Cancel, withdraw, stake release and execution succeed exactly when their own checks pass: the outgoing transfer can never be what fails. |
| Solvency.PermittedRunIsPaid | contracts/registry/src/lib.rs:402-422 | `execute` succeeds exactly when the keeper is authorized and every check before the target call passes; the payout is always covered. |
| Solvency.RunPayoutIsTheFee | contracts/registry/src/lib.rs:1249-1285 | A run's keeper part plus protocol part is the whole fee, both non-negative, the fee positive and within the job's balance, and a protocol part implies a treasury. |
| Solvency.SettlePays | contracts/registry/src/lib.rs:1358-1376 | Settling a covered payout moves exactly the two parts to keeper and treasury, for every combination in which they coincide. |
| Solvency.StepKeepsParties | contracts/registry/src/lib.rs:697-716 | No job is owned by, no keeper is, the registry itself; stakes are non-negative; a protocol fee above 0 always has a treasury. |
| Bookkeeping.StepKeepsIndex | contracts/registry/src/storage.rs:161-263 | Every transaction keeps: id in owner_jobs(o) exactly when job id exists with owner o, without duplicates; both halves exist together with id < next_job_id; a pending owner exists only for a live job and differs from its owner. |
| Bookkeeping.InsertKeepsIndex | contracts/registry/src/lib.rs:1087-1136 | Storing a new job extends exactly its owner's list and keeps the index. |
| Bookkeeping.CancelKeepsIndex | contracts/registry/src/lib.rs:279-298 | Cancelling removes both halves, the pending owner and the id from exactly one list. |
| Bookkeeping.HandOverKeepsIndex | contracts/registry/src/lib.rs:378-396 | An accepted handover moves the id from the old owner's list to the new one's. |
| Bookkeeping.StepKeepsRotation | contracts/registry/src/storage.rs:293-316 | The rotation holds at most 64 distinct registered keepers, none of them unbonding, after every transaction. |
| JobFacts.StepKeepsJobsSound | contracts/registry/src/lib.rs:990-1136 | In every state a live job has a positive interval and fee, a non-negative balance, a calendar job's interval is its period and its next run is on its calendar, and a follower's recorded leader runs never exceed the leader's. |
| JobFacts.RunStaysOnCalendar | contracts/registry/src/schedule.rs:63-77 | However late a run is, a calendar job's next run shows the right UTC weekday, hour and minute, or is u64::MAX. |
| JobFacts.UpdateStaysOnCalendar | contracts/registry/src/lib.rs:208-226 | Switching between interval, daily and weekly schedules leaves the next run on the calendar in force. |
| JobFacts.MayRunFacts | contracts/registry/src/lib.rs:1199-1247 | A permitted run means: due, target neither halted nor forbidden, registry rules met, balance at least the base fee. |
| JobFacts.OthersLeaveJob | contracts/registry/src/lib.rs:136-841 | Transactions that are not a run, update or cancellation of a job leave its schedule, run count and leader record alone. |
| JobFacts.StepKeepsMissesSound | contracts/registry/src/lib.rs:1276-1340 | The smoothed miss average stays at most 80000 in every reachable state, so `recent_miss_bps` stays at most 10000. |
| MissedWindows.MissIsGenuineIff | contracts/registry/src/lib.rs:1280-1355 | Over any history, a miss recorded at `now` (before u64::MAX) against keeper k for job j is genuine - at every moment of the preceding grace period, in every state in force then, j passed `ensure_due`, its target was not halted, nothing was paused, k was the eligible assigned keeper, and with an executor connected k's own call would have reached the target - if and only if k itself did not join by a silent stake during that time. |
| MissedWindows.MissMeansWholeWindow | contracts/registry/src/lib.rs:1280-1355 | The half of it a keeper relies on, moment by moment and state by state. |
| MissedWindows.WindowHistory | contracts/registry/src/lib.rs:1302-1326 | Every state in force since the window last restarted showed the job, its assignment and its gates exactly as they are now, whatever other keepers did, unless the keeper now assigned joined silently since. |
| MissedWindows.StepKeepsWindow | contracts/registry/src/lib.rs:481-494 | Each transaction restarts a job's window or changes nothing its runs depend on, if and only if it is not a silent stake that takes this very job over. |
| MissedWindows.SilentStakeKeepsOthers | contracts/registry/src/lib.rs:462-504 | A silent stake leaves every job alone that it does not assign to the newcomer. |
| MissedWindows.StakeRestartsOrKeeps | contracts/registry/src/lib.rs:462-504 | A stake restarts all windows unless it changes no assignment - or is a `SilentStake`: minimum stake 0, an unregistered keeper, a full rotation and windows on. |
| MissedWindows.SilentStakeReassigns | contracts/registry/src/lib.rs:478-494 | In that exceptional case an allowlisted job can go from unassigned to assigned although no window restarts. |
| MissedWindows.SilentStakeIsBlamed | contracts/registry/src/lib.rs:478-494 | What goes wrong otherwise: after a silent stake a run by anyone else at the same moment records a miss against the newcomer, which could not have run the job before. |
| MissedWindows.OnlyRunsRecordMisses | contracts/registry/src/lib.rs:1332-1348 | A registered keeper's miss counter changes only through a run that records a miss against it. |
| MissedWindows.WholeWindowIsWhole | contracts/registry/src/lib.rs:1312-1326 | Before u64::MAX, a window counts as whole exactly when a full grace period fits after the latest restart and the job has neither resolver nor leader. |
| MissedWindows.LastSecondWindow | contracts/registry/src/lib.rs:1326 | At u64::MAX saturation makes every window count as whole. |
| MissedWindows.ForgottenTimestampsDontMatter | contracts/registry/src/storage.rs:21-73 | Losing a temporary job or target timestamp older than MAX_GRACE_PERIOD cannot change whether a window was whole. |
| UpgradeTimelock.StandingNeverEarlier | contracts/registry/src/lib.rs:1451-1465 | While a proposal stands, its `proposed_at` is fixed and its `available_at` never moves earlier, whatever the admin interleaves. |
| UpgradeTimelock.NeverEarlier | contracts/registry/src/lib.rs:751-841 | One transaction never moves a standing proposal earlier or changes its hash. |
| UpgradeTimelock.AvailableAfterTheLongestWait | contracts/registry/src/lib.rs:1439-1465 | A standing proposal becomes available exactly at its announcement plus the longest wait (delay set, or period plus epoch if longer) that the settings asked for in any state since, cut off at u64::MAX. |
| UpgradeTimelock.UnbondingBeatsUpgrade | contracts/registry/src/lib.rs:510-534 | A keeper that begins unbonding at t while an upgrade announced at p is pending gets `withdrawable_at` <= `available_at` + (t - p), saturation included. |
| UpgradeTimelock.EveryoneCanLeaveFirst | contracts/registry/src/lib.rs:510-534 | The same bound against the release time at any later moment the proposal still stands. |
| UpgradeTimelock.AppliedOnlyAfterLeaving | contracts/registry/src/lib.rs:794-812 | `apply_upgrade` never succeeds before a keeper that began unbonding when the upgrade was announced could withdraw. |
| UpgradeTimelock.ProposedInThePast | contracts/registry/src/lib.rs:770-788 | A pending proposal was announced at or before the current time. |
| UpgradeTimelock.EarlierUnbonderIsOutFirstIff | contracts/registry/src/lib.rs:510-534 | A keeper that began unbonding before the announcement can withdraw by `available_at` exactly when the end of the epoch it joined plus the unbonding period is not after the announcement plus the delay in force. |
| UpgradeTimelock.SameEpochIsOutFirst | contracts/registry/src/schedule.rs:122-131 | That is always so when the epoch was not shortened in between. |
| UpgradeTimelock.EarlierUnbonderCanBeLate | contracts/registry/src/lib.rs:751-812 | It fails when the admin removes a 30-day epoch right after a keeper joined it: the upgrade can be applied a month before that keeper is released. |
| RunCounts.RunsUseDistinctSlots | contracts/registry/src/lib.rs:1249-1256 | Over any history without updates of a job, after k runs its next slot is at or after the k-th point of its grid: every run uses its own slot. |
| RunCounts.RunsFitTheGrid | contracts/registry/src/schedule.rs:63-77 | A job first due at d that runs at t has by then run at most (t - d) / interval + 1 times. |
| RunCounts.SlotAfterPreviousRun | contracts/registry/src/schedule.rs:63-77 | After a run at time t the job's next slot lies strictly after t. |
| RunCounts.StepCountsRuns | contracts/registry/src/lib.rs:1249-1301 | A transaction publishes exactly one execution event for a job when it runs it and none otherwise. |
| RunCounts.FollowerNeverOutruns | contracts/registry/src/lib.rs:1028-1039 | While a job stays attached to a live leader it runs at most as often as the leader does since the attachment, also in cycles made by updates. |
| RunCounts.StepKeepsSlack | contracts/registry/src/lib.rs:1228-1250 | Each run of the follower uses up a leader run it had not answered yet; nothing else changes the difference except the leader running. |
| RunCounts.AttachingLeavesNoSlack | contracts/registry/src/lib.rs:227-230 | Starting to follow, at creation or by an update, records all of the leader's runs so far. |
| RunCounts.CancelledForever | contracts/registry/src/storage.rs:161-173 | A cancelled id never exists again, so a leader cannot be swapped for another job. |
| RunRules.RunAcceptedIff | contracts/registry/src/lib.rs:1199-1231 | `execute` succeeds if and only if: the registry is open with an executor, the keeper is registered, not leaving and has the minimum stake; the job is active, due, funded, within its run limit and end, its target neither the registry's own nor halted, the keeper on its allowlist; no other keeper holds a window that still lasts; its leader, if any, has run since; its resolver, if any, agrees. |
| RunRules.RunRefusalIsTrue | contracts/registry/src/lib.rs:1184-1231 | The error a refused run gets names a condition that really does not hold. |
| RunRules.NotAssignedIff | contracts/registry/src/lib.rs:1220-1224 | A keeper that could otherwise run a job is refused as not assigned exactly while less than the grace period has passed since the due time and another registered, eligible keeper is the one the digest draws from the allowlist, or without an allowlist from the rotation. |
| RunRules.HolderIsLetIn | contracts/registry/src/lib.rs:1378-1414 | The keeper so drawn is never refused for that reason. |
| RunRules.LateRunIsBlamedIff | contracts/registry/src/lib.rs:1280-1348 | An accepted run by another keeper publishes a miss of the window's holder if and only if the job has neither resolver nor leader and a grace period has passed since the due time, the job's last change, the last restart of all windows and the target's last resumption. |
| Blame.OnlyTheseRestart | contracts/registry/src/lib.rs:1351-1356 | A job's window restarts only by its own update, funding, withdrawal or switch, a stake that joins or makes eligible, an unbonding, its target being resumed, unpausing, and new windows or minimum stake; no clock is ever set ahead of time. |
| Blame.QuietWindowIsBlamed | contracts/registry/src/lib.rs:1302-1348 | The converse of a genuine miss over any history: when a grace period passes without any of these after the run was due, and another keeper's run is then accepted, the holder's miss is published. |
| KeeperStats.RecordIsTheEvents | contracts/registry/src/lib.rs:1276-1348 | Over any history in which a keeper stays registered its record (executions, total lateness, misses, both averages) is the earlier record with every run by it and every miss of it published since added, and nothing else. |
| KeeperStats.CountersAreTheEvents | contracts/registry/src/lib.rs:1276-1348 | In numbers: `executions` grows by exactly the runs and `missed` by exactly the misses published since, cut off at u32::MAX. |
| KeeperStats.StepIsNoted | contracts/registry/src/lib.rs:1276-1348 | The same for one transaction. |
| KeeperStats.FirstStakeIsBlank | contracts/registry/src/lib.rs:469-480 | A keeper that appears did so by a stake of its own, and starts with a blank record, also after having left. |
| KeeperStats.MissRaisesCount | contracts/registry/src/lib.rs:1332-1340 | A run that misses a registered keeper's window raises its `missed` by one and leaves its `executions`. |
| JobTerms.CreatedAsAsked | contracts/registry/src/lib.rs:1087-1136 | An accepted creation stores, under the next id, the caller as owner and each term as asked: target, call, schedule, fees, limits, resolver, allowlist, leader; the balance is the deposit, the counts are zero, the first run is the first time on the schedule from `startAt` and now on, leader runs count from now. No other job changes. |
| JobTerms.UpdatedAsAsked | contracts/registry/src/lib.rs:197-244 | An accepted update stores each new term; owner, target, balance, runs, failures and switch stay; the due time moves only when the calendar changes, leader runs are recounted only when the leader changes. No other job changes. |
| JobTerms.CreateAcceptedIff | contracts/registry/src/lib.rs:990-1085 | `create_job` succeeds exactly under these conditions: open registry, valid schedule and limits, deposit covering a run and held by the owner, allowed target, live leader, an id left. |
| JobTerms.UpdateAcceptedIff | contracts/registry/src/lib.rs:197-244 | `update_job` succeeds exactly under these conditions: open registry, live job, its owner, valid terms, a leader that lives and is not the job itself. |
| JobTerms.CreateRefusalIsTrue | contracts/registry/src/lib.rs:990-1085 | The error a refused creation gets names a condition that really does not hold. |
| JobTerms.UpdateRefusalIsTrue | contracts/registry/src/lib.rs:197-244 | The error a refused update gets names a condition that really does not hold. |
| JobRuns.CreatorsTermsHold | contracts/registry/src/lib.rs:1199-1266 | Over any history, until a job is first updated, every accepted run of it calls what its creator asked for, comes no earlier than `startAt` and before `endAt`, keeps the number of published runs within `maxRuns`, is made by an allowed keeper with the resolver's consent and while the leader lives, and pays a fee between base and ceiling. |
| JobRuns.UpdatersTermsHold | contracts/registry/src/lib.rs:1199-1266 | The same after an accepted update, for the updated terms, until the next one. |
| JobRuns.RunsAreCounted | contracts/registry/src/lib.rs:1249 | In every reachable state a job's run count is the number of its published runs, cut off at u32::MAX. |
| JobRuns.RunLeaves | contracts/registry/src/lib.rs:1249-1266 | A run leaves one more run, a failure more or none, the fee off the balance, the leader's current runs noted, and pauses the job exactly when the failure makes `max_failures` in a row. |
| JobRuns.RunTells | contracts/registry/src/lib.rs:1256-1301 | The events of a run tell exactly that: given up if and only if paused, exhausted if and only if below the base fee, and the run with its fee, protocol share, lateness and counters. |
| JobRuns.LeaderRunFreesFollowers | contracts/registry/src/lib.rs:1028-1039 | A leader's run lets each of its followers run, exactly as long as the follower has not already noted u32::MAX runs. |
| JobRuns.FollowerWaitsAgain | contracts/registry/src/lib.rs:1228-1250 | After its own run a follower waits again until its leader's next one. |
| JobStanding.StandingIsTheEvents | contracts/registry/src/lib.rs:1257-1266 | In every reachable state whether a job is active, and its failures in a row, are what its creation, its owner's pauses and resumptions, its runs and its giving up say in the order published. |
| Payments.StepPaysAsDue | contracts/registry/src/lib.rs:136-559 | Each accepted transaction moves exactly its tokens between exactly its parties - deposit, top-up and stake to the registry, refund and withdrawal to the owner, the whole stake back to its keeper, a run's fee less floor(fee * bps / 10000) to the keeper and that share to the treasury - and a refused one none. |
| EntryPoints.FundedAsAsked | contracts/registry/src/lib.rs:248-274 | When a top-up is accepted, and that it only raises that job's balance. |
| EntryPoints.WithdrawnAsAsked | contracts/registry/src/lib.rs:306-331 | A withdrawal only lowers that job's balance. |
| EntryPoints.SwitchedAsAsked | contracts/registry/src/lib.rs:337-352 | Only the owner pauses and resumes; resuming clears the failures, pausing keeps them. |
| EntryPoints.StakedAsAsked | contracts/registry/src/lib.rs:462-504 | When a stake is accepted, whose stake it raises, what a new keeper starts with, and that it joins the rotation while that has fewer than 64. |
| EntryPoints.UnbondedAsAsked | contracts/registry/src/lib.rs:510-534 | When unbonding is accepted, when it ends, and that exactly this keeper leaves the rotation. |
| EntryPoints.ReleasedAsAsked | contracts/registry/src/lib.rs:1416-1437 | A released keeper leaves no entry behind and nobody else's changes. |
| Handovers.HandedOverByConsent | contracts/registry/src/lib.rs:357-396 | Over any history a live job has a new owner only if that one accepted an offer which the owner before it had made to it and not withdrawn. |
| Handovers.StepKeepsHands | contracts/registry/src/lib.rs:357-396 | The same for one transaction: offers come from the owner, changes of owner from the one offered. |
| EntryPoints.ProposedAsAsked | contracts/registry/src/lib.rs:357-374 | Only the owner proposes; proposing itself withdraws; nothing else changes. |
| EntryPoints.AcceptedAsAsked | contracts/registry/src/lib.rs:378-396 | Only the proposed owner accepts; the rest of the job stays as it is. |
| Switches.NothingRunsWhilePaused | contracts/registry/src/lib.rs:635-648 | Over any history, from a pause until it is taken off no run, creation, update, top-up or stake has any effect. |
| Switches.NothingRunsOnHaltedTarget | contracts/registry/src/lib.rs:650-660 | Over any history, from a halt until the target is resumed no job that calls it runs. |
| Switches.SettingsAsAsked | contracts/registry/src/lib.rs:568-764 | The admin and nobody else changes a setting, within its limits, and each call changes its own setting only. |
| Switches.UpgradesAsAsked | contracts/registry/src/lib.rs:751-843 | The delay set is the delay stored, a proposal is pending from its announcement until it is applied or withdrawn, and no other call touches it. |
| Batching.BatchIsEach | contracts/registry/src/lib.rs:427-453 | `execute_batch` leaves the same storage, ledger and events as calling `execute` on each id in order and ignoring refusals, given the same outcomes (up to re-saving the keeper's unchanged record when nothing ran). |
| Batching.BatchMirrorsEach | contracts/registry/src/lib.rs:1161-1180 | After every prefix of a batch the cached record and summed payout stand for exactly what one-at-a-time execution has already stored and paid. |
| Batching.MissKeepsSameStaff | contracts/registry/src/lib.rs:1276-1286 | A recorded miss never names the executing keeper, so saving the cached record at the end never overwrites it. |
| Batching.SettleTwice | contracts/registry/src/lib.rs:1358-1376 | Paying two earnings one after the other equals paying their sum, whoever keeper and treasury are. |
| Batching.BatchKeepsSound | contracts/registry/src/lib.rs:427-453 | Everything proved of reachable states also holds after a batch. |
| Footprints.RewrittenReadsTheSame | contracts/registry/src/lib.rs:1168-1180 | Re-saving the record that was loaded changes nothing anyone reads. |
| BatchHistories.BatchIsHistory | contracts/registry/src/lib.rs:427-453 | Whatever an accepted `execute_batch` leaves, a history of single calls at the same moment reaches: one run per id, then a batch in which nothing runs. Every theorem about histories therefore covers batches. |
| BatchHistories.CreateJobsIsHistory | contracts/registry/src/lib.rs:158-191 | The same for an accepted `create_jobs` and its single creations. |
| BatchHistories.WithdrawStakesIsHistory | contracts/registry/src/lib.rs:549-559 | The same for `withdraw_stakes` and its single payouts. |
| Batching.PaidOutInTurn | contracts/registry/src/lib.rs:549-559 | Each amount `withdraw_stakes` reports is what that keeper's turn released after the turns before it, 0 when it was not ready. |
| Batching.CreateJobsIsEach | contracts/registry/src/lib.rs:158-191 | A successful `create_jobs`, with one summed transfer and all checks made up front, leaves exactly what creating its jobs one by one in order leaves. |
| Schedules.FirstRunIsLeastMatch | contracts/registry/src/schedule.rs:47-61 | The first run of a calendar is the least time at or after `from` at which the UTC clock shows the schedule's weekday, hour and minute, cut off at u64::MAX. |
| Schedules.MatchesIffOnGrid | contracts/registry/src/schedule.rs:32-45 | The wall clock shows the schedule's time exactly when the time is at the computed offset within its period. |
| Schedules.NextRunIsLeastGridPoint | contracts/registry/src/schedule.rs:63-77 | For a run that is not early, the next one is the least point of the grid after `now`, cut off at u64::MAX. |
| Schedules.NextRunOnGrid | contracts/registry/src/schedule.rs:63-77 | The next run stays on the original grid and is at least one interval later, or is u64::MAX, for early runs too. |
| Schedules.NextRunIsInTheFuture | contracts/registry/src/schedule.rs:63-67 | The result is after `now` exactly when `now` is not u64::MAX; the comment's "always" fails only there. |
| Schedules.SplitIsExactFloor | contracts/registry/src/schedule.rs:104-113 | For bps up to 10000 the share is exactly floor(amount * bps / 10000), rest and share add up, and no intermediate product leaves i128. |
| Schedules.RampedFeeBounds | contracts/registry/src/schedule.rs:79-102 | A funded job pays at least `fee_per_run`, at most max(fee, ceiling), at most its balance, also through the overflow branch. |
| Schedules.RampedFeeNeverFalls | contracts/registry/src/schedule.rs:79-102 | The fee never decreases with time, also across the point where the product overflows i128. |
| Schedules.RampedFeeIsLinear | contracts/registry/src/schedule.rs:79-102 | Covered by its balance, a job pays its base fee until due, the ceiling once an interval late, and in between the floor of the linear ramp, or the ceiling where the product overflows i128. |
| Schedules.SmoothStep | contracts/registry/src/schedule.rs:115-120 | One sample replaces the floored eighth of the average, which moves it strictly towards [8x, 8x+7] and never across it. |
| Schedules.SmoothSettles | contracts/registry/src/schedule.rs:115-120 | Repeating a sample x makes `scaled / 8` equal x after at most as many steps as the distance to the band, for good. |
| Schedules.ReleaseWithinEpochAndPeriod | contracts/registry/src/schedule.rs:122-131 | Unbonding takes at least the period and at most epoch + period, saturation included. |
| Schedules.SameEpochSameRelease | contracts/registry/src/schedule.rs:122-131 | All keepers that start unbonding within one epoch are released at the same time. |
| RegistryContract.Registry.constructor | contracts/registry/src/lib.rs:97-128 | A new registry starts in a deployed state that satisfies every invariant. |
| RegistryContract.Registry.CreateJob | contracts/registry/src/lib.rs:136-153 | Answers and new storage are those of the specification `RegistrySpec.CreateJob` (validation order, transfer, new id, both halves, owner list, event); a refusal changes nothing. On success every stored field is as asked (`JobTerms.CreatesAsAsked`). |
| RegistryContract.Registry.CreateJobs | contracts/registry/src/lib.rs:158-191 | All-or-nothing creation with one summed transfer; ids in input order; error order as in the loop. |
| RegistryContract.Registry.UpdateJob | contracts/registry/src/lib.rs:197-244 | As `RegistrySpec.UpdateJob`: next run kept unless the calendar changes, leader record renewed only when `after` changes, window restarted. On success every stored field is as asked (`JobTerms.UpdatesAsAsked`). |
| RegistryContract.Registry.FundJob | contracts/registry/src/lib.rs:248-274 | As `RegistrySpec.FundJob`: amount moved in, balance raised, window restarted. |
| RegistryContract.Registry.CancelJob | contracts/registry/src/lib.rs:279-300 | As `RegistrySpec.CancelJob`: both halves, pending owner and list entry gone, balance refunded; allowed while paused. |
| RegistryContract.Registry.WithdrawJobBalance | contracts/registry/src/lib.rs:306-331 | As `RegistrySpec.WithdrawJobBalance`; refuses amounts that are not positive or above the balance. |
| RegistryContract.Registry.SetJobActive | contracts/registry/src/lib.rs:337-352 | As `RegistrySpec.SetJobActive`: resuming clears failures, the window restarts. |
| RegistryContract.Registry.ProposeJobOwner | contracts/registry/src/lib.rs:357-374 | As `RegistrySpec.ProposeJobOwner`: proposing the current owner withdraws the proposal. |
| RegistryContract.Registry.AcceptJobOwner | contracts/registry/src/lib.rs:378-396 | As `RegistrySpec.AcceptJobOwner`: the handover moves the id between owner lists in place. |
| RegistryContract.Registry.CheckRun | contracts/registry/src/lib.rs:1199-1231 | The checks before the target call, in the source's order, and the other assigned keeper. |
| RegistryContract.Registry.FindAssigned | contracts/registry/src/lib.rs:1378-1414 | Finds a keeper exactly when windows are on and it is registered, eligible and drawn by the digest from the allowlist, or without one from the rotation; finds none otherwise. |
| RegistryContract.Registry.AdvanceJob | contracts/registry/src/lib.rs:1249-1274 | Run count, leader record, balance, next run, failures, self-pausing and the exhausted event of one run. |
| RegistryContract.Registry.RecordMiss | contracts/registry/src/lib.rs:1332-1348 | One more miss on the missed keeper's record and the event published, only if it is registered; nobody else's counters change. |
| RegistryContract.Registry.StoreRun | contracts/registry/src/lib.rs:1249-1301 | The stored effect and events of a permitted run. |
| RegistryContract.Registry.RunJob | contracts/registry/src/lib.rs:1199-1302 | Runs one job on a cached record and payout; a refused job writes nothing. |
| RegistryContract.Registry.IsWhole | contracts/registry/src/lib.rs:1312-1326 | Decides from the stored timestamps whether the assigned keeper had its whole window. |
| RegistryContract.Registry.SaveAndSettle | contracts/registry/src/lib.rs:1176-1180 | Saves the cached record and pays keeper and treasury. |
| RegistryContract.Registry.Execute | contracts/registry/src/lib.rs:402-422 | As `RegistrySpec.Execute`; on refusal every field is as before. |
| RegistryContract.Registry.ExecuteBatch | contracts/registry/src/lib.rs:427-453 | As `Batching.ExecuteBatch`: per-id flags, one load, one save, one settlement. |
| RegistryContract.Registry.Stake | contracts/registry/src/lib.rs:462-504 | As `RegistrySpec.Stake`: registration, rotation entry while there is room, window reset when an assignment can change. |
| RegistryContract.Registry.BeginUnbonding | contracts/registry/src/lib.rs:510-534 | As `RegistrySpec.BeginUnbonding`: release time, leaving the rotation, window reset. |
| RegistryContract.Registry.ReleaseStake | contracts/registry/src/lib.rs:1416-1437 | As `RegistrySpec.ReleaseStake`: the whole stake to the keeper, its records removed. |
| RegistryContract.Registry.WithdrawStakes | contracts/registry/src/lib.rs:549-559 | Releases every ready keeper of the list in order and reports, per keeper, the stake its turn released, 0 for the others. |
| RegistryContract.Registry.SetPaused | contracts/registry/src/lib.rs:639-648 | Pausing; unpausing restarts all windows. |
| RegistryContract.Registry.SetTargetHalted | contracts/registry/src/lib.rs:653-660 | Halting; resuming a target records the time. |
| RegistryContract.Registry.SetKeeperWindows | contracts/registry/src/lib.rs:735-747 | Windows up to a day; changing them restarts all windows. |
| RegistryContract.Registry.PushBack | contracts/registry/src/lib.rs:1451-1465 | Pushes a pending upgrade back, never forward. |
| RegistryContract.Registry.SetUnbondingEpoch | contracts/registry/src/lib.rs:751-764 | Epoch up to 30 days, pushing a pending upgrade back. |
| RegistryContract.Registry.SetUpgradeDelay | contracts/registry/src/lib.rs:831-843 | Delay at least the unbonding time, pushing a pending upgrade back. |
| RegistryContract.Registry.ProposeUpgrade | contracts/registry/src/lib.rs:770-788 | Announces an upgrade available after the delay in force. |
| RegistryContract.Registry.RemoveOwnerJob | contracts/registry/src/storage.rs:257-263 | Cuts the first occurrence of the id out of the owner's list; a missing id changes nothing. |
| RegistryContract.Registry.AddActiveKeeper | contracts/registry/src/storage.rs:300-308 | Appends a keeper that is not in the rotation while there is room. |
| JobIndexing.IndexAgreesForever | keeper-bot/src/jobIndex.ts:109-172 | Following any history from a snapshot, each event applied once and every refetch answered as of its own event, keeps index and registry in agreement for good, although `JobExhausted` is published before `JobExecuted`. |
| JobIndexing.StepKeepsStep | keeper-bot/src/jobIndex.ts:135-172 | One transaction's events keep the agreement: balances equal, or index balance <= actual balance < fee_per_run. |
| JobIndexing.DueExactly | keeper-bot/src/jobIndex.ts:51-60 | In agreement, `mightBeDue` and the registry's `ensure_due` say the same for every job and time. |
| JobIndexing.RunKeepsStep | contracts/registry/src/lib.rs:1249-1301 | A run's events, in the order published, lead the index to the job's new state (or to a balance below both the actual one and the fee). |
| LateRefetches.LateRefetchesAreSound | keeper-bot/src/jobIndex.ts:143-147 | However late each refetch is answered, for all jobs and any number of refetches: an index that was caught up and has replayed the events up to the moment of the last answer holds exactly the live jobs, its balances are lower bounds, every other field is right, and what it calls due is due. |
| LateRefetches.LateRefetchesStayCovered | keeper-bot/src/jobIndex.ts:135-172 | Part-way through a backlog, too: no entry outlives its job, and each survivor's entry is right but for a low balance or lies between the replayed state and a later one. |
| LateRefetches.SyncCatchesUp | keeper-bot/src/jobIndex.ts:109-126 | A sync, which replays the whole backlog over jobs fetched as they are now, leaves an index that is caught up. |
| SyncBalances.SyncFindsExactly | keeper-bot/src/jobIndex.ts:109-177 | After a sync a job is called due if and only if it is due and its balance covers a run after the sync's shortfall is taken off; the shortfall can be read off the events replayed. |
| SyncBalances.DueJobCanBeMissed | keeper-bot/src/jobIndex.ts:142-157 | An update and a run in one backlog: the refetched balance loses the run's fee a second time, and the due job is missed while its balance is below twice its fee. |
| JobIndexing.SnapshotInStep | keeper-bot/src/jobIndex.ts:86-96 | A freshly loaded snapshot agrees with the registry. |
| KeeperIndex.JobIndex.Load | keeper-bot/src/jobIndex.ts:86-104 | Pages of 50 put together are exactly the live jobs. |
| KeeperIndex.JobIndex.ApplyEvent | keeper-bot/src/jobIndex.ts:136-171 | One event's in-place effect is the specification's. |
| KeeperIndex.JobIndex.CatchUp | keeper-bot/src/jobIndex.ts:115-126 | The page loop ends at the log's end with each event applied exactly once, or stops at a page that does not arrive. |
| KeeperIndex.JobIndex.Sync | keeper-bot/src/jobIndex.ts:110-133 | Reloads every n-th time and after a failed page, otherwise replays exactly the events since the cursor. Afterwards the index holds exactly the live jobs with balances at most the registry's, and calls exactly those jobs due that are due and bear the shortfall (none after a reload). |
| KeeperIndex.JobIndex.Due | keeper-bot/src/jobIndex.ts:174-177 | Returns exactly the indexed jobs that might be due, once each, earliest first. |
| KeeperIndex.JobIndex.Poll | keeper-bot/src/tick.ts:108-111 | Sync, then ask for due jobs: every id returned passes the registry's `ensure_due`. |
| TickFacts.RunFilesBatch | keeper-bot/src/tick.ts:156-239 | Whatever the network answers, running a batch puts each of its jobs in exactly one of executed, skipped, unprofitable, failed, dry run. |
| TickFacts.RunAllFiles | keeper-bot/src/tick.ts:240 | The same over all batches of a tick. |
| TickFacts.RunSends | keeper-bot/src/tick.ts:210-231 | The batches sent for one batch are made of its jobs, none twice. |
| TickFacts.RunTriesFew | keeper-bot/src/tick.ts:168-176 | Isolating bad jobs among n takes at most 2n - 1 attempts. |
| TickFacts.DryRunTouchesNothing | keeper-bot/src/tick.ts:204-208 | A dry run sends nothing and restores nothing. |
| TickOutcomes.TickOutcome | keeper-bot/src/tick.ts:200-239 | For any network, a tick's executed jobs are, in order, those that would run of the submissions that got through (at once, or at the second sending after a stale sequence number and a new simulation), its failed jobs those of the other submissions, its earnings the fees of the executed ones; each submission was simulated before, not in a dry run, and worth its cost; each job given up as unprofitable would not have been, alone among the jobs of a simulated batch to run. |
| TickOutcomes.RunDecides | keeper-bot/src/tick.ts:171-239 | The same for one batch, after anything else that happened in the tick. |
| TickOutcomes.AllOrNothing | keeper-bot/src/tick.ts:219-239 | When every sending succeeds nothing fails; when every one fails nothing is executed or earned. |
| TickOutcomes.RestoredIff | keeper-bot/src/tick.ts:136-152 | Archived state is restored exactly when the simulation asks for it at a price within the limit, outside a dry run; the summary counts that restore and its fee. |
| TickOutcomes.RestoresAreAffordable | keeper-bot/src/tick.ts:136-152 | The restores of a batch cost together at most the limit for each. |
| TickOutcomes.SharedFailureBlamesNobody | keeper-bot/src/tick.ts:104-108 | A registry or network error blames no job and splits no batch: all are skipped after one attempt. |
| TickOutcomes.LoneJobIsBlamed | keeper-bot/src/tick.ts:177-186 | A job-specific failure of a batch of one sets that job aside. |
| TickModel.RunIsolatesPoison | keeper-bot/src/tick.ts:171-187 | When preparing fails job-specifically exactly for batches with a poisoned job: exactly the poisoned jobs of a batch are set aside. |
| TickModel.RunAllIsolatesPoison | keeper-bot/src/tick.ts:154-240 | The same for all batches of a tick. |
| TickModel.RunSkipsIdle | keeper-bot/src/tick.ts:171-190 | Under a fixed simulation rule, exactly the poisoned jobs and those that would not run are skipped: a bad job holds up nobody. |
| TickProfit.UnprofitableMeansAloneIff | keeper-bot/src/tick.ts:192-208 | In a tick only jobs that do not pay alone are given up as unprofitable, if and only if each poison-free piece with a single runnable job pays whenever that job alone would. |
| TickProfit.PaysIff | keeper-bot/src/tick.ts:191-199 | Paying for itself means earnings less cost of at least the minimum profit, or a cost within the limit per job when fees are in another token. |
| TickProfit.BatchIsFairIff | keeper-bot/src/tick.ts:192-208 | The same for one batch after any earlier ones; idle neighbours matter only in the first poison-free piece, as later halves hold runnable jobs only. |
| TickProfit.NeverDropsPayingIff | keeper-bot/src/tick.ts:192-208 | No tick ever gives up a paying job under a cost rule, exactly when simulating idle jobs beside a paying one never makes it too expensive. |
| TickProfit.PayingJobCanBeDropped | keeper-bot/src/tick.ts:192-208 | A concrete cost rule and batch under which `runBatch` ends a job as unprofitable that would pay for itself alone. |
| KeeperTick.TickCovers | keeper-bot/src/tick.ts:108-242 | Over a whole tick every due job is sitting out or filed exactly once, and what is sent is made of due jobs. |
| KeeperTick.SentBatchesShareNoJob | keeper-bot/src/tick.ts:210-231 | With distinct ids, two transactions of one tick share no job. |
| KeeperTick.QuarantineHoldsPoisonedJobs | keeper-bot/src/tick.ts:178-187 | After a tick the quarantine holds who still sat out and, of the due jobs, exactly the poisoned ones. |
| KeeperTick.Keeper.Prepare | keeper-bot/src/tick.ts:133-152 | Simulation with at most one restore within the limit, as specified; summary and pass stay in step. |
| KeeperTick.Keeper.RunBatch | keeper-bot/src/tick.ts:163-187 | The recursive splitter does what `TickSpec.RunBatch` says, with the shared counters equal to the bucket sizes. |
| KeeperTick.Keeper.FinishBatch | keeper-bot/src/tick.ts:188-231 | The decision after simulation: nothing to run, too costly (halves or given up), dry run, or sent. |
| KeeperTick.Keeper.Send | keeper-bot/src/tick.ts:210-231 | Sending with one fresh attempt on a stale sequence number. When the network accepts, the runnable jobs count as executed and their fees as earned; otherwise they count as failed. |
| KeeperTick.Keeper.Cut | keeper-bot/src/tick.ts:153-154 | Cutting the due jobs gives consecutive batches of at most `batchSize`. |
| KeeperTick.Keeper.Tick | keeper-bot/src/tick.ts:108-242 | One pass: due = executed + skipped + unprofitable + failed + dryRun, each due job in one bucket, sent jobs are due jobs, quarantine advanced and extended exactly by the jobs set aside; executed, failed and earned are what the answers to the submissions say. |
| Quarantines.Quarantine.Next | keeper-bot/src/quarantine.ts:24-27 | Advances one tick and releases exactly the entries whose time is up, by deleting while looping. |
| Quarantines.Quarantine.Add | keeper-bot/src/quarantine.ts:33-35 | Sets a job aside for `length` ticks. |
| Quarantines.SitsOutItsLength | keeper-bot/src/quarantine.ts:14-35 | A job set aside sits out exactly until `length` further ticks have started. |
| Batches.ChunksPartition | keeper-rs/src/registry.rs:150-152 | Chunks are full but for a last one that is not empty, and put together are the input in order. |
| Batches.FilterSplits | keeper-bot/src/tick.ts:188-189 | Filtering by flags puts every job on exactly one side. |
| Batches.ChosenIff | keeper-bot/src/tick.ts:187-188 | Of distinct jobs exactly those flagged are chosen, a missing flag counting as false. |
| Batches.BatchesOfDistinctJobsAreDisjoint | keeper-bot/src/tick.ts:108-242 | Batches drawn from distinct jobs share none. |
| WorkQueue.DrainAccounts | keeper-rs/src/main.rs:95-147 | For any sequence of outcomes the queue empties and every queued job ends in exactly one of executed, skipped, unprofitable, failed. |
| WorkQueue.DrainSpends | keeper-rs/src/main.rs:95-147 | At most 2n - 1 `execute_batch` calls are made for the pieces of any one batch of n jobs. |
| WorkQueue.RoundSpends | keeper-rs/src/main.rs:95-147 | Every round uses up part of that budget: a call never costs more than it takes off the queue, and the remaining budget strictly falls. |
| WorkQueue.RoundAccounts | keeper-rs/src/main.rs:98-146 | One round neither loses nor duplicates a job. |
| WorkQueue.DrainIsolatesPoison | keeper-rs/src/main.rs:99-112 | When failures blame a job exactly for batches with a poisoned one, exactly the poisoned jobs are set aside. |
| WorkQueue.RanFlagsChooseTheSame | keeper-rs/src/registry.rs:162-174 | Padding or cutting the returned flags to the batch's length does not change which jobs count as run. |
| QueueOutcomes.OutcomeIff | keeper-rs/src/registry.rs:307-361 | Each outcome of `execute_batch` exactly when it happens: executed when worth its cost and sent through, would run in a dry run, unprofitable when not worth it, failed without an answer, a readable fee or a transaction that applies, job problem, skipped; with the jobs flagged to run and the sum of their fees. |
| QueueOutcomes.DrainDecides | keeper-rs/src/main.rs:95-147 | Over the whole loop, for any replies: executed jobs, earnings, transactions and failed jobs are exactly those of the attempts made. |
| QueueOutcomes.NothingGetsThrough | keeper-rs/src/registry.rs:355-360 | When nothing gets through nothing is sent or earned, and outside a dry run nothing executed. |
| QueueOutcomes.NothingFails | keeper-rs/src/registry.rs:307-361 | When the network stands in nobody's way nothing fails. |
| RustTick.TickCovers | keeper-rs/src/main.rs:72-149 | From the batches of a tick the loop ends, files every job once and keeps each batch within its budget. |
| RustTick.QuarantineHoldsPoisonedJobs | keeper-rs/src/main.rs:103-112 | After a tick the quarantine holds who still sat out and, of the jobs tried, exactly the poisoned ones. |
| RustTick.DueAreDistinct | keeper-rs/src/main.rs:82-88 | The jobs asked about one by one are distinct. |
| RustTick.DueIff | keeper-rs/src/main.rs:81-88 | A job is collected exactly when the registry calls it due. |
| RustTick.ExecuteBatch | keeper-rs/src/registry.rs:307-361 | The decisions of `execute_batch`: registry errors skip, other simulation errors and foreign authorization blame a job, fees against cost, dry run, sending. |
| RustTick.SumFees | keeper-rs/src/registry.rs:341-344 | The accumulated fee is the sum over the jobs that would run, or an error when one cannot be read. |
| RustTick.CollectDue | keeper-rs/src/main.rs:81-88 | The job loop collects exactly the due jobs and fails when any answer is missing. |
| RustTick.FileOutcome | keeper-rs/src/main.rs:98-146 | What each outcome adds to the summary, puts back into the queue and sets aside. |
| RustTick.RunQueue | keeper-rs/src/main.rs:94-147 | The deque loop, with pieces pushed to front or back, ends in the drained work; summary and quarantine follow from it. |
| RustTick.Tick | keeper-rs/src/main.rs:72-149 | One pass: due = executed + skipped + unprofitable + failed, each due id in exactly one outcome, and executed, failed, sent and earned are what the attempts brought. |
| Timelocks.EveryHistoryIsHonest | contracts/examples/timelock/src/lib.rs:78-160 | Over any history the queue is strictly increasing and holds exactly the ids with a stored call; each id executed at most once, only in [eta, eta + grace), with eta at least `delay` after queueing. |
| Timelocks.RunClearsQueue | contracts/examples/timelock/src/lib.rs:127-160 | After a walk that did not hit its limit, what is still queued is exactly what was not due or whose call failed within its grace period. |
| Timelocks.WalkEffect | contracts/examples/timelock/src/lib.rs:127-160 | Walking a snapshot while the queue is edited treats every id by its own stored call, once. |
| Timelocks.RunExecutesReady | contracts/examples/timelock/src/lib.rs:125-160 | A run executes exactly the first ten, in queue order, of the calls that are due, within their grace period and whose target succeeds, each at this time. |
| Timelocks.RunExecutesExactly | contracts/examples/timelock/src/lib.rs:125-160 | A run that stays below its limit executes an id if and only if it is queued, due, within its grace period and its target succeeds. |
| Timelocks.EveryCallIsAccountedFor | contracts/examples/timelock/src/lib.rs:78-160 | Over any history every id that was ever queued is still stored, or was cancelled by the admin, or expired, or was executed. |
| Timelocks.StepLosesNoCall | contracts/examples/timelock/src/lib.rs:90-160 | The same for one transaction. |
| Timelocks.StepHandsOut | contracts/examples/timelock/src/lib.rs:90-117 | A call is queued exactly when the admin asks and its eta respects the delay; it gets the next id and is stored as asked. |
| Timelocks.StepKeeps | contracts/examples/timelock/src/lib.rs:90-160 | Queueing, cancelling and executing keep the queue tidy and the record of executions honest. |
| Timelocks.RemovalKeepsOrder | contracts/examples/timelock/src/lib.rs:193-200 | Removing the first occurrence from an increasing queue removes exactly that id. |
| Timelocks.TimelockContract.QueueCall | contracts/examples/timelock/src/lib.rs:90-117 | Admin only, eta at least the delay ahead, next id appended. |
| Timelocks.TimelockContract.RemoveId | contracts/examples/timelock/src/lib.rs:193-200 | Cuts the id out of the stored queue and drops its call; tells whether it was there. |
| Timelocks.TimelockContract.CancelCall | contracts/examples/timelock/src/lib.rs:120-123 | Admin only; an unknown id is an error. |
| Timelocks.TimelockContract.VisitCall | contracts/examples/timelock/src/lib.rs:134-157 | One step of the walk: a call runs exactly when it is due, within its grace period and succeeds, and is then recorded and counted; only a call that ran or expired leaves storage. |
| Timelocks.TimelockContract.ExecuteReady | contracts/examples/timelock/src/lib.rs:127-160 | The loop over the snapshot executes exactly the first ten ready calls in queue order and returns their number. |
| Amounts.FormatThenParse | packages/sdk/src/schedule.ts:64-80 | parseAmount(formatAmount(x, d), d) = x for every x >= 0 and every number of decimals d >= 0. |
| Amounts.ParseThenFormat | packages/sdk/src/schedule.ts:64-80 | Printing a parsed text gives its canonical form: no needless leading zero, no trailing zero after the point, no needless point. |
| Amounts.MatchIsRegex | packages/sdk/src/schedule.ts:75-76 | The matcher accepts exactly the texts the regular expression describes, with the same groups. |
| Amounts.NegativeIsRejected | packages/sdk/src/schedule.ts:64-76 | A printed negative amount is not accepted back. |
| Amounts.DecimalOfValue | packages/sdk/src/schedule.ts:68-70 | Printing a digit string's number gives the string without leading zeros. |
| SdkSchedule.SdkFeeAgainstRegistry | packages/sdk/src/schedule.ts:111-119 | The SDK never names more than the registry pays, and exactly that unless span * lateness overflows i128 while the balance covers more than the exact ramp. |
| SdkSchedule.SdkFeeCanFallShort | packages/sdk/src/schedule.ts:104-119 | A job for which it names less, although documented as mirroring the registry. |
| SdkSchedule.StatusMirrorsRegistry | packages/sdk/src/schedule.ts:18-31 | Each status names exactly the registry's answer to a keeper; `due` exactly when `ensure_due` passes. |
| SdkSchedule.RemainingRunsAreCovered | packages/sdk/src/schedule.ts:33-44 | n more runs remain exactly when their deposit is held and the run limit leaves room. |
| Channels.EveryInterleavingIsSound | keeper-bot/src/channels.ts:34-54 | In every interleaving of starting, finishing and throwing tasks each channel is free or held by exactly one task, and nobody waits beside a free channel. |
| Channels.FirstComeFirstServed | keeper-bot/src/channels.ts:44-54 | The k-th task that had to wait is the k-th of them to be served. |
| Channels.LongestWaiterIsNext | keeper-bot/src/channels.ts:50-54 | A task that ends hands its own channel to the task that has waited longest. |
| Channels.ChannelPool.Acquire | keeper-bot/src/channels.ts:44-48 | Pops a free channel or joins the line. |
| Channels.ChannelPool.Release | keeper-bot/src/channels.ts:50-54 | Hands the channel to the first waiter or pushes it back. |

## Left out

- Token supply: balances are integers without bound and a transfer never overflows the receiver; what the registry holds bounds every stored amount (`Solvency.EachClaimIsHeld`).
- Schedules.NextRunAfter: does not model the overflow of `elapsed / interval + 1`, which needs an interval of 1, a due time of 0 and a time of u64::MAX.
- `set_min_interval`, `set_max_args` and `set_max_failures` are part of the specification (`Switches.SettingsAsAsked`) and of every history, but have no method of their own, because they are single writes.
- The two-step admin handover: the admin of a deployment is fixed; handing it over changes who may call, not what the calls do.
- Views (`get_jobs`, `jobs_by_owner`, `keeper_stats`, `current_fee`, ...), except where a proved property is about what they read.
- Events that neither the job index nor the missed-window count reads, and the result hash in `JobExecuted`.
- Storage lifetimes and archival, except the lemma on forgotten window timestamps.
- Installing new WASM, and what happens after it.
- Token movements made by a job's target during a run: they appear as separate transfers of a history.
- MissedWindows.MissMeansWholeWindow: says that k's own call would have reached the target only for states in which the executor was connected already, because `set_executor` restarts no window.
- JobIndexing.IndexAgreesForever: refetches answer as of their own event; what a sync over a longer backlog leaves is `SyncBalances.SyncFindsExactly`.
- KeeperIndex.JobIndex.Load: takes snapshot and event position together; the source asks for them one after the other.
- KeeperIndex.JobIndex.Sync: every refetch of one sync is answered from the same state; `LateRefetches.LateRefetchesAreSound` covers answers from any moments in between.
- KeeperIndex.JobIndex.Due: jobs due at the same time come in any order.
- RegistryContract.Registry.ApplyUpgrade: installing the new code is left out.
- KeeperTick.Keeper.RunBatches: runs batches one after the other; the source runs them side by side. Every network answer and fee bid may differ from call to call, and counters change only between calls, so other batches act like a changing network.
- KeeperTick.Keeper.Tick: the quarantine is always present, as in the keeper's main loop; the due jobs are a parameter, and where they come from is `KeeperIndex.JobIndex.Poll`.
- RustTick.Tick: fees are integers without bound.
- Fee bidding strategy, channel retry helper, RPC, XDR, signing and transaction assembly: the network's answers stand for them.
- Channels.ChannelPool: a task's own work is not modelled, only when it starts and ends.
- `formatDuration`, `describeSchedule`, top-up planning: formatting and single branches.
- The other example contracts, the executor, the TTL guardian, the app, the React package, the command line, alerts and metrics.
