/** Runs of the registry: every sequence of transactions at non-decreasing times. */
module Histories {
  import opened Basics
  import opened Types
  import opened Schedules
  import opened RegistrySpec
  import opened Footprints
  import opened Bookkeeping
  import opened JobFacts
  import opened Solvency

  /** A transaction, when it ran, and the storage it left. The first moment is the deployment. */
  datatype Moment = Moment(at: u64, op: Option<Op>, after: Storage)

  ghost predicate IsHistory(h: seq<Moment>) {
    && h != []
    && h[0].op.None? && Deployed(h[0].after)
    && forall i :: 0 < i < |h| ==>
                     && h[i].op.Some?
                     && h[i - 1].at <= h[i].at
                     && h[i].after == After(h[i - 1].after, h[i].at, h[i].op.value)
  }

  lemma {:induction false} TimeOrder(h: seq<Moment>, i: nat, j: nat)
    requires IsHistory(h) && i <= j < |h|
    ensures h[i].at <= h[j].at
    decreases j - i
  {
    hide After, Deployed;
    if i < j {
      TimeOrder(h, i, j - 1);
    }
  }

  lemma MomentFacts(h: seq<Moment>, n: nat)
    requires 0 < n < |h| && IsHistory(h)
    ensures h[n].op.Some? && h[n].after == After(h[n - 1].after, h[n].at, h[n].op.value)
  {
    hide After, Deployed;
  }

  // ------------------------------------------------------------------ settings

  ghost predicate ConfigSound(config: Config) {
    0 <= config.minStake && config.gracePeriod <= MAX_GRACE_PERIOD && config.unbondingEpoch <= MAX_UNBONDING_EPOCH
  }

  /** A pending upgrade waits at least as long as today's settings ask for. */
  predicate UpgradeSound(upgrades: UpgradeBook, config: Config) {
    upgrades.pending.Some? ==>
      Sat64(upgrades.pending.value.proposedAt + UpgradeDelay(upgrades, config)) <= upgrades.pending.value.availableAt
  }

  lemma StepKeepsConfig(s: Storage, now: u64, op: Op)
    requires ConfigSound(s.config)
    ensures ConfigSound(After(s, now, op).config)
  {
    hide After;
    PartiesUntouched(s, now, op);
    if op.Admin? {
      AdminKeepsConfig(s, now, op.caller, op.call);
    }
  }

  lemma AdminKeepsConfig(s: Storage, now: u64, caller: Address, call: AdminCall)
    requires ConfigSound(s.config)
    ensures ConfigSound(After(s, now, Admin(caller, call)).config)
  {
    hide NewWindows, NewUpgrades;
  }

  /** No interleaving of epoch and delay changes lets a pending upgrade undercut the unbonding time. */
  lemma NewUpgradesSound(upgrades: UpgradeBook, config: Config, now: u64, call: AdminCall)
    requires NewConfig(config, call).Ok? && UpgradeSound(upgrades, config)
    requires NewUpgrades(upgrades, NewConfig(config, call).value, now, call).Ok?
    ensures UpgradeSound(NewUpgrades(upgrades, NewConfig(config, call).value, now, call).value,
                         NewConfig(config, call).value)
  {
    match call
    case SetUnbondingEpoch(_) =>
    case SetUpgradeDelay(_) =>
    case ProposeUpgrade(_) =>
    case ApplyUpgrade =>
    case CancelUpgrade =>
    case _ =>
      assert MinUpgradeDelay(NewConfig(config, call).value) == MinUpgradeDelay(config);
  }

  lemma StepKeepsUpgradeSound(s: Storage, now: u64, op: Op)
    requires UpgradeSound(s.upgrades, s.config)
    ensures UpgradeSound(After(s, now, op).upgrades, After(s, now, op).config)
  {
    hide UpgradeSound, After;
    PartiesUntouched(s, now, op);
    if op.Admin? {
      AdminKeepsUpgradeSound(s, now, op.caller, op.call);
    }
  }

  lemma AdminKeepsUpgradeSound(s: Storage, now: u64, caller: Address, call: AdminCall)
    requires UpgradeSound(s.upgrades, s.config)
    ensures var s' := After(s, now, Admin(caller, call)); UpgradeSound(s'.upgrades, s'.config)
  {
    hide UpgradeSound, NewConfig, NewUpgrades, NewWindows;
    if Administer(s, now, caller, call).Ok? {
      NewUpgradesSound(s.upgrades, s.config, now, call);
    }
  }

  // ------------------------------------------------------------------ every reachable state

  ghost predicate Sound(s: Storage) {
    && Indexed(s.jobs) && JobsSound(s.jobs)
    && RotationSound(s.staff) && MissesSound(s.staff)
    && Solvent(s)
    && ConfigSound(s.config) && UpgradeSound(s.upgrades, s.config)
  }

  lemma DeployedIsSound(s: Storage)
    requires Deployed(s)
    ensures Sound(s)
  {
    assert forall o: Address :: OwnerJobs(s.jobs, o) == [];
    assert Balances(s.jobs) == map[] && Stakes(s.staff) == map[];
  }

  lemma StepKeepsSound(s: Storage, now: u64, op: Op)
    requires Sound(s)
    ensures Sound(After(s, now, op))
  {
    hide After, Indexed, JobsSound, RotationSound, MissesSound, Solvent, ConfigSound, UpgradeSound;
    StepKeepsIndex(s, now, op);
    StepKeepsJobsSound(s, now, op);
    StepKeepsRotation(s, now, op);
    StepKeepsMissesSound(s, now, op);
    StepKeepsSolvent(s, now, op);
    StepKeepsConfig(s, now, op);
    StepKeepsUpgradeSound(s, now, op);
  }

  /** Every state any history reaches is sound. */
  lemma {:induction false} ReachableIsSound(h: seq<Moment>, n: nat)
    requires IsHistory(h) && n < |h|
    ensures Sound(h[n].after)
  {
    hide Sound, After, Deployed;
    if n == 0 {
      DeployedIsSound(h[0].after);
    } else {
      ReachableIsSound(h, n - 1);
      StepKeepsSound(h[n - 1].after, h[n].at, h[n].op.value);
    }
  }

  /** The registry's address, tokens and digest never change; a connected executor is never replaced. */
  lemma {:induction false} PartiesForever(h: seq<Moment>, i: nat, j: nat)
    requires IsHistory(h) && i <= j < |h|
    ensures SameParties(h[i].after.config, h[j].after.config)
    ensures h[j].after.contract == h[i].after.contract && h[j].after.digest == h[i].after.digest
    decreases j - i
  {
    hide After, Deployed;
    if i < j {
      PartiesForever(h, i, j - 1);
      PartiesUntouched(h[j - 1].after, h[j].at, h[j].op.value);
    }
  }

  /** Over any history, a token's surplus is what the registry started with plus every windfall. */
  ghost function Windfalls(h: seq<Moment>, n: nat, token: Address): int
    requires IsHistory(h) && n < |h|
  {
    if n == 0 then 0
    else Windfalls(h, n - 1, token) + Windfall(h[n - 1].after, h[n].at, h[n].op.value, token)
  }

  lemma {:induction false} MoneyConservedForever(h: seq<Moment>, n: nat, token: Address)
    requires IsHistory(h) && n < |h|
    ensures Surplus(h[n].after, token) == Surplus(h[0].after, token) + Windfalls(h, n, token)
    ensures 0 <= Windfalls(h, n, token)
  {
    hide After, Deployed, Surplus, Windfall, Indexed, JobsSound, RotationSound, MissesSound, Solvent, ConfigSound,
      UpgradeSound;
    if n > 0 {
      MoneyConservedForever(h, n - 1, token);
      ReachableIsSound(h, n - 1);
      MoneyConserved(h[n - 1].after, h[n].at, h[n].op.value, token);
    }
  }
}
