/** A pending upgrade waits until everyone who reacted to it could leave. */
module UpgradeTimelock {
  import opened Basics
  import opened Types
  import opened Schedules
  import opened RegistrySpec
  import opened Footprints
  import opened Histories

  /** The same proposal is pending in every state from `i` to `j`. */
  ghost predicate Stands(h: seq<Moment>, i: nat, j: nat)
    requires i <= j < |h|
  {
    && (forall m :: i <= m <= j ==> h[m].after.upgrades.pending.Some?)
    && (forall m :: i < m <= j ==> h[m].op.Some? && !Proposes(h[m].op.value))
  }

  predicate Proposes(op: Op) {
    op.Admin? && op.call.ProposeUpgrade?
  }

  /** Whatever is called, a standing proposal keeps its announcement time and never comes earlier. */
  lemma NeverEarlier(s: Storage, now: u64, op: Op)
    requires !Proposes(op)
    requires s.upgrades.pending.Some? && After(s, now, op).upgrades.pending.Some?
    ensures var p, p' := s.upgrades.pending.value, After(s, now, op).upgrades.pending.value;
            && p'.proposedAt == p.proposedAt && p'.wasmHash == p.wasmHash && p.availableAt <= p'.availableAt
  {
    if op.Admin? {
      AdminNeverEarlier(s, now, op.caller, op.call);
    } else {
      hide After;
      PartiesUntouched(s, now, op);
    }
  }

  lemma AdminNeverEarlier(s: Storage, now: u64, caller: Address, call: AdminCall)
    requires !call.ProposeUpgrade?
    requires s.upgrades.pending.Some? && After(s, now, Admin(caller, call)).upgrades.pending.Some?
    ensures var p, p' := s.upgrades.pending.value, After(s, now, Admin(caller, call)).upgrades.pending.value;
            && p'.proposedAt == p.proposedAt && p'.wasmHash == p.wasmHash && p.availableAt <= p'.availableAt
  {
    hide NewConfig, NewWindows, UpgradeDelay, MinUpgradeDelay;
  }

  lemma {:induction false} StandingNeverEarlier(h: seq<Moment>, i: nat, j: nat)
    requires IsHistory(h) && i <= j < |h| && Stands(h, i, j)
    ensures var p, p' := h[i].after.upgrades.pending.value, h[j].after.upgrades.pending.value;
            && p'.proposedAt == p.proposedAt && p.availableAt <= p'.availableAt
    decreases j - i
  {
    hide After, Deployed;
    if i < j {
      StandingNeverEarlier(h, i, j - 1);
      NeverEarlier(h[j - 1].after, h[j].at, h[j].op.value);
    }
  }

  /** The wait that a state's settings ask of an upgrade: the delay set, or the longest unbonding if that is longer. */
  function Wait(s: Storage): nat {
    Max(s.upgrades.delay, Min(U64_MAX, s.config.unbondingPeriod + s.config.unbondingEpoch))
  }

  /** The longest wait asked for in the states from `i` to `j`. */
  ghost function LongestWait(h: seq<Moment>, i: nat, j: nat): nat
    requires i <= j < |h|
    decreases j - i
  {
    if i == j then Wait(h[i].after) else Max(LongestWait(h, i, j - 1), Wait(h[j].after))
  }

  lemma StandingWaits(s: Storage, now: u64, op: Op)
    requires !Proposes(op) && UpgradeSound(s.upgrades, s.config)
    requires s.upgrades.pending.Some? && After(s, now, op).upgrades.pending.Some?
    ensures var p, s' := s.upgrades.pending.value, After(s, now, op);
            s'.upgrades.pending.value
            == p.(availableAt := Max(p.availableAt, Min(U64_MAX, p.proposedAt + Wait(s'))))
  {
    if op.Admin? {
      AdminStandingWaits(s, now, op.caller, op.call);
    } else {
      hide After;
      PartiesUntouched(s, now, op);
    }
  }

  lemma AdminStandingWaits(s: Storage, now: u64, caller: Address, call: AdminCall)
    requires !call.ProposeUpgrade? && UpgradeSound(s.upgrades, s.config)
    requires s.upgrades.pending.Some? && After(s, now, Admin(caller, call)).upgrades.pending.Some?
    ensures var p, s' := s.upgrades.pending.value, After(s, now, Admin(caller, call));
            s'.upgrades.pending.value
            == p.(availableAt := Max(p.availableAt, Min(U64_MAX, p.proposedAt + Wait(s'))))
  {
    hide Administer, NewConfig, NewUpgrades, NewWindows, SameParties;
    if Administer(s, now, caller, call).Ok? {
      AdministerEffect(s, now, caller, call);
      NewUpgradesWait(s.upgrades, s.config, now, call);
    }
  }

  lemma NewUpgradesWait(upgrades: UpgradeBook, config: Config, now: u64, call: AdminCall)
    requires !call.ProposeUpgrade? && upgrades.pending.Some? && UpgradeSound(upgrades, config)
    requires NewConfig(config, call).Ok?
    requires var r := NewUpgrades(upgrades, NewConfig(config, call).value, now, call); r.Ok? && r.value.pending.Some?
    ensures var p, config' := upgrades.pending.value, NewConfig(config, call).value;
            var upgrades' := NewUpgrades(upgrades, config', now, call).value;
            upgrades'.pending.value
            == p.(availableAt := Max(p.availableAt,
                                     Min(U64_MAX, p.proposedAt + UpgradeDelay(upgrades', config'))))
  {
    match call
    case SetUnbondingEpoch(_) =>
    case SetUpgradeDelay(_) =>
    case ApplyUpgrade =>
    case CancelUpgrade =>
    case ProposeUpgrade(_) =>
    case _ => assert MinUpgradeDelay(NewConfig(config, call).value) == MinUpgradeDelay(config);
  }

  /**
   * A standing proposal is available exactly at its announcement plus the
   * longest wait that the settings asked for since, never sooner and never
   * later.
   */
  lemma {:induction false} AvailableAfterTheLongestWait(h: seq<Moment>, i: nat, j: nat, caller: Address, hash: int)
    requires 0 < i <= j < |h| && Stands(h, i, j) && h[i].op == Some(Admin(caller, ProposeUpgrade(hash)))
    requires Administer(h[i - 1].after, h[i].at, caller, ProposeUpgrade(hash)).Ok?
    requires IsHistory(h)
    ensures h[j].after.upgrades.pending.value
         == PendingUpgrade(hash, h[i].at, Min(U64_MAX, h[i].at + LongestWait(h, i, j)))
    decreases j - i
  {
    hide IsHistory, After, Administer, Wait, Sound;
    MomentFacts(h, j);
    if i == j {
      ProposalStored(h[i - 1].after, h[i].at, caller, hash);
    } else {
      AvailableAfterTheLongestWait(h, i, j - 1, caller, hash);
      ReachableIsSound(h, j - 1);
      UpgradeSoundOf(h[j - 1].after);
      StandingWaits(h[j - 1].after, h[j].at, h[j].op.value);
    }
  }

  lemma UpgradeSoundOf(s: Storage)
    requires Sound(s)
    ensures UpgradeSound(s.upgrades, s.config)
  {
  }

  lemma ProposalStored(s: Storage, now: u64, caller: Address, hash: int)
    requires Administer(s, now, caller, ProposeUpgrade(hash)).Ok?
    ensures var s' := After(s, now, Admin(caller, ProposeUpgrade(hash)));
            s'.upgrades.pending == Some(PendingUpgrade(hash, now, Min(U64_MAX, now + Wait(s'))))
  {
    hide NewWindows;
  }

  /** A proposal was announced in the past. */
  lemma {:induction false} ProposedInThePast(h: seq<Moment>, n: nat)
    requires IsHistory(h) && n < |h| && h[n].after.upgrades.pending.Some?
    ensures h[n].after.upgrades.pending.value.proposedAt <= h[n].at
  {
    if n == 0 {
    } else {
      hide After, Deployed;
      var s, now, op := h[n - 1].after, h[n].at, h[n].op.value;
      if Proposes(op) {
        ProposalIsNow(s, now, op.caller, op.call);
        if s.upgrades.pending.Some? {
          ProposedInThePast(h, n - 1);
        }
      } else {
        PendingBefore(s, now, op);
        ProposedInThePast(h, n - 1);
        NeverEarlier(s, now, op);
      }
    }
  }

  lemma ProposalIsNow(s: Storage, now: u64, caller: Address, call: AdminCall)
    requires call.ProposeUpgrade?
    ensures var s' := After(s, now, Admin(caller, call));
            s'.upgrades == s.upgrades || (s'.upgrades.pending.Some? && s'.upgrades.pending.value.proposedAt == now)
  {
    hide NewWindows, UpgradeDelay;
  }

  lemma PendingBefore(s: Storage, now: u64, op: Op)
    requires !Proposes(op) && After(s, now, op).upgrades.pending.Some?
    ensures s.upgrades.pending.Some?
  {
    if op.Admin? {
      hide NewConfig, NewWindows, UpgradeDelay;
      assert After(s, now, op).upgrades == s.upgrades || NewConfig(s.config, op.call).Ok?;
    } else {
      hide After;
      PartiesUntouched(s, now, op);
    }
  }

  /**
   * A keeper that starts unbonding at `t`, after an upgrade was announced at
   * `p`, can withdraw at the latest `t - p` seconds after the upgrade becomes
   * available; a keeper that reacts at once is always out first.
   */
  lemma UnbondingBeatsUpgrade(s: Storage, t: u64, keeper: Address)
    requires UpgradeSound(s.upgrades, s.config) && s.upgrades.pending.Some?
    requires s.upgrades.pending.value.proposedAt <= t
    requires BeginUnbonding(s, t, keeper).Ok?
    ensures var p := s.upgrades.pending.value;
            var info := BeginUnbonding(s, t, keeper).value.staff.keepers[keeper];
            info.unbondingAt.Some? && info.unbondingAt.value <= p.availableAt + (t - p.proposedAt)
  {
    ReleaseWithinEpochAndPeriod(t, s.config.unbondingPeriod, s.config.unbondingEpoch);
    hide UnbondingRelease;
  }

  /** The bound holds against the proposal's release time at any later moment it still stands. */
  lemma EveryoneCanLeaveFirst(h: seq<Moment>, i: nat, j: nat, keeper: Address)
    requires IsHistory(h) && 0 < i <= j < |h| && Stands(h, i, j)
    requires h[i].op == Some(Unbond(keeper)) && BeginUnbonding(h[i - 1].after, h[i].at, keeper).Ok?
    ensures var p := h[j].after.upgrades.pending.value;
            && keeper in h[i].after.staff.keepers
            && h[i].after.staff.keepers[keeper].unbondingAt.Some?
            && h[i].after.staff.keepers[keeper].unbondingAt.value <= p.availableAt + (h[i].at - p.proposedAt)
  {
    var s, t := h[i - 1].after, h[i].at;
    assert h[i].after == BeginUnbonding(s, t, keeper).value;
    PartiesUntouched(s, t, Unbond(keeper));
    hide After, Deployed, UnbondingRelease, UpgradeSound;
    ReachableIsSound(h, i - 1);
    ProposedInThePast(h, i - 1);
    StandingNeverEarlier(h, i, j);
    UnbondingBeatsUpgrade(s, t, keeper);
  }

  /** New code never runs before a keeper that began unbonding the moment it was announced could withdraw. */
  lemma AppliedOnlyAfterLeaving(h: seq<Moment>, i: nat, j: nat, keeper: Address, caller: Address)
    requires IsHistory(h) && 0 < i < j < |h| && Stands(h, i, j - 1)
    requires h[i].op == Some(Unbond(keeper)) && BeginUnbonding(h[i - 1].after, h[i].at, keeper).Ok?
    requires h[i].after.upgrades.pending.value.proposedAt == h[i].at
    requires h[j].op == Some(Admin(caller, ApplyUpgrade)) && Step(h[j - 1].after, h[j].at, h[j].op.value).Ok?
    ensures keeper in h[i].after.staff.keepers && h[i].after.staff.keepers[keeper].unbondingAt.Some?
    ensures h[i].after.staff.keepers[keeper].unbondingAt.value <= h[j].at
  {
    hide IsHistory, Step, UnbondingRelease;
    ApplyWaits(h[j - 1].after, h[j].at, caller);
    EveryoneCanLeaveFirst(h, i, j - 1, keeper);
    StandingNeverEarlier(h, i, j - 1);
  }

  lemma ApplyWaits(s: Storage, now: u64, caller: Address)
    requires Step(s, now, Admin(caller, ApplyUpgrade)).Ok?
    ensures s.upgrades.pending.Some? && s.upgrades.pending.value.availableAt <= now
  {
    hide NewWindows;
  }

  // ------------------------------------------------------------------ keepers that were leaving already

  /** When the unbonding period of a keeper that starts at `t` begins, without any limit. */
  function EpochEnd(t: u64, epoch: u64): int {
    if epoch == 0 then t else (t / epoch + 1) * epoch
  }

  lemma ReleaseFromEpochEnd(t: u64, period: u64, epoch: u64)
    ensures UnbondingRelease(t, period, epoch) == Min(U64_MAX, EpochEnd(t, epoch) + period)
    ensures t <= EpochEnd(t, epoch) <= t + epoch
  {
    if epoch != 0 {
      assert t == t / epoch * epoch + t % epoch;
      assert (t / epoch + 1) * epoch == t / epoch * epoch + epoch;
      if U64_MAX < t / epoch + 1 {
        assert epoch == 1;
      }
    }
  }

  /** What an accepted proposal announces. */
  lemma ProposalAnnounces(s: Storage, now: u64, caller: Address, hash: int)
    requires Administer(s, now, caller, ProposeUpgrade(hash)).Ok?
    ensures Administer(s, now, caller, ProposeUpgrade(hash)).value
         == s.(upgrades := s.upgrades.(pending :=
                 Some(PendingUpgrade(hash, now, Sat64(now + UpgradeDelay(s.upgrades, s.config))))))
  {
    hide UpgradeDelay;
  }

  /**
   * A keeper that began unbonding before an upgrade was announced is out in
   * time exactly when the end of the epoch it joined, plus the unbonding
   * period, is not after the announcement plus the delay then in force.
   */
  lemma EarlierUnbonderIsOutFirstIff(h: seq<Moment>, i: nat, j: nat, keeper: Address, caller: Address, hash: int)
    requires 0 < i < j < |h| && IsHistory(h)
    requires h[i].op == Some(Unbond(keeper)) && BeginUnbonding(h[i - 1].after, h[i].at, keeper).Ok?
    requires h[j].op == Some(Admin(caller, ProposeUpgrade(hash)))
    requires Administer(h[j - 1].after, h[j].at, caller, ProposeUpgrade(hash)).Ok?
    ensures keeper in h[i].after.staff.keepers && h[i].after.staff.keepers[keeper].unbondingAt.Some?
    ensures h[j].after.upgrades.pending.Some?
    ensures var out := h[i].after.staff.keepers[keeper].unbondingAt.value;
            var ready := h[j].after.upgrades.pending.value.availableAt;
            var joined, announced := h[i - 1].after.config, h[j - 1].after;
            out <= ready <==>
              (ready == U64_MAX
               || EpochEnd(h[i].at, joined.unbondingEpoch) + joined.unbondingPeriod
                  <= h[j].at + UpgradeDelay(announced.upgrades, announced.config))
  {
    assert h[i].after == BeginUnbonding(h[i - 1].after, h[i].at, keeper).value;
    assert h[j].after == Administer(h[j - 1].after, h[j].at, caller, ProposeUpgrade(hash)).value;
    hide IsHistory, Administer, UpgradeDelay, UnbondingRelease, EpochEnd;
    ReleaseFromEpochEnd(h[i].at, h[i - 1].after.config.unbondingPeriod, h[i - 1].after.config.unbondingEpoch);
    ProposalAnnounces(h[j - 1].after, h[j].at, caller, hash);
  }

  /** It is always so when the epoch was not shortened in between. */
  lemma SameEpochIsOutFirst(t: u64, now: u64, period: u64, epoch: u64, epoch': u64, delay: u64)
    requires t <= now && epoch <= epoch' && Sat64(period + epoch') <= delay
    ensures UnbondingRelease(t, period, epoch) <= Sat64(now + delay)
  {
    ReleaseFromEpochEnd(t, period, epoch);
    hide UnbondingRelease, EpochEnd;
  }

  /**
   * It fails when the admin removes a 30-day epoch right after a keeper
   * joined it: new code can run a month before that keeper is released.
   */
  lemma EarlierUnbonderCanBeLate(s: Storage, keeper: Address, hash: int)
    requires s.config.unbondingEpoch == MAX_UNBONDING_EPOCH && s.upgrades == UpgradeBook(0, None)
    requires s.config.unbondingPeriod <= U32_MAX && s.config.admin != s.contract && keeper != s.contract
    requires keeper in s.staff.keepers && s.staff.keepers[keeper].unbondingAt.None?
    ensures var t := MAX_UNBONDING_EPOCH;
            var leaving := After(s, t, Unbond(keeper));
            var shortened := After(leaving, t, Admin(s.config.admin, SetUnbondingEpoch(0)));
            var announced := After(shortened, t, Admin(s.config.admin, ProposeUpgrade(hash)));
            && keeper in leaving.staff.keepers && leaving.staff.keepers[keeper].unbondingAt.Some?
            && announced.upgrades.pending.Some?
            && var ready := announced.upgrades.pending.value.availableAt;
               && ready + MAX_UNBONDING_EPOCH == leaving.staff.keepers[keeper].unbondingAt.value
               && Step(announced, ready, Admin(s.config.admin, ApplyUpgrade)).Ok?
  {
    var t := MAX_UNBONDING_EPOCH;
    var leaving := After(s, t, Unbond(keeper));
    assert leaving.config == s.config && leaving.upgrades == s.upgrades && leaving.contract == s.contract;
  }
}
