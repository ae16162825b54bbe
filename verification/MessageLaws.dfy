/** The gatekeeper's messages: which settlements keep the slash predictions exact. */
module MessageLaws {
  import opened Base
  import opened Sums
  import opened Pool
  import opened Vault
  import opened RewardLaws
  import opened Mining
  import opened Chain
  import opened ExpiryLaws
  import opened ChainLaws
  import opened WorkerLaws

  /** A message changes nothing but the state and the V of miners that are not cooling down. */
  ghost predicate OnlyMiners(m: Mines, m': Mines) {
    && m' == m.(miners := m'.miners) && m'.miners.Keys == m.miners.Keys
    && (forall mi :: mi in m.miners ==> m'.miners[mi].ve == m.miners[mi].ve)
    && (forall mi :: mi in m.miners ==> (m'.miners[mi].state.Ready? <==> m.miners[mi].state.Ready?))
    && (forall mi :: mi in m.miners ==> (AtWork(m'.miners[mi]) <==> AtWork(m.miners[mi])))
  }

  lemma OnlyMinersTransitive(l: Mines, m: Mines, n: Mines)
    requires OnlyMiners(l, m) && OnlyMiners(m, n)
    ensures OnlyMiners(l, n)
  {
  }

  lemma OnlyMinersKeep(m: Mines, m': Mines, pools: set<Pid>)
    requires MinesOk(m, pools) && OnlyMiners(m, m')
    ensures MinesOk(m', pools)
  {
    assert Working(m') == Working(m);
    hide Working;
  }

  // ---------------------------------------------------------------- reports

  lemma ReportedOnlyMiners(m: Mines, worker: Worker, state: MinerState)
    requires state.CanSettle()
    ensures OnlyMiners(m, Reported(m, worker, state)) && SameReleasing(m, Reported(m, worker, state))
  {
    hide GiveBack;
  }

  lemma {:induction false} ReportsKeep(m: Mines, workers: seq<Worker>, state: MinerState)
    requires state.CanSettle()
    ensures OnlyMiners(m, AllReported(m, workers, state)) && SameReleasing(m, AllReported(m, workers, state))
    decreases |workers|
  {
    if workers == [] {
      hide ReleasingIn;
    } else {
      hide Reported, ReleasingIn, OnlyMiners;
      ReportedOnlyMiners(m, workers[0], state);
      ReportsKeep(Reported(m, workers[0], state), workers[1..], state);
      OnlyMinersTransitive(m, Reported(m, workers[0], state), AllReported(m, workers, state));
    }
  }

  // ---------------------------------------------------------------- settlements

  /** A settlement meets no cooling miner. */
  predicate Settleable(m: Mines, info: SettleInfo) {
    info.pubkey in m.workerBindings && m.workerBindings[info.pubkey] in m.miners ==>
      !m.miners[m.workerBindings[info.pubkey]].state.MiningCoolingDown?
  }

  lemma SettledOnlyMiners(m: Mines, info: SettleInfo, now: nat)
    ensures OnlyMiners(m, Settled(m, info, now))
  {
  }

  lemma SettledSameReleasing(m: Mines, info: SettleInfo, now: nat)
    requires Settleable(m, info)
    ensures SameReleasing(m, Settled(m, info, now))
  {
    hide GiveBack;
  }

  /** What the miner of a settlement will give back with the V the settlement brings. */
  function Resettled(m: Mines, info: SettleInfo): nat
    requires info.pubkey in m.workerBindings && m.workerBindings[info.pubkey] in m.miners
  {
    var miner := m.workerBindings[info.pubkey];
    GiveBack(m.miners[miner].(v := info.v), Get(m.stakes, miner))
  }

  /** A settlement that meets a cooling miner moves its pool's expectation with what the miner gives back. */
  lemma ResettledSum(m: Mines, info: SettleInfo, now: nat, pid: Pid)
    requires !Settleable(m, info)
    ensures var miner := m.workerBindings[info.pubkey];
      Sum(ReleasingIn(Settled(m, info, now), pid)) == Sum(ReleasingIn(m, pid)) +
      if pid == miner.pid then Resettled(m, info) - Expected(m, miner) else 0
  {
    hide GiveBack;
    var miner, m' := m.workerBindings[info.pubkey], Settled(m, info, now);
    ReleasingChanged(m, m', miner, m'.miners[miner], pid);
    SettledGivesBack(m, info, now, pid);
  }

  /**
    The predictions survive a settlement if and only if it meets no cooling miner, or brings
    one a V with which it still returns what was predicted when it stopped.
  */
  lemma SettlementKeepsPrediction(v: Store, m: Mines, info: SettleInfo, now: nat)
    requires ReleasingOk(v, m) && MinesOk(m, v.pools.Keys)
    ensures ReleasingOk(v, Settled(m, info, now)) <==>
      (Settleable(m, info) || Resettled(m, info) == Expected(m, m.workerBindings[info.pubkey]))
  {
    hide ReleasingIn, GiveBack, MinesOk, Settled, Expected, Resettled;
    if Settleable(m, info) {
      SettledSameReleasing(m, info, now);
    } else {
      CoolingHasPool(m, v.pools.Keys, m.workerBindings[info.pubkey]);
      forall p {
        ResettledSum(m, info, now, p);
      }
    }
  }

  lemma CoolingHasPool(m: Mines, pools: set<Pid>, miner: Miner)
    requires MinesOk(m, pools) && miner in m.miners
    ensures miner.pid in pools
  {
  }

  lemma SettledGivesBack(m: Mines, info: SettleInfo, now: nat, pid: Pid)
    requires !Settleable(m, info)
    ensures var miner, m' := m.workerBindings[info.pubkey], Settled(m, info, now);
      && GiveBack(m'.miners[miner], Get(m'.stakes, miner)) == Resettled(m, info)
      && (pid == miner.pid ==> At(ReleasingIn(m, pid), miner) == Expected(m, miner))
  {
  }

  ghost predicate AllSettleable(m: Mines, settle: seq<SettleInfo>) {
    forall info :: info in settle ==> Settleable(m, info)
  }

  lemma StillSettleable(m: Mines, m': Mines, settle: seq<SettleInfo>)
    requires AllSettleable(m, settle) && OnlyMiners(m, m')
    ensures AllSettleable(m', settle)
  {
    forall info | info in settle ensures Settleable(m', info) {
      assert Settleable(m, info);
    }
  }

  lemma {:induction false} SettlementsKeep(m: Mines, settle: seq<SettleInfo>, now: nat)
    requires AllSettleable(m, settle)
    ensures OnlyMiners(m, AllSettled(m, settle, now)) && SameReleasing(m, AllSettled(m, settle, now))
    decreases |settle|
  {
    if settle == [] {
      hide ReleasingIn;
    } else {
      var m1 := Settled(m, settle[0], now);
      assert Settleable(m, settle[0]);
      SettledOnlyMiners(m, settle[0], now);
      SettledSameReleasing(m, settle[0], now);
      StillSettleable(m, m1, settle[1..]);
      hide Settled, ReleasingIn, OnlyMiners;
      SettlementsKeep(m1, settle[1..], now);
      OnlyMinersTransitive(m, m1, AllSettled(m, settle, now));
    }
  }

  // ---------------------------------------------------------------- a message

  function AfterMessage(c: State, offline: seq<Worker>, recovered: seq<Worker>, settle: seq<SettleInfo>): Mines {
    AllSettled(AllReported(AllReported(c.m, offline, MiningUnresponsive), recovered, MiningIdle), settle, c.now)
  }

  lemma MessageKeepsMines(c: State, offline: seq<Worker>, recovered: seq<Worker>, settle: seq<SettleInfo>)
    requires AllSettleable(c.m, settle)
    ensures var m' := AfterMessage(c, offline, recovered, settle); OnlyMiners(c.m, m') && SameReleasing(c.m, m')
  {
    hide AllReported, AllSettled, OnlyMiners, ReleasingIn, AllSettleable;
    var m1 := AllReported(c.m, offline, MiningUnresponsive);
    var m2 := AllReported(m1, recovered, MiningIdle);
    ReportsKeep(c.m, offline, MiningUnresponsive);
    ReportsKeep(m1, recovered, MiningIdle);
    OnlyMinersTransitive(c.m, m1, m2);
    StillSettleable(c.m, m2, settle);
    SettlementsKeep(m2, settle, c.now);
    OnlyMinersTransitive(c.m, m2, AfterMessage(c, offline, recovered, settle));
  }

  lemma MinersKeep(c: State, m': Mines)
    requires Inv(c) && OnlyMiners(c.m, m') && SameReleasing(c.m, m')
    ensures Inv(c.(m := m'))
  {
    hide *;
    var c' := c.(m := m');
    InvParts(c);
    OnlyMinersKeep(c.m, m', c.v.pools.Keys);
    OnlyMinersFrame(c.m, m');
    SameReleasingOk(c.v, c.m, m');
    BindingsFrame(c, c');
    StakedMapSame(c, c');
    InvUnfolds(c');
  }

  lemma OnlyMinersFrame(m: Mines, m': Mines)
    requires OnlyMiners(m, m')
    ensures m'.minerBindings == m.minerBindings && m'.workerBindings == m.workerBindings && m'.stakes == m.stakes
    ensures m.miners.Keys <= m'.miners.Keys
  {
  }

  lemma SameReleasingOk(v: Store, m: Mines, m': Mines)
    requires ReleasingOk(v, m) && SameReleasing(m, m')
    ensures ReleasingOk(v, m')
  {
    hide ReleasingIn;
  }

  lemma CreditsSkeleton(v: Store, v': Store, now: nat, last: nat)
    requires OnlyCredits(v, v') && Indexed(v, now, last)
    ensures SameSkeleton(v, v') && Indexed(v', now, last)
  {
    assert forall p :: p in v.pools ==> OnlyRewards(v.pools[p], v'.pools[p]);
    forall p, r | p in v'.pools && r in v'.pools[p].withdrawQueue ensures Listed(v', p, r.startTime, last) {
      assert Listed(v, p, r.startTime, last);
    }
  }

  lemma AssignedPools(c: State)
    requires AssignedAsBound(c)
    ensures forall w :: w in c.v.assignments ==> c.v.assignments[w] in c.v.pools
  {
  }

  /** A message without settlements for cooling miners never panics and keeps the invariant. */
  lemma MessageKeeps(c: State, offline: seq<Worker>, recovered: seq<Worker>, settle: seq<SettleInfo>, permill: Permill)
    requires Inv(c) && AllSettleable(c.m, settle)
    ensures var r := GatekeeperMessage(c, offline, recovered, settle, permill); r.Ok? && Inv(r.value)
  {
    hide *;
    InvParts(c);
    AssignedPools(c);
    var m' := AfterMessage(c, offline, recovered, settle);
    OnRewardKeeps(c.v, settle, permill, StakedMap(c));
    var v' := OnReward(c.v, settle, permill).value;
    CreditsSkeleton(c.v, v', c.now, c.lastFinalized);
    VaultStepKeeps(c, v');
    MessageKeepsMines(c, offline, recovered, settle);
    MinersKeep(c.(v := v'), m');
    MessageIs(c, offline, recovered, settle, permill);
  }

  lemma MessageIs(c: State, offline: seq<Worker>, recovered: seq<Worker>, settle: seq<SettleInfo>, permill: Permill)
    requires OnReward(c.v, settle, permill).Ok?
    ensures GatekeeperMessage(c, offline, recovered, settle, permill) ==
      Ok(c.(v := OnReward(c.v, settle, permill).value).(m := AfterMessage(c, offline, recovered, settle)))
  {
    hide OnReward, AllReported, AllSettled;
  }
}
