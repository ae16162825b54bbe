/** The invariant of the two pallets together, and what each step that touches miners keeps. */
module ChainLaws {
  import opened Base
  import opened Sums
  import opened Pool
  import opened PoolLaws
  import opened Vault
  import opened VaultLaws
  import opened Mining
  import opened Chain
  import opened ExpiryLaws

  // ---------------------------------------------------------------- the invariant

  /** Miner and worker bindings are inverse, and every bound miner has a record. */
  ghost predicate BoundBothWays(m: Mines) {
    && (forall mi :: mi in m.minerBindings ==> m.minerBindings[mi] == mi.worker && mi in m.miners)
    && (forall mi :: mi in m.minerBindings ==> mi.worker in m.workerBindings && m.workerBindings[mi.worker] == mi)
    && (forall w :: w in m.workerBindings ==> m.workerBindings[w].worker == w && m.workerBindings[w] in m.minerBindings)
  }

  /** A worker is assigned to a pool exactly while it is bound to that pool's sub-account. */
  ghost predicate AssignedAsBound(c: State) {
    && (forall w :: w in c.v.assignments <==> w in c.m.workerBindings)
    && (forall w :: w in c.v.assignments ==> c.v.assignments[w] == c.m.workerBindings[w].pid)
    && (forall w :: w in c.v.assignments ==> c.v.assignments[w] in c.v.pools && w in c.registry)
  }

  /** The worker lists of the pools are the assignments. */
  ghost predicate ListedAsAssigned(v: Store) {
    forall pid, w :: pid in v.pools ==> (w in v.pools[pid].workers <==> w in v.assignments && v.assignments[w] == pid)
  }

  ghost predicate BindingsOk(c: State) {
    BoundBothWays(c.m) && AssignedAsBound(c) && ListedAsAssigned(c.v)
  }

  /** A bound miner has a record, and its worker is assigned to the miner's pool, registered and listed. */
  lemma BoundMiner(c: State, miner: Miner)
    requires BindingsOk(c) && miner in c.m.minerBindings
    ensures c.m.minerBindings[miner] == miner.worker && miner in c.m.miners
    ensures miner.worker in c.v.assignments && c.v.assignments[miner.worker] == miner.pid
    ensures miner.pid in c.v.pools && miner.worker in c.registry && miner.worker in c.v.pools[miner.pid].workers
  {
  }

  predicate AtWork(info: MinerInfo) { info.state.CanSettle() }

  ghost function Working(m: Mines): set<Miner> {
    set mi | mi in m.miners && AtWork(m.miners[mi])
  }

  /** Stakes are held for the miners at work and cooling down, and only miners at work are online. */
  ghost predicate MinesOk(m: Mines, pools: set<Pid>) {
    && (forall mi :: mi in m.miners ==> mi.pid in pools)
    && (forall mi :: mi in m.stakes <==> mi in m.miners && !m.miners[mi].state.Ready?)
    && (forall mi :: mi in m.stakes ==> Nondust(m.stakes[mi]) && m.miners[mi].ve > 0)
    && (forall mi :: mi in m.miners && AtWork(m.miners[mi]) ==> mi in m.minerBindings)
    && m.onlineMiners == |Working(m)|
  }

  ghost function StakesIn(stakes: map<Miner, nat>, pid: Pid): map<Miner, int> {
    map mi | mi in stakes && mi.pid == pid :: stakes[mi]
  }

  /** What the miners of a pool hold, at work or cooling down. */
  ghost function Staked(m: Mines, pid: Pid): nat {
    SumNonNegative(StakesIn(m.stakes, pid));
    Sum(StakesIn(m.stakes, pid))
  }

  ghost function StakedMap(c: State): map<Pid, nat> {
    map pid | pid in c.v.pools :: Staked(c.m, pid)
  }

  function GiveBack(info: MinerInfo, stake: nat): nat {
    if info.ve > 0 then Returned(info, stake) else 0
  }

  ghost function ReleasingIn(m: Mines, pid: Pid): map<Miner, int> {
    map mi | mi in m.miners && mi.pid == pid && m.miners[mi].state.MiningCoolingDown? ::
      GiveBack(m.miners[mi], Get(m.stakes, mi))
  }

  /** What a pool expects back is exactly what its cooling miners will return. */
  ghost predicate ReleasingOk(v: Store, m: Mines) {
    forall pid :: pid in v.pools ==> v.pools[pid].releasingStake == Sum(ReleasingIn(m, pid))
  }

  predicate AuditsOk(v: Store) {
    forall pid :: pid in v.audits ==> pid in v.pools
  }

  ghost predicate Inv(c: State) {
    && BindingsOk(c)
    && MinesOk(c.m, c.v.pools.Keys)
    && ReleasingOk(c.v, c.m)
    && Sound(c.v, StakedMap(c))
    && Indexed(c.v, c.now, c.lastFinalized)
    && AuditsOk(c.v)
  }

  lemma GenesisOk(now: nat)
    ensures Inv(Genesis(now))
  {
    var c := Genesis(now);
    assert Working(c.m) == {};
    assert forall who :: LockedBy(c.v.stakers, who) == map[];
  }

  // ---------------------------------------------------------------- steps of the stake pool alone

  /** What a call may change in a pool without the miners noticing. */
  ghost predicate SameSkeleton(v: Store, v': Store) {
    && v'.pools.Keys == v.pools.Keys && v'.assignments == v.assignments
    && (forall p :: p in v.pools ==> v'.pools[p].workers == v.pools[p].workers)
    && (forall p :: p in v.pools ==> v'.pools[p].releasingStake == v.pools[p].releasingStake)
    && (forall p :: p in v'.audits ==> p in v.audits || p in v.pools)
  }

  lemma BoundFrame(m: Mines, m': Mines)
    requires BoundBothWays(m)
    requires m'.minerBindings == m.minerBindings && m'.workerBindings == m.workerBindings
    requires m.miners.Keys <= m'.miners.Keys
    ensures BoundBothWays(m')
  {
  }

  lemma AssignedFrame(c: State, c': State)
    requires AssignedAsBound(c)
    requires c'.v.assignments == c.v.assignments && c'.m.workerBindings == c.m.workerBindings
    requires c.v.pools.Keys <= c'.v.pools.Keys && c.registry.Keys <= c'.registry.Keys
    ensures AssignedAsBound(c')
  {
  }

  lemma SavePoolListed(v: Store, pid: Pid, pool: PoolInfo)
    requires ListedAsAssigned(v) && pid in v.pools && pool.workers == v.pools[pid].workers
    ensures ListedAsAssigned(SavePool(v, pid, pool))
  {
  }

  lemma SavePoolIndexed(v: Store, pid: Pid, pool: PoolInfo, now: nat, last: nat)
    requires Indexed(v, now, last) && pid in v.pools && pool.withdrawQueue == v.pools[pid].withdrawQueue
    ensures Indexed(SavePool(v, pid, pool), now, last)
  {
    var v' := SavePool(v, pid, pool);
    assert forall p :: p in v.pools ==> v'.pools[p].withdrawQueue == v.pools[p].withdrawQueue;
    forall p, r | p in v'.pools && r in v'.pools[p].withdrawQueue ensures Listed(v', p, r.startTime, last) {
      assert Listed(v, p, r.startTime, last);
    }
  }

  lemma SavePoolKeys(v: Store, pid: Pid, pool: PoolInfo)
    requires pid in v.pools
    ensures var v' := SavePool(v, pid, pool);
      && v'.pools.Keys == v.pools.Keys && v'.assignments == v.assignments && v'.audits == v.audits
      && (AuditsOk(v) ==> AuditsOk(v'))
  {
  }

  /** A step that binds and assigns nothing keeps the bindings. */
  lemma BindingsFrame(c: State, c': State)
    requires BindingsOk(c) && ListedAsAssigned(c'.v)
    requires c'.m.minerBindings == c.m.minerBindings && c'.m.workerBindings == c.m.workerBindings
    requires c.m.miners.Keys <= c'.m.miners.Keys
    requires c'.v.assignments == c.v.assignments && c'.v.pools.Keys == c.v.pools.Keys
    requires c.registry.Keys <= c'.registry.Keys
    ensures BindingsOk(c')
  {
    hide *;
    BindingsUnfold(c);
    BoundFrame(c.m, c'.m);
    AssignedFrame(c, c');
    BindingsUnfold(c');
  }

  lemma InvParts(c: State)
    requires Inv(c)
    ensures BindingsOk(c) && MinesOk(c.m, c.v.pools.Keys) && ReleasingOk(c.v, c.m)
    ensures Sound(c.v, StakedMap(c)) && Indexed(c.v, c.now, c.lastFinalized) && AuditsOk(c.v)
    ensures BoundBothWays(c.m) && AssignedAsBound(c) && ListedAsAssigned(c.v)
  {
    hide *;
    InvUnfolds(c);
    BindingsUnfold(c);
  }

  lemma InvUnfolds(c: State)
    ensures Inv(c) <==>
      && BindingsOk(c) && MinesOk(c.m, c.v.pools.Keys) && ReleasingOk(c.v, c.m)
      && Sound(c.v, StakedMap(c)) && Indexed(c.v, c.now, c.lastFinalized) && AuditsOk(c.v)
  {
    hide BindingsOk, MinesOk, ReleasingOk, Sound, Indexed, AuditsOk, StakedMap;
  }

  lemma BindingsUnfold(c: State)
    ensures BindingsOk(c) <==> BoundBothWays(c.m) && AssignedAsBound(c) && ListedAsAssigned(c.v)
  {
    hide BoundBothWays, AssignedAsBound, ListedAsAssigned;
  }

  lemma SkeletonParts(v: Store, v': Store, m: Mines)
    requires SameSkeleton(v, v')
    ensures v'.pools.Keys == v.pools.Keys && v'.assignments == v.assignments
    ensures ListedAsAssigned(v) ==> ListedAsAssigned(v')
    ensures ReleasingOk(v, m) ==> ReleasingOk(v', m)
    ensures AuditsOk(v) ==> AuditsOk(v')
  {
    hide ReleasingIn;
  }

  lemma StakedMapSame(c: State, c': State)
    requires c'.v.pools.Keys == c.v.pools.Keys && c'.m.stakes == c.m.stakes
    ensures StakedMap(c') == StakedMap(c)
  {
    hide StakesIn;
  }

  lemma VaultStepKeeps(c: State, v': Store)
    requires Inv(c) && SameSkeleton(c.v, v')
    requires Sound(v', StakedMap(c)) && Indexed(v', c.now, c.lastFinalized)
    ensures Inv(c.(v := v'))
  {
    hide *;
    var c' := c.(v := v');
    InvParts(c);
    SkeletonParts(c.v, v', c.m);
    BindingsFrame(c, c');
    StakedMapSame(c, c');
    InvUnfolds(c');
  }

  lemma OnlyPoolSkeleton(v: Store, v': Store, pid: Pid)
    requires OnlyPool(v, v', pid) && pid in v.pools
    ensures SameSkeleton(v, v')
  {
    assert SameTerms(v.pools[pid], v'.pools[pid]);
  }

  // ---------------------------------------------------------------- sums over miners

  lemma StakeAdded(m: Mines, miner: Miner, stake: nat, pid: Pid)
    requires miner !in m.stakes
    ensures Staked(m.(stakes := m.stakes[miner := stake]), pid) ==
            Staked(m, pid) + if pid == miner.pid then stake else 0
  {
    var old', new' := StakesIn(m.stakes, pid), StakesIn(m.stakes[miner := stake], pid);
    if pid == miner.pid {
      assert new' == old'[miner := stake];
      SumUpdate(old', miner, stake);
    } else {
      assert new' == old';
    }
  }

  lemma StakeTaken(m: Mines, miner: Miner, pid: Pid)
    ensures Staked(m.(stakes := m.stakes - {miner}), pid) ==
            Staked(m, pid) - if pid == miner.pid then Get(m.stakes, miner) else 0
  {
    var old', new' := StakesIn(m.stakes, pid), StakesIn(m.stakes - {miner}, pid);
    if pid == miner.pid {
      assert new' == old' - {miner};
      SumDrop(old', miner);
    } else {
      assert new' == old';
    }
  }

  /** With one miner's record changed and every other stake in place, only its own term moves. */
  lemma ReleasingChanged(m: Mines, m': Mines, miner: Miner, info: MinerInfo, pid: Pid)
    requires m'.miners == m.miners[miner := info]
    requires forall mi :: mi != miner ==> Get(m'.stakes, mi) == Get(m.stakes, mi)
    ensures Sum(ReleasingIn(m', pid)) == Sum(ReleasingIn(m, pid)) +
            if pid != miner.pid then 0 else
              (if info.state.MiningCoolingDown? then GiveBack(info, Get(m'.stakes, miner)) else 0)
              - At(ReleasingIn(m, pid), miner)
  {
    hide GiveBack;
    var old', new' := ReleasingIn(m, pid), ReleasingIn(m', pid);
    if pid != miner.pid {
      assert new' == old';
    } else {
      ReleasingHere(m, m', miner, info);
      hide ReleasingIn;
      if info.state.MiningCoolingDown? {
        SumUpdate(old', miner, GiveBack(info, Get(m'.stakes, miner)));
      } else {
        SumDrop(old', miner);
      }
    }
  }

  lemma ReleasingHere(m: Mines, m': Mines, miner: Miner, info: MinerInfo)
    requires m'.miners == m.miners[miner := info]
    requires forall mi :: mi != miner ==> Get(m'.stakes, mi) == Get(m.stakes, mi)
    ensures ReleasingIn(m', miner.pid) ==
      if info.state.MiningCoolingDown?
      then ReleasingIn(m, miner.pid)[miner := GiveBack(info, Get(m'.stakes, miner))]
      else ReleasingIn(m, miner.pid) - {miner}
  {
    hide GiveBack, Get;
  }

  /** What a miner is expected to give back to its pool. */
  function Expected(m: Mines, miner: Miner): nat {
    if miner in m.miners && m.miners[miner].state.MiningCoolingDown?
    then GiveBack(m.miners[miner], Get(m.stakes, miner)) else 0
  }

  lemma RecordKeepsReleasing(v: Store, pool: PoolInfo, m: Mines, m': Mines, miner: Miner)
    requires ReleasingOk(v, m) && miner in m'.miners && m'.miners == m.miners[miner := m'.miners[miner]]
    requires forall mi :: mi != miner ==> Get(m'.stakes, mi) == Get(m.stakes, mi)
    requires miner.pid in v.pools
    requires pool.releasingStake == v.pools[miner.pid].releasingStake + Expected(m', miner) - Expected(m, miner)
    ensures ReleasingOk(SavePool(v, miner.pid, pool), m')
  {
    hide GiveBack;
    forall p | p in SavePool(v, miner.pid, pool).pools
      ensures SavePool(v, miner.pid, pool).pools[p].releasingStake == Sum(ReleasingIn(m', p))
    {
      ReleasingChanged(m, m', miner, m'.miners[miner], p);
    }
  }

  lemma WorkingChanged(m: Mines, m': Mines, miner: Miner, info: MinerInfo)
    requires m'.miners == m.miners[miner := info]
    ensures |Working(m')| == |Working(m)| + (if AtWork(info) then 1 else 0)
                             - (if miner in m.miners && AtWork(m.miners[miner]) then 1 else 0)
  {
    if AtWork(info) {
      assert Working(m') == Working(m) + {miner};
    } else {
      assert Working(m') == Working(m) - {miner};
    }
  }

  /** Changing one miner's record keeps the mines consistent if the new record does. */
  lemma RecordKeepsMines(m: Mines, m': Mines, pools: set<Pid>, miner: Miner, info: MinerInfo)
    requires MinesOk(m, pools) && m'.miners == m.miners[miner := info] && miner.pid in pools
    requires m'.minerBindings == m.minerBindings
    requires m'.stakes == m.stakes && (miner in m.stakes <==> !info.state.Ready?)
    requires miner in m.stakes ==> info.ve > 0
    requires AtWork(info) ==> miner in m.minerBindings
    requires m'.onlineMiners == |Working(m')|
    ensures MinesOk(m', pools)
  {
    hide Working;
  }

  lemma StakedSolid(m: Mines, pid: Pid, pools: set<Pid>)
    requires MinesOk(m, pools)
    ensures Solid(Staked(m, pid))
  {
    var s := StakesIn(m.stakes, pid);
    if s != map[] {
      var mi :| mi in s;
      EntryAtMostSum(s, mi);
    }
  }

  /** A step that changes one miner's record and what its pool expects or lends keeps the invariant. */
  lemma PoolAndMinerKeep(c: State, m': Mines, miner: Miner, pool: PoolInfo)
    requires Inv(c) && miner.pid in c.v.pools && miner in m'.miners
    requires m'.miners == c.m.miners[miner := m'.miners[miner]]
    requires MinesOk(m', c.v.pools.Keys)
    requires m'.minerBindings == c.m.minerBindings && m'.workerBindings == c.m.workerBindings
    requires forall mi :: mi != miner ==> Get(m'.stakes, mi) == Get(c.m.stakes, mi)
    requires pool.workers == c.v.pools[miner.pid].workers
    requires pool.withdrawQueue == c.v.pools[miner.pid].withdrawQueue
    requires pool.releasingStake == c.v.pools[miner.pid].releasingStake + Expected(m', miner) - Expected(c.m, miner)
    requires var c' := c.(m := m', v := SavePool(c.v, miner.pid, pool)); Sound(c'.v, StakedMap(c'))
    ensures Inv(c.(m := m', v := SavePool(c.v, miner.pid, pool)))
  {
    hide *;
    var c' := c.(m := m', v := SavePool(c.v, miner.pid, pool));
    InvParts(c);
    SavePoolKeys(c.v, miner.pid, pool);
    SavePoolListed(c.v, miner.pid, pool);
    SavePoolIndexed(c.v, miner.pid, pool, c.now, c.lastFinalized);
    RecordKeepsReleasing(c.v, pool, c.m, m', miner);
    BindingsFrame(c, c');
    InvUnfolds(c');
  }
}
