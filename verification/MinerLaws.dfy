/** The steps that change a miner keep the invariant and, from it, never panic. */
module MinerLaws {
  import opened Base
  import opened FixedPoint
  import opened Sums
  import opened Pool
  import opened PoolLaws
  import opened Vault
  import opened VaultLaws
  import opened QueueLaws
  import opened ReclaimLaws
  import opened Mining
  import opened Chain
  import opened ExpiryLaws
  import opened ChainLaws

  // ---------------------------------------------------------------- stopping

  /** The mines with a miner stopped, if there is such a miner. */
  function StoppedMines(m: Mines, miner: Miner, now: nat): Mines {
    if miner !in m.miners || m.onlineMiners == 0 then m
    else
      m.(miners := m.miners[miner := m.miners[miner].(state := MiningCoolingDown, coolDownStart := now)],
         onlineMiners := m.onlineMiners - 1)
  }

  function Expecting(pool: PoolInfo, amount: nat): PoolInfo {
    pool.(releasingStake := pool.releasingStake + amount)
  }

  function StoppedState(c: State, miner: Miner): State {
    var m := StoppedMines(c.m, miner, c.now);
    if miner.pid !in c.v.pools then c.(m := m)
    else c.(m := m, v := SavePool(c.v, miner.pid, Expecting(c.v.pools[miner.pid], Expected(m, miner))))
  }

  lemma StopMinerEffects(m: Mines, pools: set<Pid>, miner: Miner, now: nat)
    requires BoundBothWays(m) && MinesOk(m, pools)
    requires miner in m.minerBindings && AtWork(m.miners[miner])
    ensures miner in m.stakes && Expected(StoppedMines(m, miner, now), miner) <= m.stakes[miner]
    ensures StopMiner(m, miner, now) == Ok(Stop(StoppedMines(m, miner, now), miner.worker, m.stakes[miner],
                                                m.stakes[miner] - Expected(StoppedMines(m, miner, now), miner)))
  {
    assert miner in Working(m);
    assert miner in m.stakes && m.miners[miner].ve > 0;
    ReturnedAtMost(StoppedMines(m, miner, now).miners[miner], m.stakes[miner]);
    hide Returned, BoundBothWays, MinesOk, Working;
  }

  lemma IdleCannotStop(c: State, miner: Miner)
    requires miner in c.m.minerBindings && miner in c.m.miners ==> !AtWork(c.m.miners[miner])
    ensures StopMining(c, miner) ==
            if miner !in c.m.minerBindings then Err(MinerNotBound)
            else if miner !in c.m.miners then Err(MinerNotFound)
            else Err(MinerNotMining)
  {
  }

  lemma StopPoolEffects(c: State, miner: Miner, stop: Stop, back: nat)
    requires StopMiner(c.m, miner, c.now) == Ok(stop) && stop.slashed + back == stop.orig
    requires stop.worker in c.v.assignments && c.v.assignments[stop.worker] == miner.pid && miner.pid in c.v.pools
    ensures StopMining(c, miner) ==
            Ok(c.(m := stop.mines, v := SavePool(c.v, miner.pid, Expecting(c.v.pools[miner.pid], back))))
  {
    hide StopMiner;
  }

  /** Stopping succeeds exactly on the bound miners at work, and never panics. */
  lemma StopEffects(c: State, miner: Miner)
    requires BindingsOk(c) && MinesOk(c.m, c.v.pools.Keys)
    ensures StopMining(c, miner) ==
            if miner !in c.m.minerBindings then Err(MinerNotBound)
            else if miner !in c.m.miners then Err(MinerNotFound)
            else if !AtWork(c.m.miners[miner]) then Err(MinerNotMining)
            else Ok(StoppedState(c, miner))
    ensures miner in c.m.minerBindings ==> miner.pid in c.v.pools
  {
    hide *;
    BindingsUnfold(c);
    if miner in c.m.minerBindings {
      BoundMiner(c, miner);
    }
    if miner in c.m.minerBindings && AtWork(c.m.miners[miner]) {
      StopMinerEffects(c.m, c.v.pools.Keys, miner, c.now);
      var stop := StopMiner(c.m, miner, c.now).value;
      var back := Expected(StoppedMines(c.m, miner, c.now), miner);
      StopPoolEffects(c, miner, stop, back);
      StoppedStateDef(c, miner);
    } else {
      IdleCannotStop(c, miner);
    }
  }

  lemma StoppedStateDef(c: State, miner: Miner)
    requires miner.pid in c.v.pools
    ensures var m' := StoppedMines(c.m, miner, c.now);
      StoppedState(c, miner) ==
      c.(m := m', v := SavePool(c.v, miner.pid, Expecting(c.v.pools[miner.pid], Expected(m', miner))))
  {
    hide SavePool, Expecting, Expected, StoppedMines;
  }

  lemma StoppedMinesOk(m: Mines, pools: set<Pid>, miner: Miner, now: nat)
    requires MinesOk(m, pools) && miner in m.miners && AtWork(m.miners[miner])
    ensures MinesOk(StoppedMines(m, miner, now), pools) && m.onlineMiners > 0
  {
    assert miner in Working(m);
    var m' := StoppedMines(m, miner, now);
    WorkingChanged(m, m', miner, m'.miners[miner]);
    assert miner in m.stakes && m.miners[miner].ve > 0 && m'.onlineMiners == |Working(m')|;
    hide MinesOk, Working;
    RecordKeepsMines(m, m', pools, miner, m'.miners[miner]);
  }

  /** Stopping a miner keeps the invariant: what the pool now expects is what the miner will return. */
  lemma StopKeeps(c: State, miner: Miner)
    requires Inv(c) && StopMining(c, miner).Ok?
    ensures Inv(StopMining(c, miner).value)
  {
    hide *;
    InvParts(c);
    StopEffects(c, miner);
    StoppedMinesOk(c.m, c.v.pools.Keys, miner, c.now);
    StoppedStateIs(c, miner);
    var c' := StoppedState(c, miner);
    var pool := Expecting(c.v.pools[miner.pid], Expected(c'.m, miner));
    SaveTermsKeepsSound(c.v, miner.pid, pool, StakedMap(c));
    SavePoolKeys(c.v, miner.pid, pool);
    StakedMapSame(c, c');
    PoolAndMinerKeep(c, c'.m, miner, pool);
  }

  lemma StoppedStateIs(c: State, miner: Miner)
    requires miner.pid in c.v.pools && miner in c.m.miners && AtWork(c.m.miners[miner]) && c.m.onlineMiners > 0
    ensures var m' := StoppedMines(c.m, miner, c.now);
      var pool := Expecting(c.v.pools[miner.pid], Expected(m', miner));
      && StoppedState(c, miner) == c.(m := m', v := SavePool(c.v, miner.pid, pool))
      && SameMoney(c.v.pools[miner.pid], pool) && pool.workers == c.v.pools[miner.pid].workers
      && pool.withdrawQueue == c.v.pools[miner.pid].withdrawQueue
      && pool.releasingStake == c.v.pools[miner.pid].releasingStake + Expected(m', miner) - Expected(c.m, miner)
      && miner in m'.miners && m'.miners == c.m.miners[miner := m'.miners[miner]]
      && m'.minerBindings == c.m.minerBindings && m'.workerBindings == c.m.workerBindings && m'.stakes == c.m.stakes
  {
    hide GiveBack, SavePool;
  }

  // ---------------------------------------------------------------- starting

  function StartedMines(m: Mines, miner: Miner, stake: nat, ve: Bits, now: nat): Mines {
    if miner !in m.miners then m
    else
      m.(stakes := m.stakes[miner := stake],
         miners := m.miners[miner := m.miners[miner].(state := MiningIdle, ve := ve, v := ve, vUpdatedAt := now)],
         onlineMiners := m.onlineMiners + 1)
  }

  function Lending(pool: PoolInfo, stake: nat): PoolInfo {
    if stake > pool.freeStake then pool else pool.(freeStake := pool.freeStake - stake)
  }

  function StartedState(c: State, miner: Miner, stake: nat, ve: Bits): State {
    if miner.pid !in c.v.pools then c
    else c.(m := StartedMines(c.m, miner, stake, ve, c.now),
            v := SavePool(c.v, miner.pid, Lending(c.v.pools[miner.pid], stake)))
  }

  predicate CanStart(c: State, miner: Miner, stake: nat, quote: Quote) {
    && miner.pid in c.v.pools && quote.minimalStake <= stake <= c.v.pools[miner.pid].freeStake
    && miner in c.m.minerBindings && miner in c.m.miners && c.m.miners[miner].state.Ready? && miner !in c.m.stakes
  }

  lemma StartEffects(c: State, who: Account, pid: Pid, worker: Worker, stake: nat, quote: Quote)
    requires BindingsOk(c)
    ensures StartPoolMining(c, who, pid, worker, stake, quote) != Panic
    ensures StartPoolMining(c, who, pid, worker, stake, quote) != Diverge
    ensures StartPoolMining(c, who, pid, worker, stake, quote).Ok? ==>
      && CanStart(c, Miner(pid, worker), stake, quote)
      && StartPoolMining(c, who, pid, worker, stake, quote) == Ok(StartedState(c, Miner(pid, worker), stake, quote.ve))
  {
    if Miner(pid, worker) in c.m.minerBindings {
      BoundMiner(c, Miner(pid, worker));
    }
    hide BindingsOk;
  }

  lemma StartedMinesOk(m: Mines, pools: set<Pid>, miner: Miner, stake: nat, ve: Bits, now: nat)
    requires MinesOk(m, pools) && Nondust(stake) && ve > 0
    requires miner in m.miners && m.miners[miner].state.Ready? && miner in m.minerBindings
    ensures MinesOk(StartedMines(m, miner, stake, ve, now), pools)
  {
    var m' := StartedMines(m, miner, stake, ve, now);
    WorkingChanged(m, m', miner, m'.miners[miner]);
    hide Working;
  }

  lemma LendingBacked(pool: PoolInfo, stake: nat, staked: nat)
    requires Backed(pool, staked) && Solid(staked) && Nondust(stake) && stake <= pool.freeStake
    ensures Backed(Lending(pool, stake), staked + stake) && Solid(staked + stake)
    ensures SameAccounts(pool, Lending(pool, stake))
  {
  }

  lemma LentSound(v: Store, pid: Pid, stake: nat, staked: map<Pid, nat>)
    requires Sound(v, staked) && pid in v.pools && Nondust(stake) && stake <= v.pools[pid].freeStake
    ensures Sound(SavePool(v, pid, Lending(v.pools[pid], stake)), staked[pid := Get(staked, pid) + stake])
  {
    hide *;
    SoundBacks(v, staked, pid);
    LendingBacked(v.pools[pid], stake, Get(staked, pid));
    SavePoolKeepsSound(v, pid, Lending(v.pools[pid], stake), staked, Get(staked, pid) + stake);
  }

  lemma StartedSound(c: State, miner: Miner, stake: nat, quote: Quote)
    requires Sound(c.v, StakedMap(c)) && CanStart(c, miner, stake, quote) && Nondust(stake)
    ensures Sound(StartedState(c, miner, stake, quote.ve).v, StakedMap(StartedState(c, miner, stake, quote.ve)))
  {
    hide Sound, SavePool;
    var c' := StartedState(c, miner, stake, quote.ve);
    var staked := StakedMap(c)[miner.pid := Staked(c.m, miner.pid) + stake];
    LentSound(c.v, miner.pid, stake, StakedMap(c));
    SavePoolKeys(c.v, miner.pid, Lending(c.v.pools[miner.pid], stake));
    forall p | p in c'.v.pools ensures Get(StakedMap(c'), p) == Get(staked, p) {
      StakeAdded(c.m, miner, stake, p);
    }
    SoundFor(c'.v, staked, StakedMap(c'));
  }

  /** Starting a miner lends it free stake: the pool stays backed, and the invariant holds. */
  lemma StartKeeps(c: State, who: Account, pid: Pid, worker: Worker, stake: nat, quote: Quote)
    requires Inv(c) && StartPoolMining(c, who, pid, worker, stake, quote).Ok?
    requires Nondust(quote.minimalStake) && quote.ve > 0
    ensures Inv(StartPoolMining(c, who, pid, worker, stake, quote).value)
  {
    hide *;
    var miner := Miner(pid, worker);
    InvParts(c);
    StartEffects(c, who, pid, worker, stake, quote);
    StartedStateIs(c, miner, stake, quote);
    StartedMinesOk(c.m, c.v.pools.Keys, miner, stake, quote.ve, c.now);
    StartedSound(c, miner, stake, quote);
    PoolAndMinerKeep(c, StartedMines(c.m, miner, stake, quote.ve, c.now), miner, Lending(c.v.pools[pid], stake));
  }

  lemma StartedStateIs(c: State, miner: Miner, stake: nat, quote: Quote)
    requires CanStart(c, miner, stake, quote) && Nondust(quote.minimalStake)
    ensures var m', pool := StartedMines(c.m, miner, stake, quote.ve, c.now), Lending(c.v.pools[miner.pid], stake);
      && StartedState(c, miner, stake, quote.ve) == c.(m := m', v := SavePool(c.v, miner.pid, pool))
      && pool.workers == c.v.pools[miner.pid].workers && pool.withdrawQueue == c.v.pools[miner.pid].withdrawQueue
      && pool.releasingStake == c.v.pools[miner.pid].releasingStake + Expected(m', miner) - Expected(c.m, miner)
      && miner in m'.miners && m'.miners == c.m.miners[miner := m'.miners[miner]]
      && m'.minerBindings == c.m.minerBindings && m'.workerBindings == c.m.workerBindings
      && (forall mi :: mi != miner ==> Get(m'.stakes, mi) == Get(c.m.stakes, mi))
    ensures miner.pid in c.v.pools && Nondust(stake)
    ensures miner in c.m.miners && c.m.miners[miner].state.Ready? && miner in c.m.minerBindings
  {
    hide GiveBack, SavePool;
  }

  // ---------------------------------------------------------------- reclaiming

  function ReclaimedMines(m: Mines, miner: Miner): Mines {
    if miner !in m.miners then m
    else m.(miners := m.miners[miner := m.miners[miner].(state := Ready, coolDownStart := 0)],
            stakes := m.stakes - {miner})
  }

  predicate CanReclaim(m: Mines, miner: Miner, now: nat) {
    && miner in m.miners && m.miners[miner].state.MiningCoolingDown?
    && now - m.miners[miner].coolDownStart >= m.coolDownPeriod
  }

  /** Reclaiming gives back exactly what the pool was told to expect when the miner stopped. */
  lemma ReclaimEffects(m: Mines, pools: set<Pid>, miner: Miner, now: nat)
    requires MinesOk(m, pools)
    ensures ReclaimMiner(m, miner, now) != Panic && ReclaimMiner(m, miner, now) != Diverge
    ensures ReclaimMiner(m, miner, now).Ok? <==> CanReclaim(m, miner, now)
    ensures CanReclaim(m, miner, now) ==>
      && miner in m.stakes && Nondust(m.stakes[miner]) && Expected(m, miner) <= m.stakes[miner]
      && ReclaimMiner(m, miner, now) ==
         Ok(Reclaim(ReclaimedMines(m, miner), m.stakes[miner], m.stakes[miner] - Expected(m, miner)))
  {
    if CanReclaim(m, miner, now) {
      assert miner in m.stakes && m.miners[miner].ve > 0;
      ReturnedAtMost(m.miners[miner].(state := Ready, coolDownStart := 0), m.stakes[miner]);
      assert Returned(m.miners[miner].(state := Ready, coolDownStart := 0), m.stakes[miner]) == Expected(m, miner);
    }
    hide Returned, Expected;
  }

  lemma ReclaimedMinesOk(m: Mines, pools: set<Pid>, miner: Miner)
    requires MinesOk(m, pools) && miner in m.miners && m.miners[miner].state.MiningCoolingDown?
    ensures MinesOk(ReclaimedMines(m, miner), pools)
  {
    var m' := ReclaimedMines(m, miner);
    WorkingChanged(m, m', miner, m'.miners[miner]);
    hide Working;
  }

  /** A pool always expects at least what a reclaim returns: the saturating subtraction never saturates. */
  lemma ReleasingCoversReturn(v: Store, m: Mines, miner: Miner)
    requires ReleasingOk(v, m) && miner.pid in v.pools
    ensures Expected(m, miner) <= v.pools[miner.pid].releasingStake
  {
    hide GiveBack;
    EntryAtMostSum(ReleasingIn(m, miner.pid), miner);
  }

  /** A miner's stake is part of what its pool's miners hold, and what is left is no dust. */
  lemma StakeWithinPool(m: Mines, pools: set<Pid>, miner: Miner)
    requires MinesOk(m, pools) && miner in m.miners && m.miners[miner].state.MiningCoolingDown?
    ensures miner in m.stakes && 0 < m.stakes[miner] <= Staked(m, miner.pid)
    ensures Staked(ReclaimedMines(m, miner), miner.pid) == Staked(m, miner.pid) - m.stakes[miner]
    ensures Solid(Staked(m, miner.pid) - m.stakes[miner])
    ensures forall p :: p != miner.pid ==> Staked(ReclaimedMines(m, miner), p) == Staked(m, p)
  {
    ReclaimedMinesOk(m, pools, miner);
    StakedSolid(ReclaimedMines(m, miner), miner.pid, pools);
    EntryAtMostSum(StakesIn(m.stakes, miner.pid), miner);
    StakeTaken(m, miner, miner.pid);
    forall p | p != miner.pid ensures Staked(ReclaimedMines(m, miner), p) == Staked(m, p) {
      StakeTaken(m, miner, p);
    }
  }

  /** What the reclaim will slash; the pool must have shares for it to be taken from. */
  predicate ReclaimAllowed(c: State, miner: Miner) {
    var stake := Get(c.m.stakes, miner);
    miner.pid in c.v.pools ==> SlashAllowed(c.v.pools[miner.pid], stake - Min(Expected(c.m, miner), stake))
  }

  /** The pool as the reclaim of a miner leaves it before the queue is served. */
  function ReclaimedPool(c: State, miner: Miner): PoolInfo
    requires miner.pid in c.v.pools && miner in c.m.stakes && Expected(c.m, miner) <= c.m.stakes[miner]
  {
    Reclaimed(c.v.pools[miner.pid], c.m.stakes[miner], c.m.stakes[miner] - Expected(c.m, miner))
  }

  /** A reclaim fails only as `reclaim` does, or hands the pool the stake and the predicted slash. */
  lemma ReclaimStep(c: State, pid: Pid, worker: Worker, slash: Slasher)
    requires MinesOk(c.m, c.v.pools.Keys)
    ensures var r, miner := ReclaimPoolWorker(c, pid, worker, slash), Miner(pid, worker);
      if CanReclaim(c.m, miner, c.now) then
        && pid in c.v.pools && miner in c.m.stakes && Expected(c.m, miner) <= c.m.stakes[miner]
        && r == WithStore(c.(m := ReclaimedMines(c.m, miner)),
                          HandleReclaim(c.v, pid, c.m.stakes[miner], c.m.stakes[miner] - Expected(c.m, miner), slash))
      else r == Err(if pid !in c.v.pools then PoolDoesNotExist else
                    if miner !in c.m.miners then MinerNotFound else CoolDownNotReady)
  {
    hide HandleReclaim, Expected, MinesOk, ReclaimedMines, CanReclaim, ReclaimMiner;
    var miner := Miner(pid, worker);
    ReclaimEffects(c.m, c.v.pools.Keys, miner, c.now);
    if CanReclaim(c.m, miner, c.now) {
      MinerHasPool(c.m, c.v.pools.Keys, miner, c.now);
    } else {
      ReclaimFails(c.m, miner, c.now);
    }
  }

  lemma ReclaimFails(m: Mines, miner: Miner, now: nat)
    requires !CanReclaim(m, miner, now)
    ensures ReclaimMiner(m, miner, now) == Err(if miner !in m.miners then MinerNotFound else CoolDownNotReady)
  {
  }

  lemma MinerHasPool(m: Mines, pools: set<Pid>, miner: Miner, now: nat)
    requires MinesOk(m, pools) && CanReclaim(m, miner, now)
    ensures miner.pid in pools
  {
  }

  lemma ReclaimAmounts(c: State, miner: Miner)
    requires MinesOk(c.m, c.v.pools.Keys) && CanReclaim(c.m, miner, c.now) && miner.pid in c.v.pools
    requires miner in c.m.stakes && Expected(c.m, miner) <= c.m.stakes[miner]
    ensures 0 < c.m.stakes[miner] <= Get(StakedMap(c), miner.pid) == Staked(c.m, miner.pid)
    ensures Solid(Get(StakedMap(c), miner.pid) - c.m.stakes[miner])
    ensures ReclaimAllowed(c, miner) ==>
      SlashAllowed(c.v.pools[miner.pid], c.m.stakes[miner] - Expected(c.m, miner))
    ensures SavePool(c.v, miner.pid, ReclaimedPool(c, miner)).pools.Keys == c.v.pools.Keys
  {
    StakeWithinPool(c.m, c.v.pools.Keys, miner);
    hide MinesOk, Staked, Expected, Reclaimed;
  }

  lemma ReclaimedStaked(c: State, c': State, miner: Miner)
    requires MinesOk(c.m, c.v.pools.Keys) && CanReclaim(c.m, miner, c.now) && miner in c.m.stakes
    requires c'.m == ReclaimedMines(c.m, miner) && c'.v.pools.Keys == c.v.pools.Keys
    requires Get(c.m.stakes, miner) <= Get(StakedMap(c), miner.pid)
    ensures forall p :: p in c'.v.pools ==>
      Get(StakedMap(c'), p) == Get(StakedMap(c)[miner.pid := Get(StakedMap(c), miner.pid) - Get(c.m.stakes, miner)], p)
  {
    StakeWithinPool(c.m, c.v.pools.Keys, miner);
    assert miner.pid in c.v.pools;
    hide MinesOk, Staked, ReclaimedMines;
  }

  /** The books after a reclaim, with the miner's stake handed back. */
  lemma ReclaimSound(c: State, miner: Miner, slash: Slasher)
    requires Inv(c) && CanReclaim(c.m, miner, c.now) && ReclaimAllowed(c, miner)
    requires miner.pid in c.v.pools && miner in c.m.stakes && Expected(c.m, miner) <= c.m.stakes[miner]
    requires HandleReclaim(c.v, miner.pid, c.m.stakes[miner], c.m.stakes[miner] - Expected(c.m, miner), slash).Ok?
    ensures var v' := HandleReclaim(c.v, miner.pid, c.m.stakes[miner], c.m.stakes[miner] - Expected(c.m, miner),
                                    slash).value;
      && OnlyPool(SavePool(c.v, miner.pid, ReclaimedPool(c, miner)), v', miner.pid)
      && FrontServed(c.v.pools[miner.pid].withdrawQueue, v'.pools[miner.pid].withdrawQueue)
      && v'.pools.Keys == c.v.pools.Keys
      && Sound(v', StakedMap(c.(m := ReclaimedMines(c.m, miner), v := v')))
  {
    hide *;
    InvParts(c);
    ReclaimAmounts(c, miner);
    var orig, slashed := c.m.stakes[miner], c.m.stakes[miner] - Expected(c.m, miner);
    var v' := HandleReclaim(c.v, miner.pid, orig, slashed, slash).value;
    HandleReclaimKeeps(c.v, miner.pid, orig, slashed, slash, StakedMap(c));
    ReclaimedPoolIs(c, miner);
    OnlyPoolSkeleton(SavePool(c.v, miner.pid, ReclaimedPool(c, miner)), v', miner.pid);
    SkeletonParts(SavePool(c.v, miner.pid, ReclaimedPool(c, miner)), v', c.m);
    var c' := c.(m := ReclaimedMines(c.m, miner), v := v');
    GetPresent(c.m.stakes, miner);
    ReclaimedStaked(c, c', miner);
    SoundFor(v', StakedMap(c)[miner.pid := Get(StakedMap(c), miner.pid) - orig], StakedMap(c'));
  }

  lemma GetPresent<K>(m: map<K, nat>, k: K)
    requires k in m
    ensures Get(m, k) == m[k]
  {
  }

  lemma ReclaimedPoolIs(c: State, miner: Miner)
    requires miner.pid in c.v.pools && miner in c.m.stakes && Expected(c.m, miner) <= c.m.stakes[miner]
    ensures ReclaimedPool(c, miner) ==
      Reclaimed(c.v.pools[miner.pid], c.m.stakes[miner], c.m.stakes[miner] - Expected(c.m, miner))
    ensures miner.pid in SavePool(c.v, miner.pid, ReclaimedPool(c, miner)).pools
  {
    hide Reclaimed, Expected;
  }

  lemma ReclaimedTerms(c: State, miner: Miner)
    requires MinesOk(c.m, c.v.pools.Keys) && CanReclaim(c.m, miner, c.now) && miner.pid in c.v.pools
    requires miner in c.m.stakes && Expected(c.m, miner) <= c.m.stakes[miner]
    requires Expected(c.m, miner) <= c.v.pools[miner.pid].releasingStake
    ensures var pool, m' := ReclaimedPool(c, miner), ReclaimedMines(c.m, miner);
      && pool.workers == c.v.pools[miner.pid].workers
      && pool.releasingStake == c.v.pools[miner.pid].releasingStake + Expected(m', miner) - Expected(c.m, miner)
      && miner in m'.miners && m'.miners == c.m.miners[miner := m'.miners[miner]]
      && c.m.miners.Keys <= m'.miners.Keys
      && m'.minerBindings == c.m.minerBindings && m'.workerBindings == c.m.workerBindings
      && (forall mi :: mi != miner ==> Get(m'.stakes, mi) == Get(c.m.stakes, mi))
  {
    assert Expected(ReclaimedMines(c.m, miner), miner) == 0;
    hide Expected, MinesOk;
  }

  lemma ServedPoolIndexed(v: Store, v': Store, pid: Pid, pool: PoolInfo, now: nat, last: nat)
    requires Indexed(v, now, last) && pid in v.pools
    requires OnlyPool(SavePool(v, pid, pool), v', pid)
    requires pid in v'.pools && FrontServed(v.pools[pid].withdrawQueue, v'.pools[pid].withdrawQueue)
    ensures Indexed(v', now, last)
  {
    hide Indexed, FrontServed, SameTerms;
    ShorterQueuesIndexed(v, v', pid, now, last);
  }

  /** A reclaim keeps the invariant: the pool gets back what it expects, and the slash comes off its stake. */
  lemma ReclaimKeeps(c: State, pid: Pid, worker: Worker, slash: Slasher)
    requires Inv(c) && ReclaimAllowed(c, Miner(pid, worker))
    requires ReclaimPoolWorker(c, pid, worker, slash).Ok?
    ensures Inv(ReclaimPoolWorker(c, pid, worker, slash).value)
  {
    hide *;
    var miner := Miner(pid, worker);
    InvParts(c);
    ReclaimStep(c, pid, worker, slash);
    var m', orig := ReclaimedMines(c.m, miner), c.m.stakes[miner];
    var handled := HandleReclaim(c.v, pid, orig, orig - Expected(c.m, miner), slash);
    WithStoreIs(c.(m := m'), handled);
    ReclaimSound(c, miner, slash);
    ReclaimRest(c, miner, handled.value);
  }

  lemma WithStoreIs(c: State, v: Outcome<Store>)
    ensures WithStore(c, v).Ok? <==> v.Ok?
    ensures v.Ok? ==> WithStore(c, v) == Ok(c.(v := v.value))
    ensures WithStore(c, v) == Panic <==> v == Panic
    ensures WithStore(c, v) == Diverge <==> v == Diverge
  {
  }

  lemma ReclaimRest(c: State, miner: Miner, v': Store)
    requires Inv(c) && CanReclaim(c.m, miner, c.now)
    requires miner.pid in c.v.pools && miner in c.m.stakes && Expected(c.m, miner) <= c.m.stakes[miner]
    requires OnlyPool(SavePool(c.v, miner.pid, ReclaimedPool(c, miner)), v', miner.pid)
    requires v'.pools.Keys == c.v.pools.Keys
    requires FrontServed(c.v.pools[miner.pid].withdrawQueue, v'.pools[miner.pid].withdrawQueue)
    requires Sound(v', StakedMap(c.(m := ReclaimedMines(c.m, miner), v := v')))
    ensures Inv(c.(m := ReclaimedMines(c.m, miner), v := v'))
  {
    hide *;
    InvParts(c);
    var m', pool := ReclaimedMines(c.m, miner), ReclaimedPool(c, miner);
    var v1 := SavePool(c.v, miner.pid, pool);
    ReleasingCoversReturn(c.v, c.m, miner);
    ReclaimedTerms(c, miner);
    CanReclaimIs(c.m, miner, c.now);
    ReclaimedMinesOk(c.m, c.v.pools.Keys, miner);
    RecordKeepsReleasing(c.v, pool, c.m, m', miner);
    SavePoolKeys(c.v, miner.pid, pool);
    SavePoolListed(c.v, miner.pid, pool);
    OnlyPoolSkeleton(v1, v', miner.pid);
    SkeletonParts(v1, v', m');
    ServedPoolIndexed(c.v, v', miner.pid, pool, c.now, c.lastFinalized);
    var c' := c.(m := m', v := v');
    BindingsFrame(c, c');
    InvUnfolds(c');
  }

  lemma CanReclaimIs(m: Mines, miner: Miner, now: nat)
    requires CanReclaim(m, miner, now)
    ensures miner in m.miners && m.miners[miner].state.MiningCoolingDown?
  {
  }
}
