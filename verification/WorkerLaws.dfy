/** Workers that join a pool or leave it keep the invariant. */
module WorkerLaws {
  import opened Base
  import opened Pool
  import opened Vault
  import opened VaultLaws
  import opened CallLaws
  import opened Mining
  import opened Chain
  import opened ExpiryLaws
  import opened ChainLaws
  import opened MinerLaws

  // ---------------------------------------------------------------- the roster

  ghost predicate SameReleasing(m: Mines, m': Mines) {
    forall pid :: ReleasingIn(m', pid) == ReleasingIn(m, pid)
  }

  /** The state after a worker of a pool came or went. */
  function Enrolled(c: State, m: Mines, pid: Pid, pool: PoolInfo, assignments: map<Worker, Pid>): State {
    c.(m := m, v := SavePool(c.v, pid, pool).(assignments := assignments))
  }

  lemma EnrolledIndexed(c: State, pid: Pid, pool: PoolInfo, assignments: map<Worker, Pid>)
    requires Indexed(SavePool(c.v, pid, pool), c.now, c.lastFinalized)
    ensures Indexed(SavePool(c.v, pid, pool).(assignments := assignments), c.now, c.lastFinalized)
  {
    hide Increasing, QueueOk;
    var v, v' := SavePool(c.v, pid, pool), SavePool(c.v, pid, pool).(assignments := assignments);
    forall p, r | p in v'.pools && r in v'.pools[p].withdrawQueue ensures Listed(v', p, r.startTime, c.lastFinalized) {
      assert Listed(v, p, r.startTime, c.lastFinalized);
    }
  }

  lemma EnrolledParts(c: State, m': Mines, pid: Pid, pool: PoolInfo, assignments: map<Worker, Pid>)
    requires pid in c.v.pools && ReleasingOk(c.v, c.m) && AuditsOk(c.v) && SameReleasing(c.m, m')
    requires m'.stakes == c.m.stakes && pool.releasingStake == c.v.pools[pid].releasingStake
    ensures var c' := Enrolled(c, m', pid, pool, assignments);
      && ReleasingOk(c'.v, c'.m) && AuditsOk(c'.v) && c'.v.pools.Keys == c.v.pools.Keys
      && c'.m == m' && c'.now == c.now && c'.lastFinalized == c.lastFinalized
      && c'.v == SavePool(c.v, pid, pool).(assignments := assignments)
  {
    hide ReleasingIn;
  }

  /** Workers may come and go as long as the bindings agree and nobody's stake is touched. */
  lemma RosterKeeps(c: State, m': Mines, pid: Pid, pool: PoolInfo, assignments: map<Worker, Pid>)
    requires Inv(c) && pid in c.v.pools && SameMoney(c.v.pools[pid], pool)
    requires pool.releasingStake == c.v.pools[pid].releasingStake
    requires pool.withdrawQueue == c.v.pools[pid].withdrawQueue
    requires m'.stakes == c.m.stakes && SameReleasing(c.m, m') && MinesOk(m', c.v.pools.Keys)
    requires BindingsOk(Enrolled(c, m', pid, pool, assignments))
    ensures Inv(Enrolled(c, m', pid, pool, assignments))
  {
    hide *;
    InvParts(c);
    var c' := Enrolled(c, m', pid, pool, assignments);
    EnrolledParts(c, m', pid, pool, assignments);
    SaveTermsKeepsSound(c.v, pid, pool, StakedMap(c));
    IndexKeepsSound(SavePool(c.v, pid, pool), c'.v, StakedMap(c));
    StakedMapSame(c, c');
    SavePoolIndexed(c.v, pid, pool, c.now, c.lastFinalized);
    EnrolledIndexed(c, pid, pool, assignments);
    InvUnfolds(c');
  }

  // ---------------------------------------------------------------- adding a worker

  function BoundMines(m: Mines, miner: Miner, now: nat): Mines {
    m.(minerBindings := m.minerBindings[miner := miner.worker],
       workerBindings := m.workerBindings[miner.worker := miner],
       miners := m.miners[miner := MinerInfo(Ready, 0, 0, now, 0)])
  }

  predicate CanBind(m: Mines, miner: Miner) {
    && miner !in m.minerBindings && miner.worker !in m.workerBindings
    && (miner in m.miners ==> m.miners[miner].state.Ready?)
  }

  function WithWorker(pool: PoolInfo, worker: Worker): PoolInfo {
    pool.(workers := pool.workers + [worker])
  }

  /** Adding a worker never panics; it succeeds only on an unbound worker whose old stake is settled. */
  lemma AddWorkerEffects(c: State, who: Account, pid: Pid, worker: Worker)
    ensures var r, miner := AddWorker(c, who, pid, worker), Miner(pid, worker);
      && r != Panic && r != Diverge
      && (r.Ok? ==>
            && worker in c.registry && pid in c.v.pools && CanBind(c.m, miner)
            && r.value == Enrolled(c, BoundMines(c.m, miner, c.now), pid, WithWorker(c.v.pools[pid], worker),
                                   c.v.assignments[worker := pid]))
  {
  }

  lemma BoundReleasing(m: Mines, miner: Miner, now: nat)
    requires CanBind(m, miner)
    ensures SameReleasing(m, BoundMines(m, miner, now))
  {
    hide GiveBack;
  }

  lemma BoundMinesOk(m: Mines, pools: set<Pid>, miner: Miner, now: nat)
    requires MinesOk(m, pools) && CanBind(m, miner) && miner.pid in pools
    ensures MinesOk(BoundMines(m, miner, now), pools) && SameReleasing(m, BoundMines(m, miner, now))
    ensures BoundMines(m, miner, now).stakes == m.stakes
  {
    var m' := BoundMines(m, miner, now);
    WorkingChanged(m, m', miner, m'.miners[miner]);
    BoundReleasing(m, miner, now);
    hide Working, SameReleasing;
  }

  lemma BoundAgain(m: Mines, miner: Miner, now: nat)
    requires BoundBothWays(m) && CanBind(m, miner)
    ensures BoundBothWays(BoundMines(m, miner, now))
  {
  }

  lemma EnrolledAssigned(c: State, miner: Miner, now: nat)
    requires AssignedAsBound(c) && CanBind(c.m, miner) && miner.pid in c.v.pools && miner.worker in c.registry
    ensures AssignedAsBound(Enrolled(c, BoundMines(c.m, miner, now), miner.pid,
                                     WithWorker(c.v.pools[miner.pid], miner.worker),
                                     c.v.assignments[miner.worker := miner.pid]))
  {
  }

  lemma EnrolledListed(c: State, miner: Miner, m': Mines)
    requires ListedAsAssigned(c.v) && miner.pid in c.v.pools && miner.worker !in c.v.assignments
    ensures ListedAsAssigned(Enrolled(c, m', miner.pid, WithWorker(c.v.pools[miner.pid], miner.worker),
                                      c.v.assignments[miner.worker := miner.pid]).v)
  {
  }

  lemma UnboundUnassigned(c: State, worker: Worker)
    requires AssignedAsBound(c) && worker !in c.m.workerBindings
    ensures worker !in c.v.assignments
  {
  }

  lemma EnrolledBindings(c: State, miner: Miner, now: nat)
    requires BindingsOk(c) && CanBind(c.m, miner) && miner.pid in c.v.pools && miner.worker in c.registry
    ensures BindingsOk(Enrolled(c, BoundMines(c.m, miner, now), miner.pid,
                                WithWorker(c.v.pools[miner.pid], miner.worker),
                                c.v.assignments[miner.worker := miner.pid]))
  {
    hide BoundBothWays, AssignedAsBound, ListedAsAssigned, WithWorker, BoundMines;
    BoundAgain(c.m, miner, now);
    EnrolledAssigned(c, miner, now);
    UnboundUnassigned(c, miner.worker);
    EnrolledListed(c, miner, BoundMines(c.m, miner, now));
  }

  lemma AddWorkerKeeps(c: State, who: Account, pid: Pid, worker: Worker)
    requires Inv(c) && AddWorker(c, who, pid, worker).Ok?
    ensures Inv(AddWorker(c, who, pid, worker).value)
  {
    hide *;
    var miner := Miner(pid, worker);
    InvParts(c);
    AddWorkerEffects(c, who, pid, worker);
    BoundMinesOk(c.m, c.v.pools.Keys, miner, c.now);
    EnrolledBindings(c, miner, c.now);
    WithWorkerTerms(c.v.pools[pid], worker);
    RosterKeeps(c, BoundMines(c.m, miner, c.now), pid, WithWorker(c.v.pools[pid], worker),
      c.v.assignments[worker := pid]);
  }

  lemma WithWorkerTerms(pool: PoolInfo, worker: Worker)
    ensures var pool' := WithWorker(pool, worker);
      SameMoney(pool, pool') && pool'.releasingStake == pool.releasingStake && pool'.withdrawQueue == pool.withdrawQueue
  {
  }

  // ---------------------------------------------------------------- removing a worker

  lemma {:induction false} RemovedContents(workers: seq<Worker>, worker: Worker)
    ensures forall w :: w in Removed(workers, worker) <==> w in workers && w != worker
  {
    if workers != [] {
      RemovedContents(workers[1..], worker);
      assert forall w :: w in workers <==> w == workers[0] || w in workers[1..];
    }
  }

  function WithoutWorker(pool: PoolInfo, worker: Worker): PoolInfo {
    pool.(workers := Removed(pool.workers, worker))
  }

  /** The state with a miner and its worker released from each other and from the pool. */
  function Released(c: State, miner: Miner): State
    requires miner in c.m.minerBindings && miner.pid in c.v.pools
  {
    Enrolled(c, Unbound(c.m, miner), miner.pid, WithoutWorker(c.v.pools[miner.pid], miner.worker),
             c.v.assignments - {miner.worker})
  }

  lemma UnboundBothWays(m: Mines, miner: Miner)
    requires BoundBothWays(m) && miner in m.minerBindings
    ensures BoundBothWays(Unbound(m, miner))
  {
  }

  lemma ReleasedAssigned(c: State, miner: Miner)
    requires AssignedAsBound(c) && miner in c.m.minerBindings && miner.pid in c.v.pools
    requires c.m.minerBindings[miner] == miner.worker
    ensures AssignedAsBound(Released(c, miner))
  {
    hide WithoutWorker;
  }

  lemma ReleasedListed(c: State, miner: Miner)
    requires ListedAsAssigned(c.v) && miner in c.m.minerBindings && miner.pid in c.v.pools
    requires miner.worker in c.v.assignments && c.v.assignments[miner.worker] == miner.pid
    ensures ListedAsAssigned(Released(c, miner).v)
  {
    hide Removed;
    RemovedContents(c.v.pools[miner.pid].workers, miner.worker);
  }

  lemma ReleasedBindings(c: State, miner: Miner)
    requires BindingsOk(c) && miner in c.m.minerBindings && miner.pid in c.v.pools
    ensures BindingsOk(Released(c, miner))
  {
    BoundMiner(c, miner);
    hide BoundBothWays, AssignedAsBound, ListedAsAssigned, WithoutWorker, Unbound;
    UnboundBothWays(c.m, miner);
    ReleasedAssigned(c, miner);
    ReleasedListed(c, miner);
  }

  lemma UnboundMinesOk(m: Mines, pools: set<Pid>, miner: Miner)
    requires MinesOk(m, pools) && miner in m.minerBindings
    requires miner in m.miners ==> !AtWork(m.miners[miner])
    ensures MinesOk(Unbound(m, miner), pools) && SameReleasing(m, Unbound(m, miner))
    ensures Unbound(m, miner).stakes == m.stakes
  {
    assert Working(Unbound(m, miner)) == Working(m);
    hide Working, GiveBack;
  }

  lemma ReleasedKeeps(c: State, miner: Miner)
    requires Inv(c) && miner in c.m.minerBindings && miner.pid in c.v.pools
    requires miner in c.m.miners ==> !AtWork(c.m.miners[miner])
    ensures Inv(Released(c, miner))
  {
    hide *;
    InvParts(c);
    ReleasedBindings(c, miner);
    UnboundMinesOk(c.m, c.v.pools.Keys, miner);
    WithoutWorkerTerms(c.v.pools[miner.pid], miner.worker);
    ReleasedIs(c, miner);
    RosterKeeps(c, Unbound(c.m, miner), miner.pid, WithoutWorker(c.v.pools[miner.pid], miner.worker),
                c.v.assignments - {miner.worker});
  }

  lemma ReleasedIs(c: State, miner: Miner)
    requires miner in c.m.minerBindings && miner.pid in c.v.pools
    ensures Released(c, miner) ==
      Enrolled(c, Unbound(c.m, miner), miner.pid, WithoutWorker(c.v.pools[miner.pid], miner.worker),
               c.v.assignments - {miner.worker})
  {
    hide Enrolled, WithoutWorker;
  }

  lemma WithoutWorkerTerms(pool: PoolInfo, worker: Worker)
    ensures var pool' := WithoutWorker(pool, worker);
      SameMoney(pool, pool') && pool'.releasingStake == pool.releasingStake && pool'.withdrawQueue == pool.withdrawQueue
  {
    hide Removed;
  }

  /** The state in which an unbinding releases the miner: stopped first if it was at work. */
  function Idled(c: State, miner: Miner): State {
    if miner in c.m.miners && AtWork(c.m.miners[miner]) then StoppedState(c, miner) else c
  }

  lemma ReleaseFromPool(c: State, miner: Miner)
    requires BindingsOk(c) && miner in c.m.minerBindings && miner.pid in c.v.pools
    ensures RemoveWorkerFromPool(c.v, miner.worker) == Ok(Released(c, miner).v)
    ensures Released(c, miner) == c.(m := Unbound(c.m, miner), v := Released(c, miner).v)
  {
    BoundMiner(c, miner);
    hide BindingsOk, Removed;
  }

  /** Unbinding never panics: it stops a miner at work, then releases it. */
  lemma UnbindEffects(c: State, miner: Miner)
    requires Inv(c)
    ensures miner !in c.m.minerBindings ==> UnbindMiner(c, miner) == Err(MinerNotBound)
    ensures miner in c.m.minerBindings ==>
      && Inv(Idled(c, miner)) && miner in Idled(c, miner).m.minerBindings && miner.pid in Idled(c, miner).v.pools
      && (miner in Idled(c, miner).m.miners ==> !AtWork(Idled(c, miner).m.miners[miner]))
      && UnbindMiner(c, miner) == Ok(Released(Idled(c, miner), miner))
  {
    hide *;
    InvParts(c);
    if miner in c.m.minerBindings {
      BoundMiner(c, miner);
      IdledKeeps(c, miner);
      InvParts(Idled(c, miner));
      ReleaseFromPool(Idled(c, miner), miner);
      UnbindsIdled(c, miner);
    } else {
      UnboundCannotUnbind(c, miner);
    }
  }

  lemma UnboundCannotUnbind(c: State, miner: Miner)
    requires miner !in c.m.minerBindings
    ensures UnbindMiner(c, miner) == Err(MinerNotBound)
  {
  }

  lemma IdledKeeps(c: State, miner: Miner)
    requires Inv(c) && miner in c.m.minerBindings && miner in c.m.miners && miner.pid in c.v.pools
    ensures var c1 := Idled(c, miner);
      && Inv(c1) && miner in c1.m.minerBindings && miner.pid in c1.v.pools && miner in c1.m.miners
      && !AtWork(c1.m.miners[miner])
    ensures AtWork(c.m.miners[miner]) ==> StopMining(c, miner) == Ok(Idled(c, miner))
  {
    hide *;
    InvParts(c);
    IdledIs(c, miner);
    if AtWork(c.m.miners[miner]) {
      StopEffects(c, miner);
      StopKeeps(c, miner);
      StoppedMinesOk(c.m, c.v.pools.Keys, miner, c.now);
      StoppedStateIs(c, miner);
      StoppedIdle(c, miner);
    }
  }

  lemma IdledIs(c: State, miner: Miner)
    requires miner in c.m.miners
    ensures Idled(c, miner) == if AtWork(c.m.miners[miner]) then StoppedState(c, miner) else c
  {
    hide StoppedState;
  }

  lemma StoppedIdle(c: State, miner: Miner)
    requires miner in c.m.miners && c.m.onlineMiners > 0 && miner.pid in c.v.pools
    ensures var c' := StoppedState(c, miner);
      && miner in c'.m.miners && c'.m.miners[miner].state.MiningCoolingDown? && !AtWork(c'.m.miners[miner])
      && c'.m.minerBindings == c.m.minerBindings && miner.pid in c'.v.pools
  {
    hide Expected;
  }

  lemma UnbindsIdled(c: State, miner: Miner)
    requires miner in c.m.minerBindings && c.m.minerBindings[miner] == miner.worker && miner in c.m.miners
    requires AtWork(c.m.miners[miner]) ==> StopMining(c, miner) == Ok(Idled(c, miner))
    requires miner in Idled(c, miner).m.minerBindings && miner.pid in Idled(c, miner).v.pools
    requires var c1 := Idled(c, miner);
      && RemoveWorkerFromPool(c1.v, miner.worker) == Ok(Released(c1, miner).v)
      && Released(c1, miner) == c1.(m := Unbound(c1.m, miner), v := Released(c1, miner).v)
    ensures UnbindMiner(c, miner) == Ok(Released(Idled(c, miner), miner))
  {
    hide RemoveWorkerFromPool, Released, StopMining, StoppedState;
  }

  /** Whoever unbinds a miner, the invariant is kept, the worker is free and the miner no longer at work. */
  lemma UnbindKeeps(c: State, miner: Miner)
    requires Inv(c) && UnbindMiner(c, miner).Ok?
    ensures var c' := UnbindMiner(c, miner).value;
      Inv(c') && miner !in c'.m.minerBindings && miner.worker !in c'.v.assignments
  {
    hide *;
    UnbindEffects(c, miner);
    ReleasedKeeps(Idled(c, miner), miner);
    ReleasedFree(Idled(c, miner), miner);
  }

  lemma ReleasedFree(c: State, miner: Miner)
    requires miner in c.m.minerBindings && miner.pid in c.v.pools
    ensures miner !in Released(c, miner).m.minerBindings && miner.worker !in Released(c, miner).v.assignments
  {
    hide Removed;
  }
}
