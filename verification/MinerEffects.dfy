/** When the calls on workers and miners are refused, and what the gatekeeper's messages do to each miner. */
module MinerEffects {
  import opened Base
  import opened FixedPoint
  import opened Pool
  import opened Vault
  import opened Mining
  import opened Chain
  import opened ChainLaws
  import opened MinerLaws
  import opened WorkerLaws
  import opened CallEffects
  import opened PoolEffects

  // ---------------------------------------------------------------- what a miner gives back

  /** With `v` up to `ve`, the part of the stake that `v` is of `ve`, but for four pico and the part's rounding. */
  lemma ReturnedIsItsPart(info: MinerInfo, orig: nat)
    requires 0 < info.ve && info.v <= info.ve
    ensures Returned(info, orig) * info.ve <= orig * info.v
    ensures orig * info.v < (Returned(info, orig) + orig / ONE + 4) * info.ve
  {
    var x, v, e := ToFixed(orig), info.v, info.ve;
    var rate := FixDiv(v, e);
    DivBounds(v * ONE, e);
    DivAtMost(v * ONE, e, ONE);
    var y := FixMul(rate, x);
    var r := FromFixed(y);
    PartAtMost(orig, v, e, x, rate, y, r);
    PartAtLeast(orig, v, e, x, rate, y, r);
  }

  lemma PartAtMost(orig: nat, v: nat, e: nat, x: nat, rate: nat, y: nat, r: nat)
    requires x * SCALE <= orig * ONE && rate * e <= v * ONE && y * ONE <= rate * x && r * ONE <= y * SCALE
    ensures r * e <= orig * v
  {
    MulMono(r * ONE, y * SCALE, ONE * e);
    assert r * ONE * (ONE * e) <= y * SCALE * (ONE * e);
    assert y * SCALE * (ONE * e) == (y * ONE) * (SCALE * e);
    MulMono(y * ONE, rate * x, SCALE * e);
    assert (rate * x) * (SCALE * e) == (rate * e) * (x * SCALE);
    MulMono(rate * e, v * ONE, x * SCALE);
    MulMono(x * SCALE, orig * ONE, v * ONE);
    assert (v * ONE) * (orig * ONE) == (orig * v) * (ONE * ONE);
    assert r * ONE * (ONE * e) == (r * e) * (ONE * ONE);
  }

  lemma PartAtLeast(orig: nat, v: nat, e: nat, x: nat, rate: nat, y: nat, r: nat)
    requires e > 0 && rate <= ONE
    requires orig * ONE < (x + 1) * SCALE && v * ONE < (rate + 1) * e && rate * x < (y + 1) * ONE
    requires y * SCALE < (r + 1) * ONE && x * SCALE <= orig * ONE
    ensures orig * v < (r + orig / ONE + 4) * e
  {
    var all, bound := (rate * x + x + rate + 1) * SCALE, (r + orig / ONE + 4) * (ONE * ONE);
    PartBits(orig, x, rate, rate * x, y, r);
    assert all < bound;
    ProductsOrder(orig * ONE, v * ONE, (x + 1) * SCALE, (rate + 1) * e);
    Squares(orig, v, ONE);
    Expanded(x, rate, SCALE, e);
    ProductsOrder(all + 1, e, bound, e);
    assert (all + 1) * e == all * e + e;
    Swapped(r + orig / ONE + 4, ONE * ONE, e);
    Cancelled(orig * v, (r + orig / ONE + 4) * e, ONE * ONE);
  }

  lemma ProductsOrder(a: nat, b: nat, c: nat, d: nat)
    requires a <= c && b <= d
    ensures a * b <= c * d
  {
    MulMono(a, c, b);
    MulMono(b, d, c);
  }

  lemma Squares(a: nat, b: nat, o: nat)
    ensures (a * o) * (b * o) == a * b * (o * o)
  {
  }

  lemma Expanded(x: nat, rate: nat, s: nat, e: nat)
    ensures ((x + 1) * s) * ((rate + 1) * e) == (rate * x + x + rate + 1) * s * e
  {
    assert (x + 1) * (rate + 1) == rate * x + x + rate + 1;
    assert ((x + 1) * s) * ((rate + 1) * e) == (x + 1) * (rate + 1) * (s * e);
  }

  lemma Swapped(a: nat, o: nat, e: nat)
    ensures a * o * e == a * e * o
  {
  }

  lemma Cancelled(a: nat, b: nat, o: nat)
    requires a * o < b * o
    ensures a < b
  {
    if a >= b {
      MulMono(b, a, o);
    }
  }

  lemma PartBits(orig: nat, x: nat, rate: nat, product: nat, y: nat, r: nat)
    requires rate <= ONE && product < (y + 1) * ONE && y * SCALE < (r + 1) * ONE && x * SCALE <= orig * ONE
    ensures (product + x + rate + 1) * SCALE < (r + orig / ONE + 4) * (ONE * ONE)
  {
  }

  // ---------------------------------------------------------------- who may do what

  /**
    A worker is added by its operator, who owns the pool, if it has a score, the pool has room and no such worker,
    and neither the worker nor the miner is bound, nor a record of the miner in use.
  */
  lemma AddWorkerRefused(c: State, who: Account, pid: Pid, worker: Worker)
    ensures var r := AddWorker(c, who, pid, worker);
      var unknown := worker !in c.registry;
      var foreign := !unknown && c.registry[worker].operator != Some(who);
      var scoreless := !unknown && c.registry[worker].initialScore.None?;
      var stranger := pid in c.v.pools && c.v.pools[pid].owner != who;
      var there := pid in c.v.pools && worker in c.v.pools[pid].workers;
      var full := pid in c.v.pools && |c.v.pools[pid].workers| >= 200;
      var used := Miner(pid, worker) in c.m.minerBindings || worker in c.m.workerBindings
        || (Miner(pid, worker) in c.m.miners && c.m.miners[Miner(pid, worker)].state != Ready);
      && (r.Ok? <==> !unknown && !foreign && !scoreless && pid in c.v.pools && !stranger && !there && !full && !used)
      && (r == Err(WorkerNotRegistered) <==> unknown)
      && (r == Err(UnauthorizedOperator) <==> foreign)
      && (r == Err(BenchmarkMissing) <==> !foreign && scoreless)
      && (r == Err(PoolDoesNotExist) <==> !unknown && !foreign && !scoreless && pid !in c.v.pools)
      && (r.Err? && r.error.UnauthorizedPoolOwner? ==> stranger) && (r.Err? && r.error.WorkerExists? ==> there)
      && (r.Err? && r.error.WorkersExceedLimit? ==> full) && (r.Err? && r.error.FailedToBindMinerAndWorker? ==> used)
      && (r.Ok? || r.Err?)
  {
  }

  /**
    A miner is started by the owner of its pool while mining is enabled, with free stake of at least the minimal one
    and a V within the greatest one, on a listed worker with a score of 50, and if it is ready and holds no stake.
  */
  lemma StartRefused(c: State, who: Account, pid: Pid, worker: Worker, stake: nat, quote: Quote)
    requires BindingsOk(c)
    ensures var r, miner := StartPoolMining(c, who, pid, worker, stake, quote), Miner(pid, worker);
      var here := pid in c.v.pools;
      var stranger := here && c.v.pools[pid].owner != who;
      var short := here && c.v.pools[pid].freeStake < stake;
      var unlisted := here && worker !in c.v.pools[pid].workers;
      var busy := miner in c.m.miners && c.m.miners[miner].state != Ready;
      var held := miner in c.m.stakes;
      var score := if worker in c.registry then c.registry[worker].initialScore else None;
      var weak := score.Some? && score.value < 50;
      && (r.Ok? <==> c.miningEnabled && here && !stranger && !short && !unlisted && !busy && !held && score.Some?
                     && !weak && stake >= quote.minimalStake && quote.ve <= quote.vMax)
      && (r == Err(FeatureNotEnabled) <==> !c.miningEnabled)
      && (r == Err(PoolDoesNotExist) <==> c.miningEnabled && !here)
      && (r == Err(UnauthorizedPoolOwner) <==> c.miningEnabled && stranger)
      && (r == Err(InsufficientFreeStake) <==> c.miningEnabled && !stranger && short)
      && (r == Err(WorkerDoesNotExist) <==> c.miningEnabled && !stranger && !short && unlisted)
      && (r == Err(MinerNotReady) ==> busy) && (r == Err(CannotStartWithExistingStake) ==> held)
      && (r == Err(BenchmarkMissing) ==> score.None?) && (r == Err(BenchmarkTooLow) ==> weak)
      && (r == Err(InsufficientStake) ==> stake < quote.minimalStake)
      && (r == Err(TooMuchStake) ==> quote.ve > quote.vMax)
      && (r.Ok? || r.Err?)
  {
    if pid in c.v.pools && worker in c.v.pools[pid].workers {
      ListedIsBound(c, pid, worker);
    }
    hide BindingsOk;
  }

  lemma ListedIsBound(c: State, pid: Pid, worker: Worker)
    requires BindingsOk(c) && pid in c.v.pools && worker in c.v.pools[pid].workers
    ensures var miner := Miner(pid, worker);
      miner in c.m.minerBindings && c.m.minerBindings[miner] == worker && miner in c.m.miners && worker in c.registry
  {
    assert worker in c.v.assignments && c.v.assignments[worker] == pid;
  }

  /** A started miner works with the stake it is lent and the V it is quoted, from now on; nothing else changes. */
  lemma StartLends(c: State, who: Account, pid: Pid, worker: Worker, stake: nat, quote: Quote)
    requires BindingsOk(c) && StartPoolMining(c, who, pid, worker, stake, quote).Ok?
    ensures var c', miner := StartPoolMining(c, who, pid, worker, stake, quote).value, Miner(pid, worker);
      && pid in c.v.pools && stake <= c.v.pools[pid].freeStake && miner in c.m.miners
      && c' == c.(m := c.m.(stakes := c.m.stakes[miner := stake], onlineMiners := c.m.onlineMiners + 1,
                            miners := c.m.miners[miner := MinerInfo(MiningIdle, quote.ve, quote.ve, c.now,
                                                                    c.m.miners[miner].coolDownStart)]),
                  v := c.v.(pools := c.v.pools[pid := c.v.pools[pid].(
                              freeStake := c.v.pools[pid].freeStake - stake)]))
  {
    StartEffects(c, who, pid, worker, stake, quote);
    hide BindingsOk, StartPoolMining;
  }

  /** The owner of a pool, while mining is enabled, stops its listed workers. */
  lemma StopRefused(c: State, who: Account, pid: Pid, worker: Worker)
    requires Inv(c)
    ensures var r, miner := StopPoolMining(c, who, pid, worker), Miner(pid, worker);
      var here := pid in c.v.pools;
      var stranger := here && c.v.pools[pid].owner != who;
      var unlisted := here && worker !in c.v.pools[pid].workers;
      var idle := miner in c.m.miners && (c.m.miners[miner].state == Ready
                                          || c.m.miners[miner].state == MiningCoolingDown);
      && (r.Ok? <==> c.miningEnabled && here && !stranger && !unlisted && !idle)
      && (r == Err(FeatureNotEnabled) <==> !c.miningEnabled)
      && (r == Err(PoolDoesNotExist) <==> c.miningEnabled && !here)
      && (r == Err(UnauthorizedPoolOwner) <==> c.miningEnabled && stranger)
      && (r == Err(WorkerDoesNotExist) <==> c.miningEnabled && !stranger && unlisted)
      && (r == Err(MinerNotMining) <==> c.miningEnabled && here && !stranger && !unlisted && idle)
      && (r.Ok? || r.Err?)
  {
    InvBindings(c);
    if pid in c.v.pools && worker in c.v.pools[pid].workers {
      ListedIsBound(c, pid, worker);
    }
    StopEffects(c, Miner(pid, worker));
    hide Inv, BindingsOk, MinesOk, StopMining, StoppedState;
  }

  lemma InvBindings(c: State)
    requires Inv(c)
    ensures BindingsOk(c) && MinesOk(c.m, c.v.pools.Keys)
  {
    hide *;
    InvParts(c);
  }

  /**
    A stopped miner cools down from now on, one miner less is online, and its pool expects what it will give back;
    nothing else changes.
  */
  lemma StopCoolsDown(c: State, miner: Miner)
    requires Inv(c) && StopMining(c, miner).Ok?
    ensures miner in c.m.miners && miner in c.m.stakes && c.m.miners[miner].ve > 0 && miner.pid in c.v.pools
    ensures var c', info, pool := StopMining(c, miner).value, c.m.miners[miner], c.v.pools[miner.pid];
      && c.m.onlineMiners > 0
      && c' == c.(m := c.m.(miners := c.m.miners[miner := info.(state := MiningCoolingDown, coolDownStart := c.now)],
                            onlineMiners := c.m.onlineMiners - 1),
                  v := c.v.(pools := c.v.pools[miner.pid := pool.(
                              releasingStake := pool.releasingStake + Returned(info, c.m.stakes[miner]))]))
  {
    hide *;
    InvBindings(c);
    StopEffects(c, miner);
    AtWorkHolds(c.m, c.v.pools.Keys, miner);
    StoppedMinesOk(c.m, c.v.pools.Keys, miner, c.now);
    StoppedStateSpelled(c, miner);
  }

  lemma StoppedStateSpelled(c: State, miner: Miner)
    requires miner in c.m.miners && miner in c.m.stakes && c.m.miners[miner].ve > 0 && miner.pid in c.v.pools
    requires c.m.onlineMiners > 0
    ensures var info, pool := c.m.miners[miner], c.v.pools[miner.pid];
      StoppedState(c, miner) ==
      c.(m := c.m.(miners := c.m.miners[miner := info.(state := MiningCoolingDown, coolDownStart := c.now)],
                   onlineMiners := c.m.onlineMiners - 1),
         v := c.v.(pools := c.v.pools[miner.pid := pool.(
                     releasingStake := pool.releasingStake + Returned(info, c.m.stakes[miner]))]))
  {
    var info := c.m.miners[miner];
    assert Returned(info.(state := MiningCoolingDown, coolDownStart := c.now), c.m.stakes[miner]) ==
      Returned(info, c.m.stakes[miner]);
    hide Returned;
  }

  lemma AtWorkHolds(m: Mines, pools: set<Pid>, miner: Miner)
    requires MinesOk(m, pools) && miner in m.miners && AtWork(m.miners[miner])
    ensures miner in m.stakes && m.miners[miner].ve > 0 && miner.pid in pools
  {
  }

  /**
    A miner that cooled down long enough is ready again and holds nothing; its stake, less what is slashed, is
    handed back to its pool, whose queue is served.
  */
  lemma ReclaimReadies(c: State, pid: Pid, worker: Worker, slash: Slasher)
    requires Inv(c)
    ensures var r, miner := ReclaimPoolWorker(c, pid, worker, slash), Miner(pid, worker);
      var early := miner in c.m.miners && (c.m.miners[miner].state != MiningCoolingDown
        || c.now - c.m.miners[miner].coolDownStart < c.m.coolDownPeriod);
      && (r == Err(PoolDoesNotExist) <==> pid !in c.v.pools)
      && (r == Err(MinerNotFound) <==> pid in c.v.pools && miner !in c.m.miners)
      && (r == Err(CoolDownNotReady) <==> early)
      && (pid in c.v.pools && miner in c.m.miners && !early ==>
            && miner in c.m.stakes && c.m.miners[miner].ve > 0
            && var stake, info := c.m.stakes[miner], c.m.miners[miner];
               && Returned(info, stake) <= stake
               && r == WithStore(c.(m := c.m.(miners := c.m.miners[miner := info.(state := Ready, coolDownStart := 0)],
                                              stakes := c.m.stakes - {miner})),
                                 HandleReclaim(c.v, pid, stake, stake - Returned(info, stake), slash)))
  {
    hide *;
    var miner := Miner(pid, worker);
    InvBindings(c);
    ReclaimStep(c, pid, worker, slash);
    MinersHavePools(c.m, c.v.pools.Keys, miner);
    CanReclaimWhen(c.m, miner, c.now);
    if CanReclaim(c.m, miner, c.now) {
      CoolingHolds(c.m, c.v.pools.Keys, miner);
      CoolingExpects(c.m, miner);
      HandedBack(c.v, pid, c.m.stakes[miner], c.m.stakes[miner] - Expected(c.m, miner), slash);
      ReclaimedMinesSpelled(c.m, miner);
      WithStoreNeverRefuses(c.(m := ReclaimedMines(c.m, miner)),
                            HandleReclaim(c.v, pid, c.m.stakes[miner], c.m.stakes[miner] - Expected(c.m, miner),
                              slash));
    }
  }

  lemma CanReclaimWhen(m: Mines, miner: Miner, now: nat)
    ensures CanReclaim(m, miner, now) <==>
      miner in m.miners && m.miners[miner].state == MiningCoolingDown
      && now - m.miners[miner].coolDownStart >= m.coolDownPeriod
  {
  }

  lemma CoolingExpects(m: Mines, miner: Miner)
    requires miner in m.miners && m.miners[miner].state == MiningCoolingDown && miner in m.stakes
    requires m.miners[miner].ve > 0
    ensures Expected(m, miner) == Returned(m.miners[miner], m.stakes[miner])
  {
    hide Returned;
  }

  lemma ReclaimedMinesSpelled(m: Mines, miner: Miner)
    requires miner in m.miners
    ensures ReclaimedMines(m, miner) ==
      m.(miners := m.miners[miner := m.miners[miner].(state := Ready, coolDownStart := 0)],
        stakes := m.stakes - {miner})
  {
  }

  lemma WithStoreNeverRefuses(c: State, v: Outcome<Store>)
    requires !v.Err?
    ensures !WithStore(c, v).Err?
  {
  }

  lemma HandedBack(v: Store, pid: Pid, orig: nat, slashed: nat, slash: Slasher)
    requires pid in v.pools && slashed <= orig
    ensures !HandleReclaim(v, pid, orig, slashed, slash).Err?
  {
    hide ServeQueue, SharePrice, Reclaimed;
    var v1 := SavePool(v, pid, Reclaimed(v.pools[pid], orig, slashed));
    if SharePrice(v1.pools[pid]).Some? {
      QueueNeverRefuses(v1, pid, SharePrice(v1.pools[pid]).value, slash);
    }
  }

  lemma MinersHavePools(m: Mines, pools: set<Pid>, miner: Miner)
    requires MinesOk(m, pools)
    ensures miner in m.miners ==> miner.pid in pools
  {
  }

  lemma CoolingHolds(m: Mines, pools: set<Pid>, miner: Miner)
    requires MinesOk(m, pools) && miner in m.miners && m.miners[miner].state == MiningCoolingDown
    ensures miner in m.stakes && m.miners[miner].ve > 0
  {
  }

  /** A worker is taken out of a pool by the pool's owner, or by its operator. */
  lemma LeavingRefused(c: State, who: Account, pid: Pid, worker: Worker)
    requires Inv(c)
    ensures var r := RemoveWorker(c, who, pid, worker);
      var here := pid in c.v.pools;
      var stranger := here && c.v.pools[pid].owner != who;
      var elsewhere := worker in c.v.assignments && c.v.assignments[worker] != pid;
      && (r == Err(PoolDoesNotExist) <==> !here) && (r == Err(UnauthorizedPoolOwner) <==> stranger)
      && (r == Err(WorkerDoesNotExist) <==> here && !stranger && worker !in c.v.assignments)
      && (r == Err(WorkerInAnotherPool) <==> here && !stranger && elsewhere)
      && (here && !stranger && worker in c.v.assignments && !elsewhere ==>
            r.Ok? && r == UnbindMiner(c, Miner(pid, worker)))
  {
    InvBindings(c);
    UnbindEffects(c, Miner(pid, worker));
    if worker in c.v.assignments && c.v.assignments[worker] == pid {
      AssignedIsBound(c, worker);
    }
    hide Inv, BindingsOk, MinesOk, UnbindMiner;
  }

  lemma AssignedIsBound(c: State, worker: Worker)
    requires BindingsOk(c) && worker in c.v.assignments
    ensures Miner(c.v.assignments[worker], worker) in c.m.minerBindings
  {
  }

  lemma UnbindRefused(c: State, who: Account, miner: Miner)
    requires Inv(c)
    ensures var r, bound := Unbind(c, who, miner), miner in c.m.minerBindings;
      && (bound ==> miner.worker in c.registry)
      && var foreign := bound && c.registry[miner.worker].operator != Some(who);
         && (r == Err(MinerNotBound) <==> !bound) && (r == Err(BadSender) <==> foreign)
         && (bound && !foreign ==> r.Ok? && r == UnbindMiner(c, miner))
  {
    InvBindings(c);
    UnbindEffects(c, miner);
    if miner in c.m.minerBindings {
      BoundMiner(c, miner);
    }
    hide Inv, BindingsOk, MinesOk, UnbindMiner;
  }

  /** A miner that is unbound was stopped first if it was at work, and then it and its worker are free of each other. */
  lemma UnbindFrees(c: State, miner: Miner)
    requires Inv(c) && miner in c.m.minerBindings
    ensures UnbindMiner(c, miner).Ok? && miner in c.m.miners && miner.pid in c.v.pools
    ensures var working := c.m.miners[miner].state != Ready && c.m.miners[miner].state != MiningCoolingDown;
      && (working ==> StopMining(c, miner).Ok?)
      && var c', c1 := UnbindMiner(c, miner).value, if working then StopMining(c, miner).value else c;
         && miner.pid in c1.v.pools && miner.pid in c'.v.pools
         && var pool, pool' := c1.v.pools[miner.pid], c'.v.pools[miner.pid];
            && IsWithout(pool'.workers, pool.workers, miner.worker)
            && c' == c1.(m := c1.m.(minerBindings := c1.m.minerBindings - {miner},
                                    workerBindings := c1.m.workerBindings - {miner.worker}),
                         v := c1.v.(assignments := c1.v.assignments - {miner.worker},
                                    pools := c1.v.pools[miner.pid := pool.(workers := pool'.workers)]))
  {
    hide *;
    InvBindings(c);
    BoundMiner(c, miner);
    UnbindEffects(c, miner);
    IdledIs(c, miner);
    StopEffects(c, miner);
    WorkingStates(c.m.miners[miner]);
    ReleasedSpelled(Idled(c, miner), miner);
    InvBindings(Idled(c, miner));
    BoundMiner(Idled(c, miner), miner);
  }

  lemma WorkingStates(info: MinerInfo)
    ensures AtWork(info) <==> info.state != Ready && info.state != MiningCoolingDown
  {
  }

  lemma ReleasedSpelled(c: State, miner: Miner)
    requires miner in c.m.minerBindings && miner.pid in c.v.pools
    ensures var c', pool := Released(c, miner), c.v.pools[miner.pid];
      && miner.pid in c'.v.pools
      && var pool' := c'.v.pools[miner.pid];
         && IsWithout(pool'.workers, pool.workers, miner.worker)
         && c' == c.(m := c.m.(minerBindings := c.m.minerBindings - {miner},
                               workerBindings := c.m.workerBindings - {c.m.minerBindings[miner]}),
                     v := c.v.(assignments := c.v.assignments - {miner.worker},
                               pools := c.v.pools[miner.pid := pool.(workers := pool'.workers)]))
  {
    RemovedInOrder(c.v.pools[miner.pid].workers, miner.worker);
    hide Removed, IsWithout;
  }

  // ---------------------------------------------------------------- messages

  /** A miner that the gatekeeper's reports are about: idle or unresponsive, but not, as written, active. */
  predicate Reportable(info: MinerInfo) {
    info.state == MiningIdle || info.state == MiningUnresponsive
  }

  /** Of all storage only records of miners change. */
  ghost predicate OnlyRecords(m: Mines, m': Mines) {
    m' == m.(miners := m'.miners) && m'.miners.Keys == m.miners.Keys
  }

  lemma {:induction false} EachReported(m: Mines, workers: seq<Worker>, state: MinerState, miner: Miner)
    requires BoundBothWays(m) && (state == MiningIdle || state == MiningUnresponsive)
    ensures var m' := AllReported(m, workers, state);
      && OnlyRecords(m, m')
      && (miner in m.miners ==>
            var info, told := m.miners[miner], miner in m.minerBindings && miner.worker in workers;
            m'.miners[miner] == if told && Reportable(info) then info.(state := state) else info)
    decreases |workers|
  {
    if workers != [] {
      var m1 := Reported(m, workers[0], state);
      OneReported(m, workers[0], state, miner);
      BoundFrame(m, m1);
      EachReported(m1, workers[1..], state, miner);
      assert miner.worker in workers <==> miner.worker == workers[0] || miner.worker in workers[1..];
      hide BoundBothWays, Reported;
    }
  }

  lemma OneReported(m: Mines, worker: Worker, state: MinerState, miner: Miner)
    requires BoundBothWays(m)
    ensures var m' := Reported(m, worker, state);
      && OnlyRecords(m, m')
      && (miner in m.miners ==>
            var info, told := m.miners[miner], miner in m.minerBindings && miner.worker == worker;
            m'.miners[miner] == if told && Reportable(info) then info.(state := state) else info)
  {
  }

  /** The last settlement of a round for a worker is at this place. */
  predicate LastFor(settle: seq<SettleInfo>, w: Worker, k: nat) {
    k < |settle| && settle[k].pubkey == w && forall i :: k < i < |settle| ==> settle[i].pubkey != w
  }

  lemma {:induction false} EachSettled(m: Mines, settle: seq<SettleInfo>, now: nat, miner: Miner)
    requires BoundBothWays(m)
    ensures var m' := AllSettled(m, settle, now);
      && OnlyRecords(m, m')
      && (miner in m.miners ==>
            && ((miner !in m.minerBindings || forall i :: 0 <= i < |settle| ==> settle[i].pubkey != miner.worker) ==>
                  m'.miners[miner] == m.miners[miner])
            && (forall k: nat :: miner in m.minerBindings && LastFor(settle, miner.worker, k) ==>
                  m'.miners[miner] == m.miners[miner].(v := settle[k].v, vUpdatedAt := now)))
    decreases |settle|
  {
    if settle != [] {
      var m1 := Settled(m, settle[0], now);
      OneSettled(m, settle[0], now, miner);
      BoundFrame(m, m1);
      EachSettled(m1, settle[1..], now, miner);
      var w := miner.worker;
      forall k: nat | LastFor(settle, w, k)
        ensures k > 0 ==> LastFor(settle[1..], w, k - 1)
        ensures k == 0 ==> forall i :: 0 <= i < |settle[1..]| ==> settle[1..][i].pubkey != w
      {
        assert forall i :: 0 <= i < |settle[1..]| ==> settle[1..][i] == settle[i + 1];
      }
      assert forall i :: 0 <= i < |settle[1..]| ==> settle[1..][i] == settle[i + 1];
      hide BoundBothWays, Settled;
    }
  }

  lemma OneSettled(m: Mines, info: SettleInfo, now: nat, miner: Miner)
    requires BoundBothWays(m)
    ensures var m' := Settled(m, info, now);
      && OnlyRecords(m, m')
      && (miner in m.miners ==>
            m'.miners[miner] == if miner in m.minerBindings && miner.worker == info.pubkey
                                then m.miners[miner].(v := info.v, vUpdatedAt := now) else m.miners[miner])
  {
  }

  /**
    What a message makes of a miner's record: a bound miner that is idle or unresponsive ends idle if its worker
    recovered, else unresponsive if it went offline; a bound one takes V from the last settlement for its worker. All
    else is as it was.
  */
  ghost predicate Told(info: MinerInfo, info': MinerInfo, bound: bool, w: Worker, offline: seq<Worker>,
      recovered: seq<Worker>, settle: seq<SettleInfo>, now: nat) {
    && info'.ve == info.ve && info'.coolDownStart == info.coolDownStart
    && info'.state == (if bound && Reportable(info) && w in recovered then MiningIdle
                       else if bound && Reportable(info) && w in offline then MiningUnresponsive
                       else info.state)
    && ((!bound || forall i :: 0 <= i < |settle| ==> settle[i].pubkey != w) ==>
          info'.v == info.v && info'.vUpdatedAt == info.vUpdatedAt)
    && (forall k: nat :: bound && LastFor(settle, w, k) ==> info'.v == settle[k].v && info'.vUpdatedAt == now)
  }

  lemma {:induction false} SomeLast(settle: seq<SettleInfo>, w: Worker)
    ensures (forall i :: 0 <= i < |settle| ==> settle[i].pubkey != w) || exists k: nat :: LastFor(settle, w, k)
  {
    if settle != [] {
      var n := |settle| - 1;
      if settle[n].pubkey == w {
        assert LastFor(settle, w, n);
      } else {
        SomeLast(settle[..n], w);
        if k: nat :| LastFor(settle[..n], w, k) {
          assert LastFor(settle, w, k);
        }
      }
    }
  }

  lemma RecordTold(m: Mines, offline: seq<Worker>, recovered: seq<Worker>, settle: seq<SettleInfo>, now: nat,
      miner: Miner)
    requires BoundBothWays(m) && miner in m.miners
    ensures var m1 := AllReported(m, offline, MiningUnresponsive);
      var m' := AllSettled(AllReported(m1, recovered, MiningIdle), settle, now);
      && OnlyRecords(m, m')
      && Told(m.miners[miner], m'.miners[miner], miner in m.minerBindings, miner.worker, offline, recovered, settle,
        now)
  {
    var m1 := AllReported(m, offline, MiningUnresponsive);
    var m2 := AllReported(m1, recovered, MiningIdle);
    EachReported(m, offline, MiningUnresponsive, miner);
    BoundFrame(m, m1);
    EachReported(m1, recovered, MiningIdle, miner);
    BoundFrame(m1, m2);
    EachSettled(m2, settle, now, miner);
    SomeLast(settle, miner.worker);
    hide BoundBothWays, AllReported, AllSettled, LastFor;
  }

  /** A gatekeeper's message tells each miner what is said of its worker, and credits the rewards. */
  lemma MessageReaches(c: State, offline: seq<Worker>, recovered: seq<Worker>, settle: seq<SettleInfo>,
      permill: Permill, miner: Miner)
    requires Inv(c) && miner in c.m.miners && OnReward(c.v, settle, permill).Ok?
    ensures var r := GatekeeperMessage(c, offline, recovered, settle, permill);
      && r.Ok? && OnlyRecords(c.m, r.value.m)
      && r.value == c.(m := r.value.m, v := OnReward(c.v, settle, permill).value)
      && Told(c.m.miners[miner], r.value.m.miners[miner], miner in c.m.minerBindings, miner.worker,
              offline, recovered, settle, c.now)
  {
    hide *;
    InvBindings(c);
    BindingsUnfold(c);
    RecordTold(c.m, offline, recovered, settle, c.now, miner);
    MessageComposed(c, offline, recovered, settle, permill);
  }

  lemma MessageComposed(c: State, offline: seq<Worker>, recovered: seq<Worker>, settle: seq<SettleInfo>,
      permill: Permill)
    requires OnReward(c.v, settle, permill).Ok?
    ensures var m1 := AllReported(c.m, offline, MiningUnresponsive);
      GatekeeperMessage(c, offline, recovered, settle, permill) ==
      Ok(c.(m := AllSettled(AllReported(m1, recovered, MiningIdle), settle, c.now),
            v := OnReward(c.v, settle, permill).value))
  {
    hide AllReported, AllSettled, OnReward;
  }
}
