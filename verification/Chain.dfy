/** The stake pool and mining pallets together: every call, callback and block hook as one step. */
module Chain {
  import opened Base
  import opened Pool
  import opened Vault
  import opened Mining

  /** `now` is the block's time; `lastFinalized` is the time at which `on_finalize` last ran. */
  datatype State = State(
    v: Store,
    m: Mines,
    registry: Registry,
    miningEnabled: bool,
    now: nat,
    lastFinalized: nat)

  function Genesis(now: nat): State {
    State(Store(map[], map[], 0, map[], map[], map[], map[], map[], [], map[], map[]),
          Mines(map[], map[], map[], map[], 0, 0), map[], false, now, now)
  }

  // ---------------------------------------------------------------- workers

  function AddWorker(c: State, who: Account, pid: Pid, worker: Worker): Outcome<State> {
    if worker !in c.registry then Err(WorkerNotRegistered)
    else if c.registry[worker].operator != Some(who) then Err(UnauthorizedOperator)
    else if c.registry[worker].initialScore.None? then Err(BenchmarkMissing)
    else if pid !in c.v.pools then Err(PoolDoesNotExist)
    else if c.v.pools[pid].owner != who then Err(UnauthorizedPoolOwner)
    else if worker in c.v.pools[pid].workers then Err(WorkerExists)
    else if |c.v.pools[pid].workers| + 1 > MAX_POOL_WORKERS then Err(WorkersExceedLimit)
    else
      var bound := Bind(c.m, c.registry, Miner(pid, worker), worker, c.now);
      if !bound.Ok? then Err(FailedToBindMinerAndWorker)
      else
        var pool := c.v.pools[pid];
        Ok(c.(m := bound.value,
              v := SavePool(c.v, pid, pool.(workers := pool.workers + [worker])).(
                     assignments := c.v.assignments[worker := pid])))
  }

  /** `stop_mining` with its callback: the pool learns what the miner will give back. */
  function StopMining(c: State, miner: Miner): (r: Outcome<State>)
    ensures r != Diverge
    ensures r.Ok? ==> r.value.v.timestamps == c.v.timestamps
  {
    var stop :- StopMiner(c.m, miner, c.now);
    var v :- OnStopped(c.v, stop.worker, stop.orig, stop.slashed);
    Ok(c.(m := stop.mines, v := v))
  }

  /** `unbind_miner` with the pool's cleanup, which both of its callers end with. */
  function UnbindMiner(c: State, miner: Miner): Outcome<State> {
    if miner !in c.m.minerBindings then Err(MinerNotBound)
    else if miner !in c.m.miners then Panic
    else
      var worker := c.m.minerBindings[miner];
      var c1 :- if c.m.miners[miner].state.CanUnbind() then Ok(c) else StopMining(c, miner);
      if miner !in c1.m.minerBindings then Panic
      else
        var v :- RemoveWorkerFromPool(c1.v, worker);
        Ok(c1.(m := Unbound(c1.m, miner), v := v))
  }

  function RemoveWorker(c: State, who: Account, pid: Pid, worker: Worker): Outcome<State> {
    if pid !in c.v.pools then Err(PoolDoesNotExist)
    else if c.v.pools[pid].owner != who then Err(UnauthorizedPoolOwner)
    else if worker !in c.v.assignments then Err(WorkerDoesNotExist)
    else if c.v.assignments[worker] != pid then Err(WorkerInAnotherPool)
    else UnbindMiner(c, Miner(pid, worker))
  }

  /** The operator's own way out: `Mining::unbind`. */
  function Unbind(c: State, who: Account, miner: Miner): Outcome<State> {
    if miner !in c.m.minerBindings then Err(MinerNotBound)
    else if c.m.minerBindings[miner] !in c.registry then Err(WorkerNotRegistered)
    else if c.registry[c.m.minerBindings[miner]].operator != Some(who) then Err(BadSender)
    else UnbindMiner(c, miner)
  }

  // ---------------------------------------------------------------- mining

  function StartPoolMining(c: State, who: Account, pid: Pid, worker: Worker, stake: nat, quote: Quote): Outcome<State> {
    if !c.miningEnabled then Err(FeatureNotEnabled)
    else if pid !in c.v.pools then Err(PoolDoesNotExist)
    else if c.v.pools[pid].owner != who then Err(UnauthorizedPoolOwner)
    else if c.v.pools[pid].freeStake < stake then Err(InsufficientFreeStake)
    else if worker !in c.v.pools[pid].workers then Err(WorkerDoesNotExist)
    else
      var m :- StartMining(c.m, c.registry, Miner(pid, worker), stake, quote, c.now);
      var pool := c.v.pools[pid];
      Ok(c.(m := m, v := SavePool(c.v, pid, pool.(freeStake := pool.freeStake - stake))))
  }

  function StopPoolMining(c: State, who: Account, pid: Pid, worker: Worker): Outcome<State> {
    if !c.miningEnabled then Err(FeatureNotEnabled)
    else if pid !in c.v.pools then Err(PoolDoesNotExist)
    else if c.v.pools[pid].owner != who then Err(UnauthorizedPoolOwner)
    else if worker !in c.v.pools[pid].workers then Err(WorkerDoesNotExist)
    else StopMining(c, Miner(pid, worker))
  }

  function ReclaimPoolWorker(c: State, pid: Pid, worker: Worker, slash: Slasher): Outcome<State> {
    if pid !in c.v.pools then Err(PoolDoesNotExist)
    else
      var reclaim :- ReclaimMiner(c.m, Miner(pid, worker), c.now);
      var v :- HandleReclaim(c.v, pid, reclaim.orig, reclaim.slashed, slash);
      Ok(c.(m := reclaim.mines, v := v))
  }

  /** A message of the gatekeeper: reports, settlements, then the rewards. */
  function GatekeeperMessage(c: State, offline: seq<Worker>, recovered: seq<Worker>, settle: seq<SettleInfo>,
      permill: Permill)
    : Outcome<State>
  {
    var m1 := AllReported(c.m, offline, MiningUnresponsive);
    var m2 := AllReported(m1, recovered, MiningIdle);
    var m3 := AllSettled(m2, settle, c.now);
    var v :- OnReward(c.v, settle, permill);
    Ok(c.(m := m3, v := v))
  }

  // ---------------------------------------------------------------- forced withdrawals

  /** Stops every miner of a pool; a miner that cannot be stopped is passed over. */
  function StopAll(c: State, pid: Pid, workers: seq<Worker>): (r: Outcome<State>)
    ensures r.Ok? ==> r.value.v.timestamps == c.v.timestamps
    decreases |workers|
  {
    if workers == [] then Ok(c)
    else
      var r := StopMining(c, Miner(pid, workers[0]));
      if r.Panic? || r.Diverge? then r
      else StopAll(if r.Ok? then r.value else c, pid, workers[1..])
  }

  /** A state and the pools found to have an expired request on the way to it. */
  datatype Forced = Forced(c: State, found: set<Pid>)

  function ForcePools(f: Forced, pids: seq<Pid>): (r: Outcome<Forced>)
    ensures r.Ok? ==> r.value.c.v.timestamps == f.c.v.timestamps
    decreases |pids|
  {
    if pids == [] then Ok(f)
    else if pids[0] !in f.c.v.pools then Panic
    else
      var pool := f.c.v.pools[pids[0]];
      if HasExpiredWithdrawal(pool, f.c.now, GRACE_PERIOD) then
        var c :- StopAll(f.c, pids[0], pool.workers);
        ForcePools(Forced(c, f.found + {pids[0]}), pids[1..])
      else ForcePools(f, pids[1..])
  }

  /** `maybe_force_withdraw`: takes the times past the grace period off the front of the index. */
  function ForceWithdraw(f: Forced): Outcome<Forced>
    decreases |f.c.v.timestamps|
  {
    var t := f.c.v.timestamps;
    if t == [] || f.c.now - t[0] <= GRACE_PERIOD then Ok(f)
    else if t[0] !in f.c.v.queuedPools then Panic
    else
      var c := f.c.(v := f.c.v.(queuedPools := f.c.v.queuedPools - {t[0]}, timestamps := t[1..]));
      var g :- ForcePools(Forced(c, f.found), f.c.v.queuedPools[t[0]]);
      ForceWithdraw(g)
  }

  function Finalize(c: State): Outcome<State> {
    var f :- ForceWithdraw(Forced(c.(lastFinalized := c.now), {}));
    Ok(f.c)
  }

  // ---------------------------------------------------------------- steps and runs

  datatype Action =
    | ActCreate(who: Account)
    | ActAddWorker(who: Account, pid: Pid, worker: Worker)
    | ActRemoveWorker(who: Account, pid: Pid, worker: Worker)
    | ActUnbind(who: Account, miner: Miner)
    | ActSetCap(who: Account, pid: Pid, cap: nat)
    | ActSetPayoutPref(who: Account, pid: Pid, rate: nat)
    | ActClaimRewards(who: Account, pid: Pid, target: Account, funded: bool)
    | ActContribute(who: Account, pid: Pid, amount: nat)
    | ActWithdraw(who: Account, pid: Pid, shares: nat)
    | ActStartMining(who: Account, pid: Pid, worker: Worker, stake: nat, quote: Quote)
    | ActStopMining(who: Account, pid: Pid, worker: Worker)
    | ActReclaim(pid: Pid, worker: Worker)
    | ActReconcile(pid: Pid, who: Account)
    | ActGatekeeper(offline: seq<Worker>, recovered: seq<Worker>, settle: seq<SettleInfo>)
    | ActFinalize
    // the world around the two pallets
    | ActSetMiningEnable(on: bool)
    | ActSetCoolDown(period: nat)
    | ActRegister(worker: Worker, info: WorkerInfo)
    | ActReceive(who: Account, amount: nat)
    | ActSpend(who: Account, amount: nat)
    | ActAdvance(seconds: nat)

  /** The library operations a step may use. */
  datatype Oracle = Oracle(slash: Slasher, permill: Permill)

  function WithStore(c: State, v: Outcome<Store>): Outcome<State> {
    var v' :- v;
    Ok(c.(v := v'))
  }

  /** An account's free balance after a payment that has nothing to do with staking. */
  function Paying(v: Store, who: Account, amount: nat): Store {
    v.(free := Put(v.free, who, amount))
  }

  function Step(c: State, a: Action, o: Oracle): Outcome<State> {
    match a
    case ActCreate(who) => Ok(c.(v := Create(c.v, who)))
    case ActAddWorker(who, pid, worker) => AddWorker(c, who, pid, worker)
    case ActRemoveWorker(who, pid, worker) => RemoveWorker(c, who, pid, worker)
    case ActUnbind(who, miner) => Unbind(c, who, miner)
    case ActSetCap(who, pid, cap) => WithStore(c, SetCap(c.v, who, pid, cap))
    case ActSetPayoutPref(who, pid, rate) => WithStore(c, SetPayoutPref(c.v, who, pid, rate))
    case ActClaimRewards(who, pid, target, funded) => WithStore(c, ClaimRewards(c.v, who, pid, target, funded))
    case ActContribute(who, pid, amount) => WithStore(c, Contribute(c.v, who, pid, amount, o.slash))
    case ActWithdraw(who, pid, shares) => WithStore(c, Withdraw(c.v, who, pid, shares, c.now, o.slash))
    case ActStartMining(who, pid, worker, stake, quote) => StartPoolMining(c, who, pid, worker, stake, quote)
    case ActStopMining(who, pid, worker) => StopPoolMining(c, who, pid, worker)
    case ActReclaim(pid, worker) => ReclaimPoolWorker(c, pid, worker, o.slash)
    case ActReconcile(pid, who) => WithStore(c, Reconcile(c.v, pid, who))
    case ActGatekeeper(offline, recovered, settle) => GatekeeperMessage(c, offline, recovered, settle, o.permill)
    case ActFinalize => Finalize(c)
    case ActSetMiningEnable(on) => Ok(c.(miningEnabled := on))
    case ActSetCoolDown(period) => Ok(c.(m := c.m.(coolDownPeriod := period)))
    case ActRegister(worker, info) => Ok(c.(registry := c.registry[worker := info]))
    case ActReceive(who, amount) => Ok(c.(v := Paying(c.v, who, Get(c.v.free, who) + amount)))
    case ActSpend(who, amount) =>
      // the staking lock keeps the locked part of a balance from being spent
      if Get(c.v.free, who) < Get(c.v.lock, who) + amount then Err(InsufficientBalance)
      else Ok(c.(v := Paying(c.v, who, Get(c.v.free, who) - amount)))
    case ActAdvance(seconds) => Ok(c.(now := c.now + seconds))
  }

  datatype Move = Move(action: Action, oracle: Oracle)

  /** A call that fails leaves the storage as it was. */
  function After(c: State, move: Move): State {
    var r := Step(c, move.action, move.oracle);
    if r.Ok? then r.value else c
  }

  function Run(c: State, moves: seq<Move>): State
    decreases |moves|
  {
    if moves == [] then c else Run(After(c, moves[0]), moves[1..])
  }
}
