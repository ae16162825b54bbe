/** The calls that go through both pallets, on the two objects, proved against the functions of Chain. */
module Runtime {
  import opened Base
  import opened Pool
  import opened Vault
  import opened Mining
  import opened Chain
  import opened Records
  import opened StakePallet
  import opened MiningPallet

  class Node {
    const pools: StakePools
    const mining: Miners
    // the registry pallet's workers and the time of the block
    var registry: Registry
    var now: nat
    ghost var lastFinalized: nat

    ghost predicate Valid()
      reads this, pools, pools.accounts
    {
      pools.Valid()
    }

    ghost function State(): State
      reads this, pools, pools.accounts, mining
    {
      Chain.State(pools.Snapshot(), mining.Value(), registry, pools.miningEnabled, now, lastFinalized)
    }

    constructor (slash: Slasher, time: nat)
      ensures Valid() && fresh(pools) && fresh(pools.accounts) && fresh(mining)
      ensures State() == Genesis(time) && pools.accounts.slasher == slash
    {
      pools := new StakePools(slash);
      mining := new Miners();
      registry, now, lastFinalized := map[], time, time;
    }

    // -------------------------------------------------------------- workers

    method AddWorker(owner: Account, pid: Pid, worker: Worker) returns (r: Outcome<()>)
      requires Valid()
      modifies pools`stakePools, pools`workerAssignments, mining
      ensures Valid() && Does(Chain.AddWorker(old(State()), owner, pid, worker), r, old(State()), State())
    {
      hide Mining.Bind;
      if worker !in registry {
        return Err(WorkerNotRegistered);
      }
      if registry[worker].operator != Some(owner) {
        return Err(UnauthorizedOperator);
      }
      if registry[worker].initialScore.None? {
        return Err(BenchmarkMissing);
      }
      if pid !in pools.stakePools {
        return Err(PoolDoesNotExist);
      }
      var pool := new PoolRecord(pools.stakePools[pid]);
      if pool.owner != owner {
        return Err(UnauthorizedPoolOwner);
      }
      if worker in pool.workers {
        return Err(WorkerExists);
      }
      if |pool.workers| + 1 > MAX_POOL_WORKERS {
        return Err(WorkersExceedLimit);
      }
      var bound := mining.Bind(registry, Miner(pid, worker), worker, now);
      if bound != Ok(()) {
        BindTotal(old(mining.Value()), registry, Miner(pid, worker), worker, now);
        return Err(FailedToBindMinerAndWorker);
      }
      pool.workers := pool.workers + [worker];
      pools.stakePools := pools.stakePools[pid := pool.Info()];
      pools.workerAssignments := pools.workerAssignments[worker := pid];
      return Ok(());
    }

    /** `Mining::stop_mining`, which tells the pool what the miner will give back. */
    method StopMining(miner: Miner) returns (r: Outcome<()>)
      requires Valid()
      modifies pools`stakePools, mining
      ensures Valid() && Does(Chain.StopMining(old(State()), miner), r, old(State()), State())
    {
      hide Mining.StopMiner, Vault.OnStopped;
      var worker, orig, slashed;
      r, worker, orig, slashed := mining.StopMiner(miner, now);
      if r == Ok(()) {
        var ok := pools.OnStopped(worker, orig, slashed);
        if !ok {
          r := Panic;
        }
      }
    }

    /** `Mining::unbind_miner` with the cleanup of the pool that both of its callers end with. */
    method UnbindMiner(miner: Miner) returns (r: Outcome<()>)
      requires Valid()
      modifies pools`stakePools, pools`workerAssignments, mining
      ensures Valid() && Does(Chain.UnbindMiner(old(State()), miner), r, old(State()), State())
    {
      hide Chain.StopMining, Vault.RemoveWorkerFromPool, Unbound;
      if miner !in mining.minerBindings {
        return Err(MinerNotBound);
      }
      var worker := mining.minerBindings[miner];
      if miner !in mining.miners {
        return Panic;
      }
      if !mining.miners[miner].state.CanUnbind() {
        r := StopMining(miner);
        if r != Ok(()) {
          return;
        }
      }
      if miner !in mining.minerBindings {
        return Panic;
      }
      mining.Unbind(miner);
      var ok := pools.RemoveWorkerFromPool(worker);
      r := if ok then Ok(()) else Panic;
    }

    method RemoveWorker(who: Account, pid: Pid, worker: Worker) returns (r: Outcome<()>)
      requires Valid()
      modifies pools`stakePools, pools`workerAssignments, mining
      ensures Valid() && Does(Chain.RemoveWorker(old(State()), who, pid, worker), r, old(State()), State())
    {
      hide Chain.UnbindMiner;
      if pid !in pools.stakePools {
        return Err(PoolDoesNotExist);
      }
      if pools.stakePools[pid].owner != who {
        return Err(UnauthorizedPoolOwner);
      }
      if worker !in pools.workerAssignments {
        return Err(WorkerDoesNotExist);
      }
      if pools.workerAssignments[worker] != pid {
        return Err(WorkerInAnotherPool);
      }
      r := UnbindMiner(Miner(pid, worker));
    }

    /** The operator's own way out: `Mining::unbind`. */
    method Unbind(who: Account, miner: Miner) returns (r: Outcome<()>)
      requires Valid()
      modifies pools`stakePools, pools`workerAssignments, mining
      ensures Valid() && Does(Chain.Unbind(old(State()), who, miner), r, old(State()), State())
    {
      hide Chain.UnbindMiner;
      if miner !in mining.minerBindings {
        return Err(MinerNotBound);
      }
      var worker := mining.minerBindings[miner];
      if worker !in registry {
        return Err(WorkerNotRegistered);
      }
      if registry[worker].operator != Some(who) {
        return Err(BadSender);
      }
      r := UnbindMiner(miner);
    }

    // -------------------------------------------------------------- mining

    method StartMining(owner: Account, pid: Pid, worker: Worker, stake: nat, quote: Quote) returns (r: Outcome<()>)
      requires Valid()
      modifies pools`stakePools, mining
      ensures Valid() && Does(StartPoolMining(old(State()), owner, pid, worker, stake, quote), r, old(State()), State())
    {
      hide Mining.StartMining;
      if !pools.miningEnabled {
        return Err(FeatureNotEnabled);
      }
      if pid !in pools.stakePools {
        return Err(PoolDoesNotExist);
      }
      var pool := new PoolRecord(pools.stakePools[pid]);
      if pool.owner != owner {
        return Err(UnauthorizedPoolOwner);
      }
      if pool.freeStake < stake {
        return Err(InsufficientFreeStake);
      }
      if worker !in pool.workers {
        return Err(WorkerDoesNotExist);
      }
      r := mining.StartMining(registry, Miner(pid, worker), stake, quote, now);
      if r != Ok(()) {
        return;
      }
      pool.freeStake := pool.freeStake - stake;
      pools.stakePools := pools.stakePools[pid := pool.Info()];
    }

    method StopWorker(owner: Account, pid: Pid, worker: Worker) returns (r: Outcome<()>)
      requires Valid()
      modifies pools`stakePools, mining
      ensures Valid() && Does(StopPoolMining(old(State()), owner, pid, worker), r, old(State()), State())
    {
      hide Chain.StopMining;
      if !pools.miningEnabled {
        return Err(FeatureNotEnabled);
      }
      if pid !in pools.stakePools {
        return Err(PoolDoesNotExist);
      }
      if pools.stakePools[pid].owner != owner {
        return Err(UnauthorizedPoolOwner);
      }
      if worker !in pools.stakePools[pid].workers {
        return Err(WorkerDoesNotExist);
      }
      r := StopMining(Miner(pid, worker));
    }

    method ReclaimWorker(pid: Pid, worker: Worker) returns (r: Outcome<()>)
      requires Valid()
      modifies pools`stakePools, pools`poolStakers, pools`audits, pools.accounts, mining
      ensures Valid()
      ensures Does(ReclaimPoolWorker(old(State()), pid, worker, pools.accounts.slasher), r, old(State()), State())
    {
      hide ReclaimMiner, Vault.HandleReclaim;
      if pid !in pools.stakePools {
        return Err(PoolDoesNotExist);
      }
      var orig, slashed;
      r, orig, slashed := mining.Reclaim(Miner(pid, worker), now);
      if r == Ok(()) {
        r := pools.HandleReclaim(pid, orig, slashed);
      }
    }

    method OnGatekeeperMessage(offline: seq<Worker>, recovered: seq<Worker>, settle: seq<SettleInfo>, permill: Permill)
      returns (r: Outcome<()>)
      requires Valid()
      modifies pools`stakePools, pools`audits, mining
      ensures Valid()
      ensures Does(GatekeeperMessage(old(State()), offline, recovered, settle, permill), r, old(State()), State())
    {
      hide AllReported, AllSettled, Vault.OnReward;
      mining.Report(offline, MiningUnresponsive);
      mining.Report(recovered, MiningIdle);
      mining.Settle(settle, now);
      var ok := pools.OnReward(settle, permill);
      r := if ok then Ok(()) else Panic;
    }

    // -------------------------------------------------------------- forced withdrawals

    /** Stops every worker's miner; the error of a miner that cannot be stopped is ignored. */
    method StopAllWorkers(pid: Pid, workers: seq<Worker>) returns (ok: bool)
      requires Valid()
      modifies pools`stakePools, mining
      ensures Valid()
      ensures var r := StopAll(old(State()), pid, workers);
        ok == r.Ok? && (ok ==> State() == r.value) && (!ok ==> r == Panic)
    {
      hide Chain.StopMining;
      var i := 0;
      while i < |workers|
        invariant i <= |workers| && Valid()
        invariant StopAll(old(State()), pid, workers) == StopAll(State(), pid, workers[i..])
      {
        assert workers[i..][1..] == workers[i + 1..];
        var r := StopMining(Miner(pid, workers[i]));
        if r == Panic {
          return false;
        }
        i := i + 1;
      }
      assert workers[i..] == [];
      return true;
    }

    /** The pools listed under one time; `found` collects those with an expired request. */
    method ForceListed(pids: seq<Pid>, ghost before: set<Pid>) returns (ok: bool, ghost found: set<Pid>)
      requires Valid()
      modifies pools`stakePools, mining
      ensures Valid()
      ensures var r := ForcePools(Forced(old(State()), before), pids);
        ok == r.Ok? && (ok ==> Forced(State(), found) == r.value) && (!ok ==> r == Panic)
    {
      hide StopAll, HasExpiredWithdrawal;
      found := before;
      var i := 0;
      while i < |pids|
        invariant i <= |pids| && Valid()
        invariant ForcePools(Forced(old(State()), before), pids) == ForcePools(Forced(State(), found), pids[i..])
      {
        assert pids[i..][1..] == pids[i + 1..];
        if pids[i] !in pools.stakePools {
          ok := false;
          return;
        }
        var pool := new PoolRecord(pools.stakePools[pids[i]]);
        var expired := pool.FindExpiredWithdrawal(now, GRACE_PERIOD);
        if expired {
          ok := StopAllWorkers(pids[i], pool.workers);
          if !ok {
            return;
          }
          found := found + {pids[i]};
        }
        i := i + 1;
      }
      assert pids[i..] == [];
      ok := true;
    }

    /** One round of `maybe_force_withdraw`: the pools listed under the oldest time of `t`. */
    method ForceOldest(t: seq<nat>, ghost before: set<Pid>) returns (ok: bool, ghost found: set<Pid>)
      requires Valid() && t != [] && now - t[0] > GRACE_PERIOD
      modifies pools`stakePools, pools`withdrawalQueuedPools, mining
      ensures Valid()
      ensures var r := ForceWithdraw(Forced(WithTimes(old(State()), t), before));
        if ok then r == ForceWithdraw(Forced(WithTimes(State(), t[1..]), found)) else r == Panic
    {
      hide ForcePools;
      found := before;
      if t[0] !in pools.withdrawalQueuedPools {
        ok := false;
        return;
      }
      var pids := pools.withdrawalQueuedPools[t[0]];
      pools.withdrawalQueuedPools := pools.withdrawalQueuedPools - {t[0]};
      ForcePoolsRetimed(Forced(State(), found), t[1..], pids);
      ok, found := ForceListed(pids, found);
    }

    /** `maybe_force_withdraw`: the times are popped off a copy that is written back at the end. */
    method OnFinalize() returns (ok: bool)
      requires Valid()
      modifies this`lastFinalized, pools`stakePools, pools`withdrawalTimestamps, pools`withdrawalQueuedPools, mining
      ensures Valid()
      ensures var r := Finalize(old(State()));
        ok == r.Ok? && (ok ==> State() == r.value) && (!ok ==> r == Panic)
    {
      lastFinalized := now;
      ghost var start := State();
      ghost var found := {};
      var t := pools.withdrawalTimestamps;
      ok := true;
      while t != [] && now - t[0] > GRACE_PERIOD
        invariant Valid()
        invariant ForceWithdraw(Forced(start, {})) == ForceWithdraw(Forced(WithTimes(State(), t), found))
        decreases |t|
      {
        hide ForceWithdraw, WithTimes;
        ok, found := ForceOldest(t, found);
        if !ok {
          return;
        }
        t := t[1..];
      }
      pools.withdrawalTimestamps := t;
      ok := true;
    }
  }

  // ---------------------------------------------------------------- the index during the loop

  /** The state with another list of times: what `maybe_force_withdraw` sees is not yet written back. */
  function WithTimes(c: Chain.State, t: seq<nat>): Chain.State {
    c.(v := c.v.(timestamps := t))
  }

  function Retimed(r: Outcome<Chain.State>, t: seq<nat>): Outcome<Chain.State> {
    if r.Ok? then Ok(WithTimes(r.value, t)) else r
  }

  function RetimedForced(r: Outcome<Forced>, t: seq<nat>): Outcome<Forced> {
    if r.Ok? then Ok(Forced(WithTimes(r.value.c, t), r.value.found)) else r
  }

  lemma StopMiningRetimed(c: Chain.State, t: seq<nat>, miner: Miner)
    ensures StopMining(WithTimes(c, t), miner) == Retimed(StopMining(c, miner), t)
  {
    hide StopMiner;
  }

  lemma {:induction false} StopAllRetimed(c: Chain.State, t: seq<nat>, pid: Pid, workers: seq<Worker>)
    ensures StopAll(WithTimes(c, t), pid, workers) == Retimed(StopAll(c, pid, workers), t)
    decreases |workers|
  {
    hide StopMining;
    if workers != [] {
      StopMiningRetimed(c, t, Miner(pid, workers[0]));
      var r := StopMining(c, Miner(pid, workers[0]));
      StopAllRetimed(if r.Ok? then r.value else c, t, pid, workers[1..]);
    }
  }

  /** Forcing the pools of one time does not look at the times. */
  lemma {:induction false} ForcePoolsRetimed(f: Forced, t: seq<nat>, pids: seq<Pid>)
    ensures ForcePools(Forced(WithTimes(f.c, t), f.found), pids) == RetimedForced(ForcePools(f, pids), t)
    decreases |pids|
  {
    hide StopAll, HasExpiredWithdrawal;
    if pids != [] && pids[0] in f.c.v.pools {
      var pool := f.c.v.pools[pids[0]];
      StopAllRetimed(f.c, t, pids[0], pool.workers);
      if HasExpiredWithdrawal(pool, f.c.now, GRACE_PERIOD) {
        var r := StopAll(f.c, pids[0], pool.workers);
        if r.Ok? {
          ForcePoolsRetimed(Forced(r.value, f.found + {pids[0]}), t, pids[1..]);
        }
      } else {
        ForcePoolsRetimed(f, t, pids[1..]);
      }
    }
  }

  lemma BindTotal(m: Mines, registry: Registry, miner: Miner, worker: Worker, now: nat)
    ensures var r := Bind(m, registry, miner, worker, now); r.Ok? || r.Err?
  {
  }
}
