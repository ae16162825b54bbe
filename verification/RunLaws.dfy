/** What holds after every run of the two pallets. */
module RunLaws {
  import opened Base
  import opened FixedPoint
  import opened Sums
  import opened Pool
  import opened PoolLaws
  import opened Vault
  import opened VaultLaws
  import opened QueueLaws
  import opened CallLaws
  import opened RewardLaws
  import opened ReclaimLaws
  import opened Mining
  import opened Tokenomic
  import opened Chain
  import opened ExpiryLaws
  import opened ChainLaws
  import opened MinerLaws
  import opened FinalizeLaws
  import opened StepLaws
  import opened SafetyLaws

  // ---------------------------------------------------------------- the invariant along a run

  /** Every move of the run is admissible where it is made. */
  ghost predicate AdmissibleRun(c: State, moves: seq<Move>)
    decreases |moves|
  {
    moves == [] || (Admissible(c, moves[0].action) && AdmissibleRun(After(c, moves[0]), moves[1..]))
  }

  lemma MoveKeeps(c: State, move: Move)
    requires Inv(c) && Admissible(c, move.action)
    ensures Inv(After(c, move))
  {
    hide Inv, Step, Admissible;
    if Step(c, move.action, move.oracle).Ok? {
      StepKeeps(c, move.action, move.oracle);
    }
  }

  lemma {:induction false} RunKeeps(c: State, moves: seq<Move>)
    requires Inv(c) && AdmissibleRun(c, moves)
    ensures Inv(Run(c, moves))
    decreases |moves|
  {
    hide Inv, Admissible, After;
    if moves != [] {
      MoveKeeps(c, moves[0]);
      RunKeeps(After(c, moves[0]), moves[1..]);
    }
  }

  lemma {:induction false} RunAppend(c: State, moves: seq<Move>, move: Move)
    ensures Run(c, moves + [move]) == After(Run(c, moves), move)
    decreases |moves|
  {
    hide After;
    if moves == [] {
      assert [move][1..] == [];
    } else {
      assert (moves + [move])[1..] == moves[1..] + [move];
      RunAppend(After(c, moves[0]), moves[1..], move);
    }
  }

  /** From the empty chain, the invariant holds after every admissible run. */
  lemma EveryRunKeeps(now: nat, moves: seq<Move>)
    requires AdmissibleRun(Genesis(now), moves)
    ensures Inv(Run(Genesis(now), moves))
  {
    hide *;
    GenesisOk(now);
    RunKeeps(Genesis(now), moves);
  }

  // ---------------------------------------------------------------- owned requests along a run

  /** No withdrawal of the run leaves the caller with a request its shares no longer cover. */
  ghost predicate CoveringRun(c: State, moves: seq<Move>)
    decreases |moves|
  {
    moves == [] || (LeavesCover(c, moves[0].action) && CoveringRun(After(c, moves[0]), moves[1..]))
  }

  /** No step of the run panics, and those that hang are exactly those whose pool's queue then hangs. */
  ghost predicate SafeRun(c: State, moves: seq<Move>)
    decreases |moves|
  {
    moves == [] ||
    (var r := Step(c, moves[0].action, moves[0].oracle);
     && r != Panic
     && (r == Diverge <==> Hangs(c, moves[0].action, moves[0].oracle))
     && SafeRun(After(c, moves[0]), moves[1..]))
  }

  lemma MoveSafe(c: State, move: Move)
    requires Inv(c) && AllWithin(c.v) && Admissible(c, move.action) && LeavesCover(c, move.action)
    ensures var r := Step(c, move.action, move.oracle);
      && r != Panic && (r == Diverge <==> Hangs(c, move.action, move.oracle))
      && AllWithin(After(c, move).v)
  {
    hide Inv, AllWithin, Step, Admissible, LeavesCover, Hangs;
    StepSafe(c, move.action, move.oracle);
  }

  lemma {:induction false} OwnedRunIsSafe(c: State, moves: seq<Move>)
    requires Inv(c) && AllWithin(c.v) && AdmissibleRun(c, moves) && CoveringRun(c, moves)
    ensures SafeRun(c, moves) && AllWithin(Run(c, moves).v)
    decreases |moves|
  {
    hide Inv, AllWithin, Step, Admissible, LeavesCover, After, Hangs;
    if moves != [] {
      MoveKeeps(c, moves[0]);
      MoveSafe(c, moves[0]);
      OwnedRunIsSafe(After(c, moves[0]), moves[1..]);
    }
  }

  /** No `expect` fires and nothing underflows on a run whose withdrawals keep requests owned. */
  lemma EveryOwnedRunIsSafe(now: nat, moves: seq<Move>)
    requires AdmissibleRun(Genesis(now), moves) && CoveringRun(Genesis(now), moves)
    ensures SafeRun(Genesis(now), moves) && AllWithin(Run(Genesis(now), moves).v)
  {
    hide Inv, CoveringRun, SafeRun, AdmissibleRun, Run;
    GenesisOk(now);
    OwnedRunIsSafe(Genesis(now), moves);
  }

  /**
    Issue 527: at a price of one half, with 1000 pico free, an account that has all of its
    5000 shares queued withdraws 1500 at once and keeps the request for 5000. A run from the empty
    chain to such a withdrawal is `FaultLaws.RequestNobodyOwns`.
  */
  lemma WithdrawalOrphansRequest(v: Store, pid: Pid, who: Account, now: nat, slash: Slasher, staked: map<Pid, nat>)
    requires Sound(v, staked) && AllWithin(v) && pid in v.pools && (pid, who) in v.stakers
    requires v.stakers[(pid, who)].shares == 5000
    requires v.pools[pid].totalShares == 10000 && v.pools[pid].totalStake == 5000 && v.pools[pid].freeStake == 1000
    requires v.pools[pid].withdrawQueue == [WithdrawInfo(who, 5000, 0)]
    ensures var r := Withdraw(v, who, pid, 1500, now, slash); r.Ok? && !AllWithin(r.value)
  {
    hide Sound, AllWithin, Withdraw, OnlyPool;
    OrphansRequest(v, pid, who);
    WithdrawKeeps(v, who, pid, 1500, now, slash, staked);
    WithdrawFails(v, who, pid, 1500, now, slash);
    WithdrawOwned(v, who, pid, 1500, now, slash, staked);
  }

  lemma OrphansRequest(v: Store, pid: Pid, who: Account)
    requires pid in v.pools && (pid, who) in v.stakers && v.stakers[(pid, who)].shares == 5000
    requires v.pools[pid].totalShares == 10000 && v.pools[pid].totalStake == 5000 && v.pools[pid].freeStake == 1000
    requires v.pools[pid].withdrawQueue == [WithdrawInfo(who, 5000, 0)]
    ensures !KeepsCover(v, pid, who, 1500)
  {
    assert SharePrice(v.pools[pid]) == Some(FixDiv(ToFixed(5000), ToFixed(10000)));
    assert ToFixed(5000) == 92233720368 && ToFixed(10000) == 184467440737;
    assert FixDiv(92233720368, 184467440737) == 9223372036804775807;
    assert v.pools[pid].withdrawQueue[0] == WithdrawInfo(who, 5000, 0);
    assert AfterWithdrawal(v, pid, who, 1500) == 3500;
  }

  lemma WithdrawFails(v: Store, who: Account, pid: Pid, shares: nat, now: nat, slash: Slasher)
    ensures Withdraw(v, who, pid, shares, now, slash).Err? <==>
      || (pid, who) !in v.stakers || CloseToZero(shares) || shares > v.stakers[(pid, who)].shares || pid !in v.pools
  {
    hide SettleReward, Release;
    if (pid, who) in v.stakers && pid in v.pools {
      NeverErr(Load(v, who, v.pools[pid], v.stakers[(pid, who)]), shares, now, slash);
      hide TryWithdraw;
    }
  }

  lemma NeverErr(d: Desk, shares: nat, now: nat, slash: Slasher)
    ensures !TryWithdraw(d, shares, now, slash).Err?
  {
    hide Mul, Div;
  }

  // ---------------------------------------------------------------- the slash prediction

  lemma PoolStepLeavesMiners(c: State, a: Action, o: Oracle)
    requires OfStakePool(a) && Step(c, a, o).Ok?
    ensures Step(c, a, o).value.m == c.m
  {
    hide Create, SetCap, SetPayoutPref, ClaimRewards, Contribute, Withdraw, Reconcile;
  }

  lemma WorldStepLeavesMiners(c: State, a: Action, o: Oracle)
    requires !OfStakePool(a) && !OfMiners(a) && Step(c, a, o).Ok?
    ensures CoolingKept(c.m, Step(c, a, o).value.m)
  {
  }

  /** The record and the stake that decide what a cooling miner returns. */
  ghost predicate CoolsAs(m: Mines, miner: Miner, info: MinerInfo, stake: nat) {
    && miner in m.miners && m.miners[miner] == info && info.state.MiningCoolingDown?
    && miner in m.stakes && m.stakes[miner] == stake
  }

  lemma KeptCoolsAs(m: Mines, m': Mines, pools: set<Pid>, miner: Miner, info: MinerInfo, stake: nat)
    requires CoolsAs(m, miner, info, stake) && CoolingKept(m, m') && MinesOk(m', pools)
    ensures CoolsAs(m', miner, info, stake)
  {
    assert Cooling(m, miner);
  }

  lemma ReclaimLeavesOthers(c: State, pid: Pid, worker: Worker, slash: Slasher, miner: Miner, info: MinerInfo,
      stake: nat)
    requires Inv(c) && CoolsAs(c.m, miner, info, stake) && miner != Miner(pid, worker)
    requires ReclaimPoolWorker(c, pid, worker, slash).Ok?
    ensures CoolsAs(ReclaimPoolWorker(c, pid, worker, slash).value.m, miner, info, stake)
  {
    hide *;
    InvParts(c);
    ReclaimStep(c, pid, worker, slash);
    var other := Miner(pid, worker);
    WithStoreIs(c.(m := ReclaimedMines(c.m, other)),
                HandleReclaim(c.v, pid, c.m.stakes[other], c.m.stakes[other] - Expected(c.m, other), slash));
    OthersCoolAs(c.m, other, miner, info, stake);
  }

  lemma OthersCoolAs(m: Mines, other: Miner, miner: Miner, info: MinerInfo, stake: nat)
    requires CoolsAs(m, miner, info, stake) && miner != other
    ensures CoolsAs(ReclaimedMines(m, other), miner, info, stake)
  {
  }

  lemma StepCoolsAs(c: State, a: Action, o: Oracle, miner: Miner, info: MinerInfo, stake: nat)
    requires Inv(c) && Admissible(c, a) && Step(c, a, o).Ok? && CoolsAs(c.m, miner, info, stake)
    requires a != ActReclaim(miner.pid, miner.worker)
    ensures CoolsAs(Step(c, a, o).value.m, miner, info, stake)
  {
    hide *;
    StepKeeps(c, a, o);
    InvParts(Step(c, a, o).value);
    var m' := Step(c, a, o).value.m;
    if OfStakePool(a) {
      PoolStepLeavesMiners(c, a, o);
    } else if a.ActReclaim? {
      StepOfReclaim(c, a, o);
      ReclaimLeavesOthers(c, a.pid, a.worker, o.slash, miner, info, stake);
    } else {
      if OfMiners(a) {
        MinerStepQuiet(c, a, o);
      } else {
        WorldStepLeavesMiners(c, a, o);
      }
      KeptCoolsAs(c.m, m', Step(c, a, o).value.v.pools.Keys, miner, info, stake);
    }
  }

  lemma StepOfReclaim(c: State, a: Action, o: Oracle)
    requires a.ActReclaim?
    ensures Step(c, a, o) == ReclaimPoolWorker(c, a.pid, a.worker, o.slash)
  {
    hide ReclaimPoolWorker;
  }

  /** No reclaim of the miner succeeds along the run; anybody may try one in vain. */
  ghost predicate NeverReclaimed(c: State, moves: seq<Move>, miner: Miner)
    decreases |moves|
  {
    moves == [] ||
    (&& !(moves[0].action == ActReclaim(miner.pid, miner.worker) && Step(c, moves[0].action, moves[0].oracle).Ok?)
     && NeverReclaimed(After(c, moves[0]), moves[1..], miner))
  }

  lemma {:induction false} RunCoolsAs(c: State, moves: seq<Move>, miner: Miner, info: MinerInfo, stake: nat)
    requires Inv(c) && AdmissibleRun(c, moves) && CoolsAs(c.m, miner, info, stake)
    requires NeverReclaimed(c, moves, miner)
    ensures CoolsAs(Run(c, moves).m, miner, info, stake)
    decreases |moves|
  {
    hide Inv, Admissible, Step, CoolsAs;
    if moves != [] {
      MoveKeeps(c, moves[0]);
      if Step(c, moves[0].action, moves[0].oracle).Ok? {
        StepCoolsAs(c, moves[0].action, moves[0].oracle, miner, info, stake);
      }
      RunCoolsAs(After(c, moves[0]), moves[1..], miner, info, stake);
    }
  }

  lemma StoppedCoolsAs(c: State, miner: Miner)
    requires miner in c.m.miners && c.m.onlineMiners > 0 && miner in c.m.stakes
    ensures var m' := StoppedMines(c.m, miner, c.now); CoolsAs(m', miner, m'.miners[miner], c.m.stakes[miner])
  {
  }

  lemma CoolsAsExpects(m: Mines, m': Mines, miner: Miner, info: MinerInfo, stake: nat)
    requires CoolsAs(m, miner, info, stake) && CoolsAs(m', miner, info, stake)
    ensures Expected(m', miner) == Expected(m, miner) && m'.stakes[miner] == m.stakes[miner]
  {
  }

  /**
    The stake and the slash that `on_stopped` is told are those that `reclaim` later returns,
    whatever happens in between.
  */
  lemma PredictionIsExact(c: State, miner: Miner, moves: seq<Move>)
    requires Inv(c) && StopMining(c, miner).Ok?
    requires AdmissibleRun(StopMining(c, miner).value, moves)
    requires NeverReclaimed(StopMining(c, miner).value, moves, miner)
    ensures StopMiner(c.m, miner, c.now).Ok?
    ensures var stop, d := StopMiner(c.m, miner, c.now).value, Run(StopMining(c, miner).value, moves);
      var reclaim := ReclaimMiner(d.m, miner, d.now);
      reclaim.Ok? ==> reclaim.value.orig == stop.orig && reclaim.value.slashed == stop.slashed
  {
    hide *;
    InvParts(c);
    StopEffects(c, miner);
    StopKeeps(c, miner);
    StopMinerEffects(c.m, c.v.pools.Keys, miner, c.now);
    StoppedMinesOk(c.m, c.v.pools.Keys, miner, c.now);
    StoppedStateIs(c, miner);
    StoppedCoolsAs(c, miner);
    var c1 := StopMining(c, miner).value;
    var d := Run(c1, moves);
    RunKeeps(c1, moves);
    InvParts(d);
    RunCoolsAs(c1, moves, miner, c1.m.miners[miner], c.m.stakes[miner]);
    ReclaimEffects(d.m, d.v.pools.Keys, miner, d.now);
    CoolsAsExpects(c1.m, d.m, miner, c1.m.miners[miner], c.m.stakes[miner]);
  }

  // ---------------------------------------------------------------- what the invariant means

  /** The stake of every pool is what is free plus its miners' stakes, or the pool is bankrupt. */
  lemma StakeIsConserved(c: State, pid: Pid)
    requires Inv(c) && pid in c.v.pools
    ensures var pool, staked := c.v.pools[pid], Sum(StakesIn(c.m.stakes, pid));
      || pool.totalStake == pool.freeStake + staked
      || (pool.totalStake == 0 && staked == 0 && pool.freeStake <= DUST && pool.totalShares > 0)
  {
    InvParts(c);
    SoundBacks(c.v, StakedMap(c), pid);
    hide Inv, StakesIn;
  }

  /** Paying out every share at its price takes no more than the pool's stake, dust and floors included. */
  lemma SharesAreSolvent(c: State, pid: Pid)
    requires Inv(c) && pid in c.v.pools && SharePrice(c.v.pools[pid]).Some?
    ensures c.v.pools[pid].totalShares == Sum(SharesIn(c.v.stakers, pid))
    ensures Sum(ValuesIn(c.v.stakers, pid, SharePrice(c.v.pools[pid]).value)) <= c.v.pools[pid].totalStake
  {
    hide Inv, ValuesIn, SharesIn, SharePrice, StakedMap;
    InvParts(c);
    SoundParts(c.v, StakedMap(c));
    hide Sound;
    SharesNeverOverdraw(c.v, pid);
  }

  lemma RewardsAreSolvent(c: State, pid: Pid)
    requires Inv(c) && pid in c.v.pools
    ensures var pool, audit := c.v.pools[pid], AuditOf(c.v, pid);
      audit.paid + pool.ownerReward + Sum(ClaimableIn(c.v.stakers, pid, pool.rewardAcc))
      <= audit.received + 2 * audit.changes
    ensures forall who :: (pid, who) in c.v.stakers ==>
      Claimable(c.v.stakers[(pid, who)], c.v.pools[pid].rewardAcc) >= 0
  {
    hide Inv, ClaimableIn, Mul, StakedMap, SharesAgree, AllCovered, AllSolvent, Indexed, MinesOk, ReleasingOk,
         BindingsOk;
    InvParts(c);
    SoundParts(c.v, StakedMap(c));
    hide Sound;
    RewardsNeverOverdraw(c.v, pid);
  }

  /** Every account's ledger is its lock, is there, and covers its locked stake in all pools together. */
  lemma LedgerCovers(c: State, who: Account)
    requires Inv(c)
    ensures AccountOk(c.v, who)
  {
    hide *;
    InvParts(c);
    SoundParts(c.v, StakedMap(c));
    LedgerCoversBooks(c.v, who);
  }

  lemma LedgerCoversBooks(v: Store, who: Account)
    requires AllCovered(v)
    ensures AccountOk(v, who)
  {
    hide LockedBy;
  }

  /** A pool whose listed workers are idle has no miner at work at all. */
  lemma IdlePoolRests(c: State, pid: Pid)
    requires Inv(c) && Idle(c, pid)
    ensures forall worker :: !MinerAtWork(c.m, Miner(pid, worker))
  {
    forall worker ensures !MinerAtWork(c.m, Miner(pid, worker)) {
      if MinerAtWork(c.m, Miner(pid, worker)) {
        InvParts(c);
        WorkingIsBound(c.m, c.v.pools.Keys, Miner(pid, worker));
        BoundMiner(c, Miner(pid, worker));
        hide Inv;
      }
    }
  }

  lemma BindingsInverse(m: Mines)
    requires BoundBothWays(m)
    ensures forall mi :: mi in m.minerBindings ==>
      m.minerBindings[mi] in m.workerBindings && m.workerBindings[m.minerBindings[mi]] == mi
    ensures forall w :: w in m.workerBindings ==>
      m.workerBindings[w] in m.minerBindings && m.minerBindings[m.workerBindings[w]] == w
    ensures forall pid, w :: Miner(pid, w) in m.minerBindings <==>
      w in m.workerBindings && m.workerBindings[w] == Miner(pid, w)
  {
  }

  lemma ListedAsBound(c: State, pid: Pid, w: Worker)
    requires BindingsOk(c) && pid in c.v.pools
    ensures w in c.v.pools[pid].workers <==> w in c.v.assignments && c.v.assignments[w] == pid
    ensures w in c.v.pools[pid].workers <==> Miner(pid, w) in c.m.minerBindings
  {
    BindingsInverse(c.m);
    if w in c.v.assignments {
      assert c.m.workerBindings[w] == Miner(c.v.assignments[w], w);
    }
  }

  /**
    Bindings are inverse, and a worker is listed by a pool exactly when it is assigned to it
    and exactly when it is bound to the pool's sub-account.
  */
  lemma BindingsAgree(c: State)
    requires Inv(c)
    ensures forall mi :: mi in c.m.minerBindings ==>
      c.m.minerBindings[mi] in c.m.workerBindings && c.m.workerBindings[c.m.minerBindings[mi]] == mi
    ensures forall w :: w in c.m.workerBindings ==>
      c.m.workerBindings[w] in c.m.minerBindings && c.m.minerBindings[c.m.workerBindings[w]] == w
    ensures forall pid, w :: pid in c.v.pools ==>
      && (w in c.v.pools[pid].workers <==> w in c.v.assignments && c.v.assignments[w] == pid)
      && (w in c.v.pools[pid].workers <==> Miner(pid, w) in c.m.minerBindings)
  {
    hide *;
    InvParts(c);
    BindingsInverse(c.m);
    forall pid, w | pid in c.v.pools
      ensures w in c.v.pools[pid].workers <==> w in c.v.assignments && c.v.assignments[w] == pid
      ensures w in c.v.pools[pid].workers <==> Miner(pid, w) in c.m.minerBindings
    {
      ListedAsBound(c, pid, w);
    }
  }

  /** A stake is held exactly for the miners at work or cooling down; OnlineMiners counts those at work. */
  lemma StakesAgree(c: State)
    requires Inv(c)
    ensures forall mi :: mi in c.m.stakes <==> mi in c.m.miners && (AtWork(c.m.miners[mi]) || Cooling(c.m, mi))
    ensures c.m.onlineMiners == |set mi | mi in c.m.miners && AtWork(c.m.miners[mi])|
  {
    InvParts(c);
    MinesAgree(c.m, c.v.pools.Keys);
    hide *;
  }

  lemma MinesAgree(m: Mines, pools: set<Pid>)
    requires MinesOk(m, pools)
    ensures forall mi :: mi in m.stakes <==> mi in m.miners && (AtWork(m.miners[mi]) || Cooling(m, mi))
    ensures m.onlineMiners == |set mi | mi in m.miners && AtWork(m.miners[mi])|
  {
  }

  /** What a pool expects back is the sum of what its cooling miners will return. */
  lemma ReleasingIsExact(c: State, pid: Pid)
    requires Inv(c) && pid in c.v.pools
    ensures c.v.pools[pid].releasingStake == Sum(ReleasingIn(c.m, pid))
  {
    InvParts(c);
    hide Inv, ReleasingIn;
  }

  // ---------------------------------------------------------------- queues, whether or not requests are owned

  /** Every queue has one request a user at most, none for dust, and the oldest in front. */
  lemma QueuesAreClean(c: State, pid: Pid)
    requires Inv(c) && pid in c.v.pools
    ensures QueueClean(c.v.pools[pid].withdrawQueue) && Ordered(c.v.pools[pid].withdrawQueue)
    ensures forall r :: r in c.v.pools[pid].withdrawQueue ==> r.startTime <= c.now
  {
    InvParts(c);
    hide Inv, BindingsOk, MinesOk, ReleasingOk, Sound, Distinct, Ordered, Increasing;
    assert QueueOk(c.v.pools[pid].withdrawQueue, c.now);
  }

  /** No pool's stake, no staker's locked stake and no request is dust, and the oldest request is in front. */
  lemma EveryRunIsClean(now: nat, moves: seq<Move>, pid: Pid, who: Account)
    requires AdmissibleRun(Genesis(now), moves) && pid in Run(Genesis(now), moves).v.pools
    ensures var v := Run(Genesis(now), moves).v;
      && Clean(v.pools[pid].totalStake) && Clean(StakerOf(v, pid, who).locked)
      && QueueClean(v.pools[pid].withdrawQueue) && Ordered(v.pools[pid].withdrawQueue)
  {
    hide *;
    EveryRunKeeps(now, moves);
    var c := Run(Genesis(now), moves);
    InvParts(c);
    SoundParts(c.v, StakedMap(c));
    QueuesAreClean(c, pid);
    CleanStakes(c.v, StakedMap(c), pid, who);
  }

  lemma CleanStakes(v: Store, staked: map<Pid, nat>, pid: Pid, who: Account)
    requires AllStakersOk(v) && AllBacked(v, staked) && pid in v.pools
    ensures Clean(v.pools[pid].totalStake) && Clean(StakerOf(v, pid, who).locked)
  {
    hide Mul;
    assert (pid, who) in v.stakers ==> StakerOk(v.pools[pid], v.stakers[(pid, who)]);
  }

  /** An account's request, if there is one, is for no more than it has. */
  predicate Covers(v: Store, pid: Pid, who: Account)
    requires pid in v.pools
  {
    forall r :: r in v.pools[pid].withdrawQueue && r.user == who ==> r.shares <= StakerOf(v, pid, who).shares
  }

  /** All requests of a pool are owned as soon as each account's is. */
  lemma WithinIfCovered(c: State, pid: Pid)
    requires Inv(c) && pid in c.v.pools
    ensures WithinShares(c.v, pid) <==> forall who :: Covers(c.v, pid, who)
  {
    hide *;
    QueuesAreClean(c, pid);
    WithinIfCovers(c.v, pid);
  }

  lemma WithinIfCovers(v: Store, pid: Pid)
    requires pid in v.pools && QueueClean(v.pools[pid].withdrawQueue)
    ensures WithinShares(v, pid) <==> forall who :: Covers(v, pid, who)
  {
    hide StakerOf, Distinct;
    var q := v.pools[pid].withdrawQueue;
    if forall who :: Covers(v, pid, who) {
      forall i | 0 <= i < |q| ensures Nondust(q[i].shares) && q[i].shares <= StakerOf(v, pid, q[i].user).shares {
        assert Covers(v, pid, q[i].user);
        assert q[i] in q;
      }
    }
  }

  /**
    Wherever a run from the empty chain leads, past a withdrawal of issue 527 too: reconciling
    an account makes its request owned and nobody else's less or more so, touching no other request.
  */
  lemma EveryReconcileRestores(now: nat, moves: seq<Move>, pid: Pid, who: Account)
    requires AdmissibleRun(Genesis(now), moves) && Reconcile(Run(Genesis(now), moves).v, pid, who).Ok?
    ensures var v := Run(Genesis(now), moves).v;
      var v' := Reconcile(v, pid, who).value;
      && pid in v.pools && pid in v'.pools
      && Covers(v', pid, who) && QueueClean(v'.pools[pid].withdrawQueue)
      && (forall w :: w != who ==> (Covers(v', pid, w) <==> Covers(v, pid, w)))
      && (forall r: WithdrawInfo :: r.user != who ==>
        (r in v'.pools[pid].withdrawQueue <==> r in v.pools[pid].withdrawQueue))
  {
    hide *;
    EveryRunKeeps(now, moves);
    var c := Run(Genesis(now), moves);
    ReconciledPool(c.v, pid, who);
    QueuesAreClean(c, pid);
    CleanParts(c.v.pools[pid].withdrawQueue);
    ReconcileRestores(c.v, pid, who);
    ReconcileCovers(c.v, pid, who);
  }

  lemma ReconciledPool(v: Store, pid: Pid, who: Account)
    requires Reconcile(v, pid, who).Ok?
    ensures pid in v.pools && (pid, who) in v.stakers && Reconcile(v, pid, who).value.stakers == v.stakers
    ensures pid in Reconcile(v, pid, who).value.pools
  {
    hide Lowered;
  }

  lemma CleanParts(q: seq<WithdrawInfo>)
    ensures QueueClean(q) <==> Distinct(q) && forall r :: r in q ==> Nondust(r.shares)
  {
  }

  lemma ReconcileCovers(v: Store, pid: Pid, who: Account)
    requires Reconcile(v, pid, who).Ok? && pid in v.pools && (pid, who) in v.stakers
    requires Reconcile(v, pid, who).value.stakers == v.stakers && pid in Reconcile(v, pid, who).value.pools
    requires QueueClean(v.pools[pid].withdrawQueue)
    requires var q, q' := v.pools[pid].withdrawQueue, Reconcile(v, pid, who).value.pools[pid].withdrawQueue;
      && Distinct(q')
      && (forall r :: r in q' && r.user != who <==> r in q && r.user != who)
      && (forall r :: r in q' && r.user == who ==> r.shares <= v.stakers[(pid, who)].shares)
      && ((forall r :: r in q ==> Nondust(r.shares)) ==> (forall r :: r in q' ==> Nondust(r.shares)))
    ensures var v' := Reconcile(v, pid, who).value;
      && Covers(v', pid, who) && QueueClean(v'.pools[pid].withdrawQueue)
      && (forall w :: w != who ==> (Covers(v', pid, w) <==> Covers(v, pid, w)))
  {
    hide Reconcile, Distinct;
  }

  /** All of it, for every pool and account, after every admissible run from the empty chain. */
  lemma EveryRunBalances(now: nat, moves: seq<Move>, pid: Pid, who: Account)
    requires AdmissibleRun(Genesis(now), moves) && pid in Run(Genesis(now), moves).v.pools
    ensures var c := Run(Genesis(now), moves);
      var pool, audit, staked := c.v.pools[pid], AuditOf(c.v, pid), Sum(StakesIn(c.m.stakes, pid));
      && (pool.totalStake == pool.freeStake + staked
          || (pool.totalStake == 0 && staked == 0 && pool.freeStake <= DUST && pool.totalShares > 0))
      && pool.totalShares == Sum(SharesIn(c.v.stakers, pid))
      && (SharePrice(pool).Some? ==> Sum(ValuesIn(c.v.stakers, pid, SharePrice(pool).value)) <= pool.totalStake)
      && audit.paid + pool.ownerReward + Sum(ClaimableIn(c.v.stakers, pid, pool.rewardAcc))
         <= audit.received + 2 * audit.changes
      && pool.releasingStake == Sum(ReleasingIn(c.m, pid))
      && AccountOk(c.v, who)
  {
    hide *;
    EveryRunKeeps(now, moves);
    var c := Run(Genesis(now), moves);
    InvParts(c);
    SoundParts(c.v, StakedMap(c));
    TotalIsSum(c.v, pid);
    StakeIsConserved(c, pid);
    if SharePrice(c.v.pools[pid]).Some? {
      SharesAreSolvent(c, pid);
    }
    RewardsAreSolvent(c, pid);
    ReleasingIsExact(c, pid);
    LedgerCovers(c, who);
  }

  lemma TotalIsSum(v: Store, pid: Pid)
    requires SharesAgree(v) && pid in v.pools
    ensures v.pools[pid].totalShares == Sum(SharesIn(v.stakers, pid))
  {
    hide SharesIn;
  }

  // ---------------------------------------------------------------- admissible starts

  /** What the tokenomic quotes for a positive stake is admissible exactly if `k` times the root is past dust. */
  lemma QuotesAdmit(c: State, params: TokenomicParams, p: nat, level: nat, root: Bits, start: Action)
    requires start.ActStartMining? && start.stake > 0 && Quotes(params, start.stake, p, level, root, start.quote)
    ensures Admissible(c, start) <==> FixMul(params.k, root) >= 18_465_190_818
  {
    VeCoversStake(params, start.stake, p, level);
    MinimalStakeNondust(params, root);
    hide Ve, MinimalStake, IsRoot;
  }
}
