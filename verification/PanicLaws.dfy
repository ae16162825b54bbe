/** Which steps panic, whether or not queued requests are owned: those that come to serve more than is owned. */
module PanicLaws {
  import opened Base
  import opened FixedPoint
  import opened Pool
  import opened PoolLaws
  import opened Vault
  import opened VaultLaws
  import opened QueueLaws
  import opened CallLaws
  import opened RewardLaws
  import opened ReclaimLaws
  import opened Mining
  import opened Chain
  import opened ChainLaws
  import opened MinerLaws
  import opened FinalizeLaws
  import opened StepLaws
  import opened SafetyLaws
  import opened RunLaws

  // ---------------------------------------------------------------- the queue

  /** The front request would be served more shares than its requester owns, or no share is left at all. */
  predicate Overdrawn(v: Store, pid: Pid, price: Bits)
    requires pid in v.pools && v.pools[pid].withdrawQueue != []
  {
    var pool := v.pools[pid];
    var request := pool.withdrawQueue[0];
    (pid, request.user) in v.stakers &&
    (pool.totalShares == 0 ||
     Min(FreeShares(pool, Some(price), request.shares), request.shares) > v.stakers[(pid, request.user)].shares)
  }

  lemma NoSharesPanic(d: Desk, price: Bits, slash: Slasher)
    requires d.pool.withdrawQueue != [] && d.pool.totalShares == 0
    requires SettleReward(d.pool, d.user).Ok?
    ensures ServeFront(d, price, slash) == Panic
  {
    hide Mul, Div;
  }

  lemma NeverFails(d: Desk, price: Bits, slash: Slasher)
    requires d.pool.withdrawQueue != []
    ensures ServeFront(d, price, slash).Ok? || ServeFront(d, price, slash) == Panic
  {
    hide Mul, Div;
  }

  lemma RoundPanicsWhen(v: Store, pid: Pid, price: Bits, slash: Slasher, staked: map<Pid, nat>)
    requires Sound(v, staked) && pid in v.pools && v.pools[pid].withdrawQueue != []
    ensures ServeOne(v, pid, price, slash) == Panic <==> Overdrawn(v, pid, price)
    ensures ServeOne(v, pid, price, slash).Ok? || ServeOne(v, pid, price, slash) == Panic
  {
    hide Sound, DeskOk, ServeFront;
    var who := v.pools[pid].withdrawQueue[0].user;
    if (pid, who) in v.stakers {
      var d := DeskOf(v, pid, who);
      StoredDeskOk(v, pid, who, staked);
      NeverFails(d, price, slash);
      if d.pool.totalShares == 0 {
        SettleRewardKeeps(d, Get(staked, pid));
        NoSharesPanic(d, price, slash);
      } else {
        FrontPanicsWhen(d, price, slash, Get(staked, pid));
      }
    }
  }

  /** Whether the loop comes to such a round; the round after one in vain is its last. */
  predicate ReachesOverdraw(v: Store, pid: Pid, price: Bits, slash: Slasher)
    requires pid in v.pools
    decreases QueueMeasure(v.pools[pid].withdrawQueue), v.pools[pid].freeStake
  {
    LoopGuard(v, pid) &&
    (Overdrawn(v, pid, price) ||
     (var r := ServeOne(v, pid, price, slash);
      r.Ok? &&
      if Progress(v.pools[pid], r.value.pools[pid]) then ReachesOverdraw(r.value, pid, price, slash)
      else Overdrawn(r.value, pid, price)))
  }

  /** Owned or not: the loop panics if and only if it comes to a round that serves more than is owned. */
  lemma {:induction false} QueuePanicsWhen(v: Store, pid: Pid, price: Bits, slash: Slasher, staked: map<Pid, nat>)
    requires Sound(v, staked) && pid in v.pools
    ensures ServeQueue(v, pid, price, slash) == Panic <==> ReachesOverdraw(v, pid, price, slash)
    ensures !ServeQueue(v, pid, price, slash).Err?
    decreases QueueMeasure(v.pools[pid].withdrawQueue), v.pools[pid].freeStake
  {
    hide Sound, ServeOne, Overdrawn, OnlyPool;
    if LoopGuard(v, pid) {
      RoundPanicsWhen(v, pid, price, slash, staked);
      if ServeOne(v, pid, price, slash).Ok? {
        var v1 := ServeOne(v, pid, price, slash).value;
        ServeOneKeeps(v, pid, price, slash, staked);
        if Progress(v.pools[pid], v1.pools[pid]) {
          QueuePanicsWhen(v1, pid, price, slash, staked);
        } else {
          RoundPanicsWhen(v1, pid, price, slash, staked);
        }
      }
    }
  }

  /** Whether serving a pool's queue comes to a round that serves more than is owned. */
  predicate QueueOverdraws(v: Store, pid: Pid, slash: Slasher)
    requires pid in v.pools
  {
    SharePrice(v.pools[pid]).Some? && ReachesOverdraw(v, pid, SharePrice(v.pools[pid]).value, slash)
  }

  lemma ProcessPanicsWhen(v: Store, pid: Pid, slash: Slasher, staked: map<Pid, nat>)
    requires Sound(v, staked) && pid in v.pools
    ensures ProcessQueue(v, pid, slash) == Panic <==> QueueOverdraws(v, pid, slash)
  {
    hide Sound, ReachesOverdraw, ServeQueue;
    match SharePrice(v.pools[pid])
    case None =>
    case Some(price) => QueuePanicsWhen(v, pid, price, slash, staked);
  }

  // ---------------------------------------------------------------- the two calls that serve a queue

  lemma ContributePanicsWhen(v: Store, who: Account, pid: Pid, amount: nat, slash: Slasher, staked: map<Pid, nat>)
    requires Sound(v, staked)
    ensures Contribute(v, who, pid, amount, slash) == Panic <==>
      Accepts(v, who, pid, amount) && QueueOverdraws(Deposited(v, who, pid, amount, slash), pid, slash)
  {
    SoundUnfold(v, staked);
    LockedCovers(v, who);
    hide Sound, Deposit, Prepared, OnlyPool, ProcessQueue, Contribute, Save, QueueOverdraws;
    ContributeIs(v, who, pid, amount, slash);
    if Accepts(v, who, pid, amount) {
      ContributionKeeps(v, who, pid, amount, slash, staked);
      ProcessPanicsWhen(Deposited(v, who, pid, amount, slash), pid, slash, staked);
    }
  }

  lemma LockedCovers(v: Store, who: Account)
    requires AllCovered(v)
    ensures Get(v.ledger, who) <= Get(v.free, who)
  {
    assert AccountOk(v, who);
    hide LockedBy;
  }

  lemma ReclaimPanicsWhen(v: Store, pid: Pid, orig: nat, slashed: nat, slash: Slasher, staked: map<Pid, nat>)
    requires Sound(v, staked) && pid in v.pools && slashed <= orig && 0 < orig <= Get(staked, pid)
    requires Solid(Get(staked, pid) - orig) && SlashAllowed(v.pools[pid], slashed)
    ensures HandleReclaim(v, pid, orig, slashed, slash) == Panic <==>
      QueueOverdraws(SavePool(v, pid, Reclaimed(v.pools[pid], orig, slashed)), pid, slash)
  {
    hide Sound, ProcessQueue, QueueOverdraws, Reclaimed, SlashAllowed;
    ReclaimedKeepsSound(v, pid, orig, slashed, staked);
    ProcessPanicsWhen(SavePool(v, pid, Reclaimed(v.pools[pid], orig, slashed)), pid, slash,
                      staked[pid := Get(staked, pid) - orig]);
  }

  // ---------------------------------------------------------------- every step

  /** The steps that go on to serve a queue and come to such a round. */
  ghost predicate Overdraws(c: State, a: Action, o: Oracle) {
    match a
    case ActContribute(who, pid, amount) =>
      Accepts(c.v, who, pid, amount) && QueueOverdraws(Deposited(c.v, who, pid, amount, o.slash), pid, o.slash)
    case ActReclaim(pid, worker) =>
      CanTakeBack(c, Miner(pid, worker)) && QueueOverdraws(TakenBack(c, Miner(pid, worker)), pid, o.slash)
    case _ => false
  }

  lemma ContributeStepPanics(c: State, who: Account, pid: Pid, amount: nat, o: Oracle)
    requires Inv(c)
    ensures Step(c, ActContribute(who, pid, amount), o) == Panic <==> Overdraws(c, ActContribute(who, pid, amount), o)
  {
    hide Inv, Contribute, Deposited, Accepts, QueueOverdraws, Sound, WellKeyed, AuditsOk;
    InvBooks(c);
    ContributePanicsWhen(c.v, who, pid, amount, o.slash, StakedMap(c));
  }

  lemma ReclaimStepPanics(c: State, pid: Pid, worker: Worker, o: Oracle)
    requires Inv(c) && ReclaimAllowed(c, Miner(pid, worker))
    ensures ReclaimPoolWorker(c, pid, worker, o.slash) == Panic <==> Overdraws(c, ActReclaim(pid, worker), o)
  {
    hide *;
    var miner := Miner(pid, worker);
    InvParts(c);
    ReclaimStep(c, pid, worker, o.slash);
    if CanReclaim(c.m, miner, c.now) {
      ReclaimAmounts(c, miner);
      var orig, slashed := c.m.stakes[miner], c.m.stakes[miner] - Expected(c.m, miner);
      ReclaimPanicsWhen(c.v, pid, orig, slashed, o.slash, StakedMap(c));
      WithStoreIs(c.(m := ReclaimedMines(c.m, miner)), HandleReclaim(c.v, pid, orig, slashed, o.slash));
      ReclaimedPoolIs(c, miner);
    }
    ReclaimOverdraws(c, pid, worker, o);
  }

  lemma ReclaimOverdraws(c: State, pid: Pid, worker: Worker, o: Oracle)
    ensures Overdraws(c, ActReclaim(pid, worker), o) ==> CanReclaim(c.m, Miner(pid, worker), c.now)
    ensures CanTakeBack(c, Miner(pid, worker)) ==>
      (Overdraws(c, ActReclaim(pid, worker), o) <==>
       QueueOverdraws(SavePool(c.v, pid, ReclaimedPool(c, Miner(pid, worker))), pid, o.slash))
    ensures CanTakeBack(c, Miner(pid, worker)) <==>
      && CanReclaim(c.m, Miner(pid, worker), c.now) && pid in c.v.pools && Miner(pid, worker) in c.m.stakes
      && Expected(c.m, Miner(pid, worker)) <= c.m.stakes[Miner(pid, worker)]
  {
    hide QueueOverdraws, ReclaimedPool, Expected, SavePool, CanReclaim;
  }

  lemma PoolStepPanics(c: State, a: Action, o: Oracle)
    requires Inv(c) && OfStakePool(a)
    ensures Step(c, a, o) == Panic <==> Overdraws(c, a, o)
  {
    hide Inv, Create, SetCap, SetPayoutPref, ClaimRewards, Contribute, Withdraw, Reconcile, OnlyPool, ClaimedOnly,
         Requeued, Sound;
    match a {
      case ActCreate(who) =>
      case ActSetCap(who, pid, cap) => CapIs(c.v, who, pid, cap);
      case ActSetPayoutPref(who, pid, rate) => PrefIs(c.v, who, pid, rate);
      case ActClaimRewards(who, pid, target, funded) =>
        InvBooks(c);
        ClaimKeeps(c.v, who, pid, target, funded, StakedMap(c));
      case ActContribute(who, pid, amount) => ContributeStepPanics(c, who, pid, amount, o);
      case ActWithdraw(who, pid, shares) =>
        InvBooks(c);
        WithdrawKeeps(c.v, who, pid, shares, c.now, o.slash, StakedMap(c));
      case ActReconcile(pid, who) => ReconcileTotal(c.v, pid, who);
    }
  }

  lemma QuietNeverPanics(c: State, a: Action, o: Oracle)
    requires Quiet(c, Step(c, a, o)) && !a.ActContribute? && !a.ActReclaim?
    ensures Step(c, a, o) != Panic && !Overdraws(c, a, o)
  {
    hide SameRequests, Step;
  }

  /**
    From any state with the invariant, with requests owned or not, a step panics if and only if it is a
    contribution or a reclaim that goes through and whose pool's queue comes to a round that serves more
    shares than the requester owns.
  */
  lemma StepPanicsWhen(c: State, a: Action, o: Oracle)
    requires Inv(c) && Admissible(c, a)
    ensures Step(c, a, o) == Panic <==> Overdraws(c, a, o)
  {
    hide *;
    if OfStakePool(a) {
      PoolStepPanics(c, a, o);
    } else if a.ActReclaim? {
      AdmitsReclaim(c, a.pid, a.worker);
      StepOfReclaim(c, a, o);
      ReclaimStepPanics(c, a.pid, a.worker, o);
    } else {
      if OfMiners(a) {
        MinerStepQuiet(c, a, o);
        MinersServeNone(a);
      } else {
        WorldStepQuiet(c, a, o);
      }
      QuietNeverPanics(c, a, o);
    }
  }

  lemma MinersServeNone(a: Action)
    requires OfMiners(a)
    ensures !a.ActContribute?
  {
  }

  /** Along every admissible run from the empty chain, so without any promise that requests stay owned. */
  ghost predicate PanicsWhere(c: State, moves: seq<Move>)
    decreases |moves|
  {
    moves == [] ||
    (&& (Step(c, moves[0].action, moves[0].oracle) == Panic <==> Overdraws(c, moves[0].action, moves[0].oracle))
     && PanicsWhere(After(c, moves[0]), moves[1..]))
  }

  lemma {:induction false} RunPanicsWhere(c: State, moves: seq<Move>)
    requires Inv(c) && AdmissibleRun(c, moves)
    ensures PanicsWhere(c, moves)
    decreases |moves|
  {
    hide Inv, Step, Admissible, After, Overdraws;
    if moves != [] {
      StepPanicsWhen(c, moves[0].action, moves[0].oracle);
      MoveKeeps(c, moves[0]);
      RunPanicsWhere(After(c, moves[0]), moves[1..]);
    }
  }

  lemma EveryRunPanicsWhere(now: nat, moves: seq<Move>)
    requires AdmissibleRun(Genesis(now), moves)
    ensures PanicsWhere(Genesis(now), moves)
  {
    hide *;
    GenesisOk(now);
    RunPanicsWhere(Genesis(now), moves);
  }
}
