/**
  Free stake past dust beside waiting requests: which steps leave none, and exactly when the others do. It is what
  the message of a debug assertion of `has_expired_withdrawal` (stakepool.rs:1384) does not want; the assertion
  itself asks for no free stake at all, whatever waits, and is the matter of AssertionLaws.
*/
module ServedLaws {
  import opened Base
  import opened FixedPoint
  import opened Pool
  import opened Vault
  import opened VaultLaws
  import opened QueueLaws
  import opened CallLaws
  import opened PriceLaws
  import opened RewardLaws
  import opened Mining
  import opened Chain
  import opened ChainLaws
  import opened MinerLaws
  import opened FinalizeLaws
  import opened StepLaws
  import opened SafetyLaws
  import opened RunLaws

  /** No pool has stake past dust free while requests wait for it. */
  ghost predicate AllServed(v: Store) {
    forall pid :: pid in v.pools ==> !LoopGuard(v, pid)
  }

  lemma ServedElsewhere(v: Store, v': Store, pid: Pid)
    requires AllServed(v) && pid in v.pools && v'.pools.Keys == v.pools.Keys
    requires forall p :: p in v.pools && p != pid ==> v'.pools[p] == v.pools[p]
    ensures AllServed(v') <==> !LoopGuard(v', pid)
  {
    forall p | p in v'.pools && p != pid ensures !LoopGuard(v', p) {
      assert !LoopGuard(v, p);
    }
  }

  lemma OnlyPoolElsewhere(v: Store, v': Store, pid: Pid)
    requires OnlyPool(v, v', pid)
    ensures v'.pools.Keys == v.pools.Keys && forall p :: p in v.pools && p != pid ==> v'.pools[p] == v.pools[p]
  {
  }

  lemma SameRequestsServed(v: Store, v': Store)
    requires AllServed(v) && SameRequests(v, v')
    ensures AllServed(v')
  {
    forall p | p in v'.pools ensures !LoopGuard(v', p) {
      assert !LoopGuard(v, p);
    }
  }

  // ---------------------------------------------------------------- contribute and reclaim

  /** Serving the queue of a pool leaves free stake beside a request exactly if the pool has no shares. */
  lemma ProcessedServed(v: Store, pid: Pid, slash: Slasher)
    requires pid in v.pools && ProcessQueue(v, pid, slash).Ok?
    ensures LoopGuard(ProcessQueue(v, pid, slash).value, pid) <==> v.pools[pid].totalShares == 0 && LoopGuard(v, pid)
  {
    ToFixedPositive(v.pools[pid].totalShares);
    match SharePrice(v.pools[pid])
    case None =>
    case Some(price) =>
      ServesUntilDone(v, pid, price, slash);
      hide ServeQueue;
  }

  /** Shares after a contribution: a pool without any sells them one for one. */
  lemma DepositedShares(d: Desk, amount: nat)
    requires amount > 0
    ensures Deposit(d, amount).pool.totalShares > 0
  {
    ToFixedPositive(d.pool.totalShares);
    hide Mul, Div;
  }

  lemma ContributeServes(v: Store, who: Account, pid: Pid, amount: nat, slash: Slasher)
    requires Contribute(v, who, pid, amount, slash).Ok?
    ensures pid in v.pools && !LoopGuard(Contribute(v, who, pid, amount, slash).value, pid)
  {
    hide Prepared, ProcessQueue, LoopGuard, Deposit;
    var d := Prepared(v, pid, who, slash).value;
    DepositedShares(d, amount);
    ProcessedServed(Save(v, pid, who, Deposit(d, amount)), pid, slash);
  }

  // ---------------------------------------------------------------- withdraw

  lemma ReleaseLeaves(d: Desk, wanted: nat, slash: Slasher)
    requires ServedNow(d.pool, wanted) > 0 && Release(d, ServedNow(d.pool, wanted), slash).Ok?
    ensures Release(d, ServedNow(d.pool, wanted), slash).value.pool.freeStake == FreeAfter(d, ServedNow(d.pool, wanted))
    ensures Release(d, ServedNow(d.pool, wanted), slash).value.pool.withdrawQueue == d.pool.withdrawQueue
  {
    var served := ServedNow(d.pool, wanted);
    ReleaseHasPrice(d, served, slash);
    var price := SharePrice(d.pool).value;
    hide SharePrice, Mul, Div, Release, Payment;
    ServedIsPayable(d.pool, price, wanted, served);
    ReleasePays(d, served, slash);
    ReleaseResets(d, served, slash);
  }

  lemma WithdrawalLeaves(d: Desk, shares: nat, now: nat, slash: Slasher)
    requires TryWithdraw(d, shares, now, slash).Ok?
    ensures var pool' := TryWithdraw(d, shares, now, slash).value.pool;
      && pool'.freeStake == FreeAfter(d, ServedNow(d.pool, shares))
      && (pool'.withdrawQueue != [] <==> QueuedNow(d.pool, shares) > 0 || d.pool.withdrawQueue != [])
  {
    hide Mul, SharePrice, ServedNow, QueuedNow, Release, ResetPending, Without, SettleReward;
    SettledUser(d.pool, d.user);
    var d1 := d.(user := SettleReward(d.pool, d.user).value);
    var served := ServedNow(d.pool, shares);
    if served > 0 {
      hide FreeAfter;
      ReleaseLeaves(d1, shares, slash);
      SettledFreeAfter(d, d1, served);
    }
  }

  /** Something is queued, now or before, and stake past dust is left free beside it. */
  predicate WithdrawalIdles(v: Store, pid: Pid, who: Account, shares: nat)
    requires pid in v.pools
  {
    && Nondust(FreeAfter(DeskOf(v, pid, who), ServedNow(v.pools[pid], shares)))
    && (QueuedNow(v.pools[pid], shares) > 0 || v.pools[pid].withdrawQueue != [])
  }

  lemma WithdrawServes(v: Store, who: Account, pid: Pid, shares: nat, now: nat, slash: Slasher)
    requires Withdraw(v, who, pid, shares, now, slash).Ok?
    ensures pid in v.pools
    ensures var v' := Withdraw(v, who, pid, shares, now, slash).value;
      && v'.pools.Keys == v.pools.Keys && (forall p :: p in v.pools && p != pid ==> v'.pools[p] == v.pools[p])
      && (LoopGuard(v', pid) <==> WithdrawalIdles(v, pid, who, shares))
  {
    hide TryWithdraw, ServedNow, QueuedNow, FreeAfter;
    WithdrawalLeaves(DeskOf(v, pid, who), shares, now, slash);
  }

  // ---------------------------------------------------------------- every step

  /** The steps after which a pool has stake past dust free while requests wait. */
  predicate Idles(c: State, a: Action) {
    match a
    case ActWithdraw(who, pid, shares) => pid in c.v.pools && WithdrawalIdles(c.v, pid, who, shares)
    case ActReclaim(pid, worker) =>
      CanTakeBack(c, Miner(pid, worker)) &&
      var v := TakenBack(c, Miner(pid, worker)); v.pools[pid].totalShares == 0 && LoopGuard(v, pid)
    case _ => false
  }

  lemma WithdrawIdles(c: State, who: Account, pid: Pid, shares: nat, o: Oracle)
    requires AllServed(c.v) && Step(c, ActWithdraw(who, pid, shares), o).Ok?
    ensures AllServed(Step(c, ActWithdraw(who, pid, shares), o).value.v) <==> !Idles(c, ActWithdraw(who, pid, shares))
  {
    hide Withdraw, WithdrawalIdles, LoopGuard, AllServed;
    WithdrawServes(c.v, who, pid, shares, c.now, o.slash);
    ServedElsewhere(c.v, Withdraw(c.v, who, pid, shares, c.now, o.slash).value, pid);
  }

  lemma ContributeIdles(c: State, who: Account, pid: Pid, amount: nat, o: Oracle)
    requires Inv(c) && AllServed(c.v) && Step(c, ActContribute(who, pid, amount), o).Ok?
    ensures AllServed(Step(c, ActContribute(who, pid, amount), o).value.v)
  {
    hide *;
    ContributeStepIs(c, who, pid, amount, o);
    var v' := Contribute(c.v, who, pid, amount, o.slash).value;
    InvParts(c);
    ContributeServes(c.v, who, pid, amount, o.slash);
    ContributeKeeps(c.v, who, pid, amount, o.slash, StakedMap(c));
    OnlyPoolElsewhere(c.v, v', pid);
    ServedElsewhere(c.v, v', pid);
  }

  lemma ContributeStepIs(c: State, who: Account, pid: Pid, amount: nat, o: Oracle)
    ensures Step(c, ActContribute(who, pid, amount), o) == WithStore(c, Contribute(c.v, who, pid, amount, o.slash))
    ensures Step(c, ActContribute(who, pid, amount), o).Ok? ==>
      && Contribute(c.v, who, pid, amount, o.slash).Ok?
      && Step(c, ActContribute(who, pid, amount), o).value.v == Contribute(c.v, who, pid, amount, o.slash).value
  {
    hide Contribute;
  }

  lemma ReclaimIdles(c: State, pid: Pid, worker: Worker, o: Oracle)
    requires Inv(c) && Admissible(c, ActReclaim(pid, worker)) && AllServed(c.v)
    requires Step(c, ActReclaim(pid, worker), o).Ok?
    ensures AllServed(Step(c, ActReclaim(pid, worker), o).value.v) <==> !Idles(c, ActReclaim(pid, worker))
  {
    hide *;
    var miner := Miner(pid, worker);
    InvParts(c);
    StepOfReclaim(c, ActReclaim(pid, worker), o);
    ReclaimStep(c, pid, worker, o.slash);
    var handled := HandleReclaim(c.v, pid, c.m.stakes[miner], c.m.stakes[miner] - Expected(c.m, miner), o.slash);
    WithStoreIs(c.(m := ReclaimedMines(c.m, miner)), handled);
    AdmitsReclaim(c, pid, worker);
    ReclaimSound(c, miner, o.slash);
    TakesBack(c, miner, o.slash);
    TakenElsewhere(c, miner, handled.value);
    ServedElsewhere(c.v, handled.value, pid);
  }

  lemma TakesBack(c: State, miner: Miner, slash: Slasher)
    requires CanReclaim(c.m, miner, c.now)
    requires miner.pid in c.v.pools && miner in c.m.stakes && Expected(c.m, miner) <= c.m.stakes[miner]
    requires HandleReclaim(c.v, miner.pid, c.m.stakes[miner], c.m.stakes[miner] - Expected(c.m, miner), slash).Ok?
    ensures CanTakeBack(c, miner)
    ensures var r := HandleReclaim(c.v, miner.pid, c.m.stakes[miner], c.m.stakes[miner] - Expected(c.m, miner), slash);
      LoopGuard(r.value, miner.pid) <==> Idles(c, ActReclaim(miner.pid, miner.worker))
  {
    hide LoopGuard, ProcessQueue, Expected, CanReclaim, SavePool, Reclaimed;
    ProcessedServed(TakenBack(c, miner), miner.pid, slash);
  }

  lemma TakenElsewhere(c: State, miner: Miner, v': Store)
    requires miner.pid in c.v.pools && miner in c.m.stakes && Expected(c.m, miner) <= c.m.stakes[miner]
    requires OnlyPool(SavePool(c.v, miner.pid, ReclaimedPool(c, miner)), v', miner.pid)
    ensures v'.pools.Keys == c.v.pools.Keys
    ensures forall p :: p in c.v.pools && p != miner.pid ==> v'.pools[p] == c.v.pools[p]
  {
    hide ReclaimedPool;
  }

  lemma ReconcileIdles(v: Store, pid: Pid, who: Account)
    requires AllServed(v) && Reconcile(v, pid, who).Ok?
    ensures AllServed(Reconcile(v, pid, who).value)
  {
    assert !LoopGuard(v, pid);
    ServedElsewhere(v, Reconcile(v, pid, who).value, pid);
    hide ExtractDust;
  }

  lemma CreateIdles(v: Store, who: Account)
    requires AllServed(v) && v.poolCount !in v.pools
    ensures AllServed(Create(v, who))
  {
    forall p | p in Create(v, who).pools ensures !LoopGuard(Create(v, who), p) {
      assert p in v.pools ==> !LoopGuard(v, p);
    }
  }

  lemma PoolStepIdles(c: State, a: Action, o: Oracle)
    requires Inv(c) && AllServed(c.v) && OfStakePool(a) && Step(c, a, o).Ok?
    ensures AllServed(Step(c, a, o).value.v) <==> !Idles(c, a)
  {
    hide Inv, AllServed, Create, SetCap, SetPayoutPref, ClaimRewards, Contribute, Withdraw, Reconcile, SavePool,
         SameRequests, WithdrawalIdles;
    match a {
      case ActCreate(who) =>
        InvBooks(c);
        CreatedKeys(c.v, who);
        CreateIdles(c.v, who);
      case ActSetCap(who, pid, cap) =>
        CapIs(c.v, who, pid, cap);
        PoolTermsServed(c.v, pid, c.v.pools[pid].(cap := Some(cap)));
      case ActSetPayoutPref(who, pid, rate) =>
        PrefIs(c.v, who, pid, rate);
        PoolTermsServed(c.v, pid, c.v.pools[pid].(payoutCommission := Some(rate)));
      case ActClaimRewards(who, pid, target, funded) => ClaimIdles(c, who, pid, target, funded);
      case ActContribute(who, pid, amount) => ContributeIdles(c, who, pid, amount, o);
      case ActWithdraw(who, pid, shares) => WithdrawIdles(c, who, pid, shares, o);
      case ActReconcile(pid, who) => ReconcileIdles(c.v, pid, who);
    }
  }

  lemma PoolTermsServed(v: Store, pid: Pid, pool: PoolInfo)
    requires AllServed(v) && pid in v.pools && pool.withdrawQueue == v.pools[pid].withdrawQueue
    requires pool.freeStake <= v.pools[pid].freeStake
    ensures AllServed(SavePool(v, pid, pool))
  {
    hide *;
    SavePoolRequests(v, pid, pool, v.assignments);
    SameRequestsServed(v, SavePool(v, pid, pool));
  }

  lemma ClaimIdles(c: State, who: Account, pid: Pid, target: Account, funded: bool)
    requires Inv(c) && AllServed(c.v) && ClaimRewards(c.v, who, pid, target, funded).Ok?
    ensures AllServed(ClaimRewards(c.v, who, pid, target, funded).value)
  {
    hide *;
    InvBooks(c);
    ClaimKeeps(c.v, who, pid, target, funded, StakedMap(c));
    ClaimedRequests(c.v, ClaimRewards(c.v, who, pid, target, funded).value, pid);
    SameRequestsServed(c.v, ClaimRewards(c.v, who, pid, target, funded).value);
  }

  lemma QuietServed(c: State, r: Outcome<State>)
    requires Quiet(c, r) && r.Ok? && AllServed(c.v)
    ensures AllServed(r.value.v)
  {
    hide SameRequests, AllServed;
    SameRequestsServed(c.v, r.value.v);
  }

  /**
    From a chain on which no pool has stake past dust free while requests wait, every step leads to
    such a chain again, unless it is a withdrawal or a reclaim that `Idles` names beforehand.
  */
  lemma StepIdles(c: State, a: Action, o: Oracle)
    requires Inv(c) && Admissible(c, a) && AllServed(c.v) && Step(c, a, o).Ok?
    ensures AllServed(Step(c, a, o).value.v) <==> !Idles(c, a)
  {
    hide *;
    if OfStakePool(a) {
      PoolStepIdles(c, a, o);
    } else if a.ActReclaim? {
      ReclaimIdles(c, a.pid, a.worker, o);
    } else {
      IdlesOnly(c, a);
      if OfMiners(a) {
        MinerStepQuiet(c, a, o);
      } else {
        WorldStepQuiet(c, a, o);
      }
      QuietServed(c, Step(c, a, o));
    }
  }

  lemma IdlesOnly(c: State, a: Action)
    requires !OfStakePool(a) && !a.ActReclaim?
    ensures !Idles(c, a)
  {
  }

  /** On owned requests a reclaim never does. */
  lemma OwnedReclaimServes(c: State, a: Action)
    requires Inv(c) && AllWithin(c.v) && a.ActReclaim?
    ensures !Idles(c, a)
  {
    hide *;
    InvBooks(c);
    SoundParts(c.v, StakedMap(c));
    if Idles(c, a) {
      IdleReclaim(c, a);
      WaitingHasShares(c.v, a.pid);
    }
  }

  lemma IdleReclaim(c: State, a: Action)
    requires a.ActReclaim? && Idles(c, a)
    ensures a.pid in c.v.pools && c.v.pools[a.pid].totalShares == 0 && c.v.pools[a.pid].withdrawQueue != []
  {
  }

  /** Somebody who waits owns shares. */
  lemma WaitingHasShares(v: Store, pid: Pid)
    requires WellKeyed(v) && SharesAgree(v) && AllWithin(v) && pid in v.pools && v.pools[pid].withdrawQueue != []
    ensures v.pools[pid].totalShares > 0
  {
    hide SharesIn;
    assert WithinShares(v, pid);
    ShareAtMostTotal(v, pid, v.pools[pid].withdrawQueue[0].user);
  }

  /** The steps of the run that succeed are none of those. */
  ghost predicate ServingRun(c: State, moves: seq<Move>)
    decreases |moves|
  {
    moves == [] ||
    (&& (Step(c, moves[0].action, moves[0].oracle).Ok? ==> !Idles(c, moves[0].action))
     && ServingRun(After(c, moves[0]), moves[1..]))
  }

  /** All along the run no pool has stake past dust free while requests wait. */
  ghost predicate AlwaysServed(c: State, moves: seq<Move>)
    decreases |moves|
  {
    AllServed(c.v) && (moves == [] || AlwaysServed(After(c, moves[0]), moves[1..]))
  }

  /** Which is so exactly if no step of the run idles. */
  lemma {:induction false} RunServes(c: State, moves: seq<Move>)
    requires Inv(c) && AdmissibleRun(c, moves) && AllServed(c.v)
    ensures AlwaysServed(c, moves) <==> ServingRun(c, moves)
    decreases |moves|
  {
    hide Inv, AllServed, Step, Admissible, Idles;
    if moves != [] {
      MoveKeeps(c, moves[0]);
      if Step(c, moves[0].action, moves[0].oracle).Ok? {
        StepIdles(c, moves[0].action, moves[0].oracle);
      }
      if AllServed(After(c, moves[0]).v) {
        RunServes(After(c, moves[0]), moves[1..]);
      }
    }
  }

  lemma GenesisServed(now: nat)
    ensures AllServed(Genesis(now).v)
  {
  }

  lemma EveryRunServes(now: nat, moves: seq<Move>)
    requires AdmissibleRun(Genesis(now), moves)
    ensures AlwaysServed(Genesis(now), moves) <==> ServingRun(Genesis(now), moves)
  {
    hide *;
    GenesisOk(now);
    GenesisServed(now);
    RunServes(Genesis(now), moves);
  }
}
