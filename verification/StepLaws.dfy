/** Every step of the two pallets keeps the invariant. */
module StepLaws {
  import opened Base
  import opened FixedPoint
  import opened Sums
  import opened Pool
  import opened PoolLaws
  import opened Vault
  import opened VaultLaws
  import opened QueueLaws
  import opened CallLaws
  import opened RewardLaws
  import opened ReclaimLaws
  import opened Mining
  import opened Chain
  import opened ExpiryLaws
  import opened ChainLaws
  import opened MinerLaws
  import opened WorkerLaws
  import opened MessageLaws
  import opened FinalizeLaws

  // ---------------------------------------------------------------- calls to the stake pool

  lemma ContributionStep(c: State, who: Account, pid: Pid, amount: nat, slash: Slasher)
    requires Inv(c) && Contribute(c.v, who, pid, amount, slash).Ok?
    ensures Inv(c.(v := Contribute(c.v, who, pid, amount, slash).value))
  {
    hide *;
    InvParts(c);
    var v' := Contribute(c.v, who, pid, amount, slash).value;
    ContributeKeeps(c.v, who, pid, amount, slash, StakedMap(c));
    OnlyPoolSkeleton(c.v, v', pid);
    OnlyPoolIndexed(c.v, v', pid, c.now, c.lastFinalized);
    VaultStepKeeps(c, v');
  }

  lemma OnlyPoolIndexed(v: Store, v': Store, pid: Pid, now: nat, last: nat)
    requires Indexed(v, now, last) && pid in v.pools && OnlyPool(v, v', pid)
    requires pid in v'.pools && FrontServed(v.pools[pid].withdrawQueue, v'.pools[pid].withdrawQueue)
    ensures Indexed(v', now, last)
  {
    hide Indexed, FrontServed, SameTerms;
    ShorterQueuesIndexed(v, v', pid, now, last);
  }

  /** The index after a withdrawal: as it was, or with the pool listed under the present time. */
  lemma WithdrawIndex(v: Store, who: Account, pid: Pid, shares: nat, now: nat, slash: Slasher)
    requires Withdraw(v, who, pid, shares, now, slash).Ok? && pid in v.pools
    requires var v' := Withdraw(v, who, pid, shares, now, slash).value;
      OnlyPool(v, v'.(timestamps := v.timestamps, queuedPools := v.queuedPools), pid)
    ensures var v' := Withdraw(v, who, pid, shares, now, slash).value;
      if QueuedNow(v.pools[pid], shares) > 0
      then v'.timestamps == AddToIndex(v, now, pid).timestamps && v'.queuedPools == AddToIndex(v, now, pid).queuedPools
      else v'.timestamps == v.timestamps && v'.queuedPools == v.queuedPools
  {
    hide TryWithdraw, QueuedNow, SameTerms, TimeAdded, PoolListed;
  }

  lemma WithdrawnIndexed(v: Store, v': Store, who: Account, pid: Pid, shares: nat, now: nat, last: nat)
    requires Indexed(v, now, last) && pid in v.pools && StakerOf(v, pid, who).user == who
    requires OnlyPool(v, v'.(timestamps := v.timestamps, queuedPools := v.queuedPools), pid)
    requires v'.pools[pid].withdrawQueue == Requeued(DeskOf(v, pid, who), shares, now)
    requires if QueuedNow(v.pools[pid], shares) > 0
      then v'.timestamps == AddToIndex(v, now, pid).timestamps && v'.queuedPools == AddToIndex(v, now, pid).queuedPools
      else v'.timestamps == v.timestamps && v'.queuedPools == v.queuedPools
    ensures Indexed(v', now, last)
  {
    hide Indexed, QueuedNow, SameTerms, FrontServed, AddToIndex;
    if QueuedNow(v.pools[pid], shares) > 0 {
      RequeuedIndexed(v, v', pid, who, now, last, WithdrawInfo(who, QueuedNow(v.pools[pid], shares), now));
    } else {
      FrontServedReflexive(v.pools[pid].withdrawQueue);
      ShorterQueuesIndexed(v, v', pid, now, last);
    }
  }

  lemma FrontServedReflexive(q: seq<WithdrawInfo>)
    ensures FrontServed(q, q)
  {
  }

  /** A skeleton does not ask for the index. */
  lemma IndexSkeleton(v: Store, v': Store)
    ensures SameSkeleton(v, v'.(timestamps := v.timestamps, queuedPools := v.queuedPools)) <==> SameSkeleton(v, v')
  {
  }

  lemma WithdrawUser(v: Store, who: Account, pid: Pid, shares: nat, now: nat, slash: Slasher)
    requires WellKeyed(v) && Withdraw(v, who, pid, shares, now, slash).Ok?
    ensures pid in v.pools && StakerOf(v, pid, who).user == who
  {
  }

  lemma WithdrawalStep(c: State, who: Account, pid: Pid, shares: nat, slash: Slasher)
    requires Inv(c) && Withdraw(c.v, who, pid, shares, c.now, slash).Ok?
    ensures Inv(c.(v := Withdraw(c.v, who, pid, shares, c.now, slash).value))
  {
    hide *;
    InvParts(c);
    SoundParts(c.v, StakedMap(c));
    var v' := Withdraw(c.v, who, pid, shares, c.now, slash).value;
    var w := v'.(timestamps := c.v.timestamps, queuedPools := c.v.queuedPools);
    WithdrawKeeps(c.v, who, pid, shares, c.now, slash, StakedMap(c));
    WithdrawUser(c.v, who, pid, shares, c.now, slash);
    OnlyPoolSkeleton(c.v, w, pid);
    IndexSkeleton(c.v, v');
    WithdrawIndex(c.v, who, pid, shares, c.now, slash);
    WithdrawnIndexed(c.v, v', who, pid, shares, c.now, c.lastFinalized);
    VaultStepKeeps(c, v');
  }

  lemma SoundParts(v: Store, staked: map<Pid, nat>)
    requires Sound(v, staked)
    ensures WellKeyed(v) && SharesAgree(v) && AllCovered(v) && AllStakersOk(v) && AllSolvent(v) && AllBacked(v, staked)
  {
    hide WellKeyed, SharesAgree, AllCovered, AllStakersOk, AllSolvent, AllBacked;
  }

  lemma ClaimedSkeleton(v: Store, v': Store, pid: Pid, now: nat, last: nat)
    requires ClaimedOnly(v, v', pid) && Indexed(v, now, last)
    requires forall p :: p in v'.audits ==> p in v.audits || p in v.pools
    ensures SameSkeleton(v, v') && Indexed(v', now, last)
  {
    forall p, r | p in v'.pools && r in v'.pools[p].withdrawQueue ensures Listed(v', p, r.startTime, last) {
      assert Listed(v, p, r.startTime, last);
    }
  }

  lemma ClaimAudits(v: Store, who: Account, pid: Pid, target: Account, funded: bool)
    requires ClaimRewards(v, who, pid, target, funded).Ok?
    ensures var v' := ClaimRewards(v, who, pid, target, funded).value;
      forall p :: p in v'.audits ==> p in v.audits || p in v.pools
  {
    hide Mul;
  }

  lemma ClaimStep(c: State, who: Account, pid: Pid, target: Account, funded: bool)
    requires Inv(c) && ClaimRewards(c.v, who, pid, target, funded).Ok?
    ensures Inv(c.(v := ClaimRewards(c.v, who, pid, target, funded).value))
  {
    hide *;
    InvParts(c);
    var v' := ClaimRewards(c.v, who, pid, target, funded).value;
    ClaimKeeps(c.v, who, pid, target, funded, StakedMap(c));
    ClaimAudits(c.v, who, pid, target, funded);
    ClaimedSkeleton(c.v, v', pid, c.now, c.lastFinalized);
    VaultStepKeeps(c, v');
  }

  /** Writing back a pool whose terms alone changed. */
  lemma TermsStep(c: State, pid: Pid, pool: PoolInfo)
    requires Inv(c) && pid in c.v.pools && SameMoney(c.v.pools[pid], pool)
    requires pool.workers == c.v.pools[pid].workers && pool.releasingStake == c.v.pools[pid].releasingStake
    requires Indexed(SavePool(c.v, pid, pool), c.now, c.lastFinalized)
    ensures Inv(c.(v := SavePool(c.v, pid, pool)))
  {
    hide *;
    InvParts(c);
    SaveTermsKeepsSound(c.v, pid, pool, StakedMap(c));
    TermsSkeleton(c.v, pid, pool);
    VaultStepKeeps(c, SavePool(c.v, pid, pool));
  }

  lemma TermsSkeleton(v: Store, pid: Pid, pool: PoolInfo)
    requires pid in v.pools && pool.workers == v.pools[pid].workers
    requires pool.releasingStake == v.pools[pid].releasingStake
    ensures SameSkeleton(v, SavePool(v, pid, pool))
  {
  }

  lemma PrefStep(c: State, pid: Pid, pool: PoolInfo)
    requires Inv(c) && pid in c.v.pools
    requires pool == c.v.pools[pid].(cap := pool.cap, payoutCommission := pool.payoutCommission)
    ensures Inv(c.(v := SavePool(c.v, pid, pool)))
  {
    hide Inv, SavePool;
    InvParts(c);
    SavePoolIndexed(c.v, pid, pool, c.now, c.lastFinalized);
    TermsStep(c, pid, pool);
  }

  /** A queue whose times were all there before is as well indexed. */
  lemma RequeueIndexed(v: Store, pid: Pid, q': seq<WithdrawInfo>, now: nat, last: nat)
    requires Indexed(v, now, last) && pid in v.pools && QueueOk(q', now)
    requires forall r' :: r' in q' ==> exists r :: r in v.pools[pid].withdrawQueue && r.startTime == r'.startTime
    ensures Indexed(SavePool(v, pid, v.pools[pid].(withdrawQueue := q')), now, last)
  {
    hide QueueOk, Increasing;
    var v' := SavePool(v, pid, v.pools[pid].(withdrawQueue := q'));
    forall p, r' | p in v'.pools && r' in v'.pools[p].withdrawQueue ensures Listed(v', p, r'.startTime, last) {
      if p == pid {
        var r :| r in v.pools[pid].withdrawQueue && r.startTime == r'.startTime;
        assert Listed(v, pid, r.startTime, last);
      } else {
        assert Listed(v, p, r'.startTime, last);
      }
    }
  }

  /** Lowering one request leaves the queue indexed. */
  lemma LoweredIndexed(v: Store, pid: Pid, who: Account, available: nat, now: nat, last: nat)
    requires Indexed(v, now, last) && pid in v.pools && Clean(available)
    ensures var pool := v.pools[pid].(withdrawQueue := Lowered(v.pools[pid].withdrawQueue, who, available));
      Indexed(SavePool(v, pid, pool), now, last)
  {
    LoweredTimes(v.pools[pid].withdrawQueue, who, available, now);
    assert QueueOk(v.pools[pid].withdrawQueue, now);
    hide Lowered, SavePool, Indexed, QueueOk;
    RequeueIndexed(v, pid, Lowered(v.pools[pid].withdrawQueue, who, available), now, last);
  }

  /** Where a request of the lowered queue stood before. */
  function LoweredFrom(q: seq<WithdrawInfo>, who: Account, available: nat, i: nat): nat {
    if available == 0 && i >= Exceeding(q, who, available) then i + 1 else i
  }

  lemma LoweredRequest(q: seq<WithdrawInfo>, who: Account, available: nat, i: nat)
    requires i < |Lowered(q, who, available)| && Clean(available)
    ensures var q', j := Lowered(q, who, available),
      if Exceeding(q, who, available) == |q| then i else LoweredFrom(q, who, available, i);
      && j < |q| && q'[i].user == q[j].user && q'[i].startTime == q[j].startTime
      && (q'[i].shares == q[j].shares || Nondust(q'[i].shares))
  {
    LoweredAt(q, who, available);
    hide Lowered, Exceeding;
  }

  lemma LoweredTimes(q: seq<WithdrawInfo>, who: Account, available: nat, now: nat)
    requires Clean(available)
    ensures var q' := Lowered(q, who, available);
      && (QueueOk(q, now) ==> QueueOk(q', now))
      && (forall r' :: r' in q' ==> exists r :: r in q && r.startTime == r'.startTime)
  {
    var q' := Lowered(q, who, available);
    hide Lowered, QueueOk, LoweredFrom, Exceeding;
    forall i | 0 <= i < |q'|
      ensures exists r :: r in q && r.startTime == q'[i].startTime
    {
      LoweredRequest(q, who, available, i);
    }
    if QueueOk(q, now) {
      LoweredQueueOk(q, who, available, now);
    }
  }

  lemma LoweredQueueOk(q: seq<WithdrawInfo>, who: Account, available: nat, now: nat)
    requires Clean(available) && QueueOk(q, now)
    ensures QueueOk(Lowered(q, who, available), now)
  {
    var q' := Lowered(q, who, available);
    LoweredRequests(q, who, available);
    LoweredOrdered(q, who, available);
    hide Lowered, Exceeding, Distinct, Ordered, LoweredFrom;
    forall i | 0 <= i < |q'| ensures Nondust(q'[i].shares) && q'[i].startTime <= now {
      LoweredRequest(q, who, available, i);
    }
  }

  lemma LoweredOrdered(q: seq<WithdrawInfo>, who: Account, available: nat)
    requires Clean(available) && Ordered(q)
    ensures Ordered(Lowered(q, who, available))
  {
    var q' := Lowered(q, who, available);
    hide Lowered, Exceeding;
    forall i, j | 0 <= i < j < |q'| ensures q'[i].startTime <= q'[j].startTime {
      LoweredRequest(q, who, available, i);
      LoweredRequest(q, who, available, j);
    }
  }

  lemma ReconcileStep(c: State, pid: Pid, who: Account)
    requires Inv(c) && Reconcile(c.v, pid, who).Ok?
    ensures Inv(c.(v := Reconcile(c.v, pid, who).value))
  {
    hide Inv, Lowered, SavePool, Indexed;
    InvParts(c);
    var available := ExtractDust(c.v.stakers[(pid, who)].shares).0;
    LoweredIndexed(c.v, pid, who, available, c.now, c.lastFinalized);
    TermsStep(c, pid, c.v.pools[pid].(withdrawQueue := Lowered(c.v.pools[pid].withdrawQueue, who, available)));
  }

  // ---------------------------------------------------------------- a new pool

  lemma CreatedBindings(c: State, who: Account)
    requires BindingsOk(c) && c.v.poolCount !in c.v.pools
    ensures BindingsOk(c.(v := Create(c.v, who)))
  {
  }

  lemma NoMiners(m: Mines, pools: set<Pid>, pid: Pid)
    requires MinesOk(m, pools) && pid !in pools
    ensures ReleasingIn(m, pid) == map[] && StakesIn(m.stakes, pid) == map[]
    ensures Sum(ReleasingIn(m, pid)) == 0 && Staked(m, pid) == 0
    ensures MinesOk(m, pools + {pid})
  {
    hide GiveBack, Working;
  }

  lemma CreatedReleasing(c: State, who: Account)
    requires ReleasingOk(c.v, c.m) && Sum(ReleasingIn(c.m, c.v.poolCount)) == 0
    ensures ReleasingOk(Create(c.v, who), c.m)
  {
    hide ReleasingIn;
  }

  lemma CreatedIndexed(v: Store, who: Account, now: nat, last: nat)
    requires Indexed(v, now, last) && v.poolCount !in v.pools
    ensures Indexed(Create(v, who), now, last)
  {
    hide Increasing;
    var v' := Create(v, who);
    forall p, r | p in v'.pools && r in v'.pools[p].withdrawQueue ensures Listed(v', p, r.startTime, last) {
      assert Listed(v, p, r.startTime, last);
    }
  }

  lemma CreatedKeys(v: Store, who: Account)
    requires WellKeyed(v) && AuditsOk(v)
    ensures v.poolCount !in v.pools && v.poolCount !in v.audits
    ensures Create(v, who).pools.Keys == v.pools.Keys + {v.poolCount} && AuditsOk(Create(v, who))
  {
  }

  lemma CreatedStaked(c: State, who: Account)
    requires c.v.poolCount !in c.v.pools && Staked(c.m, c.v.poolCount) == 0
    ensures var c' := c.(v := Create(c.v, who));
      forall p :: p in c'.v.pools ==> Get(StakedMap(c'), p) == Get(StakedMap(c), p)
    ensures Get(StakedMap(c), c.v.poolCount) == 0
  {
    hide Staked;
  }

  lemma CreateStep(c: State, who: Account)
    requires Inv(c)
    ensures Inv(c.(v := Create(c.v, who)))
  {
    hide *;
    var c' := c.(v := Create(c.v, who));
    InvParts(c);
    SoundParts(c.v, StakedMap(c));
    CreatedKeys(c.v, who);
    CreatedBindings(c, who);
    NoMiners(c.m, c.v.pools.Keys, c.v.poolCount);
    CreatedReleasing(c, who);
    CreatedIndexed(c.v, who, c.now, c.lastFinalized);
    CreatedStaked(c, who);
    CreateKeeps(c.v, who, StakedMap(c));
    SoundFor(c'.v, StakedMap(c), StakedMap(c'));
    InvUnfolds(c');
  }

  // ---------------------------------------------------------------- the world around

  lemma AdvancedIndexed(v: Store, now: nat, last: nat, later: nat)
    requires Indexed(v, now, last) && now <= later
    ensures Indexed(v, later, last)
  {
    hide Increasing, AllListed, Ordered;
  }

  lemma AdvanceStep(c: State, seconds: nat)
    requires Inv(c)
    ensures Inv(c.(now := c.now + seconds))
  {
    hide *;
    InvParts(c);
    AdvancedIndexed(c.v, c.now, c.lastFinalized, c.now + seconds);
    ClockKeeps(c, c.now + seconds, c.lastFinalized);
    assert c.(now := c.now + seconds) == c.(now := c.now + seconds, lastFinalized := c.lastFinalized);
  }

  /** Money an account receives or spends outside the lock is no stake. */
  lemma WalletSound(v: Store, who: Account, amount: nat, staked: map<Pid, nat>)
    requires Sound(v, staked) && amount >= Get(v.lock, who)
    ensures Sound(Paying(v, who, amount), staked)
  {
    SoundParts(v, staked);
    hide *;
    var v' := Paying(v, who, amount);
    WalletElsewhere(v, v', staked);
    WalletCovered(v, who, amount);
    BooksAre(v', staked);
  }

  lemma WalletCovered(v: Store, who: Account, amount: nat)
    requires AllCovered(v) && amount >= Get(v.lock, who)
    ensures AllCovered(Paying(v, who, amount))
  {
    hide LockedBy;
    var v' := Paying(v, who, amount);
    forall w ensures AccountOk(v', w) {
      assert AccountOk(v, w);
    }
  }

  lemma WalletElsewhere(v: Store, v': Store, staked: map<Pid, nat>)
    requires v' == v.(free := v'.free)
    requires WellKeyed(v) && SharesAgree(v) && AllStakersOk(v) && AllSolvent(v) && AllBacked(v, staked)
    ensures WellKeyed(v') && SharesAgree(v') && AllStakersOk(v') && AllSolvent(v') && AllBacked(v', staked)
  {
    hide Worth, Drift, Held, StakerOk, Backed;
    forall p | p in v'.pools ensures Solvent(v', p) {
      assert Solvent(v, p);
    }
  }

  lemma BooksAre(v: Store, staked: map<Pid, nat>)
    requires WellKeyed(v) && SharesAgree(v) && AllCovered(v) && AllStakersOk(v) && AllSolvent(v) && AllBacked(v, staked)
    ensures Sound(v, staked)
  {
    hide WellKeyed, SharesAgree, AllCovered, AllStakersOk, AllSolvent, AllBacked;
  }

  lemma WalletStep(c: State, who: Account, amount: nat)
    requires Inv(c) && amount >= Get(c.v.lock, who)
    ensures Inv(c.(v := Paying(c.v, who, amount)))
  {
    hide *;
    InvParts(c);
    var v' := Paying(c.v, who, amount);
    WalletSound(c.v, who, amount, StakedMap(c));
    PayingIs(c.v, who, amount);
    WalletSkeleton(c.v, v', c.now, c.lastFinalized);
    VaultStepKeeps(c, v');
  }

  lemma PayingIs(v: Store, who: Account, amount: nat)
    ensures Paying(v, who, amount) == v.(free := Put(v.free, who, amount))
  {
    hide Put;
  }

  lemma WalletSkeleton(v: Store, v': Store, now: nat, last: nat)
    requires v' == v.(free := v'.free) && AuditsOk(v) && Indexed(v, now, last)
    ensures SameSkeleton(v, v') && Indexed(v', now, last)
  {
    hide Increasing, QueueOk;
    forall p, r | p in v'.pools && r in v'.pools[p].withdrawQueue ensures Listed(v', p, r.startTime, last) {
      assert Listed(v, p, r.startTime, last);
    }
  }

  lemma SettingsStep(c: State, c': State)
    requires Inv(c) && c.registry.Keys <= c'.registry.Keys
    requires c' == c.(registry := c'.registry, miningEnabled := c'.miningEnabled, m := c'.m)
    requires c'.m == c.m.(coolDownPeriod := c'.m.coolDownPeriod)
    ensures Inv(c')
  {
    hide *;
    InvParts(c);
    BindingsFrame(c, c');
    StakedMapSame(c, c');
    PeriodMines(c.m, c'.m, c.v.pools.Keys);
    PeriodReleasing(c.v, c.m, c'.m);
    InvUnfolds(c');
  }

  lemma PeriodMines(m: Mines, m': Mines, pools: set<Pid>)
    requires m' == m.(coolDownPeriod := m'.coolDownPeriod) && MinesOk(m, pools)
    ensures MinesOk(m', pools)
  {
    assert Working(m') == Working(m);
    hide Working;
  }

  lemma PeriodReleasing(v: Store, m: Mines, m': Mines)
    requires m' == m.(coolDownPeriod := m'.coolDownPeriod) && ReleasingOk(v, m)
    ensures ReleasingOk(v, m')
  {
    hide GiveBack;
    assert forall p :: ReleasingIn(m', p) == ReleasingIn(m, p);
    hide ReleasingIn;
  }

  lemma CapIs(v: Store, who: Account, pid: Pid, cap: nat)
    ensures var r := SetCap(v, who, pid, cap);
      && r != Panic && r != Diverge
      && (r.Ok? ==> pid in v.pools && r.value == SavePool(v, pid, v.pools[pid].(cap := Some(cap))))
  {
    hide SavePool;
  }

  lemma PrefIs(v: Store, who: Account, pid: Pid, rate: nat)
    ensures var r := SetPayoutPref(v, who, pid, rate);
      && r != Panic && r != Diverge
      && (r.Ok? ==> pid in v.pools && r.value == SavePool(v, pid, v.pools[pid].(payoutCommission := Some(rate))))
  {
    hide SavePool;
  }

  /** Stopping and unbinding from a pool come to the mining pallet's own calls. */
  lemma StopIs(c: State, who: Account, pid: Pid, worker: Worker)
    ensures var r := StopPoolMining(c, who, pid, worker); r.Err? || r == StopMining(c, Miner(pid, worker))
  {
    hide StopMining;
  }

  lemma RemoveIs(c: State, who: Account, pid: Pid, worker: Worker)
    ensures var r := RemoveWorker(c, who, pid, worker); r.Err? || r == UnbindMiner(c, Miner(pid, worker))
  {
    hide UnbindMiner;
  }

  lemma UnbindIs(c: State, who: Account, miner: Miner)
    ensures var r := Unbind(c, who, miner); r.Err? || r == UnbindMiner(c, miner)
  {
    hide UnbindMiner;
  }

  // ---------------------------------------------------------------- every step

  /**
    What the environment promises of a step: a minimal stake past dust and a positive V, no
    settlement for a cooling miner, and no slash that leaves dust in a pool without shares, which is
    the exact condition for the stake to be conserved (`ReclaimLaws.ReclaimedBacked`).
  */
  ghost predicate Admissible(c: State, a: Action) {
    match a
    case ActStartMining(_, _, _, _, quote) => Nondust(quote.minimalStake) && quote.ve > 0
    case ActReclaim(pid, worker) => ReclaimAllowed(c, Miner(pid, worker))
    case ActGatekeeper(_, _, settle) => AllSettleable(c.m, settle)
    case _ => true
  }

  lemma AdmitsReclaim(c: State, pid: Pid, worker: Worker)
    requires Admissible(c, ActReclaim(pid, worker))
    ensures ReclaimAllowed(c, Miner(pid, worker))
  {
    hide ReclaimAllowed;
  }

  /** The actions of the pools' users, of the miners, and of the world around. */
  predicate OfStakePool(a: Action) {
    a.ActCreate? || a.ActSetCap? || a.ActSetPayoutPref? || a.ActClaimRewards? || a.ActContribute? || a.ActWithdraw?
    || a.ActReconcile?
  }

  predicate OfMiners(a: Action) {
    a.ActAddWorker? || a.ActRemoveWorker? || a.ActUnbind? || a.ActStartMining? || a.ActStopMining? ||
    a.ActReclaim? || a.ActGatekeeper? || a.ActFinalize?
  }

  lemma PoolStepKeeps(c: State, a: Action, o: Oracle)
    requires Inv(c) && OfStakePool(a) && Step(c, a, o).Ok?
    ensures Inv(Step(c, a, o).value)
  {
    hide Inv, Create, SetCap, SetPayoutPref, ClaimRewards, Contribute, Withdraw, Reconcile, SavePool;
    match a {
      case ActCreate(who) => CreateStep(c, who);
      case ActSetCap(who, pid, cap) =>
        CapIs(c.v, who, pid, cap);
        PrefStep(c, pid, c.v.pools[pid].(cap := Some(cap)));
      case ActSetPayoutPref(who, pid, rate) =>
        PrefIs(c.v, who, pid, rate);
        PrefStep(c, pid, c.v.pools[pid].(payoutCommission := Some(rate)));
      case ActClaimRewards(who, pid, target, funded) => ClaimStep(c, who, pid, target, funded);
      case ActContribute(who, pid, amount) => ContributionStep(c, who, pid, amount, o.slash);
      case ActWithdraw(who, pid, shares) => WithdrawalStep(c, who, pid, shares, o.slash);
      case ActReconcile(pid, who) => ReconcileStep(c, pid, who);
    }
  }

  lemma MinerStepKeeps(c: State, a: Action, o: Oracle)
    requires Inv(c) && Admissible(c, a) && OfMiners(a) && Step(c, a, o).Ok?
    ensures Inv(Step(c, a, o).value)
  {
    hide Inv, AddWorker, RemoveWorker, Unbind, UnbindMiner, StartPoolMining, StopPoolMining, StopMining,
         ReclaimPoolWorker, GatekeeperMessage, Finalize, AllSettleable, ReclaimAllowed;
    match a {
      case ActAddWorker(who, pid, worker) => AddWorkerKeeps(c, who, pid, worker);
      case ActRemoveWorker(who, pid, worker) =>
        RemoveIs(c, who, pid, worker);
        UnbindKeeps(c, Miner(pid, worker));
      case ActUnbind(who, miner) =>
        UnbindIs(c, who, miner);
        UnbindKeeps(c, miner);
      case ActStartMining(who, pid, worker, stake, quote) => StartKeeps(c, who, pid, worker, stake, quote);
      case ActStopMining(who, pid, worker) =>
        StopIs(c, who, pid, worker);
        StopKeeps(c, Miner(pid, worker));
      case ActReclaim(pid, worker) => ReclaimKeeps(c, pid, worker, o.slash);
      case ActGatekeeper(offline, recovered, settle) => MessageKeeps(c, offline, recovered, settle, o.permill);
      case ActFinalize => FinalizeKeeps(c);
    }
  }

  lemma WorldStepKeeps(c: State, a: Action, o: Oracle)
    requires Inv(c) && !OfStakePool(a) && !OfMiners(a) && Step(c, a, o).Ok?
    ensures Inv(Step(c, a, o).value)
  {
    hide Inv;
    match a {
      case ActSetMiningEnable(on) => SettingsStep(c, c.(miningEnabled := on));
      case ActSetCoolDown(period) => SettingsStep(c, c.(m := c.m.(coolDownPeriod := period)));
      case ActRegister(worker, info) => SettingsStep(c, c.(registry := c.registry[worker := info]));
      case ActReceive(who, amount) =>
        LockWithinFree(c, who);
        WalletStep(c, who, Get(c.v.free, who) + amount);
      case ActSpend(who, amount) => WalletStep(c, who, Get(c.v.free, who) - amount);
      case ActAdvance(seconds) => AdvanceStep(c, seconds);
    }
  }

  lemma LockWithinFree(c: State, who: Account)
    requires Inv(c)
    ensures Get(c.v.lock, who) <= Get(c.v.free, who)
  {
    hide *;
    InvParts(c);
    SoundParts(c.v, StakedMap(c));
    CoveredLock(c.v, who);
  }

  lemma CoveredLock(v: Store, who: Account)
    requires AllCovered(v)
    ensures Get(v.lock, who) <= Get(v.free, who)
  {
    hide LockedBy;
    assert AccountOk(v, who);
  }

  /** Every call, callback and block end keeps the invariant. */
  lemma StepKeeps(c: State, a: Action, o: Oracle)
    requires Inv(c) && Admissible(c, a) && Step(c, a, o).Ok?
    ensures Inv(Step(c, a, o).value)
  {
    hide *;
    if OfStakePool(a) {
      PoolStepKeeps(c, a, o);
    } else if OfMiners(a) {
      MinerStepKeeps(c, a, o);
    } else {
      WorldStepKeeps(c, a, o);
    }
  }
}
