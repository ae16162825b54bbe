/** While every request is owned no step panics, and what steps do to requests and cooling miners. */
module SafetyLaws {
  import opened Base
  import opened Pool
  import opened Vault
  import opened VaultLaws
  import opened QueueLaws
  import opened CallLaws
  import opened PriceLaws
  import opened RewardLaws
  import opened ReclaimLaws
  import opened Mining
  import opened Chain
  import opened ChainLaws
  import opened MinerLaws
  import opened WorkerLaws
  import opened MessageLaws
  import opened FinalizeLaws
  import opened StepLaws

  // ---------------------------------------------------------------- requests

  lemma SameRequestsWithin(v: Store, v': Store)
    requires AllWithin(v) && SameRequests(v, v')
    ensures AllWithin(v')
  {
    hide StakerOf;
    forall p | p in v'.pools ensures WithinShares(v', p) {
      assert WithinShares(v, p);
    }
  }

  lemma SavePoolRequests(v: Store, pid: Pid, pool: PoolInfo, assignments: map<Worker, Pid>)
    requires pid in v.pools && pool.withdrawQueue == v.pools[pid].withdrawQueue
    requires pool.freeStake <= v.pools[pid].freeStake
    ensures SameRequests(v, SavePool(v, pid, pool))
    ensures SameRequests(v, SavePool(v, pid, pool).(assignments := assignments))
  {
  }

  lemma SameRequestsTransitive(u: Store, v: Store, w: Store)
    requires SameRequests(u, v) && SameRequests(v, w)
    ensures SameRequests(u, w)
  {
    hide StakerOf;
  }

  lemma CreditsRequests(v: Store, v': Store)
    requires OnlyCredits(v, v')
    ensures SameRequests(v, v')
  {
    assert forall p :: p in v.pools ==> OnlyRewards(v.pools[p], v'.pools[p]);
  }

  lemma ClaimedRequests(v: Store, v': Store, pid: Pid)
    requires ClaimedOnly(v, v', pid)
    ensures SameRequests(v, v')
  {
  }

  lemma CreatedWithin(v: Store, who: Account)
    requires AllWithin(v) && v.poolCount !in v.pools
    ensures AllWithin(Create(v, who))
  {
    hide StakerOf;
    forall p | p in Create(v, who).pools ensures WithinShares(Create(v, who), p) {
      if p in v.pools {
        assert WithinShares(v, p);
        assert forall w :: StakerOf(Create(v, who), p, w) == StakerOf(v, p, w) by {
          StakersElsewhere(v, who, p);
        }
      }
    }
  }

  lemma StakersElsewhere(v: Store, who: Account, pid: Pid)
    ensures forall w :: StakerOf(Create(v, who), pid, w) == StakerOf(v, pid, w)
  {
  }

  lemma ReconciledWithin(v: Store, pid: Pid, who: Account)
    requires AllWithin(v) && Reconcile(v, pid, who).Ok?
    ensures AllWithin(Reconcile(v, pid, who).value)
  {
    hide Lowered;
    var v' := Reconcile(v, pid, who).value;
    assert WithinShares(v, pid);
    ReconcileRestores(v, pid, who);
    assert forall p, w :: StakerOf(v', p, w) == StakerOf(v, p, w);
    RequestsOwned(v, v', pid, who);
    AllWithinHere(v, v', pid);
  }

  lemma RequestsOwned(v: Store, v': Store, pid: Pid, who: Account)
    requires pid in v.pools && pid in v'.pools && WithinShares(v, pid) && Distinct(v'.pools[pid].withdrawQueue)
    requires forall w :: StakerOf(v', pid, w) == StakerOf(v, pid, w)
    requires forall r :: r in v'.pools[pid].withdrawQueue && r.user != who ==> r in v.pools[pid].withdrawQueue
    requires forall r :: r in v'.pools[pid].withdrawQueue && r.user == who ==> r.shares <= StakerOf(v, pid, who).shares
    requires forall r :: r in v'.pools[pid].withdrawQueue ==> Nondust(r.shares)
    ensures WithinShares(v', pid)
  {
    hide StakerOf;
    var q, q' := v.pools[pid].withdrawQueue, v'.pools[pid].withdrawQueue;
    forall i | 0 <= i < |q'| ensures Nondust(q'[i].shares) && q'[i].shares <= StakerOf(v', pid, q'[i].user).shares {
      if q'[i].user != who {
        assert q'[i] in q;
      } else {
        assert q'[i] in q';
      }
      assert q'[i] in q' && Nondust(q'[i].shares);
    }
  }

  // ---------------------------------------------------------------- no step of the stake pool panics

  /** Exactly the steps that never end: contributions and reclaims whose pool's queue then hangs. */
  ghost predicate Hangs(c: State, a: Action, o: Oracle) {
    match a
    case ActContribute(who, pid, amount) =>
      Accepts(c.v, who, pid, amount) && QueueHangs(Deposited(c.v, who, pid, amount, o.slash), pid, o.slash)
    case ActReclaim(pid, worker) => CanTakeBack(c, Miner(pid, worker))
      && QueueHangs(TakenBack(c, Miner(pid, worker)), pid, o.slash)
    case _ => false
  }

  predicate CanTakeBack(c: State, miner: Miner) {
    && CanReclaim(c.m, miner, c.now) && miner.pid in c.v.pools
    && miner in c.m.stakes && Expected(c.m, miner) <= c.m.stakes[miner]
  }

  /** The storage with a miner's stake taken back, before the queue is served. */
  function TakenBack(c: State, miner: Miner): Store
    requires CanTakeBack(c, miner)
    ensures miner.pid in TakenBack(c, miner).pools
  {
    SavePool(c.v, miner.pid, ReclaimedPool(c, miner))
  }

  /** The storage in which a step would serve the queue of the pool it names. */
  ghost function StoreToServe(c: State, a: Action, o: Oracle): (v: Option<Store>)
    ensures v.Some? ==> (a.ActContribute? || a.ActReclaim?) && a.pid in v.value.pools
  {
    match a
    case ActContribute(who, pid, amount) =>
      if Accepts(c.v, who, pid, amount) then Some(Deposited(c.v, who, pid, amount, o.slash)) else None
    case ActReclaim(pid, worker) =>
      if CanTakeBack(c, Miner(pid, worker)) then Some(TakenBack(c, Miner(pid, worker))) else None
    case _ => None
  }

  lemma HangsIs(c: State, a: Action, o: Oracle)
    ensures Hangs(c, a, o) <==>
      StoreToServe(c, a, o).Some? && QueueHangs(StoreToServe(c, a, o).value, a.pid, o.slash)
  {
    hide QueueHangs, Accepts, Deposited, CanTakeBack, TakenBack;
    match a {
      case ActContribute(who, pid, amount) =>
        if Accepts(c.v, who, pid, amount) {
          AcceptsPool(c.v, who, pid, amount);
        }
      case _ =>
    }
  }

  /**
    A step hangs if its first round would be starved, which anybody can see beforehand, and only
    if a share is dear.
  */
  lemma HangsWhen(c: State, a: Action, o: Oracle)
    ensures StoreToServe(c, a, o).Some? && StuckAtOnce(StoreToServe(c, a, o).value.pools[a.pid]) ==> Hangs(c, a, o)
    ensures Hangs(c, a, o) ==>
      StoreToServe(c, a, o).Some? && !Affordable(StoreToServe(c, a, o).value.pools[a.pid])
  {
    hide QueueHangs, StuckAtOnce, Affordable, StoreToServe, Hangs;
    HangsIs(c, a, o);
    if StoreToServe(c, a, o).Some? {
      ServeWhen(StoreToServe(c, a, o).value, a.pid, o.slash);
    }
  }

  /** On owned requests it also hangs if its second round would be starved, which can be seen as well. */
  lemma HangsNext(c: State, a: Action, o: Oracle)
    requires Inv(c) && AllWithin(c.v) && Admissible(c, a)
    requires StoreToServe(c, a, o).Some? && StuckNext(StoreToServe(c, a, o).value, a.pid)
    ensures Hangs(c, a, o)
  {
    hide *;
    InvParts(c);
    HangsIs(c, a, o);
    StoreToServeOk(c, a, o);
    var v := StoreToServe(c, a, o).value;
    var staked: map<Pid, nat> :| Sound(v, staked);
    StuckNextHangs(v, a.pid, o.slash, staked);
  }

  /** The books balance and requests are owned when a queue comes to be served. */
  lemma StoreToServeOk(c: State, a: Action, o: Oracle)
    requires Inv(c) && AllWithin(c.v) && Admissible(c, a) && StoreToServe(c, a, o).Some?
    ensures var v := StoreToServe(c, a, o).value; WithinShares(v, a.pid) && exists staked :: Sound(v, staked)
  {
    hide *;
    InvParts(c);
    if a.ActContribute? {
      ContributionToServe(c, a.who, a.pid, a.amount, o);
    } else {
      ReclaimToServe(c, a.pid, a.worker, o);
    }
  }

  lemma ContributionToServe(c: State, who: Account, pid: Pid, amount: nat, o: Oracle)
    requires Sound(c.v, StakedMap(c)) && AllWithin(c.v) && StoreToServe(c, ActContribute(who, pid, amount), o).Some?
    ensures var v := StoreToServe(c, ActContribute(who, pid, amount), o).value;
      WithinShares(v, pid) && Sound(v, StakedMap(c))
  {
    hide Sound, Deposit, Prepared, OnlyPool, Save, WithinShares;
    ContributionKeeps(c.v, who, pid, amount, o.slash, StakedMap(c));
    assert WithinShares(c.v, pid);
    MoreSharesWithin(c.v, Deposited(c.v, who, pid, amount, o.slash), pid, who);
  }

  lemma ReclaimToServe(c: State, pid: Pid, worker: Worker, o: Oracle)
    requires Inv(c) && AllWithin(c.v) && Admissible(c, ActReclaim(pid, worker))
    requires StoreToServe(c, ActReclaim(pid, worker), o).Some?
    ensures var v := StoreToServe(c, ActReclaim(pid, worker), o).value;
      WithinShares(v, pid) && exists staked :: Sound(v, staked)
  {
    hide *;
    var miner := Miner(pid, worker);
    InvParts(c);
    AdmitsReclaim(c, pid, worker);
    ToServeIs(c, pid, worker, o);
    ReclaimAmounts(c, miner);
    ReclaimedPoolIs(c, miner);
    var orig, slashed := c.m.stakes[miner], c.m.stakes[miner] - Expected(c.m, miner);
    ReclaimedKeepsSound(c.v, pid, orig, slashed, StakedMap(c));
    SavedSameQueue(c.v, pid, orig, slashed);
    SameQueueWithin(c.v, SavePool(c.v, pid, ReclaimedPool(c, miner)), pid);
  }

  lemma ToServeIs(c: State, pid: Pid, worker: Worker, o: Oracle)
    requires StoreToServe(c, ActReclaim(pid, worker), o).Some?
    ensures var miner := Miner(pid, worker);
      && CanReclaim(c.m, miner, c.now) && pid in c.v.pools
      && miner in c.m.stakes && Expected(c.m, miner) <= c.m.stakes[miner]
      && StoreToServe(c, ActReclaim(pid, worker), o).value == SavePool(c.v, pid, ReclaimedPool(c, miner))
  {
    hide CanReclaim, Expected, ReclaimedPool, SavePool;
  }

  lemma SavedSameQueue(v: Store, pid: Pid, orig: nat, slashed: nat)
    requires pid in v.pools && slashed <= orig
    ensures var v' := SavePool(v, pid, Reclaimed(v.pools[pid], orig, slashed));
      pid in v'.pools && v'.stakers == v.stakers && v'.pools[pid].withdrawQueue == v.pools[pid].withdrawQueue
  {
  }

  lemma AcceptsPool(v: Store, who: Account, pid: Pid, amount: nat)
    requires Accepts(v, who, pid, amount)
    ensures pid in v.pools
  {
  }

  lemma ServeWhen(v: Store, pid: Pid, slash: Slasher)
    requires pid in v.pools
    ensures StuckAtOnce(v.pools[pid]) ==> QueueHangs(v, pid, slash)
    ensures QueueHangs(v, pid, slash) ==> !Affordable(v.pools[pid])
  {
    hide QueueHangs, StuckAtOnce, Affordable;
    if StuckAtOnce(v.pools[pid]) {
      StuckAtOnceHangs(v, pid, slash);
    }
    if QueueHangs(v, pid, slash) {
      HangingQueueIsDear(v, pid, slash);
    }
  }

  /** A withdrawal that could leave the caller with a request for more than it has: issue 527. */
  predicate LeavesCover(c: State, a: Action) {
    a.ActWithdraw? && a.pid in c.v.pools ==> KeepsCover(c.v, a.pid, a.who, a.shares)
  }

  /** What is promised of a step from a state with owned requests. */
  ghost predicate Safe(c: State, a: Action, o: Oracle, r: Outcome<State>) {
    && r != Panic
    && (r == Diverge <==> Hangs(c, a, o))
    && (r.Ok? && LeavesCover(c, a) ==> AllWithin(r.value.v))
  }

  lemma InvBooks(c: State)
    requires Inv(c)
    ensures Sound(c.v, StakedMap(c)) && WellKeyed(c.v) && AuditsOk(c.v)
  {
    hide *;
    InvParts(c);
    SoundParts(c.v, StakedMap(c));
  }

  lemma ContributeSafe(c: State, who: Account, pid: Pid, amount: nat, o: Oracle)
    requires Inv(c) && AllWithin(c.v)
    ensures Safe(c, ActContribute(who, pid, amount), o, Step(c, ActContribute(who, pid, amount), o))
  {
    hide Inv, Sound, AllWithin, Contribute, Deposited, Accepts, QueueHangs;
    InvBooks(c);
    ContributeOwned(c.v, who, pid, amount, o.slash, StakedMap(c));
  }

  lemma WithdrawSafe(c: State, who: Account, pid: Pid, shares: nat, o: Oracle)
    requires Inv(c) && AllWithin(c.v)
    ensures Safe(c, ActWithdraw(who, pid, shares), o, Step(c, ActWithdraw(who, pid, shares), o))
  {
    hide Inv, Sound, AllWithin, Withdraw, KeepsCover, Requeued, AfterWithdrawal, OnlyPool, StakerOf;
    InvBooks(c);
    WithdrawKeeps(c.v, who, pid, shares, c.now, o.slash, StakedMap(c));
    if Withdraw(c.v, who, pid, shares, c.now, o.slash).Ok? {
      WithdrawOwned(c.v, who, pid, shares, c.now, o.slash, StakedMap(c));
    }
  }

  lemma ClaimSafe(c: State, who: Account, pid: Pid, target: Account, funded: bool, o: Oracle)
    requires Inv(c) && AllWithin(c.v)
    ensures Safe(c, ActClaimRewards(who, pid, target, funded), o, Step(c, ActClaimRewards(who, pid, target, funded), o))
  {
    hide Inv, Sound, AllWithin, ClaimRewards, ClaimedOnly, SameRequests;
    InvBooks(c);
    ClaimKeeps(c.v, who, pid, target, funded, StakedMap(c));
    var r := ClaimRewards(c.v, who, pid, target, funded);
    if r.Ok? {
      ClaimedRequests(c.v, r.value, pid);
      SameRequestsWithin(c.v, r.value);
    }
  }

  lemma CreateSafe(c: State, who: Account, o: Oracle)
    requires Inv(c) && AllWithin(c.v)
    ensures Safe(c, ActCreate(who), o, Step(c, ActCreate(who), o))
  {
    hide Inv, Sound, AllWithin, Create;
    InvBooks(c);
    CreatedKeys(c.v, who);
    CreatedWithin(c.v, who);
  }

  lemma PoolTermsSafe(v: Store, pid: Pid, pool: PoolInfo)
    requires AllWithin(v) && pid in v.pools && pool.withdrawQueue == v.pools[pid].withdrawQueue
    requires pool.freeStake <= v.pools[pid].freeStake
    ensures AllWithin(SavePool(v, pid, pool))
  {
    hide *;
    SavePoolRequests(v, pid, pool, v.assignments);
    SameRequestsWithin(v, SavePool(v, pid, pool));
  }

  lemma PoolStepSafe(c: State, a: Action, o: Oracle)
    requires Inv(c) && AllWithin(c.v) && OfStakePool(a)
    ensures Safe(c, a, o, Step(c, a, o))
  {
    hide Inv, AllWithin, Create, SetCap, SetPayoutPref, ClaimRewards, Contribute, Withdraw, Reconcile, SavePool,
         LeavesCover;
    match a {
      case ActCreate(who) => CreateSafe(c, who, o);
      case ActSetCap(who, pid, cap) =>
        CapIs(c.v, who, pid, cap);
        if SetCap(c.v, who, pid, cap).Ok? {
          PoolTermsSafe(c.v, pid, c.v.pools[pid].(cap := Some(cap)));
        }
      case ActSetPayoutPref(who, pid, rate) =>
        PrefIs(c.v, who, pid, rate);
        if SetPayoutPref(c.v, who, pid, rate).Ok? {
          PoolTermsSafe(c.v, pid, c.v.pools[pid].(payoutCommission := Some(rate)));
        }
      case ActClaimRewards(who, pid, target, funded) => ClaimSafe(c, who, pid, target, funded, o);
      case ActContribute(who, pid, amount) => ContributeSafe(c, who, pid, amount, o);
      case ActWithdraw(who, pid, shares) => WithdrawSafe(c, who, pid, shares, o);
      case ActReconcile(pid, who) =>
        ReconcileTotal(c.v, pid, who);
        if Reconcile(c.v, pid, who).Ok? {
          ReconciledWithin(c.v, pid, who);
        }
    }
  }

  lemma ReconcileTotal(v: Store, pid: Pid, who: Account)
    ensures Reconcile(v, pid, who).Ok? || Reconcile(v, pid, who).Err?
  {
  }

  // ---------------------------------------------------------------- no step of the miners panics

  lemma ReclaimSafe(c: State, pid: Pid, worker: Worker, o: Oracle)
    requires Inv(c) && AllWithin(c.v) && ReclaimAllowed(c, Miner(pid, worker))
    ensures Safe(c, ActReclaim(pid, worker), o, ReclaimPoolWorker(c, pid, worker, o.slash))
  {
    hide *;
    var miner := Miner(pid, worker);
    InvParts(c);
    ReclaimStep(c, pid, worker, o.slash);
    if CanReclaim(c.m, miner, c.now) {
      ReclaimAmounts(c, miner);
      var orig, slashed := c.m.stakes[miner], c.m.stakes[miner] - Expected(c.m, miner);
      HandleReclaimOwned(c.v, pid, orig, slashed, o.slash, StakedMap(c));
      WithStoreIs(c.(m := ReclaimedMines(c.m, miner)), HandleReclaim(c.v, pid, orig, slashed, o.slash));
      ReclaimedPoolIs(c, miner);
    }
    SafeReclaim(c, pid, worker, o, ReclaimPoolWorker(c, pid, worker, o.slash));
  }

  lemma SafeReclaim(c: State, pid: Pid, worker: Worker, o: Oracle, r: Outcome<State>)
    requires r != Panic && (r.Ok? ==> AllWithin(r.value.v))
    requires var miner := Miner(pid, worker);
      if CanReclaim(c.m, miner, c.now) then
        && pid in c.v.pools && miner in c.m.stakes && Expected(c.m, miner) <= c.m.stakes[miner]
        && pid in SavePool(c.v, pid, ReclaimedPool(c, miner)).pools
        && (r == Diverge <==> QueueHangs(SavePool(c.v, pid, ReclaimedPool(c, miner)), pid, o.slash))
      else r != Diverge
    ensures Safe(c, ActReclaim(pid, worker), o, r)
  {
    hide AllWithin, QueueHangs, ReclaimedPool, Expected, SavePool, CanReclaim;
  }

  /** Everything else that goes through the miners either fails or keeps the requests. */
  ghost predicate Quiet(c: State, r: Outcome<State>) {
    r.Err? || (r.Ok? && SameRequests(c.v, r.value.v))
  }

  lemma QuietIsSafe(c: State, a: Action, o: Oracle, r: Outcome<State>)
    requires Quiet(c, r) && AllWithin(c.v) && !a.ActContribute? && !a.ActReclaim?
    ensures Safe(c, a, o, r)
  {
    hide SameRequests, AllWithin, LeavesCover;
    if r.Ok? {
      SameRequestsWithin(c.v, r.value.v);
    }
  }

  lemma AddWorkerQuiet(c: State, who: Account, pid: Pid, worker: Worker)
    ensures Quiet(c, AddWorker(c, who, pid, worker))
    ensures AddWorker(c, who, pid, worker).Ok? ==> CoolingKept(c.m, AddWorker(c, who, pid, worker).value.m)
  {
    AddWorkerEffects(c, who, pid, worker);
    var r := AddWorker(c, who, pid, worker);
    hide AddWorker;
    if r.Ok? {
      SavePoolRequests(c.v, pid, WithWorker(c.v.pools[pid], worker), c.v.assignments[worker := pid]);
    }
  }

  lemma StartQuiet(c: State, who: Account, pid: Pid, worker: Worker, stake: nat, quote: Quote)
    requires Inv(c)
    ensures Quiet(c, StartPoolMining(c, who, pid, worker, stake, quote))
    ensures StartPoolMining(c, who, pid, worker, stake, quote).Ok? ==>
      CoolingKept(c.m, StartPoolMining(c, who, pid, worker, stake, quote).value.m)
  {
    hide *;
    InvParts(c);
    StartEffects(c, who, pid, worker, stake, quote);
    if StartPoolMining(c, who, pid, worker, stake, quote).Ok? {
      StartedQuiet(c, Miner(pid, worker), stake, quote);
    } else {
      OnlyErrors(StartPoolMining(c, who, pid, worker, stake, quote));
    }
    QuietIs(c, StartPoolMining(c, who, pid, worker, stake, quote));
  }

  lemma OnlyErrors<T>(r: Outcome<T>)
    requires !r.Ok? && r != Panic && r != Diverge
    ensures r.Err?
  {
  }

  lemma StartedQuiet(c: State, miner: Miner, stake: nat, quote: Quote)
    requires CanStart(c, miner, stake, quote)
    ensures var c' := StartedState(c, miner, stake, quote.ve); SameRequests(c.v, c'.v) && CoolingKept(c.m, c'.m)
  {
    SavePoolRequests(c.v, miner.pid, Lending(c.v.pools[miner.pid], stake), c.v.assignments);
    hide SameRequests, SavePool;
  }

  lemma StopQuiet(c: State, miner: Miner)
    requires Inv(c)
    ensures Quiet(c, StopMining(c, miner))
    ensures StopMining(c, miner).Ok? ==> CoolingKept(c.m, StopMining(c, miner).value.m)
  {
    hide StopMining, Inv, SameRequests, CoolingKept;
    StopQuiets(c, miner);
  }

  lemma UnbindQuiet(c: State, miner: Miner)
    requires Inv(c)
    ensures Quiet(c, UnbindMiner(c, miner))
    ensures UnbindMiner(c, miner).Ok? ==> CoolingKept(c.m, UnbindMiner(c, miner).value.m)
  {
    hide *;
    InvParts(c);
    UnbindEffects(c, miner);
    if miner in c.m.minerBindings {
      BoundMiner(c, miner);
      var c1 := Idled(c, miner);
      IdledQuiet(c, miner);
      ReleasedQuiet(c1, miner);
      SameRequestsTransitive(c.v, c1.v, Released(c1, miner).v);
      CoolingKeptTransitive(c.m, c1.m, Released(c1, miner).m);
    }
    QuietIs(c, UnbindMiner(c, miner));
  }

  lemma QuietIs(c: State, r: Outcome<State>)
    requires r.Err? || (r.Ok? && SameRequests(c.v, r.value.v))
    ensures Quiet(c, r)
  {
    hide SameRequests;
  }

  lemma CoolingKeptTransitive(l: Mines, m: Mines, n: Mines)
    requires CoolingKept(l, m) && CoolingKept(m, n)
    ensures CoolingKept(l, n)
  {
  }

  lemma IdledQuiet(c: State, miner: Miner)
    requires Inv(c) && miner in c.m.minerBindings && miner in c.m.miners && miner.pid in c.v.pools
    ensures SameRequests(c.v, Idled(c, miner).v) && CoolingKept(c.m, Idled(c, miner).m)
  {
    hide Inv, StopMining, StoppedState, Quieter, SameRequests, CoolingKept, AtWork;
    IdledKeeps(c, miner);
    StopQuiets(c, miner);
    QuieterParts(c, Idled(c, miner), miner.pid);
    QuieterReflexive(c, miner.pid);
  }

  lemma QuieterParts(c: State, c': State, pid: Pid)
    ensures Quieter(c, c', pid) ==> SameRequests(c.v, c'.v) && CoolingKept(c.m, c'.m)
  {
    hide SameRequests, CoolingKept;
  }

  lemma ReleasedQuiet(c: State, miner: Miner)
    requires miner in c.m.minerBindings && miner.pid in c.v.pools
    ensures SameRequests(c.v, Released(c, miner).v) && CoolingKept(c.m, Released(c, miner).m)
  {
    hide Removed;
    SavePoolRequests(c.v, miner.pid, WithoutWorker(c.v.pools[miner.pid], miner.worker),
      c.v.assignments - {miner.worker});
  }

  // ---------------------------------------------------------------- messages

  lemma ReportKeepsCooling(m: Mines, worker: Worker, state: MinerState)
    ensures CoolingKept(m, Reported(m, worker, state))
  {
  }

  lemma {:induction false} ReportsKeepCooling(m: Mines, workers: seq<Worker>, state: MinerState)
    ensures CoolingKept(m, AllReported(m, workers, state))
    decreases |workers|
  {
    if workers != [] {
      hide CoolingKept;
      ReportKeepsCooling(m, workers[0], state);
      ReportsKeepCooling(Reported(m, workers[0], state), workers[1..], state);
      CoolingKeptTransitive(m, Reported(m, workers[0], state), AllReported(m, workers, state));
    }
  }

  lemma SettlementKeepsCooling(m: Mines, info: SettleInfo, now: nat)
    requires Settleable(m, info)
    ensures CoolingKept(m, Settled(m, info, now))
  {
  }

  lemma {:induction false} SettlementsKeepCooling(m: Mines, settle: seq<SettleInfo>, now: nat)
    requires AllSettleable(m, settle)
    ensures CoolingKept(m, AllSettled(m, settle, now))
    decreases |settle|
  {
    if settle != [] {
      var m1 := Settled(m, settle[0], now);
      assert Settleable(m, settle[0]);
      SettledOnlyMiners(m, settle[0], now);
      StillSettleable(m, m1, settle[1..]);
      SettlementKeepsCooling(m, settle[0], now);
      hide CoolingKept, Settled;
      SettlementsKeepCooling(m1, settle[1..], now);
      CoolingKeptTransitive(m, m1, AllSettled(m, settle, now));
    }
  }

  lemma MessageQuiet(c: State, offline: seq<Worker>, recovered: seq<Worker>, settle: seq<SettleInfo>, permill: Permill)
    requires Inv(c) && AllSettleable(c.m, settle)
    ensures var r := GatekeeperMessage(c, offline, recovered, settle, permill);
      r.Ok? && Quiet(c, r) && CoolingKept(c.m, r.value.m)
  {
    hide *;
    InvParts(c);
    AssignedPools(c);
    OnRewardKeeps(c.v, settle, permill, StakedMap(c));
    CreditsRequests(c.v, OnReward(c.v, settle, permill).value);
    MessageIs(c, offline, recovered, settle, permill);
    MessageKeepsCooling(c, offline, recovered, settle);
    QuietIs(c, GatekeeperMessage(c, offline, recovered, settle, permill));
  }

  lemma MessageKeepsCooling(c: State, offline: seq<Worker>, recovered: seq<Worker>, settle: seq<SettleInfo>)
    requires AllSettleable(c.m, settle)
    ensures CoolingKept(c.m, AfterMessage(c, offline, recovered, settle))
  {
    hide CoolingKept, AllReported, AllSettled, AllSettleable, OnlyMiners, SameReleasing;
    var m1 := AllReported(c.m, offline, MiningUnresponsive);
    var m2 := AllReported(m1, recovered, MiningIdle);
    ReportsKeep(c.m, offline, MiningUnresponsive);
    ReportsKeep(m1, recovered, MiningIdle);
    OnlyMinersTransitive(c.m, m1, m2);
    StillSettleable(c.m, m2, settle);
    ReportsKeepCooling(c.m, offline, MiningUnresponsive);
    ReportsKeepCooling(m1, recovered, MiningIdle);
    SettlementsKeepCooling(m2, settle, c.now);
    CoolingKeptTransitive(c.m, m1, m2);
    CoolingKeptTransitive(c.m, m2, AfterMessage(c, offline, recovered, settle));
  }

  lemma FinalizeQuiet(c: State)
    requires Inv(c)
    ensures Quiet(c, Finalize(c)) && Finalize(c).Ok? && CoolingKept(c.m, Finalize(c).value.m)
  {
    hide *;
    FinalizeKeeps(c);
    QuietIs(c, Finalize(c));
  }

  // ---------------------------------------------------------------- every step

  lemma MinerStepSafe(c: State, a: Action, o: Oracle)
    requires Inv(c) && AllWithin(c.v) && OfMiners(a) && Admissible(c, a)
    ensures Safe(c, a, o, Step(c, a, o))
  {
    hide Inv, AddWorker, RemoveWorker, Unbind, UnbindMiner, StartPoolMining, StopPoolMining, StopMining,
         ReclaimPoolWorker, GatekeeperMessage, Finalize, AllSettleable, ReclaimAllowed, AllWithin, Safe, Quiet,
         CoolingKept, Hangs;
    match a {
      case ActReclaim(pid, worker) => ReclaimSafe(c, pid, worker, o);
      case _ =>
        MinerStepQuiet(c, a, o);
        QuietIsSafe(c, a, o, Step(c, a, o));
    }
  }

  lemma ErrorQuiet(c: State, r: Outcome<State>)
    requires r.Err?
    ensures Quiet(c, r)
  {
  }

  /** Whatever goes through the miners, short of a reclaim, leaves requests and cooling miners alone. */
  lemma MinerStepQuiet(c: State, a: Action, o: Oracle)
    requires Inv(c) && OfMiners(a) && Admissible(c, a) && !a.ActReclaim?
    ensures Quiet(c, Step(c, a, o))
    ensures Step(c, a, o).Ok? ==> CoolingKept(c.m, Step(c, a, o).value.m)
  {
    hide Inv, AddWorker, RemoveWorker, Unbind, UnbindMiner, StartPoolMining, StopPoolMining, StopMining,
         GatekeeperMessage, Finalize, AllSettleable, Quiet, CoolingKept;
    if Step(c, a, o).Err? {
      ErrorQuiet(c, Step(c, a, o));
    }
    match a {
      case ActAddWorker(who, pid, worker) => AddWorkerQuiet(c, who, pid, worker);
      case ActRemoveWorker(who, pid, worker) =>
        RemoveIs(c, who, pid, worker);
        UnbindQuiet(c, Miner(pid, worker));
      case ActUnbind(who, miner) =>
        UnbindIs(c, who, miner);
        UnbindQuiet(c, miner);
      case ActStartMining(who, pid, worker, stake, quote) => StartQuiet(c, who, pid, worker, stake, quote);
      case ActStopMining(who, pid, worker) =>
        StopIs(c, who, pid, worker);
        StopQuiet(c, Miner(pid, worker));
      case ActGatekeeper(offline, recovered, settle) => MessageQuiet(c, offline, recovered, settle, o.permill);
      case ActFinalize => FinalizeQuiet(c);
    }
  }

  lemma WorldStepQuiet(c: State, a: Action, o: Oracle)
    requires !OfStakePool(a) && !OfMiners(a)
    ensures Quiet(c, Step(c, a, o)) && !a.ActContribute? && !a.ActReclaim?
  {
  }

  /**
    From a state with owned requests no step panics, whatever the caller sends; a step hangs
    if and only if the queue it goes on to serve does; and requests stay owned
    unless a withdrawal leaves one behind that the caller's shares no longer cover.
  */
  lemma StepSafe(c: State, a: Action, o: Oracle)
    requires Inv(c) && AllWithin(c.v) && Admissible(c, a)
    ensures Safe(c, a, o, Step(c, a, o))
  {
    hide *;
    if OfStakePool(a) {
      PoolStepSafe(c, a, o);
    } else if OfMiners(a) {
      MinerStepSafe(c, a, o);
    } else {
      WorldStepQuiet(c, a, o);
      QuietIsSafe(c, a, o, Step(c, a, o));
    }
  }
}
