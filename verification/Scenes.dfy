/**
  Runs from the empty chain, move by move, on one pool with one owner: a scene says what there is of a state,
  and each lemma makes one more move and says what scene it leads to.
*/
module Scenes {
  import opened Base
  import opened FixedPoint
  import opened Pool
  import opened Vault
  import opened CallLaws
  import opened ReclaimLaws
  import opened Mining
  import opened Tokenomic
  import opened Chain
  import opened ChainLaws
  import opened MinerLaws
  import opened WorkerLaws
  import opened MessageLaws
  import opened StepLaws
  import opened SafetyLaws
  import opened RunLaws

  // ---------------------------------------------------------------- building runs

  /** Nothing is slashed and nothing commissioned on these runs. */
  const NO_ORACLE: Oracle := Oracle((who, asked, free) => 0, (rate, rewards) => 0)

  // a performance with a whole root
  const P: nat := 64

  /** What the tokenomic of a new chain, but perhaps for its `k`, quotes a worker of this performance for a stake. */
  ghost predicate IsQuote(stake: nat, quote: Quote) {
    exists k, root :: Quotes(DEFAULT.(k := k), stake, P, 1, root, quote)
  }

  ghost predicate Quoted(a: Action) {
    a.ActStartMining? ==> IsQuote(a.stake, a.quote)
  }

  /** A run from the empty chain whose workers start as quoted and whose withdrawals keep requests owned. */
  ghost predicate Reached(c: State, moves: seq<Move>) {
    && c == Run(Genesis(0), moves) && AdmissibleRun(Genesis(0), moves) && CoveringRun(Genesis(0), moves)
    && forall move :: move in moves ==> Quoted(move.action)
  }

  lemma {:induction false} RunMore(c: State, moves: seq<Move>, move: Move)
    requires AdmissibleRun(c, moves) && Admissible(Run(c, moves), move.action)
    ensures AdmissibleRun(c, moves + [move])
    ensures CoveringRun(c, moves) && LeavesCover(Run(c, moves), move.action) ==> CoveringRun(c, moves + [move])
    decreases |moves|
  {
    hide Admissible, LeavesCover, After;
    if moves == [] {
      assert moves + [move] == [move] && [move][1..] == [];
    } else {
      RunMore(After(c, moves[0]), moves[1..], move);
      assert (moves + [move])[1..] == moves[1..] + [move];
    }
  }

  /** One more step of a run, if it succeeds. */
  lemma Next(c: State, moves: seq<Move>, a: Action, c': State) returns (moves': seq<Move>)
    requires Reached(c, moves) && Admissible(c, a) && LeavesCover(c, a) && Quoted(a)
    requires Step(c, a, NO_ORACLE) == Ok(c')
    ensures Reached(c', moves')
  {
    hide AdmissibleRun, CoveringRun, Run, Step, Admissible, LeavesCover, Quoted;
    moves' := moves + [Move(a, NO_ORACLE)];
    RunMore(Genesis(0), moves, Move(a, NO_ORACLE));
    RunAppend(Genesis(0), moves, Move(a, NO_ORACLE));
  }

  lemma ReachedOk(c: State, moves: seq<Move>)
    requires Reached(c, moves)
    ensures Inv(c) && AllWithin(c.v)
  {
    hide Inv, AllWithin, AdmissibleRun, CoveringRun, Run, SafeRun;
    EveryRunKeeps(0, moves);
    EveryOwnedRunIsSafe(0, moves);
  }

  // ---------------------------------------------------------------- scenes

  /** What a worker of the pool is doing, with its stake and V. */
  datatype Hand = Idle | Busy(stake: nat, ve: Bits, v: Bits) | Cools(stake: nat, ve: Bits, v: Bits, since: nat)

  /** The pool, its stakers, what fresh accounts have, the index of requests, the workers and the clock. */
  datatype Scene = Scene(
    pool: PoolInfo,
    stakers: map<Key, UserStakeInfo>,
    funded: map<Account, nat>,
    times: seq<nat>,
    queued: map<nat, seq<Pid>>,
    hands: map<Worker, Hand>,
    now: nat)

  const WEEK: nat := 604_800

  predicate HandOk(c: State, w: Worker, hand: Hand) {
    var mi := Miner(0, w);
    && mi in c.m.minerBindings && c.m.minerBindings[mi] == w && mi in c.m.miners
    && w in c.m.workerBindings && c.m.workerBindings[w] == mi
    && w in c.registry && c.registry[w] == WorkerInfo(Some(0), Some(P)) && w in c.v.assignments
      && c.v.assignments[w] == 0
    && match hand
       case Idle => c.m.miners[mi].state.Ready? && mi !in c.m.stakes
       case Busy(stake, ve, v) =>
         && c.m.miners[mi].state.MiningIdle? && c.m.miners[mi].ve == ve && c.m.miners[mi].v == v
         && mi in c.m.stakes && c.m.stakes[mi] == stake
       case Cools(stake, ve, v, since) =>
         && c.m.miners[mi].state.MiningCoolingDown? && c.m.miners[mi].coolDownStart == since
         && c.m.miners[mi].ve == ve && c.m.miners[mi].v == v && mi in c.m.stakes && c.m.stakes[mi] == stake
  }

  predicate NoHand(c: State, w: Worker) {
    Miner(0, w) !in c.m.minerBindings && Miner(0, w) !in c.m.miners && Miner(0, w) !in c.m.stakes
    && w !in c.m.workerBindings
  }

  ghost predicate Staffed(c: State, hands: map<Worker, Hand>) {
    && (forall w :: w in hands ==> HandOk(c, w, hands[w]))
    && (forall w :: w !in hands ==> NoHand(c, w))
  }

  /** Accounts that are no stakers have what they were funded with. */
  ghost predicate Accounts(v: Store, stakers: map<Key, UserStakeInfo>, funded: map<Account, nat>) {
    && v.stakers == stakers
    && (forall k :: k in stakers ==> stakers[k].user == k.1)
    && (forall w: Account :: (0, w) !in stakers ==> PurseOf(v, w) == Purse(0, 0, Get(funded, w), 0))
  }

  ghost predicate Shows(c: State, s: Scene) {
    && c.v.pools.Keys == {0} && c.v.pools[0] == s.pool && s.pool.pid == 0 && s.pool.owner == 0 && s.pool.rewardAcc == 0
    && Accounts(c.v, s.stakers, s.funded) && Staffed(c, s.hands)
    && c.v.timestamps == s.times && c.v.queuedPools == s.queued
    && c.miningEnabled && c.m.coolDownPeriod == WEEK && c.now == s.now && c.lastFinalized == 0
  }

  /** The pool of these runs: no cap, no commission, no rewards. */
  function PlainPool(shares: nat, stake: nat, free: nat): PoolInfo {
    PoolInfo(0, 0, None, 0, None, 0, shares, stake, free, 0, [], [])
  }

  const FIRST: Scene := Scene(PlainPool(0, 0, 0), map[], map[], [], map[], map[], 0)

  lemma Opens() returns (c: State, moves: seq<Move>)
    ensures Reached(c, moves) && Shows(c, FIRST)
  {
    var c0 := Genesis(0);
    var c1 := c0.(v := Create(c0.v, 0));
    var moves1 := Next(c0, [], ActCreate(0), c1);
    var c2 := c1.(miningEnabled := true);
    var moves2 := Next(c1, moves1, ActSetMiningEnable(true), c2);
    c := c2.(m := c2.m.(coolDownPeriod := WEEK));
    moves := Next(c2, moves2, ActSetCoolDown(WEEK), c);
    assert c.v.pools.Keys == {0};
  }

  // ---------------------------------------------------------------- money

  lemma StaffedFrame(c: State, c': State, hands: map<Worker, Hand>)
    requires Staffed(c, hands) && c'.m == c.m && c'.registry == c.registry && c'.v.assignments == c.v.assignments
    ensures Staffed(c', hands)
  {
    forall w | w in hands ensures HandOk(c', w, hands[w]) {
      assert HandOk(c, w, hands[w]);
    }
    forall w | w !in hands ensures NoHand(c', w) {
      assert NoHand(c, w);
    }
  }

  /** A fresh account receives money. */
  lemma Funds(c: State, moves: seq<Move>, s: Scene, who: Account, amount: nat) returns (c': State, moves': seq<Move>)
    requires Reached(c, moves) && Shows(c, s) && (0, who) !in s.stakers && who !in s.funded && amount > 0
    ensures Reached(c', moves') && Shows(c', s.(funded := s.funded[who := amount]))
  {
    hide Reached, Staffed;
    c' := c.(v := Paying(c.v, who, amount));
    assert PurseOf(c.v, who) == Purse(0, 0, 0, 0);
    moves' := Next(c, moves, ActReceive(who, amount), c');
    StaffedFrame(c, c', s.hands);
    forall w: Account | (0, w) !in s.stakers ensures PurseOf(c'.v, w) ==
      Purse(0, 0, Get(s.funded[who := amount], w), 0) {
      assert PurseOf(c.v, w) == Purse(0, 0, Get(s.funded, w), 0);
    }
  }

  /** What a saved desk leaves of the accounts. */
  lemma SavedAccountsShow(v: Store, stakers: map<Key, UserStakeInfo>, funded: map<Account, nat>, who: Account, d: Desk)
    requires Accounts(v, stakers, funded) && d.user.user == who
    ensures var v' := Save(v, 0, who, d);
      && Accounts(v', stakers[(0, who) := d.user], funded)
      && v'.pools == v.pools[0 := d.pool]
      && v'.assignments == v.assignments && v'.timestamps == v.timestamps && v'.queuedPools == v.queuedPools
  {
    SavedPurses(v, who, d);
    hide Save, PurseOf;
    forall w: Account | (0, w) !in stakers[(0, who) := d.user]
      ensures PurseOf(Save(v, 0, who, d), w) == Purse(0, 0, Get(funded, w), 0)
    {
      assert PurseOf(v, w) == Purse(0, 0, Get(funded, w), 0);
    }
  }

  lemma SavedPurses(v: Store, who: Account, d: Desk)
    ensures var v' := Save(v, 0, who, d);
      && (forall w :: w != who ==> PurseOf(v', w) == PurseOf(v, w)) && v'.stakers == v.stakers[(0, who) := d.user]
      && v'.pools == v.pools[0 := d.pool]
      && v'.assignments == v.assignments && v'.timestamps == v.timestamps && v'.queuedPools == v.queuedPools
  {
  }

  /** A state that differs in the storage of the stake pool only. */
  lemma SceneWithStore(c: State, v': Store, s: Scene, s': Scene)
    requires Shows(c, s) && Accounts(v', s'.stakers, s'.funded) && v'.pools.Keys == {0} && v'.pools[0] == s'.pool
    requires s'.pool.pid == 0 && s'.pool.owner == 0 && s'.pool.rewardAcc == 0
    requires v'.assignments == c.v.assignments && v'.timestamps == s'.times && v'.queuedPools == s'.queued
    requires s'.hands == s.hands && s'.now == s.now
    ensures Shows(c.(v := v'), s')
  {
    StaffedFrame(c, c.(v := v'), s.hands);
    hide Staffed, Accounts;
  }

  function WithDeposit(pool: PoolInfo, amount: nat, shares: nat): PoolInfo {
    pool.(totalShares := pool.totalShares + shares, totalStake := pool.totalStake + amount,
          freeStake := pool.freeStake + amount)
  }

  lemma FirstDeposit(v: Store, who: Account, amount: nat, shares: nat)
    requires 0 in v.pools && v.pools[0].rewardAcc == 0 && v.pools[0].cap.None?
    requires (0, who) !in v.stakers && PurseOf(v, who) == Purse(0, 0, amount, 0) && amount >= MIN_CONTRIBUTION
    requires v.pools[0].totalShares == 0 || v.pools[0].totalStake > 0
    requires SharesFor(v.pools[0], amount) == shares
    ensures var d := Desk(WithDeposit(v.pools[0], amount, shares), UserStakeInfo(who, amount, shares, 0, 0),
                          Purse(amount, amount, amount, 0), 1);
      Accepts(v, who, 0, amount) && Deposited(v, who, 0, amount, NO_ORACLE.slash) == Save(v, 0, who, d) &&
      Contribute(v, who, 0, amount, NO_ORACLE.slash) == ProcessQueue(Save(v, 0, who, d), 0, NO_ORACLE.slash)
  {
    MulByZero(shares);
    hide SharesFor, Mul, Save, ProcessQueue;
  }

  /** A fresh account contributes to a pool that has no requests. */
  lemma Deposits(c: State, moves: seq<Move>, s: Scene, who: Account, amount: nat, shares: nat)
    returns (c': State, moves': seq<Move>, s': Scene)
    requires Reached(c, moves) && Shows(c, s) && (0, who) !in s.stakers && who in s.funded && s.funded[who] == amount
    requires s.pool.withdrawQueue == [] && s.pool.cap.None? && amount >= MIN_CONTRIBUTION
    requires s.pool.totalShares == 0 || s.pool.totalStake > 0
    requires SharesFor(s.pool, amount) == shares
    ensures Reached(c', moves') && Shows(c', s')
    ensures s' == s.(pool := WithDeposit(s.pool, amount, shares),
                     stakers := s.stakers[(0, who) := UserStakeInfo(who, amount, shares, 0, 0)])
  {
    hide Reached, SharesFor, Contribute, Save, Staffed, ProcessQueue;
    FirstDeposit(c.v, who, amount, shares);
    var d := Desk(WithDeposit(s.pool, amount, shares), UserStakeInfo(who, amount, shares, 0, 0),
                  Purse(amount, amount, amount, 0), 1);
    SavedAccountsShow(c.v, s.stakers, s.funded, who, d);
    var v' := Save(c.v, 0, who, d);
    NothingServed(v', NO_ORACLE.slash);
    s' := s.(pool := d.pool, stakers := s.stakers[(0, who) := d.user]);
    c' := c.(v := v');
    SceneWithStore(c, v', s, s');
    moves' := Next(c, moves, ActContribute(who, 0, amount), c');
  }

  // ---------------------------------------------------------------- withdrawals

  /** A withdrawal of which nothing can be paid is queued. */
  lemma Queued(v: Store, who: Account, shares: nat, price: Bits, now: nat)
    requires 0 in v.pools && (0, who) in v.stakers && v.pools[0].rewardAcc == 0
    requires var user := v.stakers[(0, who)]; user.user == who && user.rewardDebt == 0 && shares <= user.shares
    requires Nondust(shares) && SharePrice(v.pools[0]) == Some(price) && price > 0
    requires CloseToZero(Div(v.pools[0].freeStake, price)) && Nondust(shares)
    ensures QueuedNow(v.pools[0], shares) == shares
    ensures var pool, user := v.pools[0], v.stakers[(0, who)];
      var d := Desk(pool.(withdrawQueue := Without(pool.withdrawQueue, who) + [WithdrawInfo(who, shares, now)]), user,
                    PurseOf(v, who), 0);
      Withdraw(v, who, 0, shares, now, NO_ORACLE.slash) == Ok(AddToIndex(Save(v, 0, who, d), now, 0))
  {
    MulByZero(v.stakers[(0, who)].shares);
    hide Mul, Div, SharePrice, AddToIndex, Save, Without;
    assert ServedNow(v.pools[0], shares) == 0 && QueuedNow(v.pools[0], shares) == shares;
  }

  function WithRequest(s: Scene, who: Account, shares: nat): Scene {
    s.(pool := s.pool.(withdrawQueue := Without(s.pool.withdrawQueue, who) + [WithdrawInfo(who, shares, s.now)]),
       times := TimeAdded(s.times, s.now), queued := PoolListed(s.queued, s.now, 0))
  }

  lemma Asks(c: State, moves: seq<Move>, s: Scene, who: Account, shares: nat, price: Bits)
    returns (c': State, moves': seq<Move>)
    requires Reached(c, moves) && Shows(c, s) && (0, who) in s.stakers
    requires s.stakers[(0, who)].rewardDebt == 0 && Nondust(shares) && shares <= s.stakers[(0, who)].shares
    requires SharePrice(s.pool) == Some(price) && price > 0 && CloseToZero(Div(s.pool.freeStake, price))
    ensures Reached(c', moves') && Shows(c', WithRequest(s, who, shares))
  {
    hide Reached, Withdraw, SharePrice, Div, Save, Without, TimeAdded, PoolListed, QueuedNow, Staffed, AfterWithdrawal;
    Queued(c.v, who, shares, price, s.now);
    var s' := WithRequest(s, who, shares);
    var d := Desk(s'.pool, s.stakers[(0, who)], PurseOf(c.v, who), 0);
    SavedAccountsShow(c.v, s.stakers, s.funded, who, d);
    var v1 := Save(c.v, 0, who, d);
    var v' := AddToIndex(v1, s.now, 0);
    assert s.stakers[(0, who) := d.user] == s.stakers;
    IndexedAccounts(v1, s.stakers, s.funded, s.now);
    c' := c.(v := v');
    SceneWithStore(c, v', s, s');
    assert KeepsCover(c.v, 0, who, shares);
    moves' := Next(c, moves, ActWithdraw(who, 0, shares), c');
  }

  lemma IndexedAccounts(v: Store, stakers: map<Key, UserStakeInfo>, funded: map<Account, nat>, now: nat)
    requires Accounts(v, stakers, funded)
    ensures Accounts(AddToIndex(v, now, 0), stakers, funded)
  {
    hide TimeAdded, PoolListed;
    assert forall w :: PurseOf(AddToIndex(v, now, 0), w) == PurseOf(v, w);
  }

  /** What the release of shares leaves of a desk without rewards. */
  lemma Releases(d: Desk, shares: nat, price: Bits, paid: nat, slash: Slasher)
    requires SharePrice(d.pool) == Some(price) && shares <= d.user.shares && d.pool.rewardAcc == 0
    requires paid == Min(Min(Mul(shares, price), d.pool.freeStake), Kept(d.user, price))
    requires paid <= d.pool.totalStake && Nondust(d.pool.totalStake - paid)
    requires shares + ExtractDust(d.user.shares - shares).1 <= d.pool.totalShares
    ensures var r := Release(d, shares, slash);
      && r.Ok?
      && r.value.pool == d.pool.(totalShares := d.pool.totalShares - (shares + ExtractDust(d.user.shares - shares).1),
                                 totalStake := d.pool.totalStake - paid, freeStake := d.pool.freeStake - paid)
      && r.value.user == d.user.(shares := ExtractDust(d.user.shares - shares).0,
                                 locked := ExtractDust(Kept(d.user, price) - paid).0, rewardDebt := 0)
  {
    MulByZero(ExtractDust(d.user.shares - shares).0);
    hide Mul, SharePrice;
  }

  /** The pool and the staker after `shares` were paid with `paid` at a price. */
  function PaidPool(pool: PoolInfo, user: UserStakeInfo, shares: nat, paid: nat): PoolInfo
    requires shares <= user.shares && shares + ExtractDust(user.shares - shares).1 <= pool.totalShares
    requires paid <= pool.totalStake && paid <= pool.freeStake
  {
    pool.(totalShares := pool.totalShares - (shares + ExtractDust(user.shares - shares).1),
          totalStake := pool.totalStake - paid, freeStake := pool.freeStake - paid)
  }

  function PaidUser(user: UserStakeInfo, shares: nat, price: Bits, paid: nat): UserStakeInfo
    requires shares <= user.shares && paid <= Kept(user, price)
  {
    user.(shares := ExtractDust(user.shares - shares).0, locked := ExtractDust(Kept(user, price) - paid).0,
      rewardDebt := 0)
  }

  /** What is paid, at a price, and enough is left. */
  predicate Pays(pool: PoolInfo, user: UserStakeInfo, shares: nat, price: Bits, paid: nat) {
    && SharePrice(pool) == Some(price) && price > 0 && Nondust(shares) && shares <= user.shares
    && shares <= Div(pool.freeStake, price)
    && shares + ExtractDust(user.shares - shares).1 <= pool.totalShares
    && paid == Min(Min(Mul(shares, price), pool.freeStake), Kept(user, price))
    && paid <= pool.totalStake && Nondust(pool.totalStake - paid)
  }

  /** A withdrawal that is paid at once. */
  lemma PaidAtOnce(v: Store, who: Account, shares: nat, price: Bits, paid: nat, now: nat)
    requires 0 in v.pools && (0, who) in v.stakers && v.pools[0].rewardAcc == 0
    requires v.stakers[(0, who)].user == who && v.stakers[(0, who)].rewardDebt == 0
    requires Pays(v.pools[0], v.stakers[(0, who)], shares, price, paid)
    ensures exists d: Desk ::
      && d.pool == PaidPool(v.pools[0], v.stakers[(0, who)], shares, paid)
      && d.user == PaidUser(v.stakers[(0, who)], shares, price, paid)
      && Withdraw(v, who, 0, shares, now, NO_ORACLE.slash) == Ok(Save(v, 0, who, d))
  {
    var pool, user := v.pools[0], v.stakers[(0, who)];
    MulByZero(user.shares);
    MulByZero(ExtractDust(user.shares - shares).0);
    var d := Load(v, who, pool, user);
    Releases(d, shares, price, paid, NO_ORACLE.slash);
    hide Mul, Div, SharePrice, Release, Save;
    var r := TryWithdraw(d, shares, now, NO_ORACLE.slash);
    assert r.Ok? && r.value.pool == PaidPool(pool, user, shares, paid)
      && r.value.user == PaidUser(user, shares, price, paid);
  }

  /** A withdrawal that is paid at once, whatever is queued. */
  lemma Withdraws(c: State, s: Scene, who: Account, shares: nat, price: Bits, paid: nat)
    returns (c': State, s': Scene)
    requires Shows(c, s) && (0, who) in s.stakers && s.stakers[(0, who)].rewardDebt == 0
    requires Pays(s.pool, s.stakers[(0, who)], shares, price, paid)
    ensures Step(c, ActWithdraw(who, 0, shares), NO_ORACLE) == Ok(c') && Shows(c', s')
    ensures s' == s.(pool := PaidPool(s.pool, s.stakers[(0, who)], shares, paid),
                     stakers := s.stakers[(0, who) := PaidUser(s.stakers[(0, who)], shares, price, paid)])
  {
    hide Withdraw, SharePrice, Div, Mul, Save, Staffed, Kept;
    PaidAtOnce(c.v, who, shares, price, paid, s.now);
    s' := s.(pool := PaidPool(s.pool, s.stakers[(0, who)], shares, paid),
             stakers := s.stakers[(0, who) := PaidUser(s.stakers[(0, who)], shares, price, paid)]);
    var d: Desk :|
      && d.pool == s'.pool && d.user == s'.stakers[(0, who)]
      && Withdraw(c.v, who, 0, shares, s.now, NO_ORACLE.slash) == Ok(Save(c.v, 0, who, d));
    SavedAccountsShow(c.v, s.stakers, s.funded, who, d);
    c' := c.(v := Save(c.v, 0, who, d));
    SceneWithStore(c, c'.v, s, s');
  }

  lemma Leaves(c: State, moves: seq<Move>, s: Scene, who: Account, shares: nat, price: Bits, paid: nat)
    returns (c': State, moves': seq<Move>, s': Scene)
    requires Reached(c, moves) && Shows(c, s) && (0, who) in s.stakers && s.stakers[(0, who)].rewardDebt == 0
    requires s.pool.withdrawQueue == [] && Pays(s.pool, s.stakers[(0, who)], shares, price, paid)
    ensures Reached(c', moves') && Shows(c', s')
    ensures s' == s.(pool := PaidPool(s.pool, s.stakers[(0, who)], shares, paid),
                     stakers := s.stakers[(0, who) := PaidUser(s.stakers[(0, who)], shares, price, paid)])
  {
    hide Reached, SharePrice, Div, Mul, Staffed, AfterWithdrawal, QueuedNow, Kept, Step, PaidPool, PaidUser, Accounts;
    c', s' := Withdraws(c, s, who, shares, price, paid);
    assert KeepsCover(c.v, 0, who, shares);
    moves' := Next(c, moves, ActWithdraw(who, 0, shares), c');
  }

  // ---------------------------------------------------------------- workers

  /** All that concerns the other workers is as it was. */
  predicate OnlyWorker(c: State, c': State, w: Worker) {
    var mi := Miner(0, w);
    && c'.m.minerBindings - {mi} == c.m.minerBindings - {mi} && c'.m.miners - {mi} == c.m.miners - {mi}
    && c'.m.stakes - {mi} == c.m.stakes - {mi} && c'.m.workerBindings - {w} == c.m.workerBindings - {w}
    && c'.registry - {w} == c.registry - {w} && c'.v.assignments - {w} == c.v.assignments - {w}
  }

  lemma WithoutOne<K, V>(m: map<K, V>, m': map<K, V>, k: K)
    requires m' - {k} == m - {k}
    ensures forall j :: j != k ==> (j in m' <==> j in m)
    ensures forall j :: j != k && j in m ==> m'[j] == m[j]
  {
    forall j | j != k
      ensures j in m' <==> j in m
      ensures j in m ==> m'[j] == m[j]
    {
      assert j in m' <==> j in m' - {k};
      assert j in m <==> j in m - {k};
      if j in m {
        assert (m' - {k})[j] == m'[j];
      }
    }
  }

  lemma OthersStaffed(c: State, c': State, hands: map<Worker, Hand>, w: Worker, hand: Hand)
    requires Staffed(c, hands) && OnlyWorker(c, c', w) && HandOk(c', w, hand)
    ensures Staffed(c', hands[w := hand])
  {
    WithoutOne(c.m.minerBindings, c'.m.minerBindings, Miner(0, w));
    WithoutOne(c.m.miners, c'.m.miners, Miner(0, w));
    WithoutOne(c.m.stakes, c'.m.stakes, Miner(0, w));
    WithoutOne(c.m.workerBindings, c'.m.workerBindings, w);
    WithoutOne(c.registry, c'.registry, w);
    WithoutOne(c.v.assignments, c'.v.assignments, w);
    var hands' := hands[w := hand];
    forall x | x in hands' ensures HandOk(c', x, hands'[x]) {
      if x != w {
        assert HandOk(c, x, hands[x]);
      }
    }
    forall x | x !in hands' ensures NoHand(c', x) {
      assert NoHand(c, x);
    }
  }

  /** A state that differs in one worker and in what the pool lends or expects. */
  lemma SceneWithHand(c: State, c': State, s: Scene, pool: PoolInfo, w: Worker, hand: Hand)
    requires Shows(c, s) && OnlyWorker(c, c', w) && HandOk(c', w, hand)
    requires pool.pid == 0 && pool.owner == 0 && pool.rewardAcc == 0 && c'.v.pools == c.v.pools[0 := pool]
    requires c'.v == c.v.(pools := c'.v.pools, assignments := c'.v.assignments, audits := c'.v.audits)
    requires c'.m.coolDownPeriod == c.m.coolDownPeriod
    requires c'.miningEnabled == c.miningEnabled && c'.now == c.now && c'.lastFinalized == c.lastFinalized
    ensures Shows(c', s.(pool := pool, hands := s.hands[w := hand]))
  {
    OthersStaffed(c, c', s.hands, w, hand);
    SameAccounts(c.v, c'.v, s.stakers, s.funded);
    hide Staffed, Accounts, OnlyWorker, HandOk;
  }

  lemma SameAccounts(v: Store, v': Store, stakers: map<Key, UserStakeInfo>, funded: map<Account, nat>)
    requires Accounts(v, stakers, funded) && v'.stakers == v.stakers
    requires v'.ledger == v.ledger && v'.lock == v.lock && v'.free == v.free && v'.slack == v.slack
    ensures Accounts(v', stakers, funded)
  {
    forall w: Account | (0, w) !in stakers ensures PurseOf(v', w) == Purse(0, 0, Get(funded, w), 0) {
      assert PurseOf(v, w) == Purse(0, 0, Get(funded, w), 0);
    }
  }

  /** A worker of the owner is registered and added to the pool. */
  lemma Joins(c: State, moves: seq<Move>, s: Scene, w: Worker) returns (c': State, moves': seq<Move>, s': Scene)
    requires Reached(c, moves) && Shows(c, s) && w !in s.hands && w !in s.pool.workers && |s.pool.workers| < 3
    ensures Reached(c', moves') && Shows(c', s')
    ensures s' == s.(pool := WithWorker(s.pool, w), hands := s.hands[w := Idle])
  {
    hide Reached, Accounts;
    assert NoHand(c, w);
    var info := WorkerInfo(Some(0), Some(P));
    var c1 := c.(registry := c.registry[w := info]);
    var moves1 := Next(c, moves, ActRegister(w, info), c1);
    c' := JoinedState(c1, w);
    JoinsHere(c1, w);
    hide Step, Staffed;
    moves' := Next(c1, moves1, ActAddWorker(0, 0, w), c');
    s' := s.(pool := WithWorker(s.pool, w), hands := s.hands[w := Idle]);
    JoinedOnly(c, c1, w);
    SceneWithHand(c, c', s, WithWorker(s.pool, w), w, Idle);
  }

  function JoinedState(c: State, w: Worker): State
    requires 0 in c.v.pools
  {
    c.(v := c.v.(pools := c.v.pools[0 := WithWorker(c.v.pools[0], w)], assignments := c.v.assignments[w := 0]),
       m := BoundMines(c.m, Miner(0, w), c.now))
  }

  lemma JoinsHere(c: State, w: Worker)
    requires 0 in c.v.pools && c.v.pools[0].owner == 0 && w !in c.v.pools[0].workers && |c.v.pools[0].workers| < 3
    requires w in c.registry && c.registry[w] == WorkerInfo(Some(0), Some(P)) && NoHand(c, w)
    ensures Step(c, ActAddWorker(0, 0, w), NO_ORACLE) == Ok(JoinedState(c, w))
  {
  }

  lemma JoinedOnly(c: State, c1: State, w: Worker)
    requires 0 in c.v.pools && c1 == c.(registry := c.registry[w := WorkerInfo(Some(0), Some(P))]) && NoHand(c, w)
    ensures OnlyWorker(c, JoinedState(c1, w), w) && HandOk(JoinedState(c1, w), w, Idle)
  {
  }

  /** What the tokenomic of a new chain quotes these workers for a stake. */
  function DefaultQuote(stake: nat): Quote {
    Quote(800_000_000_000_000, FixMul(DEFAULT.re, ToFixed(stake) + 354_177_486_215_223_391_040), DEFAULT.vMax)
  }

  lemma DefaultQuotes(stake: nat)
    ensures Quotes(DEFAULT, stake, P, 1, 8 * ONE, DefaultQuote(stake)) && IsQuote(stake, DefaultQuote(stake))
    ensures stake <= 10_000_000_000_000_000 ==> 0 < DefaultQuote(stake).ve <= DefaultQuote(stake).vMax
  {
    assert FixMul(DEFAULT.re - ONE, ONE) == DEFAULT.re - ONE;
    assert RigCost(DEFAULT, P) == 354_177_486_215_223_391_040;
    assert IsRoot(P * ONE, 8 * ONE);
    assert MinimalStake(DEFAULT, 8 * ONE) == 800_000_000_000_000;
    assert DEFAULT.(k := DEFAULT.k) == DEFAULT;
    hide IsRoot, MinimalStake;
    if stake <= 10_000_000_000_000_000 {
      ToFixedMono(stake, 10_000_000_000_000_000);
    }
  }

  lemma DefaultLends(stake: nat)
    requires stake <= 10_000_000_000_000_000
    ensures var quote := DefaultQuote(stake);
      && IsQuote(stake, quote) && NondustStake(quote) && quote.minimalStake == 800_000_000_000_000
      && 0 < quote.ve <= quote.vMax
  {
    DefaultQuotes(stake);
    hide Quotes;
  }

  /** A worker is lent stake and starts, as the tokenomic quotes it. */
  lemma Lends(c: State, moves: seq<Move>, s: Scene, w: Worker, stake: nat, quote: Quote)
    returns (c': State, moves': seq<Move>, s': Scene)
    requires Reached(c, moves) && Shows(c, s) && w in s.hands && s.hands[w].Idle? && w in s.pool.workers
    requires IsQuote(stake, quote) && NondustStake(quote) && quote.minimalStake <= stake <= s.pool.freeStake
    requires 0 < quote.ve <= quote.vMax
    ensures Reached(c', moves') && Shows(c', s')
    ensures s' == s.(pool := s.pool.(freeStake := s.pool.freeStake - stake),
                     hands := s.hands[w := Busy(stake, quote.ve, quote.ve)])
  {
    hide *;
    SceneParts(c, s);
    HandIs(c, s.hands, w);
    LendsHere(c, w, stake, quote);
    c' := StartedState(c, Miner(0, w), stake, quote.ve);
    moves' := Next(c, moves, ActStartMining(0, 0, w, stake, quote), c');
    var pool := s.pool.(freeStake := s.pool.freeStake - stake);
    s' := s.(pool := pool, hands := s.hands[w := Busy(stake, quote.ve, quote.ve)]);
    SceneWithHand(c, c', s, pool, w, Busy(stake, quote.ve, quote.ve));
  }

  lemma LendsHere(c: State, w: Worker, stake: nat, quote: Quote)
    requires 0 in c.v.pools && c.v.pools[0].owner == 0 && w in c.v.pools[0].workers && stake <= c.v.pools[0].freeStake
    requires c.miningEnabled && HandOk(c, w, Idle)
    requires IsQuote(stake, quote) && NondustStake(quote) && quote.minimalStake <= stake && 0 < quote.ve <= quote.vMax
    ensures var c', a := StartedState(c, Miner(0, w), stake, quote.ve), ActStartMining(0, 0, w, stake, quote);
      && Quoted(a) && Admissible(c, a) && LeavesCover(c, a) && Step(c, a, NO_ORACLE) == Ok(c')
      && OnlyWorker(c, c', w) && HandOk(c', w, Busy(stake, quote.ve, quote.ve))
      && c'.v == c.v.(pools := c.v.pools[0 := c.v.pools[0].(freeStake := c.v.pools[0].freeStake - stake)])
      && c' == c.(v := c'.v, m := c'.m) && c'.m.coolDownPeriod == c.m.coolDownPeriod
  {
  }

  predicate NondustStake(quote: Quote) { Nondust(quote.minimalStake) }

  /** The gatekeeper settles a worker at another V, without a payout. */
  lemma Settles(c: State, moves: seq<Move>, s: Scene, w: Worker, v: Bits)
    returns (c': State, moves': seq<Move>, s': Scene)
    requires Reached(c, moves) && Shows(c, s) && w in s.hands && s.hands[w].Busy?
    ensures Reached(c', moves') && Shows(c', s')
    ensures s' == s.(hands := s.hands[w := Busy(s.hands[w].stake, s.hands[w].ve, v)])
  {
    hide Reached, Accounts;
    var hand := s.hands[w];
    assert HandOk(c, w, hand);
    var settle := [SettleInfo(w, v, 0, 0)];
    NothingCredited(c.v, s.pool);
    var v' := OnReward(c.v, settle, NO_ORACLE.permill).value;
    MessageIs(c, [], [], settle, NO_ORACLE.permill);
    SettledOnce(c, w, v);
    c' := c.(v := v').(m := Settled(c.m, settle[0], c.now));
    moves' := Next(c, moves, ActGatekeeper([], [], settle), c');
    s' := s.(hands := s.hands[w := Busy(hand.stake, hand.ve, v)]);
    SceneWithHand(c, c', s, s.pool, w, Busy(hand.stake, hand.ve, v));
  }

  lemma NothingCredited(v: Store, pool: PoolInfo)
    requires 0 in v.pools && v.pools[0] == pool
    ensures forall w, x :: w in v.assignments && v.assignments[w] == 0 ==>
      var r := OnReward(v, [SettleInfo(w, x, 0, 0)], NO_ORACLE.permill);
      && r.Ok? && r.value == v.(pools := v.pools[0 := pool], audits := r.value.audits)
  {
    assert FromFixed(0) == 0;
    forall w, x | w in v.assignments && v.assignments[w] == 0
      ensures var r := OnReward(v, [SettleInfo(w, x, 0, 0)], NO_ORACLE.permill);
        && r.Ok? && r.value == v.(pools := v.pools[0 := pool], audits := r.value.audits)
    {
      assert [SettleInfo(w, x, 0, 0)][1..] == [];
    }
  }

  lemma SettledOnce(c: State, w: Worker, v: Bits)
    ensures var settle := [SettleInfo(w, v, 0, 0)]; AfterMessage(c, [], [], settle) == Settled(c.m, settle[0], c.now)
  {
    var settle := [SettleInfo(w, v, 0, 0)];
    assert settle[1..] == [];
    assert AllReported(c.m, [], MiningUnresponsive) == c.m && AllReported(c.m, [], MiningIdle) == c.m;
    assert AllSettled(Settled(c.m, settle[0], c.now), settle[1..], c.now) == Settled(c.m, settle[0], c.now);
    hide Settled;
  }

  /** What a miner with this V gives back of its stake. */
  function Back(stake: nat, ve: Bits, v: Bits): nat
    requires ve > 0
  {
    FromFixed(FixMul(Min(FixDiv(v, ve), ONE), ToFixed(stake)))
  }

  /** The owner stops a worker, and the pool expects what it will give back. */
  lemma Stops(c: State, moves: seq<Move>, s: Scene, w: Worker) returns (c': State, moves': seq<Move>, s': Scene)
    requires Reached(c, moves) && Shows(c, s) && w in s.hands && s.hands[w].Busy? && w in s.pool.workers
    ensures s.hands[w].ve > 0 && Reached(c', moves') && Shows(c', s')
    ensures var hand := s.hands[w];
      && s' == s.(pool := Expecting(s.pool, Back(hand.stake, hand.ve, hand.v)),
                  hands := s.hands[w := Cools(hand.stake, hand.ve, hand.v, s.now)])
      && Expected(c'.m, Miner(0, w)) == Back(hand.stake, hand.ve, hand.v)
  {
    hide *;
    var hand, mi := s.hands[w], Miner(0, w);
    ReachedOk(c, moves);
    SceneParts(c, s);
    HandIs(c, s.hands, w);
    StopsHere(c, w, hand);
    c' := StoppedState(c, mi);
    StoppedOnly(c, w, hand);
    var pool := Expecting(s.pool, Back(hand.stake, hand.ve, hand.v));
    SameTeam(s.pool, Back(hand.stake, hand.ve, hand.v));
    moves' := Next(c, moves, ActStopMining(0, 0, w), c');
    s' := s.(pool := pool, hands := s.hands[w := Cools(hand.stake, hand.ve, hand.v, s.now)]);
    SceneWithHand(c, c', s, pool, w, Cools(hand.stake, hand.ve, hand.v, s.now));
  }

  lemma SceneParts(c: State, s: Scene)
    requires Shows(c, s)
    ensures c.v.pools.Keys == {0} && c.v.pools[0] == s.pool && s.pool.pid == 0 && s.pool.owner == 0
    ensures s.pool.rewardAcc == 0
    ensures Staffed(c, s.hands) && c.miningEnabled && c.now == s.now && c.v.stakers == s.stakers
    ensures c.m.coolDownPeriod == WEEK
  {
    hide Staffed;
  }

  lemma HandIs(c: State, hands: map<Worker, Hand>, w: Worker)
    requires Staffed(c, hands) && w in hands
    ensures HandOk(c, w, hands[w])
  {
    hide HandOk;
  }

  lemma SameTeam(pool: PoolInfo, amount: nat)
    ensures var pool' := Expecting(pool, amount);
      pool'.pid == pool.pid && pool'.owner == pool.owner && pool'.rewardAcc == pool.rewardAcc
  {
  }

  lemma StopsHere(c: State, w: Worker, hand: Hand)
    requires Inv(c) && HandOk(c, w, hand) && hand.Busy? && c.miningEnabled
    requires 0 in c.v.pools && c.v.pools[0].owner == 0 && w in c.v.pools[0].workers
    ensures hand.ve > 0 && c.m.onlineMiners > 0
    ensures Admissible(c, ActStopMining(0, 0, w)) && LeavesCover(c, ActStopMining(0, 0, w))
    ensures Quoted(ActStopMining(0, 0, w))
    ensures Step(c, ActStopMining(0, 0, w), NO_ORACLE) == Ok(StoppedState(c, Miner(0, w)))
  {
    hide *;
    var mi := Miner(0, w);
    InvParts(c);
    HandAtWork(c, w, hand);
    WorkingStake(c.m, c.v.pools.Keys, mi);
    StopEffects(c, mi);
    StoppedMinesOk(c.m, c.v.pools.Keys, mi, c.now);
    OwnerStops(c, w);
  }

  lemma HandAtWork(c: State, w: Worker, hand: Hand)
    requires HandOk(c, w, hand) && hand.Busy?
    ensures var mi := Miner(0, w);
      && mi in c.m.minerBindings && mi in c.m.miners && AtWork(c.m.miners[mi]) && mi in c.m.stakes
      && c.m.miners[mi].ve == hand.ve
  {
  }

  lemma OwnerStops(c: State, w: Worker)
    requires 0 in c.v.pools && c.miningEnabled && c.v.pools[0].owner == 0 && w in c.v.pools[0].workers
    ensures Step(c, ActStopMining(0, 0, w), NO_ORACLE) == StopMining(c, Miner(0, w))
    ensures Admissible(c, ActStopMining(0, 0, w)) && LeavesCover(c, ActStopMining(0, 0, w))
    ensures Quoted(ActStopMining(0, 0, w))
  {
    hide StopMining;
  }

  lemma StoppedOnly(c: State, w: Worker, hand: Hand)
    requires HandOk(c, w, hand) && hand.Busy? && hand.ve > 0 && c.m.onlineMiners > 0 && 0 in c.v.pools
    ensures var c', back := StoppedState(c, Miner(0, w)), Back(hand.stake, hand.ve, hand.v);
      && OnlyWorker(c, c', w) && HandOk(c', w, Cools(hand.stake, hand.ve, hand.v, c.now))
      && Expected(c'.m, Miner(0, w)) == back
      && c' == c.(m := c'.m, v := c.v.(pools := c.v.pools[0 := Expecting(c.v.pools[0], back)]))
      && c'.m.coolDownPeriod == c.m.coolDownPeriod
  {
    StoppedBack(c, Miner(0, w), hand);
    hide Back, GiveBack, Expected;
  }

  lemma WorkingStake(m: Mines, pools: set<Pid>, mi: Miner)
    requires MinesOk(m, pools) && mi in m.stakes
    ensures mi in m.miners && m.miners[mi].ve > 0 && m.stakes[mi] > 0
  {
  }

  lemma StoppedBack(c: State, mi: Miner, hand: Hand)
    requires mi in c.m.miners && c.m.onlineMiners > 0 && hand.Busy? && hand.ve > 0
    requires c.m.miners[mi].ve == hand.ve && c.m.miners[mi].v == hand.v && Get(c.m.stakes, mi) == hand.stake
    ensures Expected(StoppedState(c, mi).m, mi) == Back(hand.stake, hand.ve, hand.v)
  {
  }

  /** What the pool is before its queue is served with what a miner gave back. */
  function PoolWithBack(pool: PoolInfo, hand: Hand): PoolInfo
    requires hand.Cools? && hand.ve > 0 && Back(hand.stake, hand.ve, hand.v) <= hand.stake
  {
    Reclaimed(pool, hand.stake, hand.stake - Back(hand.stake, hand.ve, hand.v))
  }

  /** A worker's stake can be reclaimed after the time it cools down. */
  lemma CanReclaimHand(c: State, w: Worker, hand: Hand)
    requires Inv(c) && HandOk(c, w, hand) && hand.Cools? && c.now - hand.since >= c.m.coolDownPeriod && 0 in c.v.pools
    ensures hand.ve > 0 && hand.stake > 0 && Back(hand.stake, hand.ve, hand.v) <= hand.stake
    ensures CanTakeBack(c, Miner(0, w))
    ensures TakenBack(c, Miner(0, w)) == SavePool(c.v, 0, PoolWithBack(c.v.pools[0], hand))
    ensures SlashAllowed(c.v.pools[0], hand.stake - Back(hand.stake, hand.ve, hand.v)) ==>
      Admissible(c, ActReclaim(0, w))
    ensures Step(c, ActReclaim(0, w), NO_ORACLE) ==
      WithStore(c.(m := ReclaimedMines(c.m, Miner(0, w))), ProcessQueue(TakenBack(c, Miner(0, w)), 0, NO_ORACLE.slash))
  {
    hide *;
    var mi := Miner(0, w);
    InvParts(c);
    HandCooling(c, w, hand);
    WorkingStake(c.m, c.v.pools.Keys, mi);
    ReclaimEffects(c.m, c.v.pools.Keys, mi, c.now);
    ReclaimStep(c, 0, w, NO_ORACLE.slash);
    HandExpected(c, w, hand);
    ReclaimIs(c, w, hand);
  }

  lemma HandCooling(c: State, w: Worker, hand: Hand)
    requires HandOk(c, w, hand) && hand.Cools? && c.now - hand.since >= c.m.coolDownPeriod
    ensures var mi := Miner(0, w);
      && CanReclaim(c.m, mi, c.now) && mi in c.m.stakes && c.m.stakes[mi] == hand.stake && c.m.miners[mi].ve == hand.ve
  {
  }

  lemma HandExpected(c: State, w: Worker, hand: Hand)
    requires HandOk(c, w, hand) && hand.Cools? && hand.ve > 0
    ensures Expected(c.m, Miner(0, w)) == Back(hand.stake, hand.ve, hand.v)
  {
    hide FixMul, FixDiv, FromFixed, ToFixed;
  }

  lemma ReclaimIs(c: State, w: Worker, hand: Hand)
    requires hand.Cools? && 0 in c.v.pools && CanReclaim(c.m, Miner(0, w), c.now)
    requires Miner(0, w) in c.m.stakes && c.m.stakes[Miner(0, w)] == hand.stake
    requires hand.ve > 0 && Expected(c.m, Miner(0, w)) == Back(hand.stake, hand.ve, hand.v) <= hand.stake
    requires ReclaimPoolWorker(c, 0, w, NO_ORACLE.slash) ==
      WithStore(c.(m := ReclaimedMines(c.m, Miner(0, w))),
                HandleReclaim(c.v, 0, hand.stake, hand.stake - Back(hand.stake, hand.ve, hand.v), NO_ORACLE.slash))
    ensures CanTakeBack(c, Miner(0, w))
    ensures TakenBack(c, Miner(0, w)) == SavePool(c.v, 0, PoolWithBack(c.v.pools[0], hand))
    ensures SlashAllowed(c.v.pools[0], hand.stake - Back(hand.stake, hand.ve, hand.v)) ==>
      Admissible(c, ActReclaim(0, w))
    ensures Step(c, ActReclaim(0, w), NO_ORACLE) ==
      WithStore(c.(m := ReclaimedMines(c.m, Miner(0, w))), ProcessQueue(TakenBack(c, Miner(0, w)), 0, NO_ORACLE.slash))
  {
    hide ReclaimPoolWorker, ProcessQueue, Back, Expected, CanReclaim, SlashAllowed, ReclaimedMines, Reclaimed;
  }

  /** A reclaim with nobody to serve. */
  lemma Reclaims(c: State, moves: seq<Move>, s: Scene, w: Worker) returns (c': State, moves': seq<Move>, s': Scene)
    requires Reached(c, moves) && Shows(c, s) && w in s.hands && s.hands[w].Cools?
    requires s.now - s.hands[w].since >= WEEK
    requires var hand := s.hands[w];
      && hand.ve > 0 && Back(hand.stake, hand.ve, hand.v) <= hand.stake
      && SlashAllowed(s.pool, hand.stake - Back(hand.stake, hand.ve, hand.v))
      && (CloseToZero(PoolWithBack(s.pool, hand).freeStake) || s.pool.withdrawQueue == [])
    ensures Reached(c', moves') && Shows(c', s')
    ensures s' == s.(pool := PoolWithBack(s.pool, s.hands[w]), hands := s.hands[w := Idle])
  {
    hide *;
    var hand, mi := s.hands[w], Miner(0, w);
    ReachedOk(c, moves);
    SceneParts(c, s);
    HandIs(c, s.hands, w);
    CanReclaimHand(c, w, hand);
    var pool := PoolWithBack(s.pool, hand);
    SameTeamBack(s.pool, hand);
    c' := c.(m := ReclaimedMines(c.m, mi), v := SavePool(c.v, 0, pool));
    ReclaimedOnly(c, w, hand, pool);
    NothingServed(SavePool(c.v, 0, pool), NO_ORACLE.slash);
    assert Step(c, ActReclaim(0, w), NO_ORACLE) == Ok(c');
    NoWithdrawal(c, ActReclaim(0, w));
    moves' := Next(c, moves, ActReclaim(0, w), c');
    s' := s.(pool := pool, hands := s.hands[w := Idle]);
    SceneWithHand(c, c', s, pool, w, Idle);
  }

  lemma NoWithdrawal(c: State, a: Action)
    requires !a.ActWithdraw? && !a.ActStartMining?
    ensures LeavesCover(c, a) && Quoted(a)
  {
  }

  lemma SameTeamBack(pool: PoolInfo, hand: Hand)
    requires hand.Cools? && hand.ve > 0 && Back(hand.stake, hand.ve, hand.v) <= hand.stake
    ensures var pool' := PoolWithBack(pool, hand);
      && pool'.pid == pool.pid && pool'.owner == pool.owner && pool'.rewardAcc == pool.rewardAcc
      && pool'.withdrawQueue == pool.withdrawQueue
  {
    hide Back;
  }

  lemma NothingServed(v: Store, slash: Slasher)
    requires 0 in v.pools && (CloseToZero(v.pools[0].freeStake) || v.pools[0].withdrawQueue == [])
    ensures ProcessQueue(v, 0, slash) == Ok(v)
  {
    hide SharePrice;
  }

  lemma ReclaimedOnly(c: State, w: Worker, hand: Hand, pool: PoolInfo)
    requires HandOk(c, w, hand) && hand.Cools?
    ensures var c' := c.(m := ReclaimedMines(c.m, Miner(0, w)), v := SavePool(c.v, 0, pool));
      && OnlyWorker(c, c', w) && HandOk(c', w, Idle) && c'.m.coolDownPeriod == c.m.coolDownPeriod
      && c'.v == c.v.(pools := c.v.pools[0 := pool])
      && WithStore(c.(m := c'.m), Ok(c'.v)) == Ok(c')
  {
  }

  lemma Waits(c: State, moves: seq<Move>, s: Scene, seconds: nat) returns (c': State, moves': seq<Move>)
    requires Reached(c, moves) && Shows(c, s)
    ensures Reached(c', moves') && Shows(c', s.(now := s.now + seconds))
    ensures c'.m == c.m
  {
    hide Reached, Accounts, Staffed;
    c' := c.(now := c.now + seconds);
    moves' := Next(c, moves, ActAdvance(seconds), c');
    StaffedFrame(c, c', s.hands);
  }

  // ---------------------------------------------------------------- queued requests that are served

  /** A round that pays the front request in full. */
  lemma ServedWhole(v: Store, price: Bits, paid: nat)
    requires 0 in v.pools && v.pools[0].rewardAcc == 0 && v.pools[0].withdrawQueue != []
    requires (0, v.pools[0].withdrawQueue[0].user) in v.stakers
    requires var request := v.pools[0].withdrawQueue[0]; var user := v.stakers[(0, request.user)];
      user.user == request.user && user.rewardDebt == 0 && Pays(v.pools[0], user, request.shares, price, paid)
    ensures var pool, request := v.pools[0], v.pools[0].withdrawQueue[0]; var user := v.stakers[(0, request.user)];
      exists d: Desk ::
        && d.pool == PaidPool(pool, user, request.shares, paid).(withdrawQueue := pool.withdrawQueue[1..])
        && d.user == PaidUser(user, request.shares, price, paid)
        && ServeOne(v, 0, price, NO_ORACLE.slash) == Ok(Save(v, 0, request.user, d))
  {
    var pool, request := v.pools[0], v.pools[0].withdrawQueue[0];
    var user := v.stakers[(0, request.user)];
    MulByZero(user.shares);
    MulByZero(ExtractDust(user.shares - request.shares).0);
    var d := Load(v, request.user, pool, user);
    Releases(d, request.shares, price, paid, NO_ORACLE.slash);
    hide Mul, Div, SharePrice, Release, Save;
    var r := ServeFront(d, price, NO_ORACLE.slash);
    assert r.Ok? && r.value.user == PaidUser(user, request.shares, price, paid);
    assert r.value.pool == PaidPool(pool, user, request.shares, paid).(withdrawQueue := pool.withdrawQueue[1..]);
  }

  lemma LastRound(v: Store, price: Bits, v': Store)
    requires 0 in v.pools && LoopGuard(v, 0) && ServeOne(v, 0, price, NO_ORACLE.slash) == Ok(v')
    requires |v.pools[0].withdrawQueue| == 1 && 0 in v'.pools && v'.pools[0].withdrawQueue == []
    ensures ServeQueue(v, 0, price, NO_ORACLE.slash) == Ok(v')
  {
    hide ServeOne;
  }

  /** A contribution that pays the only request in full. */
  lemma DepositsAndServes(c: State, moves: seq<Move>, s: Scene, who: Account, amount: nat, shares: nat, price: Bits,
      paid: nat)
    returns (c': State, moves': seq<Move>, s': Scene)
    requires Reached(c, moves) && Shows(c, s) && (0, who) !in s.stakers && who in s.funded && s.funded[who] == amount
    requires s.pool.cap.None? && amount >= MIN_CONTRIBUTION && s.pool.totalStake > 0
    requires SharesFor(s.pool, amount) == shares && |s.pool.withdrawQueue| == 1
    requires var request := s.pool.withdrawQueue[0];
      && request.user != who && (0, request.user) in s.stakers && s.stakers[(0, request.user)].rewardDebt == 0
      && Pays(WithDeposit(s.pool, amount, shares), s.stakers[(0, request.user)], request.shares, price, paid)
    ensures Reached(c', moves') && Shows(c', s')
    ensures var request := s.pool.withdrawQueue[0];
      && s'.pool == PaidPool(WithDeposit(s.pool, amount, shares), s.stakers[(0, request.user)], request.shares,
                             paid).(withdrawQueue := [])
      && s' == s.(pool := s'.pool, stakers := s'.stakers)
  {
    hide Reached, SharesFor, Contribute, Save, Staffed, Pays, Mul, Div;
    var request := s.pool.withdrawQueue[0];
    var pool1 := WithDeposit(s.pool, amount, shares);
    var d1 := Desk(pool1, UserStakeInfo(who, amount, shares, 0, 0), Purse(amount, amount, amount, 0), 1);
    SavedAccountsShow(c.v, s.stakers, s.funded, who, d1);
    var d := DepositServed(c.v, who, amount, shares, price, paid);
    var v1 := Save(c.v, 0, who, d1);
    SavedAccountsShow(v1, s.stakers[(0, who) := d1.user], s.funded, request.user, d);
    var v' := Save(v1, 0, request.user, d);
    c' := c.(v := v');
    s' := s.(pool := d.pool, stakers := s.stakers[(0, who) := d1.user][(0, request.user) := d.user]);
    SceneWithStore(c, v', s, s');
    moves' := Next(c, moves, ActContribute(who, 0, amount), c');
  }

  lemma DepositServed(v: Store, who: Account, amount: nat, shares: nat, price: Bits, paid: nat) returns (d: Desk)
    requires 0 in v.pools && v.pools[0].rewardAcc == 0 && v.pools[0].cap.None? && |v.pools[0].withdrawQueue| == 1
    requires (0, who) !in v.stakers && PurseOf(v, who) == Purse(0, 0, amount, 0) && amount >= MIN_CONTRIBUTION
    requires v.pools[0].totalStake > 0 && SharesFor(v.pools[0], amount) == shares
    requires var request := v.pools[0].withdrawQueue[0];
      && request.user != who && (0, request.user) in v.stakers && v.stakers[(0, request.user)].rewardDebt == 0
      && v.stakers[(0, request.user)].user == request.user
      && Pays(WithDeposit(v.pools[0], amount, shares), v.stakers[(0, request.user)], request.shares, price, paid)
    ensures var request := v.pools[0].withdrawQueue[0];
      var pool1 := WithDeposit(v.pools[0], amount, shares);
      var v1 := Save(v, 0, who, Desk(pool1, UserStakeInfo(who, amount, shares, 0, 0),
        Purse(amount, amount, amount, 0), 1));
      && Contribute(v, who, 0, amount, NO_ORACLE.slash) == Ok(Save(v1, 0, request.user, d))
      && d.user == PaidUser(v.stakers[(0, request.user)], request.shares, price, paid)
      && d.pool == PaidPool(pool1, v.stakers[(0, request.user)], request.shares, paid).(withdrawQueue := [])
  {
    hide SharesFor, Contribute, Save, ServeQueue, ServeOne, SharePrice, Pays, Kept, Mul, PaidUser, PaidPool;
    var request := v.pools[0].withdrawQueue[0];
    var user := v.stakers[(0, request.user)];
    FirstDeposit(v, who, amount, shares);
    var pool1 := WithDeposit(v.pools[0], amount, shares);
    var d1 := Desk(pool1, UserStakeInfo(who, amount, shares, 0, 0), Purse(amount, amount, amount, 0), 1);
    var v1 := Save(v, 0, who, d1);
    SavedPurses(v, who, d1);
    PaysPrice(pool1, user, request.shares, price, paid);
    ServedWhole(v1, price, paid);
    d :|
      && d.pool == PaidPool(pool1, user, request.shares, paid).(withdrawQueue := pool1.withdrawQueue[1..])
      && d.user == PaidUser(user, request.shares, price, paid)
      && ServeOne(v1, 0, price, NO_ORACLE.slash) == Ok(Save(v1, 0, request.user, d));
    SavedPurses(v1, request.user, d);
    LastRound(v1, price, Save(v1, 0, request.user, d));
  }

  lemma PaysPrice(pool: PoolInfo, user: UserStakeInfo, shares: nat, price: Bits, paid: nat)
    requires Pays(pool, user, shares, price, paid)
    ensures SharePrice(pool) == Some(price)
    ensures shares <= user.shares && shares + ExtractDust(user.shares - shares).1 <= pool.totalShares
    ensures paid <= pool.totalStake && paid <= pool.freeStake && paid <= Kept(user, price)
  {
    hide SharePrice, Mul, Kept;
  }
}
