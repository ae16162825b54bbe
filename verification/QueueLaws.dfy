/** The loop that serves the withdraw queue: order, termination, and that it never panics. */
module QueueLaws {
  import opened Base
  import opened FixedPoint
  import opened Pool
  import opened PoolLaws
  import opened Vault
  import opened VaultLaws

  // ---------------------------------------------------------------- first in, first out

  /** `q'` is `q` with a number of requests served from the front and the next one reduced. */
  predicate FrontServed(q: seq<WithdrawInfo>, q': seq<WithdrawInfo>) {
    && |q'| <= |q|
    && (q' != [] ==>
          var k := |q| - |q'|;
          && q'[1..] == q[k + 1..]
          && q'[0] == q[k].(shares := q'[0].shares)
          && (q'[0].shares == q[k].shares || (Nondust(q'[0].shares) && q'[0].shares <= q[k].shares)))
  }

  lemma FrontServedTransitive(p: seq<WithdrawInfo>, q: seq<WithdrawInfo>, r: seq<WithdrawInfo>)
    requires FrontServed(p, q) && FrontServed(q, r)
    ensures FrontServed(p, r)
  {
    if r != [] {
      var j, k := |q| - |r|, |p| - |r|;
      assert k == (|p| - |q|) + j;
      if j > 0 {
        assert q[j] == q[1..][j - 1] == p[|p| - |q| + 1..][j - 1] == p[k];
        assert q[j + 1..] == q[1..][j..] == p[|p| - |q| + 1..][j..] == p[k + 1..];
      }
    }
  }

  /** What `ServeFront` gives back and what it made of the queue. */
  lemma ServedRequest(d: Desk, price: Bits, slash: Slasher)
    requires d.pool.withdrawQueue != [] && ServeFront(d, price, slash).Ok?
    ensures var q, d' := d.pool.withdrawQueue, ServeFront(d, price, slash).value;
      var served := Min(FreeShares(d.pool, Some(price), q[0].shares), q[0].shares);
      var rest := ExtractDust(q[0].shares - served).0;
      && d'.pool.withdrawQueue == (if rest == 0 then q[1..] else q[0 := q[0].(shares := rest)])
      && FrontServed(q, d'.pool.withdrawQueue)
      && d'.user.shares == ExtractDust(d.user.shares - served).0
      && served <= d.user.shares
  {
  }

  lemma RoundServesFront(v: Store, pid: Pid, price: Bits, slash: Slasher)
    requires pid in v.pools && v.pools[pid].withdrawQueue != [] && ServeOne(v, pid, price, slash).Ok?
    ensures FrontServed(v.pools[pid].withdrawQueue, ServeOne(v, pid, price, slash).value.pools[pid].withdrawQueue)
  {
    hide ServeFront;
    var who := v.pools[pid].withdrawQueue[0].user;
    if (pid, who) in v.stakers {
      ServedRequest(Load(v, who, v.pools[pid], v.stakers[(pid, who)]), price, slash);
    }
  }

  /** The loop serves the queue strictly from the front. */
  lemma {:induction false} ServesInOrder(v: Store, pid: Pid, price: Bits, slash: Slasher)
    requires pid in v.pools && ServeQueue(v, pid, price, slash).Ok?
    ensures var v' := ServeQueue(v, pid, price, slash).value;
      FrontServed(v.pools[pid].withdrawQueue, v'.pools[pid].withdrawQueue)
    decreases QueueMeasure(v.pools[pid].withdrawQueue), v.pools[pid].freeStake
  {
    hide ServeOne, CloseToZero;
    if LoopGuard(v, pid) {
      hide FrontServed;
      var v1 := ServeOne(v, pid, price, slash).value;
      RoundServesFront(v, pid, price, slash);
      ServesInOrder(v1, pid, price, slash);
      FrontServedTransitive(v.pools[pid].withdrawQueue, v1.pools[pid].withdrawQueue,
        ServeQueue(v, pid, price, slash).value.pools[pid].withdrawQueue);
    }
  }

  // ---------------------------------------------------------------- what a round keeps

  lemma {:induction false} ServeFrontKeeps(d: Desk, price: Bits, slash: Slasher, staked: nat)
    requires DeskOk(d, staked)
    requires d.pool.withdrawQueue != [] && ServeFront(d, price, slash).Ok?
    ensures DeskOk(ServeFront(d, price, slash).value, staked) && Fair(d, ServeFront(d, price, slash).value)
  {
    hide Held, Worth, Drift, Mul;
    SettleRewardKeeps(d, staked);
    var d1 := d.(user := SettleReward(d.pool, d.user).value);
    var request := d.pool.withdrawQueue[0];
    var served := Min(FreeShares(d.pool, Some(price), request.shares), request.shares);
    ReleasedOnlyOwn(d1, served, slash);
    ReleaseKeeps(d1, served, slash, staked);
    FairTransitive(d, d1, Release(d1, served, slash).value);
    ReleaseResets(d1, served, slash);
  }

  lemma ReleasedOnlyOwn(d: Desk, shares: nat, slash: Slasher)
    requires Release(d, shares, slash).Ok?
    ensures shares <= d.user.shares && d.pool.totalShares > 0
  {
    ToFixedPositive(d.pool.totalShares);
  }

  lemma ReleaseResets(d: Desk, shares: nat, slash: Slasher)
    requires Release(d, shares, slash).Ok?
    ensures var d' := Release(d, shares, slash).value;
      ResetPending(d'.pool, d'.user) == d'.user && d'.pool.withdrawQueue == d.pool.withdrawQueue
  {
  }

  lemma ServeOneKeeps(v: Store, pid: Pid, price: Bits, slash: Slasher, staked: map<Pid, nat>)
    requires Sound(v, staked) && pid in v.pools && v.pools[pid].withdrawQueue != []
    requires ServeOne(v, pid, price, slash).Ok?
    ensures var v' := ServeOne(v, pid, price, slash).value;
      Sound(v', staked) && OnlyPool(v, v', pid)
  {
    hide Held, Worth, Drift, Mul, Fair, DeskOk, Sound, Books, OnlyPool, ServeFront;
    var who := v.pools[pid].withdrawQueue[0].user;
    if (pid, who) in v.stakers {
      StoredDeskOk(v, pid, who, staked);
      var d := DeskOf(v, pid, who);
      ServeFrontKeeps(d, price, slash, Get(staked, pid));
      SaveKeepsSound(v, pid, who, ServeFront(d, price, slash).value, staked);
    } else {
      var pool' := v.pools[pid].(withdrawQueue := v.pools[pid].withdrawQueue[1..]);
      SaveTermsKeepsSound(v, pid, pool', staked);
      SavePoolOnlyPool(v, pid, pool');
    }
  }

  lemma StoredDeskOk(v: Store, pid: Pid, who: Account, staked: map<Pid, nat>)
    requires Sound(v, staked) && pid in v.pools
    ensures DeskOk(DeskOf(v, pid, who), Get(staked, pid))
  {
    hide Held, Worth, Drift, Mul;
    DeskOfOk(v, pid, who, Get(staked, pid));
  }

  lemma SavePoolOnlyPool(v: Store, pid: Pid, pool: PoolInfo)
    requires pid in v.pools && SameTerms(v.pools[pid], pool)
    ensures OnlyPool(v, SavePool(v, pid, pool), pid)
  {
  }

  /** Serving the queue keeps the books and touches nothing outside the pool. */
  lemma {:induction false} ServeQueueKeeps(v: Store, pid: Pid, price: Bits, slash: Slasher, staked: map<Pid, nat>)
    requires Sound(v, staked) && pid in v.pools
    requires ServeQueue(v, pid, price, slash).Ok?
    ensures var v' := ServeQueue(v, pid, price, slash).value;
      Sound(v', staked) && OnlyPool(v, v', pid)
    decreases QueueMeasure(v.pools[pid].withdrawQueue), v.pools[pid].freeStake
  {
    hide Held, Worth, Drift, Mul, Sound, ServeOne;
    if LoopGuard(v, pid) {
      hide OnlyPool;
      var v1 := ServeOne(v, pid, price, slash).value;
      ServeOneKeeps(v, pid, price, slash, staked);
      ServeQueueKeeps(v1, pid, price, slash, staked);
      OnlyPoolTransitive(v, v1, ServeQueue(v, pid, price, slash).value, pid);
    }
  }

  lemma ProcessQueueKeeps(v: Store, pid: Pid, slash: Slasher, staked: map<Pid, nat>)
    requires Sound(v, staked) && pid in v.pools && ProcessQueue(v, pid, slash).Ok?
    ensures var v' := ProcessQueue(v, pid, slash).value;
      && Sound(v', staked) && OnlyPool(v, v', pid)
      && FrontServed(v.pools[pid].withdrawQueue, v'.pools[pid].withdrawQueue)
  {
    match SharePrice(v.pools[pid])
    case None =>
    case Some(price) =>
      ServeQueueKeeps(v, pid, price, slash, staked);
      ServesInOrder(v, pid, price, slash);
  }

  /**
    The assertion that a round serves no dust does not hold of the code: at a price of one, 1001
    pico past dust pay for 1000 shares only. A run from the empty chain to such a round is
    `FaultLaws.RoundServesDust`.
  */
  lemma RoundMayServeDust(pool: PoolInfo)
    requires pool.freeStake == 1001
    ensures Nondust(pool.freeStake) && FreeShares(pool, Some(ONE), 5000) == 1000 && CloseToZero(1000)
  {
    assert ToFixed(1001) == 18465190817;
  }

  /** A round serves no dust exactly if the request is none and what is free buys none. */
  lemma RoundServesNondust(pool: PoolInfo, price: Bits)
    requires pool.withdrawQueue != []
    ensures var wanted := pool.withdrawQueue[0].shares;
      Nondust(Min(FreeShares(pool, Some(price), wanted), wanted)) <==>
      Nondust(wanted) && (price == 0 || Nondust(Div(pool.freeStake, price)))
  {
    hide Div;
  }

  /** The dearest price, in bits, at which the smallest stake past dust buys shares past dust: just below one. */
  const NONDUST_PRICE: Bits := 18_446_744_072_710_550_617

  /**
    So the assertion holds of every round on a nondust request, whatever past dust is free,
    exactly at the prices up to NONDUST_PRICE. The price of an unslashed pool, one, is above.
  */
  lemma PriceServesNondust(price: Bits)
    ensures (forall free: nat :: Nondust(free) ==> price == 0 || Nondust(Div(free, price))) <==> price <= NONDUST_PRICE
    ensures NONDUST_PRICE < ONE
  {
    assert ToFixed(DUST + 1) == 18465190817;
    if price != 0 {
      DivBounds(18465190817 * ONE, price);
      if price <= NONDUST_PRICE {
        DivAtLeast(18465190817 * ONE, price, 18465190818);
        assert Nondust(Div(DUST + 1, price));
        hide Div;
        forall free: nat | Nondust(free) ensures Nondust(Div(free, price)) {
          DivIsMonotone(DUST + 1, free, price);
        }
      } else {
        if 18465190817 * ONE / price > 18465190817 {
          MulMono(18465190818, 18465190817 * ONE / price, price);
        }
        assert Nondust(DUST + 1) && CloseToZero(Div(DUST + 1, price));
      }
    }
  }

  // ---------------------------------------------------------------- no panic

  /** No user has two requests. */
  predicate Distinct(q: seq<WithdrawInfo>) {
    forall i, j :: 0 <= i < j < |q| ==> q[i].user != q[j].user
  }

  /** The oldest request comes first. */
  predicate Ordered(q: seq<WithdrawInfo>) {
    forall i, j :: 0 <= i < j < |q| ==> q[i].startTime <= q[j].startTime
  }

  /** One request a user at most, and none for dust. */
  predicate QueueClean(q: seq<WithdrawInfo>) {
    Distinct(q) && forall r :: r in q ==> Nondust(r.shares)
  }

  /** Each user has one request at most, for shares it owns, and none asks for nothing. */
  predicate WithinShares(v: Store, pid: Pid)
    requires pid in v.pools
  {
    var q := v.pools[pid].withdrawQueue;
    && Distinct(q)
    && (forall i :: 0 <= i < |q| ==> Nondust(q[i].shares) && q[i].shares <= StakerOf(v, pid, q[i].user).shares)
  }

  /** A round on an owned request succeeds and leaves every request owned. */
  lemma OwnedRoundSucceeds(v: Store, pid: Pid, price: Bits, slash: Slasher, staked: map<Pid, nat>)
    requires Sound(v, staked) && pid in v.pools && WithinShares(v, pid)
    requires v.pools[pid].withdrawQueue != []
    ensures var r := ServeOne(v, pid, price, slash); r.Ok? && WithinShares(r.value, pid)
  {
    hide Held, Worth, Drift, Mul, Fair, DeskOk, Sound, Books, OnlyPool;
    var q := v.pools[pid].withdrawQueue;
    var who := q[0].user;
    assert StakerOf(v, pid, who).shares > 0;
    var d := DeskOf(v, pid, who);
    StoredDeskOk(v, pid, who, staked);
    OwnedFrontSucceeds(d, price, slash, Get(staked, pid));
    ServedRequest(d, price, slash);
  }

  lemma OwnedFrontSucceeds(d: Desk, price: Bits, slash: Slasher, staked: nat)
    requires DeskOk(d, staked) && d.pool.withdrawQueue != []
    requires 0 < d.pool.withdrawQueue[0].shares <= d.user.shares
    ensures ServeFront(d, price, slash).Ok?
  {
    hide Held, Worth, Drift, Mul, Fair;
    SettleRewardKeeps(d, staked);
    var request := d.pool.withdrawQueue[0];
    var served := Min(FreeShares(d.pool, Some(price), request.shares), request.shares);
    ReleaseKeeps(d.(user := SettleReward(d.pool, d.user).value), served, slash, staked);
  }

  /** The `expect` of a round fires exactly when more is served than the requester owns. */
  lemma FrontPanicsWhen(d: Desk, price: Bits, slash: Slasher, staked: nat)
    requires DeskOk(d, staked) && d.pool.withdrawQueue != [] && d.pool.totalShares > 0
    ensures var wanted := d.pool.withdrawQueue[0].shares;
      ServeFront(d, price, slash) == Panic <==> Min(FreeShares(d.pool, Some(price), wanted), wanted) > d.user.shares
  {
    hide Held, Worth, Drift, Mul, Fair;
    SettleRewardKeeps(d, staked);
    var request := d.pool.withdrawQueue[0];
    var served := Min(FreeShares(d.pool, Some(price), request.shares), request.shares);
    var d1 := d.(user := SettleReward(d.pool, d.user).value);
    if served <= d.user.shares {
      ReleaseKeeps(d1, served, slash, staked);
    } else {
      ToFixedPositive(d.pool.totalShares);
      OverdrawnReleasePanics(d1, served, slash);
    }
  }

  lemma OverdrawnReleasePanics(d: Desk, shares: nat, slash: Slasher)
    requires shares > d.user.shares
    ensures Release(d, shares, slash) == Panic
  {
    hide Mul;
  }

  // ---------------------------------------------------------------- termination

  /** The free stake is past dust and still buys no share. */
  predicate Starved(pool: PoolInfo, price: Bits) {
    price != 0 && Div(pool.freeStake, price) == 0
  }

  lemma {:induction false} FrontReduced(q: seq<WithdrawInfo>, q': seq<WithdrawInfo>)
    requires q != []
    requires q' == q[1..] || (q' != [] && q'[1..] == q[1..])
    ensures q' == q[1..] ==> QueueMeasure(q') < QueueMeasure(q)
    ensures q' != q[1..] ==> QueueMeasure(q') - QueueMeasure(q) == q'[0].shares - q[0].shares
  {
  }

  /** A round served to an owned request makes progress exactly when the free stake buys a share. */
  lemma ProgressUnlessStarved(v: Store, pid: Pid, price: Bits, slash: Slasher, staked: map<Pid, nat>)
    requires Sound(v, staked) && pid in v.pools && WithinShares(v, pid) && LoopGuard(v, pid)
    requires ServeOne(v, pid, price, slash).Ok?
    ensures Progress(v.pools[pid], ServeOne(v, pid, price, slash).value.pools[pid])
            <==> !Starved(v.pools[pid], price)
  {
    hide Held, Worth, Drift, Mul, Fair, Sound, Books, OnlyPool, DeskOk, FrontServed;
    var pool := v.pools[pid];
    var q := pool.withdrawQueue;
    var who := q[0].user;
    assert StakerOf(v, pid, who).shares > 0;
    var d := DeskOf(v, pid, who);
    ServedRequest(d, price, slash);
    var pool' := ServeFront(d, price, slash).value.pool;
    FrontReduced(q, pool'.withdrawQueue);
    if Starved(pool, price) {
      StoredDeskOk(v, pid, who, staked);
      StarvedFrontKeeps(d, price, slash, Get(staked, pid));
    }
  }

  /** What a starved round does to the desk: it settles, and moves neither shares nor stake. */
  lemma StarvedFrontKeeps(d: Desk, price: Bits, slash: Slasher, staked: nat)
    requires DeskOk(d, staked) && d.pool.withdrawQueue != [] && Nondust(d.pool.freeStake)
    requires Starved(d.pool, price)
    requires Nondust(d.pool.withdrawQueue[0].shares) && d.pool.withdrawQueue[0].shares <= d.user.shares
    ensures var r := ServeFront(d, price, slash);
      && r.Ok? && r.value.pool == d.pool && r.value.user.shares == d.user.shares
      && r.value.user.locked == Kept(d.user, SharePrice(d.pool).value)
  {
    ToFixedPositive(d.pool.totalShares);
    OwnedFrontSucceeds(d, price, slash, staked);
  }

  /** A starved round repeats: the next one leaves the desk as it finds it, and so on for ever. */
  lemma StarvedFrontRepeats(d: Desk, price: Bits, slash: Slasher, staked: nat)
    requires DeskOk(d, staked) && d.pool.withdrawQueue != [] && Nondust(d.pool.freeStake)
    requires Starved(d.pool, price)
    requires Nondust(d.pool.withdrawQueue[0].shares) && d.pool.withdrawQueue[0].shares <= d.user.shares
    ensures var r := ServeFront(d, price, slash);
      r.Ok? && ServeFront(r.value, price, slash) == Ok(r.value.(changes := r.value.changes + 1))
  {
    hide Held, Worth, Drift;
    StarvedFrontKeeps(d, price, slash, staked);
    var d1 := ServeFront(d, price, slash).value;
    ServeFrontKeeps(d, price, slash, staked);
    StarvedFrontKeeps(d1, price, slash, staked);
  }

  /** A desk on which the loop goes round in vain: nothing it depends on changes any more. */
  predicate Vain(d: Desk, price: Bits) {
    && d.pool.withdrawQueue != [] && Nondust(d.pool.withdrawQueue[0].shares)
    && Nondust(d.pool.freeStake) && Starved(d.pool, price)
    && d.pool.totalShares > 0 && Nondust(d.pool.totalStake)
    && Clean(d.user.shares) && d.user.rewardDebt <= Mul(d.user.shares, d.pool.rewardAcc)
  }

  /** A round in vain leaves the pool as it is and is followed by another one. */
  lemma VainStays(d: Desk, price: Bits, slash: Slasher)
    requires Vain(d, price)
    ensures var r := ServeFront(d, price, slash);
      r.Ok? && r.value.pool == d.pool && r.value.user.shares == d.user.shares && Vain(r.value, price)
  {
    ToFixedPositive(d.pool.totalShares);
    MulByZero(SharePrice(d.pool).value);
    hide Mul, Div;
  }

  /** The state of a desk after a number of further rounds. */
  function Rounds(d: Desk, price: Bits, slash: Slasher, n: nat): Outcome<Desk>
    requires d.pool.withdrawQueue != []
    decreases n
  {
    if n == 0 then Ok(d)
    else
      var d' :- ServeFront(d, price, slash);
      if d'.pool.withdrawQueue == [] then Ok(d') else Rounds(d', price, slash, n - 1)
  }

  lemma {:induction false} VainForEver(d: Desk, price: Bits, slash: Slasher, n: nat)
    requires Vain(d, price)
    ensures Rounds(d, price, slash, n).Ok? && Rounds(d, price, slash, n).value.pool == d.pool
    decreases n
  {
    if n > 0 {
      VainStays(d, price, slash);
      hide ServeFront, Vain;
      VainForEver(ServeFront(d, price, slash).value, price, slash, n - 1);
    }
  }

  /**
    On any desk, owned or not: if a round makes no progress and the next one does not fail,
    then whatever the number of further rounds, they succeed and change nothing in the pool.
  */
  lemma VainRoundsRepeat(d: Desk, price: Bits, slash: Slasher, n: nat)
    requires d.pool.withdrawQueue != [] && Nondust(d.pool.freeStake)
    requires ServeFront(d, price, slash).Ok? && !Progress(d.pool, ServeFront(d, price, slash).value.pool)
    ensures var d1 := ServeFront(d, price, slash).value;
      && d1.pool.withdrawQueue == d.pool.withdrawQueue
      && (ServeFront(d1, price, slash).Ok? ==>
            Rounds(d1, price, slash, n).Ok? && Rounds(d1, price, slash, n).value.pool == d1.pool)
  {
    VainRound(d, price, slash);
    var d1 := ServeFront(d, price, slash).value;
    if ServeFront(d1, price, slash).Ok? {
      VainForEver(d1, price, slash, n);
    }
  }

  lemma VainRound(d: Desk, price: Bits, slash: Slasher)
    requires d.pool.withdrawQueue != [] && Nondust(d.pool.freeStake)
    requires ServeFront(d, price, slash).Ok? && !Progress(d.pool, ServeFront(d, price, slash).value.pool)
    ensures var d1 := ServeFront(d, price, slash).value;
      && d1.pool.withdrawQueue == d.pool.withdrawQueue
      && (ServeFront(d1, price, slash).Ok? ==> Vain(d1, price))
  {
    var d1 := ServeFront(d, price, slash).value;
    ServedRequest(d, price, slash);
    FrontReduced(d.pool.withdrawQueue, d1.pool.withdrawQueue);
    VainPool(d, price, slash);
    hide Mul, Div;
    if ServeFront(d1, price, slash).Ok? {
      ToFixedPositive(d1.pool.totalShares);
    }
  }

  /** A served round resets the debt, drops dust shares, and takes the free stake whole if only dust would stay. */
  lemma VainPool(d: Desk, price: Bits, slash: Slasher)
    requires d.pool.withdrawQueue != [] && ServeFront(d, price, slash).Ok?
    ensures var d1 := ServeFront(d, price, slash).value;
      && Clean(d1.user.shares) && d1.user.rewardDebt == Mul(d1.user.shares, d1.pool.rewardAcc)
      && (d1.pool.freeStake == 0 || Nondust(d1.pool.totalStake))
      && d1.pool.freeStake <= d.pool.freeStake
  {
    hide Mul, Div;
  }

  /** Whether the loop comes to a round that is starved. */
  predicate ReachesStarved(v: Store, pid: Pid, price: Bits, slash: Slasher)
    requires pid in v.pools
    decreases QueueMeasure(v.pools[pid].withdrawQueue), v.pools[pid].freeStake
  {
    LoopGuard(v, pid) &&
    (Starved(v.pools[pid], price) ||
     (var r := ServeOne(v, pid, price, slash);
      r.Ok? && Progress(v.pools[pid], r.value.pools[pid]) && ReachesStarved(r.value, pid, price, slash)))
  }

  /**
    On owned requests the loop never panics: it ends, with every request still owned, unless
    it comes to a starved round, and then it never ends.
  */
  lemma {:induction false} OwnedQueueServed(v: Store, pid: Pid, price: Bits, slash: Slasher, staked: map<Pid, nat>)
    requires Sound(v, staked) && pid in v.pools && WithinShares(v, pid)
    ensures ServeQueue(v, pid, price, slash) == Diverge <==> ReachesStarved(v, pid, price, slash)
    ensures ServeQueue(v, pid, price, slash) != Diverge ==>
      ServeQueue(v, pid, price, slash).Ok? && WithinShares(ServeQueue(v, pid, price, slash).value, pid)
    decreases QueueMeasure(v.pools[pid].withdrawQueue), v.pools[pid].freeStake
  {
    hide Held, Worth, Drift, Mul, Fair, Sound, Books, OnlyPool, DeskOk, FrontServed, ServeOne, Starved, WithinShares;
    if LoopGuard(v, pid) {
      OwnedRoundSucceeds(v, pid, price, slash, staked);
      ProgressUnlessStarved(v, pid, price, slash, staked);
      ServeOneKeeps(v, pid, price, slash, staked);
      if Starved(v.pools[pid], price) {
        var v1 := ServeOne(v, pid, price, slash).value;
        assert v1.pools[pid].withdrawQueue != [];
        OwnedRoundSucceeds(v1, pid, price, slash, staked);
      } else {
        OwnedQueueServed(ServeOne(v, pid, price, slash).value, pid, price, slash, staked);
      }
    }
  }

  /** When the smallest free stake past dust buys a share, no round is starved and the loop ends. */
  lemma {:induction false} NeverStarved(v: Store, pid: Pid, price: Bits, slash: Slasher)
    requires pid in v.pools && (price == 0 || Div(DUST + 1, price) >= 1)
    ensures !ReachesStarved(v, pid, price, slash)
    decreases QueueMeasure(v.pools[pid].withdrawQueue), v.pools[pid].freeStake
  {
    hide ServeOne;
    if LoopGuard(v, pid) {
      if price != 0 {
        DivIsMonotone(DUST + 1, v.pools[pid].freeStake, price);
      }
      var r := ServeOne(v, pid, price, slash);
      if r.Ok? && Progress(v.pools[pid], r.value.pools[pid]) {
        NeverStarved(r.value, pid, price, slash);
      }
    }
  }

  /** No free share is ever too dear for `ProcessQueue`. */
  predicate Affordable(pool: PoolInfo) {
    var price := SharePrice(pool);
    price.Some? && price.value != 0 ==> Div(DUST + 1, price.value) >= 1
  }

  /** Whether serving the queue never ends. */
  predicate QueueHangs(v: Store, pid: Pid, slash: Slasher)
    requires pid in v.pools
  {
    SharePrice(v.pools[pid]).Some? && ReachesStarved(v, pid, SharePrice(v.pools[pid]).value, slash)
  }

  /** What can be seen of a pool beforehand: requests wait, and what is free is past dust and buys no share. */
  predicate StuckAtOnce(pool: PoolInfo) {
    && Nondust(pool.freeStake) && pool.withdrawQueue != []
    && SharePrice(pool).Some? && Starved(pool, SharePrice(pool).value)
  }

  lemma StuckAtOnceHangs(v: Store, pid: Pid, slash: Slasher)
    requires pid in v.pools && StuckAtOnce(v.pools[pid])
    ensures QueueHangs(v, pid, slash)
  {
    hide ServeOne, Div, Mul;
  }

  /** A hang takes a share that costs more than the smallest stake past dust. */
  lemma HangingQueueIsDear(v: Store, pid: Pid, slash: Slasher)
    requires pid in v.pools && QueueHangs(v, pid, slash)
    ensures !Affordable(v.pools[pid])
  {
    hide ReachesStarved;
    if Affordable(v.pools[pid]) {
      NeverStarved(v, pid, SharePrice(v.pools[pid]).value, slash);
    }
  }

  /** On owned requests serving the queue ends with every request owned, or never. */
  lemma OwnedQueueProcessed(v: Store, pid: Pid, slash: Slasher, staked: map<Pid, nat>)
    requires Sound(v, staked) && pid in v.pools && WithinShares(v, pid)
    ensures var r := ProcessQueue(v, pid, slash);
      && (r == Diverge <==> QueueHangs(v, pid, slash))
      && (r != Diverge ==> r.Ok? && WithinShares(r.value, pid))
  {
    hide Held, Worth, Drift, Mul, Sound, ServeQueue, ReachesStarved, WithinShares;
    match SharePrice(v.pools[pid])
    case None =>
    case Some(price) => OwnedQueueServed(v, pid, price, slash, staked);
  }
}
