/** What stakers get for their money: shares for stake, stake for shares, rewards for shares. */
module PriceLaws {
  import opened Base
  import opened FixedPoint
  import opened Sums
  import opened Pool
  import opened PoolLaws
  import opened Vault
  import opened VaultLaws
  import opened QueueLaws
  import opened CallLaws
  import opened RewardLaws

  // ---------------------------------------------------------------- stake for shares and back

  /** The shares given for a contribution are worth it at the price, but for about one pico and one price. */
  lemma SharesAreWorth(pool: PoolInfo, amount: nat)
    requires SharePrice(pool).Some? && SharePrice(pool).value > 0
    ensures var price, worth := SharePrice(pool).value, Mul(SharesFor(pool, amount), SharePrice(pool).value);
      && worth <= amount
      && (amount - worth) * ONE * ONE <= (ONE + 2 * SCALE) * (ONE + price)
  {
    var price := SharePrice(pool).value;
    MulDivAtMost(amount, price);
    MulDivGap(amount, price);
    hide Mul, Div, SharePrice;
  }

  /** No more is served than the free stake pays for at the price. */
  lemma ServedIsPayable(pool: PoolInfo, price: Bits, wanted: nat, served: nat)
    requires served <= Min(wanted, FreeShares(pool, Some(price), wanted))
    ensures Mul(served, price) <= pool.freeStake
  {
    if price != 0 {
      MulDivAtMost(pool.freeStake, price);
      MulIsMonotone(served, Div(pool.freeStake, price), price, price);
    } else {
      MulByZero(served);
    }
    hide Mul, Div;
  }

  /** A request splits in what is served, what is queued and at most dust. */
  lemma SplitLosesDust(pool: PoolInfo, shares: nat)
    ensures shares - DUST <= ServedNow(pool, shares) + QueuedNow(pool, shares) <= shares
  {
    hide SharePrice, FreeShares;
  }

  /** What a staker is paid for its shares: their worth at the price, within what it has locked. */
  function Payment(d: Desk, shares: nat, price: Bits): nat {
    Min(Mul(shares, price), Kept(d.user, price))
  }

  /**
    A payable release pays exactly that from the pool's free stake and total stake, unless only
    dust would remain, which goes as well; the staker's shares and stake fall with it.
  */
  lemma ReleasePays(d: Desk, shares: nat, slash: Slasher)
    requires Release(d, shares, slash).Ok? && SharePrice(d.pool).Some?
    requires Mul(shares, SharePrice(d.pool).value) <= d.pool.freeStake
    ensures var d', paid := Release(d, shares, slash).value, Payment(d, shares, SharePrice(d.pool).value);
      && paid <= d.pool.freeStake && paid <= d.pool.totalStake
      && d'.pool.totalStake == (if Nondust(d.pool.totalStake - paid) then d.pool.totalStake - paid else 0)
      && d'.pool.freeStake == (if Nondust(d.pool.totalStake - paid) then d.pool.freeStake - paid else 0)
      && d'.user.shares == ExtractDust(d.user.shares - shares).0
      && d'.user.locked == ExtractDust(Kept(d.user, SharePrice(d.pool).value) - paid).0
  {
    hide Mul;
  }

  /** The free stake a release leaves: less what is paid, or nothing if only dust of the total stake would remain. */
  function FreeAfter(d: Desk, served: nat): nat {
    if served == 0 || SharePrice(d.pool).None? then d.pool.freeStake
    else
      var paid := Payment(d, served, SharePrice(d.pool).value);
      if paid <= d.pool.freeStake && paid + DUST < d.pool.totalStake then d.pool.freeStake - paid else 0
  }

  lemma ReleaseHasPrice(d: Desk, shares: nat, slash: Slasher)
    requires Release(d, shares, slash).Ok?
    ensures SharePrice(d.pool).Some?
  {
    hide Mul;
  }

  lemma SettledUser(pool: PoolInfo, user: UserStakeInfo)
    ensures var r := SettleReward(pool, user);
      r.Ok? ==> r.value.shares == user.shares && r.value.locked == user.locked && r.value.user == user.user
  {
    hide Mul;
  }

  lemma SettledFreeAfter(d: Desk, d': Desk, served: nat)
    requires d'.pool == d.pool && d'.user.shares == d.user.shares && d'.user.locked == d.user.locked
    ensures FreeAfter(d', served) == FreeAfter(d, served)
  {
    hide Mul, SharePrice;
  }

  // ---------------------------------------------------------------- shares without dust

  /** The dearest price, in bits, at which the smallest contribution buys shares past dust: about 9.99 million. */
  const DEAREST_CONTRIBUTION: Bits := 184_283_157_577_352_939_959_326_827

  lemma ContributionBuysNondust(price: Bits)
    ensures (forall amount: nat :: amount >= MIN_CONTRIBUTION ==> price == 0 || Nondust(Div(amount, price)))
            <==> price <= DEAREST_CONTRIBUTION
  {
    assert ToFixed(MIN_CONTRIBUTION) == 184467440737095516;
    if price != 0 {
      DivBounds(184467440737095516 * ONE, price);
      if price <= DEAREST_CONTRIBUTION {
        DivAtLeast(184467440737095516 * ONE, price, 18465190818);
        assert Nondust(Div(MIN_CONTRIBUTION, price));
        hide Div;
        forall amount: nat | amount >= MIN_CONTRIBUTION ensures Nondust(Div(amount, price)) {
          DivIsMonotone(MIN_CONTRIBUTION, amount, price);
        }
      } else {
        if 184467440737095516 * ONE / price > 18465190817 {
          MulMono(18465190818, 184467440737095516 * ONE / price, price);
        }
        assert CloseToZero(Div(MIN_CONTRIBUTION, price));
      }
    }
  }

  /**
    A release never leaves a staker dust shares. A contribution does exactly if it is the staker's
    first stake and buys some, but only dust, which no contribution does up to DEAREST_CONTRIBUTION.
  */
  lemma SharesStayClean(d: Desk, amount: nat, shares: nat, slash: Slasher)
    requires Clean(d.user.shares) && amount >= MIN_CONTRIBUTION
    ensures Clean(Deposit(d, amount).user.shares) <==> d.user.shares > 0 || Clean(SharesFor(d.pool, amount))
    ensures SharePrice(d.pool).None? || SharePrice(d.pool).value <= DEAREST_CONTRIBUTION ==>
      Clean(Deposit(d, amount).user.shares)
    ensures Release(d, shares, slash).Ok? ==> Clean(Release(d, shares, slash).value.user.shares)
  {
    if Release(d, shares, slash).Ok? {
      ReleasedShares(d, shares, slash);
    }
    hide Release, Mul, Div;
    if SharePrice(d.pool).Some? {
      ContributionBuysNondust(SharePrice(d.pool).value);
    }
  }

  /** If no staker's shares are dust, the pool's are not. */
  lemma TotalSharesClean(v: Store, pid: Pid)
    requires SharesAgree(v) && pid in v.pools
    requires forall who :: Clean(StakerOf(v, pid, who).shares)
    ensures Clean(v.pools[pid].totalShares)
  {
    var s := SharesIn(v.stakers, pid);
    if v.pools[pid].totalShares > 0 {
      if forall k :: k in s ==> s[k] == 0 {
        SumZero(s);
      } else {
        var k :| k in s && s[k] != 0;
        assert Clean(StakerOf(v, pid, k.1).shares);
        EntryAtMostSum(s, k);
      }
    }
  }

  // ---------------------------------------------------------------- the queue

  /** The loop leaves no request waiting while there is more than dust to serve it. */
  lemma {:induction false} ServesUntilDone(v: Store, pid: Pid, price: Bits, slash: Slasher)
    requires pid in v.pools && ServeQueue(v, pid, price, slash).Ok?
    ensures !LoopGuard(ServeQueue(v, pid, price, slash).value, pid)
    decreases QueueMeasure(v.pools[pid].withdrawQueue), v.pools[pid].freeStake
  {
    hide ServeOne;
    if LoopGuard(v, pid) {
      ServesUntilDone(ServeOne(v, pid, price, slash).value, pid, price, slash);
    }
  }

  /**
    What can be seen of a pool beforehand, too: its free stake buys a part of the first request, and what
    the payment leaves is past dust and buys no share more.
  */
  predicate StuckNext(v: Store, pid: Pid) {
    && pid in v.pools && v.pools[pid].withdrawQueue != [] && Nondust(v.pools[pid].freeStake)
    && SharePrice(v.pools[pid]).Some? && SharePrice(v.pools[pid]).value > 0
    && var price, request := SharePrice(v.pools[pid]).value, v.pools[pid].withdrawQueue[0];
       var bought := Div(v.pools[pid].freeStake, price);
       var left := FreeAfter(DeskOf(v, pid, request.user), bought);
       bought + DUST < request.shares && Nondust(left) && Div(left, price) == 0
  }

  lemma StuckNextHangs(v: Store, pid: Pid, slash: Slasher, staked: map<Pid, nat>)
    requires Sound(v, staked) && pid in v.pools && WithinShares(v, pid) && StuckNext(v, pid)
    ensures QueueHangs(v, pid, slash)
  {
    hide Sound, Div, ServeFront, FreeAfter, SharePrice, OnlyPool;
    var price, request := SharePrice(v.pools[pid]).value, v.pools[pid].withdrawQueue[0];
    if !Starved(v.pools[pid], price) {
      OwnedRoundSucceeds(v, pid, price, slash, staked);
      ProgressUnlessStarved(v, pid, price, slash, staked);
      RoundLeaves(v, pid, slash);
      assert ReachesStarved(ServeOne(v, pid, price, slash).value, pid, price, slash);
    }
  }

  /** A round of which the free stake buys a part only. */
  lemma RoundLeaves(v: Store, pid: Pid, slash: Slasher)
    requires StuckNext(v, pid) && WithinShares(v, pid) && !Starved(v.pools[pid], SharePrice(v.pools[pid]).value)
    requires ServeOne(v, pid, SharePrice(v.pools[pid]).value, slash).Ok?
    ensures var price, v' := SharePrice(v.pools[pid]).value,
      ServeOne(v, pid, SharePrice(v.pools[pid]).value, slash).value;
      LoopGuard(v', pid) && Starved(v'.pools[pid], price)
  {
    hide Div, ServeFront, FreeAfter, SharePrice;
    var price, request := SharePrice(v.pools[pid]).value, v.pools[pid].withdrawQueue[0];
    assert StakerOf(v, pid, request.user).shares > 0;
    var d := DeskOf(v, pid, request.user);
    ServedRequest(d, price, slash);
    FrontLeaves(d, price, slash);
  }

  lemma FrontLeaves(d: Desk, price: Bits, slash: Slasher)
    requires d.pool.withdrawQueue != [] && SharePrice(d.pool) == Some(price) && ServeFront(d, price, slash).Ok?
    ensures var wanted := d.pool.withdrawQueue[0].shares;
      var served := Min(FreeShares(d.pool, Some(price), wanted), wanted);
      served > 0 ==> ServeFront(d, price, slash).value.pool.freeStake == FreeAfter(d, served)
  {
    hide Mul, Div, SharePrice, Release, Kept, SettleReward;
    SettledUser(d.pool, d.user);
    var d1 := d.(user := SettleReward(d.pool, d.user).value);
    var wanted := d.pool.withdrawQueue[0].shares;
    var served := Min(FreeShares(d.pool, Some(price), wanted), wanted);
    ServedIsPayable(d.pool, price, wanted, served);
    ReleasePays(d1, served, slash);
    SettledFreeAfter(d, d1, served);
  }

  lemma RoundTakesStake(v: Store, pid: Pid, price: Bits, slash: Slasher)
    requires pid in v.pools && v.pools[pid].withdrawQueue != [] && ServeOne(v, pid, price, slash).Ok?
    ensures var pool, pool' := v.pools[pid], ServeOne(v, pid, price, slash).value.pools[pid];
      pool'.totalStake <= pool.totalStake && pool'.cap == pool.cap
  {
    hide ServeFront;
    var who := v.pools[pid].withdrawQueue[0].user;
    if (pid, who) in v.stakers {
      FrontTakesStake(Load(v, who, v.pools[pid], v.stakers[(pid, who)]), price, slash);
    }
  }

  lemma FrontTakesStake(d: Desk, price: Bits, slash: Slasher)
    requires d.pool.withdrawQueue != [] && ServeFront(d, price, slash).Ok?
    ensures var pool' := ServeFront(d, price, slash).value.pool;
      pool'.totalStake <= d.pool.totalStake && pool'.cap == d.pool.cap
  {
    hide Mul, Div;
  }

  lemma {:induction false} QueueTakesStake(v: Store, pid: Pid, price: Bits, slash: Slasher)
    requires pid in v.pools && ServeQueue(v, pid, price, slash).Ok?
    ensures var pool, pool' := v.pools[pid], ServeQueue(v, pid, price, slash).value.pools[pid];
      pool'.totalStake <= pool.totalStake && pool'.cap == pool.cap
    decreases QueueMeasure(v.pools[pid].withdrawQueue), v.pools[pid].freeStake
  {
    hide ServeOne;
    if LoopGuard(v, pid) {
      RoundTakesStake(v, pid, price, slash);
      QueueTakesStake(ServeOne(v, pid, price, slash).value, pid, price, slash);
    }
  }

  /** After a contribution the pool is within its cap. */
  lemma ContributeRespectsCap(v: Store, who: Account, pid: Pid, amount: nat, slash: Slasher)
    requires Contribute(v, who, pid, amount, slash).Ok?
    ensures var v' := Contribute(v, who, pid, amount, slash).value;
      && pid in v.pools && pid in v'.pools
      && (v.pools[pid].cap.Some? ==> v'.pools[pid].totalStake <= v.pools[pid].cap.value)
  {
    hide ServeQueue, SettleSlash, SharesFor, Mul, SharePrice;
    var v1 := Save(v, pid, who, Deposit(Prepared(v, pid, who, slash).value, amount));
    assert v1.pools[pid].totalStake == v.pools[pid].totalStake + amount by {
      PreparedSamePool(v, pid, who, slash);
    }
    if SharePrice(v1.pools[pid]).Some? {
      QueueTakesStake(v1, pid, SharePrice(v1.pools[pid]).value, slash);
    }
  }

  lemma PreparedSamePool(v: Store, pid: Pid, who: Account, slash: Slasher)
    requires pid in v.pools && Prepared(v, pid, who, slash).Ok?
    ensures Prepared(v, pid, who, slash).value.pool == v.pools[pid]
  {
    hide Mul;
  }

  // ---------------------------------------------------------------- rewards

  /** A distribution raises what a staker can claim by its part of the accumulator's step, but for 2 pico. */
  lemma DistributionReaches(user: UserStakeInfo, acc: Bits, delta: Bits)
    ensures Scaled(delta * SCALE, ToFixed(user.shares)) < Worth(Claimable(user, acc + delta) - Claimable(user, acc) + 2)
  {
    MulClose(user.shares, acc);
    MulClose(user.shares, acc + delta);
    ExactGrows(user.shares, acc, delta);
    hide Mul, Exact;
  }

  /** The step is the greatest that the reward pays for: one more bit of it would be too much. */
  lemma StepIsGreatest(rewards: nat, totalShares: nat)
    requires totalShares > 0
    ensures ToFixed(totalShares) > 0
    ensures (FixDiv(ToFixed(rewards), ToFixed(totalShares)) + 1) * ToFixed(totalShares) > ToFixed(rewards) * ONE
  {
    ToFixedPositive(totalShares);
    DivBounds(ToFixed(rewards) * ONE, ToFixed(totalShares));
  }

  /** What an account may claim of a pool, as its owner and as its staker. */
  function ClaimOf(v: Store, pid: Pid, who: Account): int
    requires pid in v.pools
  {
    (if who == v.pools[pid].owner then v.pools[pid].ownerReward else 0) +
    Claimable(StakerOf(v, pid, who), v.pools[pid].rewardAcc)
  }

  lemma NewStakerClaimsNothing(who: Account, acc: Bits)
    ensures Claimable(NewStaker(who), acc) == 0
  {
  }

  /** A claim pays exactly what can be claimed and leaves nothing to claim. */
  lemma ClaimPays(v: Store, who: Account, pid: Pid, target: Account, funded: bool)
    requires AllStakersOk(v) && ClaimRewards(v, who, pid, target, funded).Ok?
    ensures var v' := ClaimRewards(v, who, pid, target, funded).value;
      && pid in v.pools && pid in v'.pools
      && Get(v'.free, target) == Get(v.free, target) + ClaimOf(v, pid, who)
      && AuditOf(v', pid).paid == AuditOf(v, pid).paid + ClaimOf(v, pid, who)
      && ClaimOf(v', pid, who) == 0
  {
    hide Mul;
    NewStakerClaimsNothing(who, v.pools[pid].rewardAcc);
    if (pid, who) in v.stakers {
      assert StakerOk(v.pools[pid], v.stakers[(pid, who)]);
    }
  }

  /** As written, nothing behind the first worker without a pool is credited. */
  lemma {:induction false} RewardsStopAtUnassigned(v: Store, settle: seq<SettleInfo>, permill: Permill, k: nat)
    requires k < |settle| && settle[k].pubkey !in v.assignments
    ensures OnReward(v, settle, permill) == OnReward(v, settle[..k], permill)
    decreases |settle|
  {
    hide Credit;
    if k > 0 {
      assert settle[..k][1..] == settle[1..][..k - 1];
      if settle[0].pubkey in v.assignments && v.assignments[settle[0].pubkey] in v.pools {
        var v1 := Credit(v, v.assignments[settle[0].pubkey], FromFixed(settle[0].payout), permill);
        CreditOnlyCredits(v, v.assignments[settle[0].pubkey], FromFixed(settle[0].payout), permill);
        RewardsStopAtUnassigned(v1, settle[1..], permill, k - 1);
      }
    }
  }

  /** The payouts of a round that go to a pool's workers. */
  function PayoutsTo(settle: seq<SettleInfo>, assignments: map<Worker, Pid>, pid: Pid): nat {
    if settle == [] then 0
    else
      (if settle[0].pubkey in assignments && assignments[settle[0].pubkey] == pid
       then FromFixed(settle[0].payout) else 0)
      + PayoutsTo(settle[1..], assignments, pid)
  }

  lemma CreditReceived(v: Store, pid: Pid, rewards: nat, permill: Permill, p: Pid)
    requires pid in v.pools
    ensures AuditOf(Credit(v, pid, rewards, permill), p).received ==
            AuditOf(v, p).received + if p == pid then rewards else 0
  {
    hide NewReward;
  }

  /** A round whose workers are all assigned hands every pool the payouts of its workers. */
  lemma {:induction false} RewardsReachPools(v: Store, settle: seq<SettleInfo>, permill: Permill, pid: Pid)
    requires forall i :: 0 <= i < |settle| ==> settle[i].pubkey in v.assignments
    requires OnReward(v, settle, permill).Ok?
    ensures AuditOf(OnReward(v, settle, permill).value, pid).received ==
            AuditOf(v, pid).received + PayoutsTo(settle, v.assignments, pid)
    decreases |settle|
  {
    hide Credit, AuditOf;
    if settle != [] {
      var p := v.assignments[settle[0].pubkey];
      var v1 := Credit(v, p, FromFixed(settle[0].payout), permill);
      CreditOnlyCredits(v, p, FromFixed(settle[0].payout), permill);
      CreditReceived(v, p, FromFixed(settle[0].payout), permill, pid);
      assert forall i :: 0 <= i < |settle[1..]| ==> settle[1..][i] == settle[i + 1];
      RewardsReachPools(v1, settle[1..], permill, pid);
    }
  }

  /** The first worker of a round that has no pool. */
  function FirstUnassigned(settle: seq<SettleInfo>, assignments: map<Worker, Pid>): (k: nat)
    ensures k <= |settle|
    ensures k < |settle| ==> settle[k].pubkey !in assignments
    ensures forall i :: 0 <= i < k ==> settle[i].pubkey in assignments
  {
    if settle == [] || settle[0].pubkey !in assignments then 0
    else
      assert forall i :: 1 <= i < |settle| ==> settle[i] == settle[1..][i - 1];
      1 + FirstUnassigned(settle[1..], assignments)
  }

  lemma {:induction false} PayoutsSplit(settle: seq<SettleInfo>, assignments: map<Worker, Pid>, pid: Pid, k: nat)
    requires k <= |settle|
    ensures PayoutsTo(settle, assignments, pid) ==
            PayoutsTo(settle[..k], assignments, pid) + PayoutsTo(settle[k..], assignments, pid)
  {
    if k > 0 {
      assert settle[..k][1..] == settle[1..][..k - 1] && settle[k..] == settle[1..][k - 1..];
      PayoutsSplit(settle[1..], assignments, pid, k - 1);
    } else {
      assert settle[0..] == settle && settle[..0] == [];
    }
  }

  /**
    A pool receives the payouts of its workers in front of the first worker without a pool, and
    so receives all of them if and only if those behind come to nothing.
  */
  lemma RewardsReceived(v: Store, settle: seq<SettleInfo>, permill: Permill, pid: Pid)
    requires OnReward(v, settle, permill).Ok?
    ensures var k, received := FirstUnassigned(settle, v.assignments),
                               AuditOf(OnReward(v, settle, permill).value, pid).received - AuditOf(v, pid).received;
      && received == PayoutsTo(settle[..k], v.assignments, pid)
      && (received == PayoutsTo(settle, v.assignments, pid) <==> PayoutsTo(settle[k..], v.assignments, pid) == 0)
  {
    hide OnReward, AuditOf, FirstUnassigned, PayoutsTo;
    var k := FirstUnassigned(settle, v.assignments);
    PayoutsSplit(settle, v.assignments, pid, k);
    assert settle[..|settle|] == settle;
    if k < |settle| {
      RewardsStopAtUnassigned(v, settle, permill, k);
    }
    RewardsReachPools(v, settle[..k], permill, pid);
  }
}
