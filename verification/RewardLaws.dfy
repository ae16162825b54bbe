/** Rewards and share prices: no pool ever owes its stakers more than it has. */
module RewardLaws {
  import opened Base
  import opened FixedPoint
  import opened Sums
  import opened Pool
  import opened PoolLaws
  import opened Vault
  import opened VaultLaws

  // ---------------------------------------------------------------- distributing a reward

  ghost function FixedIn(stakers: map<Key, UserStakeInfo>, pid: Pid): map<Key, int> {
    map k | k in stakers && k.0 == pid :: ToFixed(stakers[k].shares)
  }

  /** Converting the shares one by one loses at least as much as converting their sum. */
  lemma {:induction false} SumToFixed<K>(shares: map<K, int>, fixed: map<K, int>)
    requires shares.Keys == fixed.Keys
    requires forall k :: k in shares ==> shares[k] >= 0 && fixed[k] == ToFixed(shares[k])
    ensures Sum(shares) >= 0 && Sum(fixed) <= ToFixed(Sum(shares))
    decreases |shares|
  {
    hide *;
    SumNonNegative(shares);
    if shares == map[] {
      SumEmpty(shares);
      SumEmpty(fixed);
    } else {
      var k :| k in shares;
      SumRemove(shares, k);
      SumRemove(fixed, k);
      SumToFixed(shares - {k}, fixed - {k});
      ToFixedSuperadditive(shares[k], Sum(shares - {k}));
    }
  }

  lemma ExactGrows(shares: nat, acc: Bits, delta: Bits)
    ensures Exact(shares, acc + delta) == Exact(shares, acc) + Scaled(delta * SCALE, ToFixed(shares))
  {
    var b := ToFixed(shares);
    assert b * (acc + delta) * SCALE == b * acc * SCALE + b * delta * SCALE;
    assert b * delta * SCALE == delta * SCALE * b;
  }

  lemma HeldGrows(user: UserStakeInfo, acc: Bits, delta: Bits)
    ensures Held(user, acc + delta) == Held(user, acc) + Scaled(delta * SCALE, ToFixed(user.shares))
  {
    ExactGrows(user.shares, acc, delta);
  }

  /** The accumulator's step, times all the shares, is at most the reward. */
  lemma StepAtMostReward(rewards: nat, totalShares: nat, fixed: nat)
    requires totalShares > 0 && fixed <= ToFixed(totalShares)
    ensures ToFixed(totalShares) > 0
    ensures Scaled(FixDiv(ToFixed(rewards), ToFixed(totalShares)) * SCALE, fixed) <= Worth(rewards)
  {
    ToFixedPositive(totalShares);
    var t := ToFixed(totalShares);
    var delta := FixDiv(ToFixed(rewards), t);
    DivBounds(ToFixed(rewards) * ONE, t);
    MulMono(fixed, t, delta);
    assert delta * SCALE * fixed == delta * fixed * SCALE;
    assert delta * fixed <= ToFixed(rewards) * ONE;
  }

  lemma HeldInGrows(stakers: map<Key, UserStakeInfo>, pid: Pid, acc: Bits, delta: Bits)
    ensures Sum(HeldIn(stakers, pid, acc + delta)) ==
            Sum(HeldIn(stakers, pid, acc)) + Scaled(delta * SCALE, Sum(FixedIn(stakers, pid)))
  {
    hide Held, Scaled, ToFixed;
    var fixed := FixedIn(stakers, pid);
    var before, after := HeldIn(stakers, pid, acc), HeldIn(stakers, pid, acc + delta);
    var step := map k | k in fixed :: Scaled(delta * SCALE, fixed[k]);
    forall k | k in after ensures after[k] == before[k] + step[k] {
      HeldGrows(stakers[k], acc, delta);
    }
    SumAdd(after, before, step);
    SumScale(step, fixed, delta * SCALE);
  }

  /** A distribution adds no more to what the stakers hold than the reward that was distributed. */
  lemma DistributionWithinReward(v: Store, pid: Pid, rewards: nat)
    requires pid in v.pools && SharesAgree(v) && v.pools[pid].totalShares > 0
    ensures var pool := v.pools[pid];
      Sum(HeldIn(v.stakers, pid, Distribute(pool, rewards).rewardAcc))
      <= Sum(HeldIn(v.stakers, pid, pool.rewardAcc)) + Worth(rewards)
  {
    hide Held, Worth, Scaled, ToFixed;
    var pool := v.pools[pid];
    ToFixedPositive(pool.totalShares);
    var fixed := FixedIn(v.stakers, pid);
    HeldInGrows(v.stakers, pid, pool.rewardAcc, FixDiv(ToFixed(rewards), ToFixed(pool.totalShares)));
    SumToFixed(SharesIn(v.stakers, pid), fixed);
    SumNonNegative(fixed);
    StepAtMostReward(rewards, pool.totalShares, Sum(fixed));
  }

  // ---------------------------------------------------------------- crediting and claiming

  /** A new reward adds no more to what the owner and the stakers hold than it is worth. */
  lemma NewRewardWithinReward(v: Store, pid: Pid, rewards: nat, cut: nat)
    requires SharesAgree(v) && pid in v.pools && cut <= rewards
    ensures var pool, pool' := v.pools[pid], NewReward(v.pools[pid], rewards, cut);
      && pool' == pool.(ownerReward := pool'.ownerReward, rewardAcc := pool'.rewardAcc)
      && Worth(pool'.ownerReward - pool.ownerReward) + Sum(HeldIn(v.stakers, pid, pool'.rewardAcc))
         <= Sum(HeldIn(v.stakers, pid, pool.rewardAcc)) + Worth(rewards)
  {
    hide Held, Worth, Mul, Distribute, SharesAgree;
    var pool := v.pools[pid];
    WorthAdds(cut, rewards - cut);
    WorthNonNegative(rewards);
    WorthNonNegative(rewards - cut);
    WorthNonNegative(0);
    WorthAdds(0, 0);
    if pool.totalShares > 0 {
      DistributionWithinReward(v, pid, rewards - cut);
      DistributeOnlyAcc(pool, rewards - cut, cut);
    }
  }

  lemma CreditKeepsSolvent(v: Store, pid: Pid, rewards: nat, permill: Permill)
    requires SharesAgree(v) && AllSolvent(v) && pid in v.pools
    ensures AllSolvent(Credit(v, pid, rewards, permill))
  {
    hide Held, Worth, Drift, Mul, NewReward, SharesAgree;
    var v' := Credit(v, pid, rewards, permill);
    var pool, cut := v.pools[pid], Commission(v.pools[pid], rewards, permill);
    WorthAdds(AuditOf(v, pid).received, rewards);
    WorthAdds(AuditOf(v, pid).paid + pool.ownerReward, NewReward(pool, rewards, cut).ownerReward - pool.ownerReward);
    NewRewardWithinReward(v, pid, rewards, cut);
    forall p | p in v'.pools ensures Solvent(v', p) {
      assert Solvent(v, p);
    }
  }

  lemma WorthNonNegative(n: nat)
    ensures Worth(n) >= 0
  {
  }

  lemma DistributeOnlyAcc(pool: PoolInfo, rewards: nat, cut: nat)
    requires pool.totalShares > 0
    ensures var pool' := Distribute(pool.(ownerReward := pool.ownerReward + cut), rewards);
      && pool' == pool.(ownerReward := pool.ownerReward + cut, rewardAcc := pool'.rewardAcc)
      && pool'.rewardAcc == Distribute(pool, rewards).rewardAcc >= pool.rewardAcc
  {
  }

  lemma CreditKeepsDebts(v: Store, pid: Pid, rewards: nat, permill: Permill)
    requires AllStakersOk(v) && pid in v.pools
    ensures AllStakersOk(Credit(v, pid, rewards, permill))
  {
    var v' := Credit(v, pid, rewards, permill);
    assert v'.pools[pid].rewardAcc >= v.pools[pid].rewardAcc;
    hide Mul, Credit;
    forall p, w | (p, w) in v'.stakers && p in v'.pools ensures StakerOk(v'.pools[p], v'.stakers[(p, w)]) {
      if p == pid {
        var user := v.stakers[(p, w)];
        MulIsMonotone(user.shares, user.shares, v.pools[pid].rewardAcc, v'.pools[pid].rewardAcc);
      }
    }
  }

  /** Rewards are no stake: everything but debts and solvency is out of their reach. */
  lemma RewardsAreNoStake(v: Store, v': Store, pid: Pid, staked: map<Pid, nat>)
    requires WellKeyed(v) && SharesAgree(v) && AllBacked(v, staked) && pid in v.pools && pid in v'.pools
    requires v'.poolCount == v.poolCount
    requires v'.pools == v.pools[pid := v.pools[pid].(ownerReward := v'.pools[pid].ownerReward,
                                                      rewardAcc := v'.pools[pid].rewardAcc)]
    requires v'.stakers.Keys == v.stakers.Keys
    requires forall k :: k in v.stakers ==> v'.stakers[k].user == v.stakers[k].user
    requires forall k :: k in v.stakers ==> v'.stakers[k].shares == v.stakers[k].shares
    ensures WellKeyed(v') && SharesAgree(v') && AllBacked(v', staked)
  {
    forall p | p in v'.pools ensures v'.pools[p].totalShares == Sum(SharesIn(v'.stakers, p)) {
      assert SharesIn(v'.stakers, p) == SharesIn(v.stakers, p);
    }
  }

  lemma CreditKeeps(v: Store, pid: Pid, rewards: nat, permill: Permill, staked: map<Pid, nat>)
    requires Sound(v, staked) && pid in v.pools
    ensures Sound(Credit(v, pid, rewards, permill), staked)
  {
    hide NewReward, AllStakersOk, AllSolvent, WellKeyed, SharesAgree, AllBacked, AllCovered, Held, Worth;
    CoveredFrame(v, Credit(v, pid, rewards, permill));
    var v' := Credit(v, pid, rewards, permill);
    NewRewardWithinReward(v, pid, rewards, Commission(v.pools[pid], rewards, permill));
    CreditKeepsDebts(v, pid, rewards, permill);
    CreditKeepsSolvent(v, pid, rewards, permill);
    RewardsAreNoStake(v, v', pid, staked);
  }

  /** What a credit may change in a pool. */
  predicate OnlyRewards(pool: PoolInfo, pool': PoolInfo) {
    pool' == pool.(ownerReward := pool'.ownerReward, rewardAcc := pool'.rewardAcc)
  }

  ghost predicate OnlyCredits(v: Store, v': Store) {
    && v' == v.(pools := v'.pools, audits := v'.audits)
    && v'.pools.Keys == v.pools.Keys
    && (forall p :: p in v.pools ==> OnlyRewards(v.pools[p], v'.pools[p]))
    && (forall p :: p in v'.audits ==> p in v.audits || p in v.pools)
  }

  lemma CreditOnlyCredits(v: Store, pid: Pid, rewards: nat, permill: Permill)
    requires pid in v.pools
    ensures OnlyCredits(v, Credit(v, pid, rewards, permill))
  {
    hide Mul, ToFixed, CloseToZero;
  }

  /** A round of rewards keeps the books, whatever worker it stops at; no assigned worker lacks a pool. */
  lemma {:induction false} OnRewardKeeps(v: Store, settle: seq<SettleInfo>, permill: Permill, staked: map<Pid, nat>)
    requires Sound(v, staked)
    requires forall w :: w in v.assignments ==> v.assignments[w] in v.pools
    ensures var r := OnReward(v, settle, permill);
      r.Ok? && Sound(r.value, staked) && OnlyCredits(v, r.value)
    decreases |settle|
  {
    hide Sound, Credit;
    if settle != [] && settle[0].pubkey in v.assignments {
      hide OnlyRewards;
      var pid := v.assignments[settle[0].pubkey];
      var v1 := Credit(v, pid, FromFixed(settle[0].payout), permill);
      CreditKeeps(v, pid, FromFixed(settle[0].payout), permill, staked);
      CreditOnlyCredits(v, pid, FromFixed(settle[0].payout), permill);
      OnRewardKeeps(v1, settle[1..], permill, staked);
      CreditsTransitive(v, v1, OnReward(v1, settle[1..], permill).value);
    }
  }

  lemma CreditsTransitive(u: Store, v: Store, w: Store)
    requires OnlyCredits(u, v) && OnlyCredits(v, w)
    ensures OnlyCredits(u, w)
  {
  }

  /** What a claim pays moves from what is owed to what is paid. */
  lemma ClaimSolventHere(v: Store, who: Account, pid: Pid, target: Account, funded: bool)
    requires WellKeyed(v) && AllStakersOk(v) && AllSolvent(v) && ClaimRewards(v, who, pid, target, funded).Ok?
    ensures pid in ClaimRewards(v, who, pid, target, funded).value.pools
    ensures Solvent(ClaimRewards(v, who, pid, target, funded).value, pid)
  {
    var v' := ClaimRewards(v, who, pid, target, funded).value;
    var pool, audit := v.pools[pid], AuditOf(v, pid);
    hide Worth, Drift, Mul, Exact, HeldIn;
    assert Solvent(v, pid);
    if (pid, who) in v.stakers {
      var user := v.stakers[(pid, who)];
      assert StakerOk(pool, user);
      var settled := SettleReward(pool, user).value;
      var paid := settled.availableRewards;
      WorthAdds(user.availableRewards - user.rewardDebt - paid, paid);
      WorthAdds(audit.paid + pool.ownerReward, paid);
      HeldSaved(v.stakers, pid, who, settled.(availableRewards := 0), pid, pool.rewardAcc);
      HeldAt(v.stakers, pid, who, pool.rewardAcc);
    }
  }

  lemma HeldAt(stakers: map<Key, UserStakeInfo>, pid: Pid, who: Account, acc: Bits)
    requires (pid, who) in stakers
    ensures At(HeldIn(stakers, pid, acc), (pid, who)) == Held(stakers[(pid, who)], acc)
  {
    hide Held;
  }

  lemma ClaimKeepsSolvent(v: Store, who: Account, pid: Pid, target: Account, funded: bool)
    requires WellKeyed(v) && AllStakersOk(v) && AllSolvent(v) && ClaimRewards(v, who, pid, target, funded).Ok?
    ensures AllSolvent(ClaimRewards(v, who, pid, target, funded).value)
  {
    var v' := ClaimRewards(v, who, pid, target, funded).value;
    ClaimSolventHere(v, who, pid, target, funded);
    hide Worth, Drift, Mul, Exact, Held, HeldIn, SettleReward;
    forall p | p in v'.pools ensures Solvent(v', p) {
      assert Solvent(v, p);
      if p != pid && (pid, who) in v.stakers {
        HeldSaved(v.stakers, pid, who, v'.stakers[(pid, who)], p, v.pools[p].rewardAcc);
      }
    }
  }

  lemma ClaimKeepsCovered(v: Store, who: Account, pid: Pid, target: Account, funded: bool)
    requires AllCovered(v) && ClaimRewards(v, who, pid, target, funded).Ok?
    ensures AllCovered(ClaimRewards(v, who, pid, target, funded).value)
  {
    hide Mul;
    var v' := ClaimRewards(v, who, pid, target, funded).value;
    forall w ensures AccountOk(v', w) {
      assert AccountOk(v, w);
      assert LockedBy(v'.stakers, w) == LockedBy(v.stakers, w);
    }
  }

  /** Paying out a settled staker keeps all debts covered. */
  lemma PaidKeeps(v: Store, pid: Pid, who: Account, pool: PoolInfo, user: UserStakeInfo, target: Account, rewards: nat)
    requires AllStakersOk(v) && pid in v.pools && pool == v.pools[pid].(ownerReward := pool.ownerReward)
    requires (pid, who) in v.stakers ==>
      && user.user == v.stakers[(pid, who)].user && user.shares == v.stakers[(pid, who)].shares
      && StakerOk(v.pools[pid], user)
    ensures AllStakersOk(Paid(v, pid, who, pool, user, target, rewards))
    ensures ClaimedOnly(v, Paid(v, pid, who, pool, user, target, rewards), pid)
  {
    hide Mul;
  }

  lemma ClaimEffects(v: Store, who: Account, pid: Pid, target: Account, funded: bool)
    requires WellKeyed(v) && AllStakersOk(v)
    ensures var r := ClaimRewards(v, who, pid, target, funded);
      && r != Panic && r != Diverge
      && (r.Ok? ==>
            && AllStakersOk(r.value) && ClaimedOnly(v, r.value, pid))
  {
    hide Mul, Paid, ClaimedOnly;
    if pid in v.pools {
      var pool, known := v.pools[pid], (pid, who) in v.stakers;
      assert known ==> StakerOk(pool, v.stakers[(pid, who)]);
      var user := if known then SettleReward(pool, v.stakers[(pid, who)]).value else NewStaker(who);
      PaidKeeps(v, pid, who, if who == pool.owner then pool.(ownerReward := 0) else pool,
        user.(availableRewards := 0), target,
                user.availableRewards + if who == pool.owner then pool.ownerReward else 0);
    }
  }

  /** What a claim may change. */
  ghost predicate ClaimedOnly(v: Store, v': Store, pid: Pid) {
    && v' == v.(pools := v'.pools, stakers := v'.stakers, free := v'.free, audits := v'.audits)
    && pid in v.pools && pid in v'.pools
    && v'.pools == v.pools[pid := v.pools[pid].(ownerReward := v'.pools[pid].ownerReward)]
    && v'.stakers.Keys == v.stakers.Keys
    && (forall k :: k in v.stakers ==> v'.stakers[k].user == v.stakers[k].user)
    && (forall k :: k in v.stakers ==> v'.stakers[k].shares == v.stakers[k].shares)
  }

  /** Claiming pays what was owed and keeps the books; it never panics. */
  lemma ClaimKeeps(v: Store, who: Account, pid: Pid, target: Account, funded: bool, staked: map<Pid, nat>)
    requires Sound(v, staked)
    ensures var r := ClaimRewards(v, who, pid, target, funded);
      && r != Panic && r != Diverge
      && (r.Ok? ==> Sound(r.value, staked) && ClaimedOnly(v, r.value, pid))
  {
    hide ClaimRewards, AllStakersOk, AllSolvent, AllCovered, WellKeyed, SharesAgree, AllBacked;
    ClaimEffects(v, who, pid, target, funded);
    var r := ClaimRewards(v, who, pid, target, funded);
    if r.Ok? {
      ClaimKeepsSolvent(v, who, pid, target, funded);
      ClaimKeepsCovered(v, who, pid, target, funded);
      RewardsAreNoStake(v, r.value, pid, staked);
    }
  }

  // ---------------------------------------------------------------- prices

  ghost function ValuesIn(stakers: map<Key, UserStakeInfo>, pid: Pid, price: Bits): map<Key, int> {
    map k | k in stakers && k.0 == pid :: Mul(stakers[k].shares, price)
  }

  lemma {:induction false} ValuesAdd<K>(shares: map<K, int>, values: map<K, int>, price: Bits)
    requires shares.Keys == values.Keys
    requires forall k :: k in shares ==> shares[k] >= 0 && values[k] == Mul(shares[k], price)
    ensures Sum(shares) >= 0 && Sum(values) <= Mul(Sum(shares), price)
    decreases |shares|
  {
    hide *;
    SumNonNegative(shares);
    if shares == map[] {
      SumEmpty(shares);
      SumEmpty(values);
    } else {
      var k :| k in shares;
      SumRemove(shares, k);
      SumRemove(values, k);
      ValuesAdd(shares - {k}, values - {k}, price);
      MulSuperadditive(shares[k], Sum(shares - {k}), price);
    }
  }

  /** All shares at the price of one are worth no more than the stake, floors included. */
  lemma PriceIsFair(pool: PoolInfo)
    requires SharePrice(pool).Some?
    ensures Mul(pool.totalShares, SharePrice(pool).value) <= pool.totalStake
  {
    var s, t := ToFixed(pool.totalStake), ToFixed(pool.totalShares);
    var price := FixDiv(s, t);
    DivBounds(s * ONE, t);
    assert price * t == t * price;
    DivAtMost(t * price, ONE, s);
    FromFixedMono(FixMul(t, price), s);
  }

  /** Paying every staker out at the share price takes no more than the pool's stake. */
  lemma SharesNeverOverdraw(v: Store, pid: Pid)
    requires SharesAgree(v) && pid in v.pools && SharePrice(v.pools[pid]).Some?
    ensures Sum(ValuesIn(v.stakers, pid, SharePrice(v.pools[pid]).value)) <= v.pools[pid].totalStake
  {
    var price := SharePrice(v.pools[pid]).value;
    ValuesAdd(SharesIn(v.stakers, pid), ValuesIn(v.stakers, pid, price), price);
    PriceIsFair(v.pools[pid]);
  }

  // ---------------------------------------------------------------- what a pool owes

  function Claimable(user: UserStakeInfo, acc: Bits): int {
    user.availableRewards + (Mul(user.shares, acc) - user.rewardDebt)
  }

  ghost function ClaimableIn(stakers: map<Key, UserStakeInfo>, pid: Pid, acc: Bits): map<Key, int> {
    map k | k in stakers && k.0 == pid :: Claimable(stakers[k], acc)
  }

  lemma ClaimableAtMostHeld(user: UserStakeInfo, acc: Bits)
    ensures Worth(Claimable(user, acc)) <= Held(user, acc)
  {
    MulClose(user.shares, acc);
  }

  /**
    What a pool has paid, owes its owner and owes its stakers, credited or pending, is at most
    the rewards it received plus two pico for every change of somebody's shares.
  */
  lemma RewardsNeverOverdraw(v: Store, pid: Pid)
    requires AllSolvent(v) && pid in v.pools
    ensures var pool, audit := v.pools[pid], AuditOf(v, pid);
      audit.paid + pool.ownerReward + Sum(ClaimableIn(v.stakers, pid, pool.rewardAcc))
      <= audit.received + 2 * audit.changes
  {
    var pool, audit := v.pools[pid], AuditOf(v, pid);
    var claims, held := ClaimableIn(v.stakers, pid, pool.rewardAcc), HeldIn(v.stakers, pid, pool.rewardAcc);
    hide Held, Claimable, Worth;
    var worth := map k | k in claims :: Worth(claims[k]);
    forall k | k in claims ensures worth[k] <= held[k] {
      ClaimableAtMostHeld(v.stakers[k], pool.rewardAcc);
    }
    SumMono(worth, held);
    SumOfWorths(worth, claims);
    assert Solvent(v, pid);
    WorthAdds(audit.paid + pool.ownerReward, Sum(claims));
    WorthAdds(audit.received, 2 * audit.changes);
    WorthOrders(audit.paid + pool.ownerReward + Sum(claims), audit.received + 2 * audit.changes);
  }

  lemma SumOfWorths<K>(worth: map<K, int>, m: map<K, int>)
    requires worth.Keys == m.Keys && forall k :: k in m ==> worth[k] == Worth(m[k])
    ensures Sum(worth) == Worth(Sum(m))
  {
    SumScale(worth, m, WIDTH);
  }

  lemma WorthOrders(a: int, b: int)
    requires Worth(a) <= Worth(b)
    ensures a <= b
  {
  }
}
