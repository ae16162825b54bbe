/** Where rewards go: to the owner its commission, to every staker its part, and to who claims them all of it. */
module RewardEffects {
  import opened Base
  import opened FixedPoint
  import opened Sums
  import opened Pool
  import opened PoolLaws
  import opened Vault
  import opened VaultLaws
  import opened RewardLaws
  import opened PriceLaws

  // ---------------------------------------------------------------- a reward

  /** The owner's part: none if no commission is set, else the `Permill` product. */
  function OwnersPart(pool: PoolInfo, rewards: nat, permill: Permill): (part: nat)
    ensures part <= rewards
  {
    if pool.payoutCommission.None? then 0 else Min(permill(pool.payoutCommission.value, rewards), rewards)
  }

  /**
    A pool is credited a reward: with shares past dust, its owner earns exactly the commission, and the accumulator
    makes the greatest step that the rest pays for on all shares, if the rest is past dust. Otherwise nothing moves.
  */
  ghost predicate Credited(v: Store, v': Store, pid: Pid, rewards: nat, permill: Permill) {
    && pid in v.pools && pid in v'.pools && v' == v.(pools := v.pools[pid := v'.pools[pid]], audits := v'.audits)
    && OnlyRewards(v.pools[pid], v'.pools[pid])
    && var pool, pool' := v.pools[pid], v'.pools[pid];
       var part := OwnersPart(pool, rewards, permill);
       var earns := pool.totalShares > 1000 && rewards > 0;
       && pool'.ownerReward == pool.ownerReward + (if earns then part else 0)
       && if earns && rewards - part > 1000
          then IsStep(pool.totalShares, rewards - part, pool'.rewardAcc - pool.rewardAcc)
          else pool'.rewardAcc == pool.rewardAcc
  }

  /** The greatest step of the accumulator that a reward pays for on all shares. */
  predicate IsStep(totalShares: nat, rewards: nat, step: int) {
    step >= 0 && step * ToFixed(totalShares) <= ToFixed(rewards) * ONE < (step + 1) * ToFixed(totalShares)
  }

  lemma NewRewardReaches(pool: PoolInfo, rewards: nat, part: nat)
    requires part <= rewards
    ensures var pool' := NewReward(pool, rewards, part);
      var earns := pool.totalShares > 1000 && rewards > 0;
      && OnlyRewards(pool, pool') && pool'.ownerReward == pool.ownerReward + (if earns then part else 0)
      && if earns && rewards - part > 1000
         then IsStep(pool.totalShares, rewards - part, pool'.rewardAcc - pool.rewardAcc)
         else pool'.rewardAcc == pool.rewardAcc
  {
    if pool.totalShares > 1000 {
      ToFixedPositive(pool.totalShares);
      DivBounds(ToFixed(rewards - part) * ONE, ToFixed(pool.totalShares));
    }
  }

  lemma CreditReaches(v: Store, pid: Pid, rewards: nat, permill: Permill)
    requires pid in v.pools
    ensures Credited(v, Credit(v, pid, rewards, permill), pid, rewards, permill)
  {
    hide NewReward, IsStep;
    NewRewardReaches(v.pools[pid], rewards, OwnersPart(v.pools[pid], rewards, permill));
  }

  /** A round of rewards credits the workers' pools one after the other, up to the first worker without a pool. */
  lemma {:induction false} RewardsInTurn(v: Store, settle: seq<SettleInfo>, permill: Permill) returns (vs: seq<Store>)
    requires OnReward(v, settle, permill).Ok?
    ensures var k := FirstUnassigned(settle, v.assignments);
      && |vs| == k + 1 && vs[0] == v && vs[k] == OnReward(v, settle, permill).value
      && forall i {:trigger vs[i]} :: 0 <= i < k ==>
           Credited(vs[i], vs[i + 1], v.assignments[settle[i].pubkey], FromFixed(settle[i].payout), permill)
    decreases |settle|
  {
    hide Credit, Credited;
    if settle == [] || settle[0].pubkey !in v.assignments {
      vs := [v];
    } else {
      var pid, rewards := v.assignments[settle[0].pubkey], FromFixed(settle[0].payout);
      var v1 := Credit(v, pid, rewards, permill);
      CreditReaches(v, pid, rewards, permill);
      CreditOnlyCredits(v, pid, rewards, permill);
      var rest := RewardsInTurn(v1, settle[1..], permill);
      vs := [v] + rest;
      forall i {:trigger vs[i]} | 0 <= i < FirstUnassigned(settle, v.assignments)
        ensures Credited(vs[i], vs[i + 1], v.assignments[settle[i].pubkey], FromFixed(settle[i].payout), permill)
      {
        if i > 0 {
          assert vs[i] == rest[i - 1] && vs[i + 1] == rest[i - 1 + 1] && settle[i] == settle[1..][i - 1];
        }
      }
    }
  }

  // ---------------------------------------------------------------- what the stakers can claim of it

  /** Every staker can claim its part of the step more, but for 2 pico; nobody's claim changes without a step. */
  lemma StakersEarn(v: Store, v': Store, pid: Pid, rewards: nat, permill: Permill, who: Account)
    requires Credited(v, v', pid, rewards, permill) && (pid, who) in v.stakers
    ensures var user, step := v.stakers[(pid, who)], v'.pools[pid].rewardAcc - v.pools[pid].rewardAcc;
      var claim, claim' := Claimable(user, v.pools[pid].rewardAcc), Claimable(user, v'.pools[pid].rewardAcc);
      && step >= 0 && (step == 0 ==> claim' == claim) && claim' >= claim
      && Scaled(step * SCALE, ToFixed(user.shares)) < Worth(claim' - claim + 2)
  {
    var acc, acc' := v.pools[pid].rewardAcc, v'.pools[pid].rewardAcc;
    StepNonNegative(v, v', pid, rewards, permill);
    DistributionReaches(v.stakers[(pid, who)], acc, acc' - acc);
    MulIsMonotone(v.stakers[(pid, who)].shares, v.stakers[(pid, who)].shares, acc, acc');
    hide Mul, Worth, Scaled, Credited;
  }

  lemma StepNonNegative(v: Store, v': Store, pid: Pid, rewards: nat, permill: Permill)
    requires Credited(v, v', pid, rewards, permill)
    ensures pid in v.pools && pid in v'.pools
    ensures v'.pools[pid].rewardAcc >= v.pools[pid].rewardAcc && v'.stakers == v.stakers
    ensures v'.pools[pid].totalShares == v.pools[pid].totalShares
  {
  }

  /** Converting shares one by one loses less than a bit each. */
  lemma {:induction false} FixedSumAtLeast<K>(shares: map<K, int>, fixed: map<K, int>)
    requires shares.Keys == fixed.Keys
    requires forall k :: k in shares ==> shares[k] >= 0 && fixed[k] == ToFixed(shares[k])
    ensures Sum(shares) >= 0 && Sum(fixed) + |shares.Keys| >= ToFixed(Sum(shares))
    decreases |shares|
  {
    hide *;
    SumNonNegative(shares);
    if shares == map[] {
      SumEmpty(shares);
      SumEmpty(fixed);
      NothingFixed();
    } else {
      var k :| k in shares;
      SumRemove(shares, k);
      SumRemove(fixed, k);
      FixedSumAtLeast(shares - {k}, fixed - {k});
      assert (shares - {k}).Keys == shares.Keys - {k};
      ToFixedSubadditive(shares[k], Sum(shares - {k}));
    }
  }

  lemma NothingFixed()
    ensures ToFixed(0) == 0
  {
  }

  lemma ToFixedSubadditive(x: nat, y: nat)
    ensures ToFixed(x + y) <= ToFixed(x) + ToFixed(y) + 1
  {
  }

  /** The stakers of a pool. */
  ghost function StakersIn(stakers: map<Key, UserStakeInfo>, pid: Pid): set<Key> {
    set k | k in stakers && k.0 == pid
  }

  lemma StakersAre(stakers: map<Key, UserStakeInfo>, pid: Pid, acc: Bits)
    ensures ClaimableIn(stakers, pid, acc).Keys == StakersIn(stakers, pid)
    ensures FixedIn(stakers, pid).Keys == SharesIn(stakers, pid).Keys == StakersIn(stakers, pid)
  {
    hide Claimable, ToFixed;
  }

  lemma StakerEntries(stakers: map<Key, UserStakeInfo>, pid: Pid, acc: Bits, k: Key)
    requires k in StakersIn(stakers, pid)
    ensures k in ClaimableIn(stakers, pid, acc) && k in FixedIn(stakers, pid) && k in stakers
    ensures ClaimableIn(stakers, pid, acc)[k] == Claimable(stakers[k], acc)
    ensures FixedIn(stakers, pid)[k] == ToFixed(stakers[k].shares)
  {
    hide Claimable, ToFixed;
  }

  /** The claims' sum grows by all the parts, but for 2 pico a staker. */
  lemma ClaimsGrow(stakers: map<Key, UserStakeInfo>, pid: Pid, acc: Bits, step: nat)
    ensures Scaled(step * SCALE, Sum(FixedIn(stakers, pid))) <=
      Worth(Sum(ClaimableIn(stakers, pid, acc + step)) - Sum(ClaimableIn(stakers, pid, acc)) +
            2 * |StakersIn(stakers, pid)|)
  {
    hide *;
    var before, after := ClaimableIn(stakers, pid, acc), ClaimableIn(stakers, pid, acc + step);
    var fixed := FixedIn(stakers, pid);
    StakersAre(stakers, pid, acc);
    StakersAre(stakers, pid, acc + step);
    var parts := map k | k in fixed :: Scaled(step * SCALE, fixed[k]);
    var gains := map k | k in fixed :: after[k] - before[k] + 2;
    var worths := map k | k in fixed :: Worth(gains[k]);
    forall k | k in parts ensures parts[k] <= worths[k] {
      StakerEntries(stakers, pid, acc, k);
      StakerEntries(stakers, pid, acc + step, k);
      DistributionReaches(stakers[k], acc, step);
    }
    SumMono(parts, worths);
    SumScale(parts, fixed, step * SCALE);
    SumOfWorths(worths, gains);
    GainsAdd(before, after, gains);
  }

  lemma {:induction false} GainsAdd<K>(before: map<K, int>, after: map<K, int>, gains: map<K, int>)
    requires before.Keys == after.Keys == gains.Keys
    requires forall k :: k in gains ==> gains[k] == after[k] - before[k] + 2
    ensures Sum(gains) == Sum(after) - Sum(before) + 2 * |gains.Keys|
    decreases |gains|
  {
    hide *;
    if gains == map[] {
      SumEmpty(before);
      SumEmpty(after);
      SumEmpty(gains);
    } else {
      var k :| k in gains;
      SumRemove(before, k);
      SumRemove(after, k);
      SumRemove(gains, k);
      GainsAdd(before - {k}, after - {k}, gains - {k});
      assert (gains - {k}).Keys == gains.Keys - {k};
    }
  }

  /**
    Together the stakers can claim the whole rest of the reward more, but for 2 pico each and the rounding of the
    step and of the shares: as long as those are less than a pico, at least the rest less 2 pico a staker.
  */
  lemma RewardReachesStakers(v: Store, v': Store, pid: Pid, rewards: nat, permill: Permill)
    requires Credited(v, v', pid, rewards, permill) && SharesAgree(v) && v.pools[pid].totalShares > 1000
    requires rewards - OwnersPart(v.pools[pid], rewards, permill) > 1000
    ensures var pool, step := v.pools[pid], v'.pools[pid].rewardAcc - v.pools[pid].rewardAcc;
      var rest, n := rewards - OwnersPart(pool, rewards, permill), |StakersIn(v.stakers, pid)|;
      var gain := Sum(ClaimableIn(v.stakers, pid, v'.pools[pid].rewardAcc)) -
                  Sum(ClaimableIn(v.stakers, pid, pool.rewardAcc));
      && Worth(rest) < Worth(gain + 2 * n) + SCALE * (ToFixed(pool.totalShares) + step * n + ONE)
      && (SCALE * (ToFixed(pool.totalShares) + step * n + ONE) <= WIDTH ==> gain >= rest - 2 * n)
  {
    hide *;
    StepNonNegative(v, v', pid, rewards, permill);
    var pool, step := v.pools[pid], v'.pools[pid].rewardAcc - v.pools[pid].rewardAcc;
    var rest, n := rewards - OwnersPart(pool, rewards, permill), |StakersIn(v.stakers, pid)|;
    StepIs(v, v', pid, rewards, permill);
    ClaimsGrow(v.stakers, pid, pool.rewardAcc, step);
    SharesFixed(v, pid);
    var gain := Sum(ClaimableIn(v.stakers, pid, v'.pools[pid].rewardAcc)) -
                Sum(ClaimableIn(v.stakers, pid, pool.rewardAcc));
    StepPays(pool.totalShares, rest, step, Sum(FixedIn(v.stakers, pid)), n, gain);
  }

  lemma StepIs(v: Store, v': Store, pid: Pid, rewards: nat, permill: Permill)
    requires Credited(v, v', pid, rewards, permill) && v.pools[pid].totalShares > 1000
    requires rewards - OwnersPart(v.pools[pid], rewards, permill) > 1000
    ensures IsStep(v.pools[pid].totalShares, rewards - OwnersPart(v.pools[pid], rewards, permill),
                   v'.pools[pid].rewardAcc - v.pools[pid].rewardAcc)
  {
    hide IsStep;
  }

  lemma SharesFixed(v: Store, pid: Pid)
    requires SharesAgree(v) && pid in v.pools
    ensures Sum(FixedIn(v.stakers, pid)) + |StakersIn(v.stakers, pid)| >= ToFixed(v.pools[pid].totalShares)
  {
    StakersAre(v.stakers, pid, 0);
    hide ToFixed, StakersIn;
    FixedSumAtLeast(SharesIn(v.stakers, pid), FixedIn(v.stakers, pid));
  }

  lemma StepPays(totalShares: nat, rest: nat, step: nat, fixed: int, n: nat, gain: int)
    requires IsStep(totalShares, rest, step) && fixed + n >= ToFixed(totalShares)
    requires Scaled(step * SCALE, fixed) <= Worth(gain + 2 * n)
    ensures Worth(rest) < Worth(gain + 2 * n) + SCALE * (ToFixed(totalShares) + step * n + ONE)
    ensures SCALE * (ToFixed(totalShares) + step * n + ONE) <= WIDTH ==> gain >= rest - 2 * n
  {
    var total := ToFixed(totalShares);
    MulMono(total, fixed + n, step);
    assert step * (fixed + n) == step * fixed + step * n;
    assert (step + 1) * total == step * total + total;
    assert ToFixed(rest) * ONE < step * fixed + step * n + total;
    assert Scaled(step * SCALE, fixed) == SCALE * (step * fixed);
    FixedIsClose(rest);
    RestIsPaid(rest, ToFixed(rest), step * fixed, step * n, total, gain + 2 * n);
  }

  lemma FixedIsClose(n: nat)
    ensures n * ONE < (ToFixed(n) + 1) * SCALE
  {
  }

  lemma RestIsPaid(rest: nat, bits: nat, paid: int, lost: int, total: nat, gain: int)
    requires rest * ONE < (bits + 1) * SCALE && bits * ONE < paid + lost + total && SCALE * paid <= Worth(gain)
    ensures Worth(rest) < Worth(gain) + SCALE * (total + lost + ONE)
    ensures SCALE * (total + lost + ONE) <= WIDTH ==> gain >= rest
  {
  }

  // ---------------------------------------------------------------- a claim

  /** When a claim is refused, and with which error. */
  lemma ClaimRefused(v: Store, who: Account, pid: Pid, target: Account, funded: bool)
    requires AllStakersOk(v)
    ensures var r := ClaimRewards(v, who, pid, target, funded);
      var due := if pid in v.pools then ClaimOf(v, pid, who) else 0;
      && (r.Err? <==> pid !in v.pools || due == 0 || !funded)
      && (r == Err(PoolDoesNotExist) <==> pid !in v.pools)
      && (r == Err(NoRewardToClaim) <==> pid in v.pools && due == 0)
      && (r == Err(InternalSubsidyPoolCannotWithdraw) <==> pid in v.pools && due != 0 && !funded)
      && (r.Err? || r.Ok?)
  {
    if pid in v.pools {
      NewStakerClaimsNothing(who, v.pools[pid].rewardAcc);
      if (pid, who) in v.stakers {
        assert StakerOk(v.pools[pid], v.stakers[(pid, who)]);
      }
    }
    hide Mul, Paid;
  }

  /** One that is not takes all that the account can claim, as owner and as staker, and nothing else. */
  lemma ClaimTakesAll(v: Store, who: Account, pid: Pid, target: Account, funded: bool)
    requires AllStakersOk(v) && ClaimRewards(v, who, pid, target, funded).Ok?
    ensures pid in v.pools
    ensures var v', pool := ClaimRewards(v, who, pid, target, funded).value, v.pools[pid];
      && v' == v.(pools := v'.pools, stakers := v'.stakers, free := v'.free, audits := v'.audits)
      && v'.pools == v.pools[pid := pool.(ownerReward := if who == pool.owner then 0 else pool.ownerReward)]
      && v'.free == v.free[target := Get(v.free, target) + ClaimOf(v, pid, who)]
      && if (pid, who) in v.stakers
         then v'.stakers == v.stakers[(pid, who) := v.stakers[(pid, who)].(
                availableRewards := 0, rewardDebt := Mul(v.stakers[(pid, who)].shares, pool.rewardAcc))]
         else v'.stakers == v.stakers
  {
    NewStakerClaimsNothing(who, v.pools[pid].rewardAcc);
    if (pid, who) in v.stakers {
      assert StakerOk(v.pools[pid], v.stakers[(pid, who)]);
    }
    hide Mul;
  }
}
