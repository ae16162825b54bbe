/** Pools of bounded size compute on 128-bit numbers exactly what the functions compute on unbounded ones. */
module MachineLaws {
  import opened Base
  import opened FixedPoint
  import opened Pool
  import opened PoolLaws
  import opened Vault
  import opened VaultLaws
  import opened RewardLaws
  import opened Chain
  import opened ChainLaws
  import opened StepLaws
  import opened RunLaws

  /** 2^62 pico, 4.6 million tokens: a bound on a pool's stake and shares below which nothing overflows. */
  const BOUND: nat := 0x4000_0000_0000_0000

  /** `share_price` on 128 bits: a conversion panics past 2^64 and a quotient past the width is no price. */
  function MachineSharePrice(pool: PoolInfo): Outcome<Option<Bits>> {
    if pool.totalStake >= ONE || pool.totalShares >= ONE then Panic
    else if ToFixed(pool.totalShares) == 0 then Ok(None)
    else
      var price := FixDiv(ToFixed(pool.totalStake), ToFixed(pool.totalShares));
      Ok(if price < WIDTH then Some(price) else None)
  }

  predicate Bounded(pool: PoolInfo) {
    pool.totalStake < BOUND && pool.totalShares < BOUND
  }

  lemma PriceFits(pool: PoolInfo)
    requires Bounded(pool)
    ensures MachineSharePrice(pool) == Ok(SharePrice(pool))
  {
    var s, t := ToFixed(pool.totalStake), ToFixed(pool.totalShares);
    if t > 0 {
      ToFixedPositive(pool.totalShares);
      ToFixedMono(1, pool.totalShares);
      ToFixedMono(pool.totalStake, BOUND);
      assert ToFixed(1) == 18446744;
      MulMono(18446744, t, WIDTH - 1);
      DivAtMost(s * ONE, t, WIDTH - 1);
    }
  }

  /** Any shares of the pool are worth a number of 64 bits. */
  lemma WorthFits(pool: PoolInfo, shares: nat)
    requires Bounded(pool) && SharePrice(pool).Some? && shares <= pool.totalShares
    ensures MachineMul(shares, SharePrice(pool).value) == Value(Mul(shares, SharePrice(pool).value))
  {
    var price := SharePrice(pool).value;
    PriceIsFair(pool);
    MulIsMonotone(shares, pool.totalShares, price, price);
    MachineMulExact(shares, price);
    hide Mul, MachineMul, SharePrice;
  }

  /** Any stake of the pool buys, at the floored price, at most twice the shares there are. */
  lemma StakeBuysAtMost(pool: PoolInfo, stake: nat)
    requires SharePrice(pool).Some? && SharePrice(pool).value > 0 && stake <= pool.totalStake
    ensures Div(stake, SharePrice(pool).value) <= 2 * pool.totalShares
  {
    var price, s, t := SharePrice(pool).value, ToFixed(pool.totalStake), ToFixed(pool.totalShares);
    DivBounds(s * ONE, t);
    MulDistributes(price, 1, t);
    MulMono(1, price, t);
    assert 2 * t * price == price * t + price * t;
    DivAtMost(s * ONE, price, 2 * t);
    DivIsMonotone(stake, pool.totalStake, price);
    assert FixDiv(s, price) <= 2 * t;
    FromFixedMono(FixDiv(s, price), 2 * t);
    TwiceFloored(pool.totalShares);
  }

  lemma TwiceFloored(shares: nat)
    ensures FromFixed(2 * ToFixed(shares)) <= 2 * shares
  {
  }

  lemma FreeSharesFit(pool: PoolInfo, stake: nat)
    requires Bounded(pool) && SharePrice(pool).Some? && SharePrice(pool).value > 0 && stake <= pool.totalStake
    ensures MachineDiv(stake, SharePrice(pool).value) == Value(Div(stake, SharePrice(pool).value))
  {
    StakeBuysAtMost(pool, stake);
    MachineDivExact(stake, SharePrice(pool).value);
    hide Div, MachineDiv, SharePrice;
  }

  /** The shares sold to a contributor are exact if the pool is still within the bound with them. */
  lemma SoldSharesFit(d: Desk, amount: nat)
    requires SharePrice(d.pool).Some? && SharePrice(d.pool).value > 0 && Bounded(Deposit(d, amount).pool)
    ensures MachineDiv(amount, SharePrice(d.pool).value) == Value(SharesFor(d.pool, amount))
  {
    MachineDivExact(amount, SharePrice(d.pool).value);
    hide Div, Mul, MachineDiv, SharePrice;
  }

  /** The rewards of all stakers fit as soon as those of all shares together would. */
  lemma RewardsFit(pool: PoolInfo, shares: nat)
    requires shares <= pool.totalShares < ONE && Mul(pool.totalShares, pool.rewardAcc) < ONE
    ensures MachineMul(shares, pool.rewardAcc) == Value(Mul(shares, pool.rewardAcc))
  {
    MulIsMonotone(shares, pool.totalShares, pool.rewardAcc, pool.rewardAcc);
    MachineMulExact(shares, pool.rewardAcc);
    hide Mul, MachineMul;
  }

  lemma StakerWithin(v: Store, pid: Pid, who: Account)
    requires WellKeyed(v) && SharesAgree(v) && pid in v.pools
    ensures StakerOf(v, pid, who).shares <= v.pools[pid].totalShares
  {
    if (pid, who) in v.stakers {
      ShareAtMostTotal(v, pid, who);
    }
  }

  /** A positive price means that what is free is part of the pool's stake. */
  lemma FreeWithinTotal(pool: PoolInfo, staked: nat)
    requires Backed(pool, staked) && SharePrice(pool).Some? && SharePrice(pool).value > 0
    ensures pool.freeStake <= pool.totalStake
  {
  }

  /**
    After every admissible run from the empty chain: a pool within the bound prices its shares, values
    every staker's, and tells what its free stake buys, as if numbers had no width; and so are rewards,
    while those of all shares together are below 2^64.
  */
  lemma EveryRunFits(now: nat, moves: seq<Move>, pid: Pid, who: Account)
    requires AdmissibleRun(Genesis(now), moves) && pid in Run(Genesis(now), moves).v.pools
    requires Bounded(Run(Genesis(now), moves).v.pools[pid])
    ensures var v := Run(Genesis(now), moves).v;
      var pool, shares := v.pools[pid], StakerOf(v, pid, who).shares;
      && MachineSharePrice(pool) == Ok(SharePrice(pool))
      && (SharePrice(pool).Some? ==>
            MachineMul(shares, SharePrice(pool).value) == Value(Mul(shares, SharePrice(pool).value)))
      && (SharePrice(pool).Some? && SharePrice(pool).value > 0 ==>
            MachineDiv(pool.freeStake, SharePrice(pool).value) == Value(Div(pool.freeStake, SharePrice(pool).value)))
      && (Mul(pool.totalShares, pool.rewardAcc) < ONE ==>
            MachineMul(shares, pool.rewardAcc) == Value(Mul(shares, pool.rewardAcc)))
  {
    hide *;
    EveryRunKeeps(now, moves);
    var c := Run(Genesis(now), moves);
    InvParts(c);
    SoundParts(c.v, StakedMap(c));
    var pool := c.v.pools[pid];
    SoundBacks(c.v, StakedMap(c), pid);
    StakerWithin(c.v, pid, who);
    PriceFits(pool);
    if SharePrice(pool).Some? {
      WorthFits(pool, StakerOf(c.v, pid, who).shares);
      if SharePrice(pool).value > 0 {
        FreeWithinTotal(pool, Get(StakedMap(c), pid));
        FreeSharesFit(pool, pool.freeStake);
      }
    }
    BoundIs(pool);
    if Mul(pool.totalShares, pool.rewardAcc) < ONE {
      RewardsFit(pool, StakerOf(c.v, pid, who).shares);
    }
  }

  lemma BoundIs(pool: PoolInfo)
    requires Bounded(pool)
    ensures pool.totalShares < ONE
  {
  }
}
