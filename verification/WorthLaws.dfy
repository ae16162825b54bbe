/**
  What calls do to the worth of everybody else's shares: it never falls but for a rounding, and rises
  by what a leaving staker leaves behind only. The comment at stakepool.rs:838, that the price does not change
  while the queue is served, holds in this sense.
*/
module WorthLaws {
  import opened Base
  import opened FixedPoint
  import opened Pool
  import opened Vault
  import opened CallLaws
  import opened PriceLaws

  /** The worth of shares at the price of a pool, as the bits that `mul` turns into a balance. */
  function ValueOf(pool: PoolInfo, shares: nat): Bits {
    match SharePrice(pool)
    case Some(price) => FixMul(ToFixed(shares), price)
    case None => 0
  }

  /** A bit for every unit of the price. */
  function PriceUnits(pool: PoolInfo): nat {
    match SharePrice(pool) case Some(price) => price / ONE case None => 0
  }

  /** The rounding of one operation: two bits, and one for every token's number of shares. */
  function Rounding(shares: nat): nat {
    shares / SCALE + 2
  }

  /** A bit is less than 10^-7 pico: below 2^62 shares the rounding of one operation takes a pico at most. */
  lemma RoundingIsSmall(a: Bits, b: Bits, shares: nat)
    requires a <= b + Rounding(shares) && shares < 0x4000_0000_0000_0000
    ensures FromFixed(a) <= FromFixed(b) + 1
  {
  }

  // ---------------------------------------------------------------- quotients

  /** If one price is not too high for other totals, theirs is at most a little below it. */
  lemma PriceFalls(p: Bits, s': Bits, t': Bits, e: nat)
    requires t' > 0 && p * t' <= s' * ONE + e
    ensures p * t' <= FixDiv(s', t') * t' + t' + e
  {
    DivBounds(s' * ONE, t');
  }

  /** What shares lose by it, for any part `n` of the total. */
  lemma ValueFalls(n: Bits, p: Bits, p': Bits, t': Bits, e: nat)
    requires n <= t' && t' > 0 && p * t' <= p' * t' + t' + e
    ensures n * p <= n * p' + n + e
  {
    if p > p' {
      var gap := p - p';
      assert gap * t' <= t' + e by { MulDistributes(p', gap, t'); }
      if gap >= 1 {
        // (gap - 1) * n <= (gap - 1) * t' <= e
        MulMono(n, t', gap - 1);
        assert (gap - 1) * t' == gap * t' - t';
      }
      assert n * gap == n + (gap - 1) * n;
      assert n * p == n * p' + n * gap;
    } else {
      MulMono(p, p', n);
    }
  }

  lemma FloorsFall(a: nat, b: nat, n: nat, e: nat)
    requires a <= b + n + e
    ensures a / ONE <= b / ONE + (n + e) / ONE + 1
  {
  }

  lemma SharesInTokens(shares: nat)
    ensures ToFixed(shares) / ONE <= shares / SCALE
  {
    var n := ToFixed(shares);
    DivBounds(shares * ONE, SCALE);
    DivBounds(n, ONE);
    var q := n / ONE;
    assert q * ONE * SCALE <= shares * ONE;
    assert q * SCALE <= shares;
    DivAtLeast(shares, SCALE, q);
  }

  /** Both together: the value of shares at the new totals. */
  lemma ValueKept(pool: PoolInfo, pool': PoolInfo, shares: nat, e: nat)
    requires SharePrice(pool).Some? && shares <= pool'.totalShares && pool'.totalShares > 0
    requires SharePrice(pool).value * ToFixed(pool'.totalShares) <= ToFixed(pool'.totalStake) * ONE + e
    ensures ValueOf(pool, shares) <= ValueOf(pool', shares) + (ToFixed(shares) + e) / ONE + 1
  {
    ToFixedPositive(pool'.totalShares);
    ToFixedMono(shares, pool'.totalShares);
    var p, n, s', t' := SharePrice(pool).value, ToFixed(shares), ToFixed(pool'.totalStake), ToFixed(pool'.totalShares);
    PriceFalls(p, s', t', e);
    ValueFalls(n, p, FixDiv(s', t'), t', e);
    FloorsFall(n * p, n * FixDiv(s', t'), n, e);
  }

  // ---------------------------------------------------------------- sums of floors

  lemma ToFixedSum(x: nat, y: nat)
    ensures ToFixed(x) + ToFixed(y) <= ToFixed(x + y) <= ToFixed(x) + ToFixed(y) + 1
  {
  }

  lemma ThereAndBack(b: Bits)
    ensures ToFixed(FromFixed(b)) <= b < ToFixed(FromFixed(b)) + ONE / SCALE + 3
  {
  }

  // ---------------------------------------------------------------- a contribution

  /** What a contribution does to the price, in the totals. */
  lemma DepositTotals(pool: PoolInfo, amount: nat)
    requires SharePrice(pool).Some? && SharePrice(pool).value > 0
    ensures var p, shares := SharePrice(pool).value, SharesFor(pool, amount);
      p * ToFixed(pool.totalShares + shares) <= ToFixed(pool.totalStake + amount) * ONE + p
  {
    var p, shares := SharePrice(pool).value, SharesFor(pool, amount);
    ToFixedSum(pool.totalShares, shares);
    ToFixedSum(pool.totalStake, amount);
    ThereAndBack(FixDiv(ToFixed(amount), p));
    DivBounds(ToFixed(pool.totalStake) * ONE, ToFixed(pool.totalShares));
    DivBounds(ToFixed(amount) * ONE, p);
    var s, t, x, f := ToFixed(pool.totalStake), ToFixed(pool.totalShares), ToFixed(amount), ToFixed(shares);
    hide ToFixed, FromFixed;
    SoldTotals(p, s * ONE, t, x * ONE, f, FixDiv(x, p), ToFixed(pool.totalShares + shares));
  }

  lemma SoldTotals(p: Bits, so: nat, t: Bits, xo: nat, f: Bits, q: Bits, t': Bits)
    requires p * t <= so && q * p <= xo && f <= q && t' <= t + f + 1
    ensures p * t' <= so + xo + p
  {
    MulMono(f, q, p);
    MulMono(t', t + f + 1, p);
    MulDistributes(t + f, 1, p);
    MulDistributes(t, f, p);
  }

  /** A contribution takes nothing from anybody's shares but the rounding and a bit for every unit of the price. */
  lemma DepositKeepsValue(d: Desk, amount: nat, shares: nat)
    requires shares <= d.pool.totalShares
    ensures ValueOf(d.pool, shares) <=
      ValueOf(Deposit(d, amount).pool, shares) + Rounding(shares) +
      PriceUnits(d.pool)
  {
    var pool' := Deposit(d, amount).pool;
    match SharePrice(d.pool)
    case None =>
    case Some(price) =>
      if price > 0 {
        DepositTotals(d.pool, amount);
        ToFixedPositive(d.pool.totalShares);
        ValueKept(d.pool, pool', shares, price);
        SharesInTokens(shares);
        SumOfQuotients(ToFixed(shares), price);
      }
  }

  lemma SumOfQuotients(a: nat, b: nat)
    ensures (a + b) / ONE <= a / ONE + b / ONE + 1
  {
  }

  // ---------------------------------------------------------------- a release

  /** What a payable release does to the price, in the totals, while more than dust stays. */
  lemma ReleaseTotals(total: nat, stake: nat, p: Bits, shares: nat, paid: nat, rest: nat)
    requires p * ToFixed(total) <= ToFixed(stake) * ONE
    requires paid <= Mul(shares, p) && paid <= stake && rest + shares <= total
    ensures p * ToFixed(rest) <= ToFixed(stake - paid) * ONE + ONE
  {
    var s, t, f, s', t' := ToFixed(stake), ToFixed(total), ToFixed(shares), ToFixed(stake - paid), ToFixed(rest);
    var m := FixMul(f, p);
    ToFixedSum(rest, shares);
    ToFixedMono(rest + shares, total);
    ToFixedSum(stake - paid, paid);
    ToFixedMono(paid, Mul(shares, p));
    ThereAndBack(m);
    DivBounds(f * p, ONE);
    hide ToFixed, FromFixed;
    MulMono(t' + f, t, p);
    MulDistributes(t', f, p);
    assert m * ONE <= f * p;
  }

  /** The pool after a release, by what was paid and by the shares that went with those released. */
  predicate ReleasedTo(pool: PoolInfo, pool': PoolInfo, shares: nat, paid: nat) {
    && paid <= pool.totalStake && pool'.totalShares + shares <= pool.totalShares
    && pool'.totalStake == if Nondust(pool.totalStake - paid) then pool.totalStake - paid else 0
  }

  lemma ReleasePaysAtMost(d: Desk, shares: nat, slash: Slasher) returns (paid: nat)
    requires Release(d, shares, slash).Ok?
    ensures SharePrice(d.pool).Some? && paid <= Mul(shares, SharePrice(d.pool).value)
    ensures ReleasedTo(d.pool, Release(d, shares, slash).value.pool, shares, paid)
  {
    hide Mul, SharePrice;
    paid := Min(Min(Mul(shares, SharePrice(d.pool).value), d.pool.freeStake), SettleSlash(d, slash).user.locked);
  }

  lemma PriceTotals(pool: PoolInfo)
    requires SharePrice(pool).Some?
    ensures SharePrice(pool).value * ToFixed(pool.totalShares) <= ToFixed(pool.totalStake) * ONE
    ensures pool.totalShares > 0
  {
    DivBounds(ToFixed(pool.totalStake) * ONE, ToFixed(pool.totalShares));
    ToFixedPositive(pool.totalShares);
  }

  /** Shares keep their value but for a loss, or the pool is left without stake and they were worth dust. */
  predicate ValueKeptBy(pool: PoolInfo, pool': PoolInfo, shares: nat, loss: nat) {
    || ValueOf(pool, shares) <= ValueOf(pool', shares) + loss
    || (pool'.totalStake == 0 && ValueOf(pool, shares) <= ToFixed(DUST) + 1 + loss)
  }

  lemma DustValue(total: nat, stake: nat, p: Bits, shares: nat)
    requires p * ToFixed(total) <= ToFixed(stake) * ONE + ONE && stake <= DUST && shares <= total
    ensures FixMul(ToFixed(shares), p) <= ToFixed(DUST) + 1
  {
    ToFixedMono(shares, total);
    ToFixedMono(stake, DUST);
    hide ToFixed;
    MulMono(ToFixed(shares), ToFixed(total), p);
    DivAtMost(ToFixed(shares) * p, ONE, ToFixed(DUST) + 1);
  }

  lemma ReleasedKeepsValue(pool: PoolInfo, pool': PoolInfo, taken: nat, paid: nat, shares: nat)
    requires SharePrice(pool).Some? && paid <= Mul(taken, SharePrice(pool).value)
    requires ReleasedTo(pool, pool', taken, paid) && shares <= pool'.totalShares
    ensures ValueKeptBy(pool, pool', shares, Rounding(shares))
  {
    var p := SharePrice(pool).value;
    PriceTotals(pool);
    ReleaseTotals(pool.totalShares, pool.totalStake, p, taken, paid, pool'.totalShares);
    if Nondust(pool.totalStake - paid) {
      if pool'.totalShares > 0 {
        ValueKept(pool, pool', shares, ONE);
        SharesInTokens(shares);
        OneMore(ToFixed(shares));
      } else {
        MulByZero(p);
        assert ValueOf(pool, shares) == 0;
      }
    } else {
      DustValue(pool'.totalShares, pool.totalStake - paid, p, shares);
    }
    hide SharePrice, Mul, ToFixed;
  }

  lemma OneMore(a: nat)
    ensures (a + ONE) / ONE == a / ONE + 1
  {
  }

  /** Taking shares out takes nothing from the others' but the rounding. */
  lemma ReleaseKeepsValue(d: Desk, taken: nat, slash: Slasher, shares: nat)
    requires Release(d, taken, slash).Ok? && shares <= Release(d, taken, slash).value.pool.totalShares
    ensures ValueKeptBy(d.pool, Release(d, taken, slash).value.pool, shares, Rounding(shares))
  {
    hide Release, ValueKeptBy, SharePrice, Mul, ReleasedTo;
    var paid := ReleasePaysAtMost(d, taken, slash);
    ReleasedKeepsValue(d.pool, Release(d, taken, slash).value.pool, taken, paid, shares);
  }

  // ---------------------------------------------------------------- and how far it can rise

  // The bits of one pico, and the floors on the way.
  const PICO_BITS: nat := ONE / SCALE + 3

  lemma PriceAbove(pool: PoolInfo)
    requires SharePrice(pool).Some?
    ensures ToFixed(pool.totalStake) * ONE < (SharePrice(pool).value + 1) * ToFixed(pool.totalShares)
  {
    DivBounds(ToFixed(pool.totalStake) * ONE, ToFixed(pool.totalShares));
  }

  lemma FourQuotients(a: nat, b: nat, c: nat, d: nat, e: nat, n: nat)
    requires n * ONE <= a + b + c + d + e
    ensures n <= a / ONE + b / ONE + c / ONE + d / ONE + e / ONE + 5
  {
  }

  /** All shares at the price of one are worth no more than the stake, in bits. */
  lemma ValueWithin(pool: PoolInfo)
    ensures ValueOf(pool, pool.totalShares) <= ToFixed(pool.totalStake)
  {
    if SharePrice(pool).Some? {
      PriceTotals(pool);
      DivAtMost(SharePrice(pool).value * ToFixed(pool.totalShares), ONE, ToFixed(pool.totalStake));
      assert ToFixed(pool.totalShares) * SharePrice(pool).value == SharePrice(pool).value * ToFixed(pool.totalShares);
    }
  }

  /**
    What taking shares out adds to the others' comes from what the staker leaves behind: the part of the shares'
    worth that is not paid, and the shares dropped as dust, but for about a pico and two units of the price.
  */
  lemma ReleaseRaisesValue(pool: PoolInfo, pool': PoolInfo, taken: nat, paid: nat)
    requires SharePrice(pool).Some? && paid <= Mul(taken, SharePrice(pool).value)
    requires ReleasedTo(pool, pool', taken, paid)
    ensures var p := SharePrice(pool).value;
      var unpaid, dropped := Mul(taken, p) - paid, pool.totalShares - pool'.totalShares - taken;
      ValueOf(pool', pool'.totalShares) <=
      ValueOf(pool, pool'.totalShares) + ToFixed(unpaid) + FixMul(ToFixed(dropped), p) +
      2 * p / ONE + ToFixed(pool.totalShares) / ONE + PICO_BITS + 6
  {
    var p, stake := SharePrice(pool).value, pool.totalStake - paid;
    var dropped := pool.totalShares - pool'.totalShares - taken;
    ValueWithin(pool');
    ToFixedMono(pool'.totalStake, stake);
    PriceAbove(pool);
    ToFixedSum(stake, paid);
    ToFixedSum(paid, Mul(taken, p) - paid);
    ToFixedSum(pool'.totalShares, taken);
    ToFixedSum(pool'.totalShares + taken, dropped);
    ThereAndBack(FixMul(ToFixed(taken), p));
    var t, t', f, g := ToFixed(pool.totalShares), ToFixed(pool'.totalShares), ToFixed(taken), ToFixed(dropped);
    var s := ToFixed(pool.totalStake);
    hide ToFixed, SharePrice, FromFixed;
    RaisedTotals(p, s, t, t', f, g);
  }

  lemma RaisedTotals(p: Bits, s: Bits, t: Bits, t': Bits, f: Bits, g: Bits)
    requires s * ONE < (p + 1) * t && t <= t' + f + g + 2
    ensures s <= FixMul(t', p) + FixMul(f, p) + FixMul(g, p) + 2 * p / ONE + t / ONE + 5
  {
    MulMono(t, t' + f + g + 2, p);
    assert (p + 1) * t == p * t + t;
    assert p * (t' + f + g + 2) == t' * p + f * p + g * p + 2 * p;
    FourQuotients(t' * p, f * p, g * p, 2 * p, t, s);
  }

  /**
    What a contribution adds to the others': its part too small for a share, a pico of which costs
    PICO_BITS prices.
  */
  lemma DepositRaisesValue(d: Desk, amount: nat)
    requires SharePrice(d.pool).Some? && SharePrice(d.pool).value > 0
    ensures var p, pool' := SharePrice(d.pool).value, Deposit(d, amount).pool;
      ValueOf(pool', d.pool.totalShares) <=
      ValueOf(d.pool, d.pool.totalShares) + ToFixed(d.pool.totalShares) / ONE + PICO_BITS * p / ONE + 4
  {
    var p, pool' := SharePrice(d.pool).value, Deposit(d, amount).pool;
    var x, q := ToFixed(amount), FixDiv(ToFixed(amount), p);
    var f := ToFixed(SharesFor(d.pool, amount));
    ToFixedSum(d.pool.totalShares, SharesFor(d.pool, amount));
    ToFixedSum(d.pool.totalStake, amount);
    ThereAndBack(q);
    DivBounds(x * ONE, p);
    MulMono(q + 1, f + PICO_BITS, p);
    PriceTotals(d.pool);
    PriceAbove(d.pool);
    ToFixedPositive(d.pool.totalShares);
    var s, t, s', t' := ToFixed(d.pool.totalStake), ToFixed(d.pool.totalShares), ToFixed(pool'.totalStake),
      ToFixed(pool'.totalShares);
    DivBounds(s' * ONE, t');
    var p' := FixDiv(s', t');
    assert SharePrice(pool') == Some(p');
    hide ToFixed, FromFixed, SharePrice;
    DepositTotalsRise(p, s, t, x, f, s', t', p');
    FourQuotients(t * p, t, PICO_BITS * p, ONE, 0, FixMul(t, p'));
  }

  lemma DepositTotalsRise(p: Bits, s: Bits, t: Bits, x: Bits, f: Bits, s': Bits, t': Bits, p': Bits)
    requires p * t <= s * ONE < (p + 1) * t && x * ONE <= (f + PICO_BITS) * p
    requires s' <= s + x + 1 && t + f <= t' && 0 < t' && p' * t' <= s' * ONE
    ensures t * p' <= t * p + t + PICO_BITS * p + ONE
  {
    var kp := PICO_BITS * p;
    MulDistributes(f, PICO_BITS, p);
    RiseTimes(p, s * ONE, t, x * ONE, f, s' * ONE, t', p', kp);
    MulDistributes(p, 1, t);
  }

  /** The same with the products by ONE and PICO_BITS as numbers of their own. */
  lemma RiseTimes(p: Bits, so: nat, t: Bits, xo: nat, f: Bits, so': nat, t': Bits, p': Bits, kp: nat)
    requires p * t <= so && xo <= f * p + kp && so' <= so + xo + ONE
    requires t + f <= t' && 0 < t' && p' * t' <= so'
    ensures t * p' <= so + kp + ONE
  {
    OldTimesNew(t, p', t', so');
    NewTimesOld(t, p, f, kp, so, xo);
    MulMono(so', so + xo + ONE, t);
    TogetherTimes(t, f, t', so, kp, xo);
    Cancel(t * p', so + kp + ONE, t');
  }

  lemma Cancel(a: nat, b: nat, c: nat)
    requires c > 0 && a * c <= b * c
    ensures a <= b
  {
  }

  lemma OldTimesNew(t: nat, p': nat, t': nat, so': nat)
    requires p' * t' <= so'
    ensures t * p' * t' <= t * so'
  {
    MulMono(p' * t', so', t);
  }

  lemma NewTimesOld(t: nat, p: nat, f: nat, kp: nat, so: nat, xo: nat)
    requires p * t <= so && xo <= f * p + kp
    ensures t * xo <= f * so + kp * t
  {
    MulMono(xo, f * p + kp, t);
    MulDistributes(f * p, kp, t);
    MulMono(p * t, so, f);
    assert f * p * t == f * (p * t);
  }

  lemma TogetherTimes(t: nat, f: nat, t': nat, so: nat, kp: nat, xo: nat)
    requires t + f <= t' && t * xo <= f * so + kp * t
    ensures t * (so + xo + ONE) <= (so + kp + ONE) * t'
  {
    MulMono(t + f, t', so);
    MulMono(t, t', kp);
    MulMono(t, t', ONE);
    MulDistributes(t, f, so);
    MulDistributes(so + xo, ONE, t);
    MulDistributes(so, xo, t);
    MulDistributes(so + kp, ONE, t');
    MulDistributes(so, kp, t');
  }

  // ---------------------------------------------------------------- calls

  lemma ValueByTotals(pool: PoolInfo, pool': PoolInfo, shares: nat)
    requires pool'.totalShares == pool.totalShares && pool'.totalStake == pool.totalStake
    ensures ValueOf(pool', shares) == ValueOf(pool, shares)
  {
  }

  lemma KeptTransitive(a: PoolInfo, b: PoolInfo, c: PoolInfo, shares: nat, j: nat, k: nat)
    requires ValueKeptBy(a, b, shares, j) && ValueKeptBy(b, c, shares, k) && c.totalStake <= b.totalStake
    ensures ValueKeptBy(a, c, shares, j + k)
  {
    hide ValueOf;
  }

  lemma KeptAsIs(pool: PoolInfo, pool': PoolInfo, shares: nat, loss: nat)
    requires pool'.totalShares == pool.totalShares && pool'.totalStake == pool.totalStake
    ensures ValueKeptBy(pool, pool', shares, loss)
  {
    ValueByTotals(pool, pool', shares);
    hide ValueOf, Rounding;
  }

  lemma FrontKeepsValue(d: Desk, price: Bits, slash: Slasher, shares: nat)
    requires d.pool.withdrawQueue != [] && ServeFront(d, price, slash).Ok?
    requires shares <= ServeFront(d, price, slash).value.pool.totalShares
    ensures var pool' := ServeFront(d, price, slash).value.pool;
      ValueKeptBy(d.pool, pool', shares, Rounding(shares)) && pool'.totalShares <= d.pool.totalShares
  {
    hide Mul, Div, SharePrice, Release, ValueKeptBy, SettleReward, ValueOf;
    var d1 := d.(user := SettleReward(d.pool, d.user).value);
    var wanted := d.pool.withdrawQueue[0].shares;
    var served := Min(FreeShares(d.pool, Some(price), wanted), wanted);
    ReleaseKeepsValue(d1, served, slash, shares);
    var paid := ReleasePaysAtMost(d1, served, slash);
    ValueByPool(d.pool, Release(d1, served, slash).value.pool, ServeFront(d, price, slash).value.pool, shares);
  }

  /** What is kept does not depend on the queue. */
  lemma ValueByPool(pool: PoolInfo, a: PoolInfo, b: PoolInfo, shares: nat)
    requires ValueKeptBy(pool, a, shares, Rounding(shares)) && b == a.(withdrawQueue := b.withdrawQueue)
    ensures ValueKeptBy(pool, b, shares, Rounding(shares))
  {
    ValueByTotals(a, b, shares);
    hide ValueOf, Rounding;
  }

  /** The rounds that serving a queue takes. */
  function RoundsOf(v: Store, pid: Pid, price: Bits, slash: Slasher): nat
    requires pid in v.pools
    decreases QueueMeasure(v.pools[pid].withdrawQueue), v.pools[pid].freeStake
  {
    if !LoopGuard(v, pid) then 0
    else
      var r := ServeOne(v, pid, price, slash);
      if r.Ok? && Progress(v.pools[pid], r.value.pools[pid]) then 1 + RoundsOf(r.value, pid, price, slash) else 1
  }

  lemma RoundKeepsValue(v: Store, pid: Pid, price: Bits, slash: Slasher, shares: nat)
    requires pid in v.pools && v.pools[pid].withdrawQueue != [] && ServeOne(v, pid, price, slash).Ok?
    requires shares <= ServeOne(v, pid, price, slash).value.pools[pid].totalShares
    ensures var pool' := ServeOne(v, pid, price, slash).value.pools[pid];
      ValueKeptBy(v.pools[pid], pool', shares, Rounding(shares)) && pool'.totalShares <= v.pools[pid].totalShares
  {
    hide ServeFront, ValueKeptBy;
    var who := v.pools[pid].withdrawQueue[0].user;
    if (pid, who) in v.stakers {
      FrontKeepsValue(Load(v, who, v.pools[pid], v.stakers[(pid, who)]), price, slash, shares);
    } else {
      KeptAsIs(v.pools[pid], v.pools[pid].(withdrawQueue := v.pools[pid].withdrawQueue[1..]), shares, Rounding(shares));
    }
  }

  lemma RoundLowersShares(v: Store, pid: Pid, price: Bits, slash: Slasher)
    requires pid in v.pools && v.pools[pid].withdrawQueue != [] && ServeOne(v, pid, price, slash).Ok?
    ensures ServeOne(v, pid, price, slash).value.pools[pid].totalShares <= v.pools[pid].totalShares
  {
    RoundKeepsValue(v, pid, price, slash, 0);
  }

  lemma {:induction false} QueueLowersShares(v: Store, pid: Pid, price: Bits, slash: Slasher)
    requires pid in v.pools && ServeQueue(v, pid, price, slash).Ok?
    ensures ServeQueue(v, pid, price, slash).value.pools[pid].totalShares <= v.pools[pid].totalShares
    decreases QueueMeasure(v.pools[pid].withdrawQueue), v.pools[pid].freeStake
  {
    hide ServeOne;
    if LoopGuard(v, pid) {
      RoundLowersShares(v, pid, price, slash);
      QueueLowersShares(ServeOne(v, pid, price, slash).value, pid, price, slash);
    }
  }

  /** Serving the queue takes nothing from shares that are still there, but the rounding of each round. */
  lemma {:induction false} QueueKeepsValue(v: Store, pid: Pid, price: Bits, slash: Slasher, shares: nat)
    requires pid in v.pools && ServeQueue(v, pid, price, slash).Ok?
    requires shares <= ServeQueue(v, pid, price, slash).value.pools[pid].totalShares
    ensures ValueKeptBy(v.pools[pid], ServeQueue(v, pid, price, slash).value.pools[pid], shares,
                        RoundsOf(v, pid, price, slash) * Rounding(shares))
    decreases QueueMeasure(v.pools[pid].withdrawQueue), v.pools[pid].freeStake
  {
    hide ServeOne, ValueKeptBy;
    if LoopGuard(v, pid) {
      var v1 := ServeOne(v, pid, price, slash).value;
      QueueLowersShares(v1, pid, price, slash);
      RoundKeepsValue(v, pid, price, slash, shares);
      QueueKeepsValue(v1, pid, price, slash, shares);
      QueueTakesStake(v1, pid, price, slash);
      KeptTransitive(v.pools[pid], v1.pools[pid], ServeQueue(v, pid, price, slash).value.pools[pid], shares,
                     Rounding(shares), RoundsOf(v1, pid, price, slash) * Rounding(shares));
      MulDistributes(1, RoundsOf(v1, pid, price, slash), Rounding(shares));
    } else {
      KeptAsIs(v.pools[pid], v.pools[pid], shares, 0);
    }
  }

  /** A withdrawal takes nothing from the shares that are left, but the rounding. */
  lemma WithdrawKeepsValue(v: Store, who: Account, pid: Pid, shares: nat, now: nat, slash: Slasher, held: nat)
    requires Withdraw(v, who, pid, shares, now, slash).Ok?
    ensures pid in v.pools && pid in Withdraw(v, who, pid, shares, now, slash).value.pools
    ensures held <= Withdraw(v, who, pid, shares, now, slash).value.pools[pid].totalShares ==>
      ValueKeptBy(v.pools[pid], Withdraw(v, who, pid, shares, now, slash).value.pools[pid], held, Rounding(held))
  {
    hide TryWithdraw, QueuedNow, ValueKeptBy, AddToIndex;
    IndexKeepsPools(v, now, pid);
    if held <= Withdraw(v, who, pid, shares, now, slash).value.pools[pid].totalShares {
      TryWithdrawKeepsValue(Load(v, who, v.pools[pid], v.stakers[(pid, who)]), shares, now, slash, held);
    }
  }

  lemma IndexKeepsPools(v: Store, now: nat, pid: Pid)
    ensures forall w: Store :: AddToIndex(w, now, pid).pools == w.pools
  {
  }

  lemma TryWithdrawKeepsValue(d: Desk, shares: nat, now: nat, slash: Slasher, held: nat)
    requires TryWithdraw(d, shares, now, slash).Ok?
    requires held <= TryWithdraw(d, shares, now, slash).value.pool.totalShares
    ensures ValueKeptBy(d.pool, TryWithdraw(d, shares, now, slash).value.pool, held, Rounding(held))
  {
    hide Release, ValueKeptBy, SettleReward, ServedNow, QueuedNow, ResetPending, Without;
    var d1 := d.(user := SettleReward(d.pool, d.user).value);
    var served, pool' := ServedNow(d.pool, shares), TryWithdraw(d, shares, now, slash).value.pool;
    if served > 0 {
      ReleaseKeepsValue(d1, served, slash, held);
      ValueByPool(d.pool, Release(d1, served, slash).value.pool, pool', held);
    } else {
      KeptAsIs(d.pool, pool', held, Rounding(held));
    }
  }

  /** The rounding of all the rounds. */
  function QueueRounding(v: Store, pid: Pid, slash: Slasher, held: nat): nat
    requires pid in v.pools
  {
    match SharePrice(v.pools[pid])
    case Some(price) => RoundsOf(v, pid, price, slash) * Rounding(held)
    case None => 0
  }

  /**
    A contribution takes nothing from shares there were before and still are, but a bit for every unit of the
    price and the rounding of each round that it makes the queue be served.
  */
  lemma ContributeKeepsValue(v: Store, who: Account, pid: Pid, amount: nat, slash: Slasher, held: nat)
    requires Contribute(v, who, pid, amount, slash).Ok?
    ensures pid in v.pools && pid in Contribute(v, who, pid, amount, slash).value.pools
    ensures var v1, pool' := Deposited(v, who, pid, amount, slash),
      Contribute(v, who, pid, amount, slash).value.pools[pid];
      held <= v.pools[pid].totalShares && held <= pool'.totalShares ==>
        ValueKeptBy(v.pools[pid], pool', held,
                    PriceUnits(v.pools[pid]) + Rounding(held) + QueueRounding(v1, pid, slash, held))
  {
    hide Prepared, Deposit, Save, ServeQueue, SharePrice, ValueOf, RoundsOf, Rounding, PriceUnits;
    var d := Prepared(v, pid, who, slash).value;
    var v1 := Deposited(v, who, pid, amount, slash);
    PreparedSamePool(v, pid, who, slash);
    SavedDesk(v, pid, who, Deposit(d, amount));
    DepositedPrice(d, amount);
    if held <= v.pools[pid].totalShares && held <= Contribute(v, who, pid, amount, slash).value.pools[pid].totalShares {
      DepositKeepsValue(d, amount, held);
      QueueKeepsValue(v1, pid, SharePrice(v1.pools[pid]).value, slash, held);
    }
  }

  lemma SavedDesk(v: Store, pid: Pid, who: Account, d: Desk)
    ensures pid in Save(v, pid, who, d).pools && Save(v, pid, who, d).pools[pid] == d.pool
  {
  }

  lemma DepositedPrice(d: Desk, amount: nat)
    requires amount >= MIN_CONTRIBUTION
    ensures SharePrice(Deposit(d, amount).pool).Some?
  {
    ToFixedPositive(d.pool.totalShares);
    ToFixedPositive(Deposit(d, amount).pool.totalShares);
    hide Mul, Div;
  }
}
