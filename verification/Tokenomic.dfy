/** What the tokenomic parameters make of a worker and a stake (`Tokenomic` of pallets/phala/src/mining.rs). */
module Tokenomic {
  import opened Base
  import opened FixedPoint
  import opened Mining

  /** The parameters that decide whether a worker may start with a stake. */
  datatype TokenomicParams = TokenomicParams(re: Bits, k: Bits, vMax: Bits, rigK: Bits, rigB: Bits)

  /** Those of a new chain: re 1.3, k 100, vMax 30000, a rig cost of 0.3 a point of performance. */
  const DEFAULT: TokenomicParams :=
    TokenomicParams(23_980_767_295_822_417_101, 100 * ONE, 30000 * ONE, 5_534_023_222_112_865_485, 0)

  /** 1 for the levels 1 to 3, 0.8 for 4, 0.7 for 5, and 1 for what is no level. */
  function ConfidenceScore(level: nat): Bits {
    if level == 4 then 14_757_395_258_967_641_293 else if level == 5 then 12_912_720_851_596_686_131 else ONE
  }

  function RigCost(params: TokenomicParams, p: nat): Bits {
    FixMul(params.rigK, p * ONE) + params.rigB
  }

  /** `ve`; an `re` below one underflows. */
  function Ve(params: TokenomicParams, stake: nat, p: nat, level: nat): Outcome<Bits> {
    if params.re < ONE then Panic
    else Ok(FixMul(FixMul(params.re - ONE, ConfidenceScore(level)) + ONE, ToFixed(stake) + RigCost(params, p)))
  }

  /** The square root of a number of these bits, rounded down. */
  predicate IsRoot(b: Bits, root: Bits) {
    root * root <= b * ONE < (root + 1) * (root + 1)
  }

  /** `minimal_stake`, with the root of the worker's performance. */
  function MinimalStake(params: TokenomicParams, root: Bits): nat {
    FromFixed(FixMul(params.k, root))
  }

  /** The quote is what `start_mining` computes for a worker of performance `p`. */
  predicate Quotes(params: TokenomicParams, stake: nat, p: nat, level: nat, root: Bits, quote: Quote) {
    && IsRoot(p * ONE, root) && quote.minimalStake == MinimalStake(params, root)
    && Ve(params, stake, p, level) == Ok(quote.ve) && quote.vMax == params.vMax
  }

  /** V never starts below the stake itself, so a positive stake gives a positive V. */
  lemma VeCoversStake(params: TokenomicParams, stake: nat, p: nat, level: nat)
    requires params.re >= ONE
    ensures Ve(params, stake, p, level).Ok? && Ve(params, stake, p, level).value >= ToFixed(stake)
    ensures stake > 0 ==> Ve(params, stake, p, level).value > 0
  {
    var tweaked := FixMul(params.re - ONE, ConfidenceScore(level)) + ONE;
    ToFixedPositive(stake);
    FixMulMono(ONE, tweaked, ToFixed(stake), ToFixed(stake) + RigCost(params, p));
    assert FixMul(ONE, ToFixed(stake)) == ToFixed(stake);
  }

  /** The score is one, but four fifths at level 4 and seven tenths at level 5, to the nearest bit. */
  lemma ScoreOfLevel(level: nat)
    ensures var score := ConfidenceScore(level);
      && (level == 4 ==> 5 * score - 2 <= 4 * ONE <= 5 * score + 2)
      && (level == 5 ==> 10 * score - 5 <= 7 * ONE <= 10 * score + 5)
      && (level != 4 && level != 5 ==> score == ONE)
  {
  }

  /** For a worker of score one, V starts at `re` times the stake and the cost of its rig. */
  lemma VeOfTrusted(params: TokenomicParams, stake: nat, p: nat, level: nat)
    requires params.re >= ONE && level != 4 && level != 5
    ensures Ve(params, stake, p, level) == Ok(FixMul(params.re, ToFixed(stake) + params.rigK * p + params.rigB))
  {
    assert FixMul(params.re - ONE, ONE) == params.re - ONE;
    RigCostIs(params, p);
  }

  lemma RigCostIs(params: TokenomicParams, p: nat)
    ensures RigCost(params, p) == params.rigK * p + params.rigB
  {
    assert params.rigK * (p * ONE) == (params.rigK * p) * ONE;
    DivUnique(params.rigK * (p * ONE), ONE, params.rigK * p);
  }

  /** For any other it starts no higher, but never below the stake and that cost. */
  lemma VeIsBetween(params: TokenomicParams, stake: nat, p: nat, level: nat)
    requires params.re >= ONE
    ensures var ve, all := Ve(params, stake, p, level), ToFixed(stake) + params.rigK * p + params.rigB;
      ve.Ok? && all <= ve.value <= FixMul(params.re, all)
  {
    var tweaked, all := FixMul(params.re - ONE, ConfidenceScore(level)) + ONE, ToFixed(stake) + RigCost(params, p);
    RigCostIs(params, p);
    FixMulMono(params.re - ONE, params.re - ONE, ConfidenceScore(level), ONE);
    assert FixMul(params.re - ONE, ONE) == params.re - ONE;
    FixMulMono(ONE, tweaked, all, all);
    assert FixMul(ONE, all) == all;
    FixMulMono(tweaked, params.re, all, all);
  }

  /** The minimal stake is past dust exactly from a product of `k` and the root on. */
  lemma MinimalStakeNondust(params: TokenomicParams, root: Bits)
    ensures MinimalStake(params, root) > 1000 <==> FixMul(params.k, root) >= 18_465_190_818
  {
  }

  /** A root is determined by what it is the root of. */
  lemma RootIsUnique(b: Bits, r: Bits, r': Bits)
    requires IsRoot(b, r) && IsRoot(b, r')
    ensures r == r'
  {
    if r < r' {
      MulMono(r + 1, r', r + 1);
      MulMono(r + 1, r', r');
    } else if r > r' {
      MulMono(r' + 1, r, r' + 1);
      MulMono(r' + 1, r, r);
    }
  }
}
