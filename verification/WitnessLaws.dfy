/**
  Runs from the empty chain to what should not happen: calls that hang or panic, debug assertions that fail, a
  request nobody owns, stake that is lost. Workers start with the tokenomic parameters of a new chain, but for one
  run that says so.
*/
module WitnessLaws {
  import opened Base
  import opened FixedPoint
  import opened Pool
  import opened Vault
  import opened CallLaws
  import opened PriceLaws
  import opened ReclaimLaws
  import opened Mining
  import opened Chain
  import opened ChainLaws
  import opened FinalizeLaws
  import opened SafetyLaws
  import opened AssertionLaws
  import opened Scenes
  import opened PumpedRuns

  // ---------------------------------------------------------------- a pool with a high price and much stake

  const RICH: nat := 2000000000000000
  const RICH_SHARES: nat := 980724501611
  const RICH_STAKE: nat := 2000000002041348
  const RICH_TOTAL: nat := 980724502612
  const RICH_PRICE: Bits := 37618605517467474038302

  lemma RichPrice(pool: PoolInfo)
    requires pool.totalStake == RICH_STAKE && pool.totalShares == RICH_TOTAL
    ensures SharePrice(pool) == Some(RICH_PRICE)
  {
    hide ToFixed;
    FixedIs(2000000002041348, 36893488185075327353378);
    FixedIs(980724502612, 18091173906499658674);
    PriceIs(pool, 36893488185075327353378, 18091173906499658674, 37618605517467474038302);
  }

  lemma RichBuys()
    ensures SharesFor(PlainPool(LEFT, 2041348, 2041348), RICH) == RICH_SHARES
    ensures Div(1500, RICH_PRICE) == 0 && Div(0, RICH_PRICE) == 0
  {
    hide ToFixed, Div, SharePrice;
    FixedLeft();
    FixedIs(2041348, 37656224121378);
    FixedIs(2000000000000000, 36893488147419103232000);
    FixedIs(1500, 27670116110);
    FixedIs(0, 0);
    PriceIs(PlainPool(LEFT, 2041348, 2041348), 37656224121378, LEFT_BITS, 37618605517457853453298);
    BuysIs(2000000000000000, 37618605517457853453298, 36893488147419103232000, 18091173888039094495, 980724501611);
    BuysIs(1500, 37618605517467474038302, 27670116110, 13568380, 0);
    BuysIs(0, 37618605517467474038302, 0, 0, 0);
  }

  /** Account 13 contributes 2000 tokens after the price was driven up, and two workers join. */
  lemma Rich() returns (c: State, moves: seq<Move>, s: Scene)
    ensures Reached(c, moves) && Shows(c, s) && Unused(s, 14)
    ensures s == s.(times := [], queued := map[], hands := map[1 := Idle, 2 := Idle], now := 0)
    ensures s.pool == PlainPool(RICH_TOTAL, RICH_STAKE, RICH_STAKE).(workers := [1, 2])
    ensures (0, 13) in s.stakers && s.stakers[(0, 13)] == UserStakeInfo(13, RICH, RICH_SHARES, 0, 0)
  {
    hide Reached, Shows, SharesFor;
    RichBuys();
    var c0, moves0, s0 := Pumped();
    var c1, moves1 := Funds(c0, moves0, s0, 13, RICH);
    var c2, moves2, s2 := Deposits(c1, moves1, s0.(funded := s0.funded[13 := RICH]), 13, RICH, RICH_SHARES);
    var c3, moves3, s3 := Joins(c2, moves2, s2, 1);
    c, moves, s := Joins(c3, moves3, s3, 2);
    assert s.hands == map[1 := Idle, 2 := Idle];
  }

  // ---------------------------------------------------------------- free stake where none should be

  /**
    There is a run from the empty chain to a block's end that looks for expired requests in a pool with stake past
    dust free and a request waiting past the grace period: the assertion that nothing is free fails.
  */
  lemma FreeStakeBesideRequest() returns (c: State, moves: seq<Move>)
    ensures Reached(c, moves) && !FinalizeAsserts(c)
    ensures ListedExpired(c, 0) && 0 in c.v.pools && c.v.pools[0].freeStake == 1500 && c.v.pools[0].withdrawQueue != []
  {
    hide Reached, Shows, SharePrice, Div, Unused;
    var c0, moves0, s0 := Rich();
    var stake := RICH_STAKE - 1500;
    DefaultQuotes(stake);
    RichBuys();
    var c1, moves1, s1 := Lends(c0, moves0, s0, 1, stake, DefaultQuote(stake));
    RichPrice(s1.pool);
    var c2, moves2 := Asks(c1, moves1, s1, 13, RICH_SHARES, RICH_PRICE);
    var s2 := WithRequest(s1, 13, RICH_SHARES);
    c, moves := Waits(c2, moves2, s2, WEEK + 1);
    FreeWhenListed(c, moves, s2.(now := s2.now + (WEEK + 1)));
  }

  /** One pool, listed at the beginning, with stake free more than a grace period later. */
  lemma FreeWhenListed(c: State, moves: seq<Move>, s: Scene)
    requires Reached(c, moves) && Shows(c, s) && s.times == [0] && s.queued == map[0 := [0]] && s.now == WEEK + 1
    requires s.pool.freeStake > 0
    ensures ListedExpired(c, 0) && 0 in c.v.pools && c.v.pools[0] == s.pool && !FinalizeAsserts(c)
  {
    hide FinalizeAsserts, Inv, Reached, AllWithin, Staffed, Accounts;
    ReachedOk(c, moves);
    FinalizeAssertsWhen(c);
    assert 0 in c.v.timestamps && 0 in c.v.queuedPools[0];
  }

  const FOUNDED: nat := 1_000_000_000_000_000
  const ASKED: nat := 5_000_000_000
  const BROUGHT: nat := 20_000_000_000

  /** All of the stake is lent, and a part of it is waited for. */
  const ASKING: PoolInfo := PlainPool(FOUNDED, FOUNDED, 0).(
    workers := [1], withdrawQueue := [WithdrawInfo(1, ASKED, 0)])

  lemma ServedPrice()
    ensures SharesFor(ASKING, BROUGHT) == 19999999999
    ensures Pays(WithDeposit(ASKING, BROUGHT, 19999999999),
                 UserStakeInfo(1, FOUNDED, FOUNDED, 0, 0), ASKED, 18446744073709570062, ASKED)
    ensures SharePrice(PlainPool(FOUNDED, FOUNDED, 0).(workers := [1])) == Some(ONE) && Div(0, ONE) == 0
  {
    hide ToFixed, Div, Mul, SharePrice;
    FixedIs(0, 0);
    FixedIs(FOUNDED, 18446744073709551616000);
    FixedIs(BROUGHT, 368934881474191032);
    FixedIs(ASKED, 92233720368547758);
    FixedIs(1000020000000000, 18447113008591025807032);
    FixedIs(1000019999999999, 18447113008591007360288);
    PriceIs(PlainPool(FOUNDED, FOUNDED, 0).(workers := [1]), 18446744073709551616000, 18446744073709551616000, ONE);
    PriceIs(ASKING, 18446744073709551616000, 18446744073709551616000, ONE);
    PriceIs(WithDeposit(ASKING, BROUGHT, 19999999999), 18447113008591025807032, 18447113008591007360288,
      18446744073709570062);
    BuysIs(BROUGHT, 18446744073709551616, 368934881474191032, 368934881474191032, 19999999999);
    BuysIs(0, 18446744073709551616, 0, 0, 0);
    BuysIs(BROUGHT, 18446744073709570062, 368934881474191032, 368934881474190663, 19999999999);
    ProductIs(ASKED, 18446744073709570062, 92233720368547758, 92233720368547850, ASKED);
    ProductIs(FOUNDED, 18446744073709570062, 18446744073709551616000, 18446744073709570062000, FOUNDED);
  }

  /**
    So does a run to a pool whose queue was served long ago and is empty: nobody waits, but the pool is still
    listed under the time of the request, and what a contribution brought is free.
  */
  lemma FreeStakeWithoutRequest() returns (c: State, moves: seq<Move>)
    ensures Reached(c, moves) && !FinalizeAsserts(c)
    ensures ListedExpired(c, 0) && 0 in c.v.pools && c.v.pools[0].withdrawQueue == []
  {
    hide Reached, Shows, SharePrice, SharesFor, Div, Pays;
    ServedPrice();
    var c0, moves0, s0 := Lent();
    var c1, moves1 := Asks(c0, moves0, s0, 1, ASKED, ONE);
    var s1 := WithRequest(s0, 1, ASKED);
    var c2, moves2 := Funds(c1, moves1, s1, 2, BROUGHT);
    var s2 := s1.(funded := s1.funded[2 := BROUGHT]);
    assert Without([], 1) == [];
    assert s2.pool == ASKING;
    var c3, moves3, s3 := DepositsAndServes(c2, moves2, s2, 2, BROUGHT, 19999999999, 18446744073709570062, ASKED);
    c, moves := Waits(c3, moves3, s3, WEEK + 1);
    FreeWhenListed(c, moves, s3.(now := s3.now + (WEEK + 1)));
  }

  /** Account 1 contributes 1000 tokens, and all of it is lent to a worker. */
  lemma Lent() returns (c: State, moves: seq<Move>, s: Scene)
    ensures Reached(c, moves) && Shows(c, s)
    ensures s.pool == PlainPool(FOUNDED, FOUNDED, 0).(workers := [1])
    ensures s.stakers == map[(0, 1) := UserStakeInfo(1, FOUNDED, FOUNDED, 0, 0)] && s.funded == map[1 := FOUNDED]
    ensures s.times == [] && s.queued == map[] && s.now == 0
  {
    hide Reached, Shows, SharesFor, DefaultQuote;
    FirstSharesFor(FOUNDED);
    DefaultLends(FOUNDED);
    var c0, moves0 := Opens();
    var c1, moves1 := Funds(c0, moves0, FIRST, 1, FOUNDED);
    var c2, moves2, s2 := Deposits(c1, moves1, FIRST.(funded := map[1 := FOUNDED]), 1, FOUNDED, FOUNDED);
    var c3, moves3, s3 := Joins(c2, moves2, s2, 1);
    c, moves, s := Lends(c3, moves3, s3, 1, FOUNDED, DefaultQuote(FOUNDED));
  }

  // ---------------------------------------------------------------- calls that hang

  /** All of the rich pool's stake is with the workers, and account 13 waits for all its shares. */
  lemma AllLent(first: nat, second: nat) returns (c: State, moves: seq<Move>, s: Scene)
    requires first + second == RICH_STAKE && first >= 800_000_000_000_000
    requires second == 0 || second >= 800_000_000_000_000
    ensures Reached(c, moves) && Shows(c, s) && Unused(s, 14)
    ensures s.pool == PlainPool(RICH_TOTAL, RICH_STAKE, 0).(
                        workers := [1, 2], withdrawQueue := [WithdrawInfo(13, RICH_SHARES, 0)])
    ensures (0, 13) in s.stakers && s.stakers[(0, 13)] == UserStakeInfo(13, RICH, RICH_SHARES, 0, 0)
    ensures s.now == 0
    ensures second > 0 ==> 2 in s.hands && s.hands[2] == Busy(second, DefaultQuote(second).ve, DefaultQuote(second).ve)
  {
    hide Reached, Shows, SharePrice, Div;
    DefaultQuotes(first);
    DefaultQuotes(second);
    RichBuys();
    var c0, moves0, s0 := Rich();
    var c1, moves1, s1 := Lends(c0, moves0, s0, 1, first, DefaultQuote(first));
    var c2, moves2, s2 := c1, moves1, s1;
    if second > 0 {
      c2, moves2, s2 := Lends(c1, moves1, s1, 2, second, DefaultQuote(second));
    }
    RichPrice(s2.pool);
    c, moves := Asks(c2, moves2, s2, 13, RICH_SHARES, RICH_PRICE);
    assert Without([], 13) == [];
    s := WithRequest(s2, 13, RICH_SHARES);
  }

  lemma HangNumbers(pool: PoolInfo)
    requires pool == PlainPool(980729406234, 2000010002041348, 10000000000).(
                       workers := [1, 2], withdrawQueue := [WithdrawInfo(13, RICH_SHARES, 0)])
    ensures SharePrice(pool) == Some(37618605517486961901167) && Div(10000000000, 37618605517486961901167) == 4903622
    ensures Div(1037, 37618605517486961901167) == 0
    ensures Mul(4903622, 37618605517486961901167) == 9999998963
    ensures Mul(RICH_SHARES, 37618605517486961901167) == 2000000000001036
    ensures SharesFor(PlainPool(RICH_TOTAL, RICH_STAKE, 0).(
              workers := [1, 2], withdrawQueue := [WithdrawInfo(13, RICH_SHARES, 0)]), 10000000000) == 4903622
  {
    hide ToFixed, Div, Mul, SharePrice;
    var before := PlainPool(RICH_TOTAL, RICH_STAKE, 0).(
      workers := [1, 2], withdrawQueue := [WithdrawInfo(13, RICH_SHARES, 0)]);
    FixedIs(2000000002041348, 36893488185075327353378);
    FixedIs(980724502612, 18091173906499658674);
    FixedIs(10000000000, 184467440737095516);
    FixedIs(2000010002041348, 36893672652516064448895);
    FixedIs(980729406234, 18091264362359726886);
    FixedIs(4903622, 90455860068211);
    FixedIs(980724501611, 18091173888034467856);
    FixedIs(1037, 19129273604);
    PriceIs(before, 36893488185075327353378, 18091173906499658674, 37618605517467474038302);
    PriceIs(pool, 36893672652516064448895, 18091264362359726886, 37618605517486961901167);
    BuysIs(10000000000, 37618605517467474038302, 184467440737095516, 90455869440172, 4903622);
    BuysIs(10000000000, 37618605517486961901167, 184467440737095516, 90455869440125, 4903622);
    BuysIs(1037, 37618605517486961901167, 19129273604, 9380273, 0);
    ProductIs(4903622, 37618605517486961901167, 90455860068211, 184467421624868862, 9999998963);
    ProductIs(980724501611, 37618605517486961901167, 18091173888034467856, 36893488147438215454546, 2000000000001036);
  }

  lemma StuckNextIs(v: Store, user: UserStakeInfo, price: Bits, bought: nat, left: nat)
    requires 0 in v.pools && v.pools[0].withdrawQueue == [WithdrawInfo(13, RICH_SHARES, 0)]
    requires (0, 13) in v.stakers && v.stakers[(0, 13)] == user && user.shares == RICH_SHARES && user.locked == RICH
    requires SharePrice(v.pools[0]) == Some(price) && price > 0 && Nondust(v.pools[0].freeStake)
    requires Div(v.pools[0].freeStake, price) == bought && 0 < bought && bought + DUST < RICH_SHARES
    requires Nondust(left) && Div(left, price) == 0 && v.pools[0].totalStake > v.pools[0].freeStake + DUST
    requires left <= v.pools[0].freeStake && left == v.pools[0].freeStake - Mul(bought, price)
    requires Mul(RICH_SHARES, price) >= RICH - 1 && Mul(bought, price) <= RICH - 1
    ensures StuckNext(v, 0)
  {
    hide Mul, Div, SharePrice;
  }

  /**
    There is a run from the empty chain after which a contribution of a hundredth of a token never returns: it buys
    a part of the request that waits, and 1037 pico are left to buy shares of over 2000 pico each.
  */
  lemma ContributionThatHangs() returns (c: State, moves: seq<Move>)
    ensures Reached(c, moves) && Step(c, ActContribute(14, 0, MIN_CONTRIBUTION), NO_ORACLE) == Diverge
  {
    var c0, moves0, s0 := AllLent(RICH_STAKE, 0);
    var s: Scene;
    c, moves, s := Funded(c0, moves0, s0);
    HangsHere(c, moves, s);
  }

  lemma Funded(c0: State, moves0: seq<Move>, s0: Scene) returns (c: State, moves: seq<Move>, s: Scene)
    requires Reached(c0, moves0) && Shows(c0, s0) && Unused(s0, 14)
    ensures Reached(c, moves) && Shows(c, s) && s == s0.(funded := s0.funded[14 := MIN_CONTRIBUTION])
    ensures (0, 14) !in s.stakers
  {
    hide Reached, Shows;
    c, moves := Funds(c0, moves0, s0, 14, MIN_CONTRIBUTION);
    s := s0.(funded := s0.funded[14 := MIN_CONTRIBUTION]);
  }

  lemma HangsHere(c: State, moves: seq<Move>, s: Scene)
    requires Reached(c, moves) && Shows(c, s) && (0, 14) !in s.stakers && Get(s.funded, 14) == MIN_CONTRIBUTION
    requires s.pool == PlainPool(RICH_TOTAL, RICH_STAKE, 0).(
                        workers := [1, 2], withdrawQueue := [WithdrawInfo(13, RICH_SHARES, 0)])
    requires (0, 13) in s.stakers && s.stakers[(0, 13)] == UserStakeInfo(13, RICH, RICH_SHARES, 0, 0)
    ensures Step(c, ActContribute(14, 0, MIN_CONTRIBUTION), NO_ORACLE) == Diverge
  {
    hide Inv, AllWithin, Step, SharesFor, SharePrice, Mul, Div, Reached, Staffed, StuckNext, Contribute, ProcessQueue;
    var a := ActContribute(14, 0, MIN_CONTRIBUTION);
    var pool := WithDeposit(s.pool, MIN_CONTRIBUTION, 4903622);
    HangNumbers(pool);
    FirstDeposit(c.v, 14, MIN_CONTRIBUTION, 4903622);
    var v := Deposited(c.v, 14, 0, MIN_CONTRIBUTION, NO_ORACLE.slash);
    StuckNextIs(v, s.stakers[(0, 13)], 37618605517486961901167, 4903622, 1037);
    ReachedOk(c, moves);
    HangsNext(c, a, NO_ORACLE);
    StepSafe(c, a, NO_ORACLE);
  }

  const BACK: nat := 800000244140625

  lemma ReclaimNumbers()
    ensures Div(BACK, RICH_PRICE) == 392289920361 && Div(1523, RICH_PRICE) == 0
    ensures Mul(392289920361, RICH_PRICE) == 800000244139102 && Mul(RICH_SHARES, RICH_PRICE) == 1999999999999999
  {
    hide ToFixed, Div, Mul;
    FixedIs(800000244140625, 14757399762567268663296);
    FixedIs(1523, 28094391224);
    FixedIs(392289920361, 7236471763595268717);
    FixedIs(980724501611, 18091173888034467856);
    BuysIs(800000244140625, 37618605517467474038302, 14757399762567268663296, 7236471763609037147, 392289920361);
    BuysIs(1523, 37618605517467474038302, 28094391224, 13776428, 0);
    ProductIs(392289920361, 37618605517467474038302, 7236471763595268717, 14757399762539190584310, 800000244139102);
    ProductIs(980724501611, 37618605517467474038302, 18091173888034467856, 36893488147419103229950, 1999999999999999);
  }

  /** A miner whose V never fell gives back this stake to the last pico. */
  lemma AllBack(ve: Bits)
    requires ve > 0
    ensures Back(BACK, ve, ve) == BACK
  {
    DivUnique(ve * ONE, ve, ONE);
    assert FixMul(ONE, ToFixed(BACK)) == ToFixed(BACK);
    RoundTrip(BACK);
    hide ToFixed, FromFixed;
  }

  /**
    There is one after which reclaiming a miner's stake never returns: the stake buys a part of the request that
    waits, and 1523 pico are left to buy shares of over 2000 pico each.
  */
  lemma ReclaimThatHangs() returns (c: State, moves: seq<Move>)
    ensures Reached(c, moves) && Step(c, ActReclaim(0, 2), NO_ORACLE) == Diverge
  {
    hide Reached, Shows, Unused, Step, Back, DefaultQuote, Expected;
    DefaultQuotes(BACK);
    var ve := DefaultQuote(BACK).ve;
    AllBack(ve);
    var c0, moves0, s0 := AllLent(RICH_STAKE - BACK, BACK);
    var c1, moves1, s1 := Stops(c0, moves0, s0, 2);
    c, moves := Waits(c1, moves1, s1, WEEK);
    ReclaimHangsHere(c, moves, s1.(now := s1.now + WEEK), ve);
  }

  lemma ReclaimHangsHere(c: State, moves: seq<Move>, s: Scene, ve: Bits)
    requires Reached(c, moves) && Shows(c, s) && s.now == WEEK
    requires 2 in s.hands && s.hands[2] == Cools(BACK, ve, ve, 0) && ve > 0
    requires s.pool == PlainPool(RICH_TOTAL, RICH_STAKE, 0).(
                         workers := [1, 2], withdrawQueue := [WithdrawInfo(13, RICH_SHARES, 0)], releasingStake := BACK)
    requires (0, 13) in s.stakers && s.stakers[(0, 13)] == UserStakeInfo(13, RICH, RICH_SHARES, 0, 0)
    ensures Step(c, ActReclaim(0, 2), NO_ORACLE) == Diverge
  {
    hide *;
    var a, hand := ActReclaim(0, 2), s.hands[2];
    ReachedOk(c, moves);
    SceneParts(c, s);
    HandIs(c, s.hands, 2);
    CanReclaimHand(c, 2, hand);
    AllBack(ve);
    AllBackAllowed(c.v.pools[0], ve);
    BackInPool(c.v, s.pool, ve);
    BackStuck(TakenBack(c, Miner(0, 2)));
    ReclaimServes(c, 2);
    HangsNext(c, a, NO_ORACLE);
    StepSafe(c, a, NO_ORACLE);
    HangsMeans(c, a);
  }

  lemma BackStuck(v: Store)
    requires 0 in v.pools && (0, 13) in v.stakers && v.stakers[(0, 13)] == UserStakeInfo(13, RICH, RICH_SHARES, 0, 0)
    requires v.pools[0] == PlainPool(RICH_TOTAL, RICH_STAKE, BACK).(
                             workers := [1, 2], withdrawQueue := [WithdrawInfo(13, RICH_SHARES, 0)])
    ensures StuckNext(v, 0)
  {
    hide Mul, Div, SharePrice, StuckNext;
    ReclaimNumbers();
    RichPrice(v.pools[0]);
    StuckNextIs(v, v.stakers[(0, 13)], RICH_PRICE, 392289920361, 1523);
  }

  lemma ReclaimServes(c: State, w: Worker)
    requires CanTakeBack(c, Miner(0, w))
    ensures var a := ActReclaim(0, w);
      StoreToServe(c, a, NO_ORACLE) == Some(TakenBack(c, Miner(0, w))) && a.pid == 0
  {
    hide CanTakeBack, TakenBack;
  }

  lemma HangsMeans(c: State, a: Action)
    requires Safe(c, a, NO_ORACLE, Step(c, a, NO_ORACLE)) && Hangs(c, a, NO_ORACLE)
    ensures Step(c, a, NO_ORACLE) == Diverge
  {
    hide Hangs, Step;
  }

  lemma AllBackAllowed(pool: PoolInfo, ve: Bits)
    requires ve > 0 && Back(BACK, ve, ve) == BACK
    ensures SlashAllowed(pool, BACK - Back(BACK, ve, ve))
  {
    hide Back;
  }

  lemma BackInPool(v: Store, pool: PoolInfo, ve: Bits)
    requires 0 in v.pools && v.pools[0] == pool && ve > 0 && Back(BACK, ve, ve) == BACK
    requires pool == PlainPool(RICH_TOTAL, RICH_STAKE, 0).(
                       workers := [1, 2], withdrawQueue := [WithdrawInfo(13, RICH_SHARES, 0)], releasingStake := BACK)
    ensures var v' := SavePool(v, 0, PoolWithBack(pool, Cools(BACK, ve, ve, 0)));
      && 0 in v'.pools && v'.stakers == v.stakers
      && v'.pools[0] == PlainPool(RICH_TOTAL, RICH_STAKE, BACK).(
                          workers := [1, 2], withdrawQueue := [WithdrawInfo(13, RICH_SHARES, 0)])
  {
    hide Back;
  }
}
