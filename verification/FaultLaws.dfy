/**
  Runs from the empty chain to debug assertions that fail, to a request nobody owns and the panic it leads to, and
  to stake that is lost. Workers start with the tokenomic parameters of a new chain, but for the last run, which
  says so.
*/
module FaultLaws {
  import opened Base
  import opened FixedPoint
  import opened Pool
  import opened PoolLaws
  import opened Vault
  import opened VaultLaws
  import opened QueueLaws
  import opened CallLaws
  import opened Mining
  import opened Tokenomic
  import opened Chain
  import opened ChainLaws
  import opened MinerLaws
  import opened StepLaws
  import opened SafetyLaws
  import opened AssertionLaws
  import opened PanicLaws
  import opened Scenes
  import opened PumpedRuns

  // ---------------------------------------------------------------- a round that serves dust

  const SMALL: nat := 10009764625
  const LARGE: nat := 1000000000000000
  const FRESH: nat := 10009765625

  /** All stake is lent, and both stakers wait for all of theirs. */
  const WAITING: PoolInfo := PlainPool(SMALL + LARGE, SMALL + LARGE, 0).(
    workers := [1], withdrawQueue := [WithdrawInfo(1, SMALL, 0), WithdrawInfo(2, LARGE, 0)])

  lemma DustNumbers()
    ensures Div(LARGE, ONE) == LARGE && Div(FRESH, ONE) == FRESH && Div(1001, ONE) == 1000 && Div(0, ONE) == 0
    ensures Mul(SMALL, ONE) == SMALL - 1
  {
    hide ToFixed, Div, Mul;
    FixedIs(1000000000000000, 18446744073709551616000);
    FixedIs(10009765625, 184647584722190336);
    FixedIs(1001, 18465190817);
    FixedIs(0, 0);
    FixedIs(10009764625, 184647566275446262);
    BuysIs(1000000000000000, 18446744073709551616, 18446744073709551616000, 18446744073709551616000, 1000000000000000);
    BuysIs(10009765625, 18446744073709551616, 184647584722190336, 184647584722190336, 10009765625);
    BuysIs(1001, 18446744073709551616, 18465190817, 18465190817, 1000);
    BuysIs(0, 18446744073709551616, 0, 0, 0);
    ProductIs(10009764625, 18446744073709551616, 184647566275446262, 184647566275446262, 10009764624);
  }

  lemma TwoFounders() returns (c: State, moves: seq<Move>, s: Scene)
    ensures Reached(c, moves) && Shows(c, s) && (forall k :: k in s.stakers ==> k.1 <= 2) && s.funded.Keys == {1, 2}
    ensures s.pool == PlainPool(SMALL + LARGE, SMALL + LARGE, SMALL + LARGE) && s.hands == map[] && s.now == 0
    ensures (0, 1) in s.stakers && s.stakers[(0, 1)] == UserStakeInfo(1, SMALL, SMALL, 0, 0)
    ensures (0, 2) in s.stakers && s.stakers[(0, 2)] == UserStakeInfo(2, LARGE, LARGE, 0, 0)
  {
    hide Reached, Shows, SharesFor, SharePrice, Div, Mul;
    FirstSharesFor(SMALL);
    DustNumbers();
    var c0, moves0 := Opens();
    var c1, moves1 := Funds(c0, moves0, FIRST, 1, SMALL);
    var c2, moves2, s2 := Deposits(c1, moves1, FIRST.(funded := map[1 := SMALL]), 1, SMALL, SMALL);
    var c3, moves3 := Funds(c2, moves2, s2, 2, LARGE);
    PriceIsOne(s2.pool);
    c, moves, s := Deposits(c3, moves3, s2.(funded := s2.funded[2 := LARGE]), 2, LARGE, LARGE);
  }

  lemma WithoutOther(shares: nat)
    ensures Without([], 1) == [] && Without([WithdrawInfo(1, shares, 0)], 2) == [WithdrawInfo(1, shares, 0)]
  {
    assert [WithdrawInfo(1, shares, 0)][1..] == [];
  }

  lemma BothWait() returns (c: State, moves: seq<Move>, s: Scene)
    ensures Reached(c, moves) && Shows(c, s) && s.pool == WAITING && (0, 3) !in s.stakers && Get(s.funded, 3) == FRESH
    ensures (0, 1) in s.stakers && s.stakers[(0, 1)] == UserStakeInfo(1, SMALL, SMALL, 0, 0)
    ensures (0, 2) in s.stakers && s.stakers[(0, 2)] == UserStakeInfo(2, LARGE, LARGE, 0, 0)
  {
    hide Reached, Shows, SharesFor, SharePrice, Div, Mul;
    DefaultQuotes(SMALL + LARGE);
    DustNumbers();
    var c0, moves0, s0 := TwoFounders();
    var c1, moves1, s1 := Joins(c0, moves0, s0, 1);
    var c2, moves2, s2 := Lends(c1, moves1, s1, 1, SMALL + LARGE, DefaultQuote(SMALL + LARGE));
    PriceIsOne(s2.pool);
    var c3, moves3 := Asks(c2, moves2, s2, 1, SMALL, ONE);
    WithoutOther(SMALL);
    var s3 := WithRequest(s2, 1, SMALL);
    assert s3.pool == PlainPool(SMALL + LARGE, SMALL + LARGE, 0).(
                        workers := [1], withdrawQueue := [WithdrawInfo(1, SMALL, 0)]);
    PriceIsOne(s3.pool);
    var c4, moves4 := Asks(c3, moves3, s3, 2, LARGE, ONE);
    var s4 := WithRequest(s3, 2, LARGE);
    assert s4.pool == WAITING;
    c, moves := Funds(c4, moves4, s4, 3, FRESH);
    s := s4.(funded := s4.funded[3 := FRESH]);
  }

  /** The first round pays the first request and leaves 1001 pico, and those pay for 1000 shares of the second. */
  lemma DustServed(v: Store)
    requires 0 in v.pools && v.pools[0] == WithDeposit(WAITING, FRESH, FRESH)
    requires (0, 1) in v.stakers && v.stakers[(0, 1)] == UserStakeInfo(1, SMALL, SMALL, 0, 0)
    requires (0, 2) in v.stakers && v.stakers[(0, 2)] == UserStakeInfo(2, LARGE, LARGE, 0, 0)
    ensures !RoundsAsserted(v, 0, ONE, NO_ORACLE.slash)
  {
    hide RoundsAsserted, ServeOne, Save, Mul, Div, SharePrice;
    PriceIsOne(v.pools[0]);
    DustNumbers();
    var user := v.stakers[(0, 1)];
    ServedWhole(v, ONE, SMALL - 1);
    var d: Desk :|
      && d.pool == PaidPool(v.pools[0], user, SMALL, SMALL - 1).(withdrawQueue := v.pools[0].withdrawQueue[1..])
      && d.user == PaidUser(user, SMALL, ONE, SMALL - 1)
      && ServeOne(v, 0, ONE, NO_ORACLE.slash) == Ok(Save(v, 0, 1, d));
    var v1 := Save(v, 0, 1, d);
    SavedPurses(v, 1, d);
    assert v1.pools[0].freeStake == 1001 && v1.pools[0].withdrawQueue == [WithdrawInfo(2, LARGE, 0)];
    assert LoopGuard(v1, 0) && !RoundAsserted(v1, 0, ONE);
    NotAssertedNow(v1, ONE);
    NotAssertedLater(v, v1, ONE);
  }

  lemma NotAssertedNow(v: Store, price: Bits)
    requires 0 in v.pools && LoopGuard(v, 0) && !RoundAsserted(v, 0, price)
    ensures !RoundsAsserted(v, 0, price, NO_ORACLE.slash)
  {
    hide RoundAsserted;
  }

  lemma NotAssertedLater(v: Store, v': Store, price: Bits)
    requires 0 in v.pools && LoopGuard(v, 0) && ServeOne(v, 0, price, NO_ORACLE.slash) == Ok(v')
    requires 0 in v'.pools && Progress(v.pools[0], v'.pools[0]) && !RoundsAsserted(v', 0, price, NO_ORACLE.slash)
    ensures !RoundsAsserted(v, 0, price, NO_ORACLE.slash)
  {
    hide ServeOne, RoundAsserted, Progress;
  }

  /**
    There is a run from the empty chain after which a contribution to an unslashed pool pays one request in full
    and then serves 1000 shares of the next, which is dust: the assertion of the round fails.
  */
  lemma RoundServesDust() returns (c: State, moves: seq<Move>)
    ensures Reached(c, moves) && Accepts(c.v, 3, 0, FRESH)
    ensures var v := Deposited(c.v, 3, 0, FRESH, NO_ORACLE.slash);
      && 0 in v.pools && SharePrice(v.pools[0]) == Some(ONE)
      && !RoundsAsserted(v, 0, ONE, NO_ORACLE.slash)
  {
    var s: Scene;
    c, moves, s := BothWait();
    hide Reached, SharesFor, SharePrice, Div, Save, RoundsAsserted, Staffed, Accepts, Deposited, Contribute;
    DustNumbers();
    PriceIsOne(s.pool);
    FirstDeposit(c.v, 3, FRESH, FRESH);
    var d := Desk(WithDeposit(WAITING, FRESH, FRESH), UserStakeInfo(3, FRESH, FRESH, 0, 0),
      Purse(FRESH, FRESH, FRESH, 0), 1);
    SavedPurses(c.v, 3, d);
    PriceIsOne(d.pool);
    DustServed(Save(c.v, 0, 3, d));
  }

  // ---------------------------------------------------------------- a dirty slash

  /**
    A slash that has just been settled does not pass for clean once the price was driven up: account 1 has 1001
    pico locked, and its shares are worth over two million.
  */
  lemma SlashUnclean() returns (c: State, moves: seq<Move>)
    ensures Reached(c, moves) && 0 in c.v.pools && (0, 1) in c.v.stakers && c.v.pools[0].totalShares > 0
    ensures !SlashClean(c.v.pools[0], SettleSlash(DeskOf(c.v, 0, 1), NO_ORACLE.slash).user)
  {
    var s: Scene;
    c, moves, s := Pumped();
    hide Reached, SharePrice, Mul, SettleSlash, SlashClean, ToFixed, Staffed, Accounts;
    FixedLeft();
    FixedIs(2041348, 37656224121378);
    PriceIs(s.pool, 37656224121378, LEFT_BITS, 37618605517457853453298);
    ProductIs(LEFT, 37618605517457853453298, LEFT_BITS, 37656224121377, 2041347);
    SceneParts(c, s);
    SlashCleanWhen(DeskOf(c.v, 0, 1), NO_ORACLE.slash);
  }

  // ---------------------------------------------------------------- a request nobody owns

  const HELD: nat := 2400000000000000

  /** The shares are worth a third of what they were, and all of them are waited for. */
  const SLASHED: PoolInfo := PlainPool(HELD, 800000000000900, 900).(
    workers := [1, 2], withdrawQueue := [WithdrawInfo(1, HELD, 0)])
  /** And after 1500 of them went at once. */
  const ORPHANED: PoolInfo := PlainPool(HELD - 1500, 800000000000401, 401).(
    workers := [1, 2], withdrawQueue := [WithdrawInfo(1, HELD, 0)])

  lemma SlashedBack()
    ensures var ve := DefaultQuote(1600000000000000).ve; ve > 0 && Back(1600000000000000, ve, 21841683819) == 900
  {
    hide ToFixed;
    FixedIs(1600000000000000, 29514790517935282585600);
    var ve := DefaultQuote(1600000000000000).ve;
    assert ve == 38829658405395657769955;
    QuotientIs(21841683819, 38829658405395657769955, 10376294);
    ProductIs(1600000000000000, 10376294, 29514790517935282585600, 16602070400, 900);
  }

  lemma SlashedPrice()
    ensures Pays(SLASHED, UserStakeInfo(1, HELD, HELD, 0, 0), 1500, 6148914691243434734, 499)
    ensures PaidPool(SLASHED, UserStakeInfo(1, HELD, HELD, 0, 0), 1500, 499) == ORPHANED
    ensures PaidUser(UserStakeInfo(1, HELD, HELD, 0, 0), 1500, 6148914691243434734, 499).shares == HELD - 1500
  {
    hide ToFixed, SharePrice, Mul, Div;
    FixedIs(800000000000900, 14757395258984243362466);
    FixedIs(2400000000000000, 44272185776902923878400);
    FixedIs(900, 16602069666);
    FixedIs(1500, 27670116110);
    PriceIs(SLASHED, 14757395258984243362466, 44272185776902923878400, 6148914691243434734);
    BuysIs(900, 6148914691243434734, 16602069666, 49806208997, 2699);
    ProductIs(1500, 6148914691243434734, 27670116110, 9223372036, 499);
    ProductIs(2400000000000000, 6148914691243434734, 44272185776902923878400, 14757395258984243361600, 800000000000899);
  }

  lemma OrphanedPrice()
    ensures SharesFor(ORPHANED, HELD) == 7199999999991891
    ensures SharePrice(WithDeposit(ORPHANED, HELD, 7199999999991891)) == Some(6148914691243442420)
    ensures Div(2400000000000401, 6148914691243442420) >= HELD
  {
    hide ToFixed, SharePrice, Div;
    FixedIs(800000000000401, 14757395258975038437173);
    FixedIs(2399999999998500, 44272185776875253762289);
    FixedIs(2400000000000000, 44272185776902923878400);
    FixedIs(3200000000000401, 59029581035877962315573);
    FixedIs(9599999999990391, 177088743107434440749795);
    FixedIs(2400000000000401, 44272185776910321022773);
    PriceIs(ORPHANED, 14757395258975038437173, 44272185776875253762289, 6148914691243442420);
    PriceIs(WithDeposit(ORPHANED, HELD, 7199999999991891), 59029581035877962315573, 177088743107434440749795,
      6148914691243442420);
    BuysIs(2400000000000000, 6148914691243442420, 44272185776902923878400, 132816557330559186998400, 7199999999991891);
    BuysIs(2400000000000401, 6148914691243442420, 44272185776910321022773, 132816557330581378431519, 7199999999993094);
  }

  /** Account 1 contributes, two workers are lent all of it, and all its shares are queued. */
  lemma AllQueued() returns (c: State, moves: seq<Move>, s: Scene)
    ensures Reached(c, moves) && Shows(c, s) && s.now == 0
    ensures s.pool == PlainPool(HELD, HELD, 0).(workers := [1, 2], withdrawQueue := [WithdrawInfo(1, HELD, 0)])
    ensures s.stakers == map[(0, 1) := UserStakeInfo(1, HELD, HELD, 0, 0)] && s.funded == map[1 := HELD]
    ensures 2 in s.hands
    ensures s.hands[2] == Busy(1600000000000000, DefaultQuote(1600000000000000).ve, DefaultQuote(1600000000000000).ve)
  {
    hide Reached, Shows, SharesFor, SharePrice, Div, DefaultQuote;
    FirstSharesFor(HELD);
    DefaultLends(800000000000000);
    DefaultLends(1600000000000000);
    DustNumbers();
    var c0, moves0 := Opens();
    var c1, moves1 := Funds(c0, moves0, FIRST, 1, HELD);
    var c2, moves2, s2 := Deposits(c1, moves1, FIRST.(funded := map[1 := HELD]), 1, HELD, HELD);
    var c3, moves3, s3 := Joins(c2, moves2, s2, 1);
    var c4, moves4, s4 := Joins(c3, moves3, s3, 2);
    var c5, moves5, s5 := Lends(c4, moves4, s4, 1, 800000000000000, DefaultQuote(800000000000000));
    var c6, moves6, s6 := Lends(c5, moves5, s5, 2, 1600000000000000, DefaultQuote(1600000000000000));
    PriceIsOne(s6.pool);
    assert Without([], 1) == [];
    c, moves := Asks(c6, moves6, s6, 1, HELD, ONE);
    s := WithRequest(s6, 1, HELD);
  }

  /** The gatekeeper lowers the V of one worker to almost nothing, and its stake is reclaimed. */
  lemma SlashedPool() returns (c: State, moves: seq<Move>, s: Scene)
    ensures Reached(c, moves) && Shows(c, s) && s.pool == SLASHED
    ensures s.stakers == map[(0, 1) := UserStakeInfo(1, HELD, HELD, 0, 0)] && s.funded == map[1 := HELD, 2 := HELD]
  {
    hide Reached, Shows, Back, DefaultQuote, Expected;
    SlashedBack();
    var c0, moves0, s0 := AllQueued();
    var c1, moves1 := Funds(c0, moves0, s0, 2, HELD);
    var s1 := s0.(funded := map[1 := HELD, 2 := HELD]);
    var c2, moves2, s2 := Settles(c1, moves1, s1, 2, 21841683819);
    var c3, moves3, s3 := Stops(c2, moves2, s2, 2);
    var c4, moves4 := Waits(c3, moves3, s3, WEEK);
    c, moves, s := Reclaims(c4, moves4, s3.(now := WEEK), 2);
  }

  /**
    Issue 527 does occur. There is a run from the empty chain, all of whose withdrawals keep requests owned, to a
    withdrawal that is paid at once and leaves a request for more shares than its account then has; and the
    next contribution, by an account that did nothing before, panics.
  */
  lemma RequestNobodyOwns() returns (c: State, moves: seq<Move>, c': State)
    ensures Reached(c, moves) && AllWithin(c.v)
    ensures Step(c, ActWithdraw(1, 0, 1500), NO_ORACLE) == Ok(c') && !AllWithin(c'.v)
    ensures Step(c', ActContribute(2, 0, HELD), NO_ORACLE) == Panic
  {
    hide *;
    var s, s': Scene;
    c, moves, s := SlashedPool();
    ReachedOk(c, moves);
    SlashedPrice();
    SlashedUser(s);
    c', s' := Withdraws(c, s, 1, 1500, 6148914691243434734, 499);
    NobodyOwns(c', s');
    AnyWithdrawal(c, ActWithdraw(1, 0, 1500));
    StepKeeps(c, ActWithdraw(1, 0, 1500), NO_ORACLE);
    PanicsHere(c', s');
  }

  lemma AnyWithdrawal(c: State, a: Action)
    requires a.ActWithdraw?
    ensures Admissible(c, a)
  {
  }

  lemma SlashedUser(s: Scene)
    requires s.stakers == map[(0, 1) := UserStakeInfo(1, HELD, HELD, 0, 0)] && s.funded == map[1 := HELD, 2 := HELD]
    ensures Get(s.funded, 2) == HELD
    ensures (0, 1) in s.stakers && s.stakers[(0, 1)] == UserStakeInfo(1, HELD, HELD, 0, 0)
    ensures s.stakers[(0, 1)].rewardDebt == 0
  {
  }

  lemma NobodyOwns(c: State, s: Scene)
    requires Shows(c, s) && s.pool == ORPHANED && (0, 1) in s.stakers && s.stakers[(0, 1)].shares == HELD - 1500
    ensures !AllWithin(c.v)
  {
    hide Staffed;
    assert c.v.pools[0].withdrawQueue[0] == WithdrawInfo(1, HELD, 0);
    assert !WithinShares(c.v, 0);
  }

  lemma PanicsHere(c: State, s: Scene)
    requires Inv(c) && Shows(c, s) && s.pool == ORPHANED && (0, 2) !in s.stakers && Get(s.funded, 2) == HELD
    requires (0, 1) in s.stakers && s.stakers[(0, 1)].shares == HELD - 1500
    ensures Step(c, ActContribute(2, 0, HELD), NO_ORACLE) == Panic
  {
    hide Inv, SharesFor, SharePrice, Div, Step, Save, Staffed, Contribute, ProcessQueue, QueueOverdraws, Accepts,
         Deposited;
    OrphanedPrice();
    FirstDeposit(c.v, 2, HELD, 7199999999991891);
    var d := Desk(WithDeposit(ORPHANED, HELD, 7199999999991891), UserStakeInfo(2, HELD, 7199999999991891, 0, 0),
      Purse(HELD, HELD, HELD, 0), 1);
    SavedPurses(c.v, 2, d);
    OverdrawsHere(Save(c.v, 0, 2, d));
    StepPanicsWhen(c, ActContribute(2, 0, HELD), NO_ORACLE);
  }

  lemma OverdrawsHere(v: Store)
    requires 0 in v.pools && v.pools[0] == WithDeposit(ORPHANED, HELD, 7199999999991891)
    requires (0, 1) in v.stakers && v.stakers[(0, 1)].shares == HELD - 1500
    ensures QueueOverdraws(v, 0, NO_ORACLE.slash)
  {
    hide SharePrice, Div, ServeOne, Progress;
    OrphanedPrice();
  }

  // ---------------------------------------------------------------- stake that is lost

  const BOUGHT: nat := 4903622
  const ORPHANS: nat := 2040347

  lemma LastPrices()
    ensures SharesFor(PlainPool(LEFT, 2041348, 2041348), AMOUNT) == BOUGHT
    ensures Pays(PlainPool(LEFT + BOUGHT, 10002041348, 10002041348), UserStakeInfo(1, LEFT, LEFT, 0, 0), LEFT,
      37618609414264468736851, LEFT)
    ensures Pays(PlainPool(BOUGHT, 10002040347, 10002040347), UserStakeInfo(13, AMOUNT, BOUGHT, 0, 0), BOUGHT - 1000,
      37626284916746777335421, AMOUNT)
  {
    hide ToFixed, SharePrice, Mul, Div;
    FixedLeft();
    FixedIs(2041348, 37656224121378);
    FixedIs(4903622, 90455860068211);
    FixedIs(4902622, 90437413324138);
    FixedIs(10002041348, 184505096961216895);
    FixedIs(4904623, 90474325259029);
    FixedIs(10002040347, 184505078496026077);
    PriceIs(PlainPool(LEFT, 2041348, 2041348), 37656224121378, LEFT_BITS, 37618605517457853453298);
    PriceIs(PlainPool(LEFT + BOUGHT, 10002041348, 10002041348), 184505096961216895, 90474325259029,
      37618609414264468736851);
    PriceIs(PlainPool(BOUGHT, 10002040347, 10002040347), 184505078496026077, 90455860068211, 37626284916746777335421);
    BuysIs(10000000000, 37618605517457853453298, 184467440737095516, 90455869440195, 4903622);
    BuysIs(10002041348, 37618609414264468736851, 184505096961216895, 90474325259029, 4904622);
    BuysIs(10002040347, 37626284916746777335421, 184505078496026077, 90455860068211, 4903621);
    ProductIs(1001, 37618609414264468736851, 18465190817, 37656228022081, 2041348);
    ProductIs(4902622, 37626284916746777335421, 90437413324138, 184467452211110777, 10000000622);
    ProductIs(4903622, 37626284916746777335421, 90455860068211, 184505078496026076, 10002040346);
  }

  /** Account 13 comes, and then everybody goes: the stake of the last 1000 shares has no owner. */
  lemma EverybodyGone() returns (c: State, moves: seq<Move>, s: Scene)
    ensures Reached(c, moves) && Shows(c, s) && s.pool == PlainPool(0, ORPHANS, ORPHANS)
    ensures s.hands == map[] && s.now == 0
  {
    hide Reached, Shows, SharesFor, Pays, Kept, Unused;
    LastPrices();
    var c0, moves0, s0 := Pumped();
    Unused13(s0);
    var c1, moves1 := Funds(c0, moves0, s0, 13, AMOUNT);
    var c2, moves2, s2 := Deposits(c1, moves1, s0.(funded := s0.funded[13 := AMOUNT]), 13, AMOUNT, BOUGHT);
    var c3, moves3, s3 := Leaves(c2, moves2, s2, 1, LEFT, 37618609414264468736851, LEFT);
    c, moves, s := Leaves(c3, moves3, s3, 13, BOUGHT - 1000, 37626284916746777335421, AMOUNT);
  }

  lemma Unused13(s: Scene)
    requires Unused(s, 13)
    ensures (0, 13) !in s.stakers && 13 !in s.funded
  {
  }

  /** A tokenomic whose minimal stake is 1500 pico, as its `k` is small. */
  const SMALL_K: TokenomicParams := DEFAULT.(k := 3_458_764_514)

  function SmallQuote(stake: nat): Quote { DefaultQuote(stake).(minimalStake := 1500) }

  lemma SmallQuotes(stake: nat)
    ensures Quotes(SMALL_K, stake, P, 1, 8 * ONE, SmallQuote(stake)) && IsQuote(stake, SmallQuote(stake))
  {
    assert FixMul(DEFAULT.re - ONE, ONE) == DEFAULT.re - ONE;
    assert RigCost(DEFAULT, P) == 354_177_486_215_223_391_040 == RigCost(SMALL_K, P);
    assert IsRoot(P * ONE, 8 * ONE);
    assert MinimalStake(SMALL_K, 8 * ONE) == 1500;
    hide IsRoot, MinimalStake, RigCost;
  }

  lemma OrphansBack()
    ensures var ve := SmallQuote(ORPHANS).ve; 0 < ve <= DEFAULT.vMax && Back(ORPHANS, ve, 115107695252219254) == 510
  {
    hide ToFixed;
    FixedIs(2040347, 37637758930561);
    var ve := SmallQuote(ORPHANS).ve;
    assert ve == 460430781008877018085;
    QuotientIs(115107695252219254, 460430781008877018085, 4611686018427387);
    ProductIs(ORPHANS, 4611686018427387, 37637758930561, 9409439732, 510);
  }

  /** What nobody owns is lent to a worker, which is slashed down to 510 pico and cools down. */
  lemma OrphansLent() returns (c: State, moves: seq<Move>, s: Scene)
    ensures Reached(c, moves) && Shows(c, s) && s.now == WEEK
    ensures s.pool == PlainPool(0, ORPHANS, 0).(workers := [1], releasingStake := 510)
    ensures 1 in s.hands && s.hands[1] == Cools(ORPHANS, SmallQuote(ORPHANS).ve, 115107695252219254, 0)
  {
    hide Reached, Shows, Back, DefaultQuote, Expected;
    OrphansBack();
    SmallQuotes(ORPHANS);
    var c0, moves0, s0 := EverybodyGone();
    var c1, moves1, s1 := Joins(c0, moves0, s0, 1);
    var c2, moves2, s2 := Lends(c1, moves1, s1, 1, ORPHANS, SmallQuote(ORPHANS));
    var c3, moves3, s3 := Settles(c2, moves2, s2, 1, 115107695252219254);
    var c4, moves4, s4 := Stops(c3, moves3, s3, 1);
    c, moves := Waits(c4, moves4, s4, WEEK);
    s := s4.(now := s4.now + WEEK);
  }

  /**
    A slash without shares does occur. There is a run from the empty chain to a reclaim that slashes a pool
    without shares, which the pool asserts not to happen, and leaves it with 510 pico free and no total stake,
    whatever its miners hold.
  */
  lemma SlashWithoutShares() returns (c: State, moves: seq<Move>, c': State)
    ensures Reached(c, moves) && 0 in c.v.pools && c.v.pools[0].totalShares == 0
    ensures Step(c, ActReclaim(0, 1), NO_ORACLE) == Ok(c') && 0 in c'.v.pools
    ensures c'.v.pools[0].totalStake == 0 && c'.v.pools[0].freeStake == 510
    ensures forall staked: nat :: !Backed(c'.v.pools[0], staked)
  {
    hide *;
    var s: Scene;
    c, moves, s := OrphansLent();
    ReachedOk(c, moves);
    SceneParts(c, s);
    HandIs(c, s.hands, 1);
    CanReclaimHand(c, 1, s.hands[1]);
    OrphansBack();
    OrphansTaken(c.v, s.pool);
    NothingServed(TakenBack(c, Miner(0, 1)), NO_ORACLE.slash);
    c' := c.(m := ReclaimedMines(c.m, Miner(0, 1)), v := TakenBack(c, Miner(0, 1)));
    TakenIs(c, c');
    Unbacked(c'.v.pools[0]);
  }

  lemma OrphansTaken(v: Store, pool: PoolInfo)
    requires 0 in v.pools && v.pools[0] == pool == PlainPool(0, ORPHANS, 0).(workers := [1], releasingStake := 510)
    requires var ve := SmallQuote(ORPHANS).ve; ve > 0 && Back(ORPHANS, ve, 115107695252219254) == 510
    ensures var v' := SavePool(v, 0, PoolWithBack(pool, Cools(ORPHANS, SmallQuote(ORPHANS).ve, 115107695252219254, 0)));
      && 0 in v'.pools && v'.pools[0] == PlainPool(0, 0, 510).(workers := [1])
      && v'.pools[0].withdrawQueue == []
    ensures pool.totalShares == 0
  {
    hide Back, SmallQuote;
  }

  lemma TakenIs(c: State, c': State)
    requires CanTakeBack(c, Miner(0, 1))
    requires c' == c.(m := ReclaimedMines(c.m, Miner(0, 1)), v := TakenBack(c, Miner(0, 1)))
    ensures WithStore(c.(m := ReclaimedMines(c.m, Miner(0, 1))), Ok(TakenBack(c, Miner(0, 1)))) == Ok(c')
  {
    hide CanTakeBack, TakenBack, ReclaimedMines;
  }

  lemma Unbacked(pool: PoolInfo)
    requires pool == PlainPool(0, 0, 510).(workers := [1])
    ensures pool.totalStake == 0 && pool.freeStake == 510 && forall staked: nat :: !Backed(pool, staked)
  {
  }
}
