/**
  A share price driven up from the empty chain: an account that withdraws all but 1000 of its shares loses them as
  dust, and their stake stays in the pool. Eleven accounts, each with the least contribution there is, take the
  price of 1001 shares from one pico to over 2000.
*/
module PumpedRuns {
  import opened Base
  import opened FixedPoint
  import opened Pool
  import opened Vault
  import opened Chain
  import opened Scenes

  // ---------------------------------------------------------------- quotients by their bounds

  lemma FixedIs(n: nat, b: Bits)
    requires b * SCALE <= n * ONE < (b + 1) * SCALE
    ensures ToFixed(n) == b
  {
    DivUnique(n * ONE, SCALE, b);
  }

  lemma QuotientIs(a: Bits, b: Bits, q: Bits)
    requires b > 0 && q * b <= a * ONE < (q + 1) * b
    ensures FixDiv(a, b) == q
  {
    DivUnique(a * ONE, b, q);
  }

  lemma ProductIs(x: nat, y: Bits, b: Bits, m: Bits, n: nat)
    requires ToFixed(x) == b && m * ONE <= b * y < (m + 1) * ONE && n * ONE <= m * SCALE < (n + 1) * ONE
    ensures Mul(x, y) == n
  {
    DivUnique(b * y, ONE, m);
    DivUnique(m * SCALE, ONE, n);
  }

  lemma BuysIs(x: nat, y: Bits, b: Bits, q: Bits, n: nat)
    requires ToFixed(x) == b && y > 0 && q * y <= b * ONE < (q + 1) * y && n * ONE <= q * SCALE < (n + 1) * ONE
    ensures Div(x, y) == n
  {
    DivUnique(b * ONE, y, q);
    DivUnique(q * SCALE, ONE, n);
  }

  lemma PriceIs(pool: PoolInfo, s: Bits, t: Bits, price: Bits)
    requires ToFixed(pool.totalStake) == s && ToFixed(pool.totalShares) == t > 0
    requires price * t <= s * ONE < (price + 1) * t
    ensures SharePrice(pool) == Some(price)
    ensures price > 0 ==> forall amount :: SharesFor(pool, amount) == Div(amount, price)
  {
    QuotientIs(s, t, price);
    hide Div, ToFixed;
  }

  lemma FirstSharesFor(amount: nat)
    ensures SharesFor(PlainPool(0, 0, 0), amount) == amount
  {
    FixedIs(0, 0);
  }

  lemma PriceIsOne(pool: PoolInfo)
    requires pool.totalStake == pool.totalShares > 0
    ensures SharePrice(pool) == Some(ONE)
    ensures forall amount :: SharesFor(pool, amount) == Div(amount, ONE)
  {
    ToFixedPositive(pool.totalStake);
    PriceIs(pool, ToFixed(pool.totalStake), ToFixed(pool.totalStake), ONE);
    hide Div;
  }

  // ---------------------------------------------------------------- one cycle

  /** One token's hundredth: the least contribution. */
  const AMOUNT: nat := MIN_CONTRIBUTION
  const AMOUNT_BITS: Bits := 184_467_440_737_095_516
  const LEFT: nat := 1001
  const LEFT_BITS: Bits := 18_465_190_817

  /**
    One cycle in numbers. A contribution to `stake` with 1001 shares buys `shares` at `price`; all but 1000
    of them go at `price'` for their `worth`, and `after` stays. The other fields are bits on the way.
  */
  datatype Cycle = Cycle(stake: nat, shares: nat, after: nat, stakeBits: Bits, sumBits: Bits, totalBits: Bits,
    takenBits: Bits, sharesBits: Bits, price: Bits, price': Bits, bought: Bits, payable: Bits, payableShares: nat,
    worthBits: Bits, allBits: Bits, worth: nat, all: nat)

  predicate IsFixed(n: nat, b: Bits) { b * SCALE <= n * ONE < (b + 1) * SCALE }

  predicate IsBalance(b: Bits, n: nat) { n * ONE <= b * SCALE < (n + 1) * ONE }

  predicate Right(x: Cycle) {
    && x.shares > 2001 && x.stake > 0
    && IsFixed(x.stake, x.stakeBits) && IsFixed(x.stake + AMOUNT, x.sumBits) && IsFixed(LEFT + x.shares, x.totalBits)
    && IsFixed(x.shares - 1000, x.takenBits) && IsFixed(x.shares, x.sharesBits)
    && x.price > 0 && x.price * LEFT_BITS <= x.stakeBits * ONE < (x.price + 1) * LEFT_BITS
    && x.price' > 0 && x.totalBits > 0
    && x.price' * x.totalBits <= x.sumBits * ONE < (x.price' + 1) * x.totalBits
    && x.bought * x.price <= AMOUNT_BITS * ONE < (x.bought + 1) * x.price && IsBalance(x.bought, x.shares)
    && x.payable * x.price' <= x.sumBits * ONE < (x.payable + 1) * x.price' && IsBalance(x.payable, x.payableShares)
    && x.payableShares >= x.shares - 1000
    && x.worthBits * ONE <= x.takenBits * x.price' < (x.worthBits + 1) * ONE && IsBalance(x.worthBits, x.worth)
    && x.allBits * ONE <= x.sharesBits * x.price' < (x.allBits + 1) * ONE && IsBalance(x.allBits, x.all)
    && x.worth <= x.stake + AMOUNT && x.after > 1000
    && x.after + Min(x.worth, ExtractDust(Min(x.all, AMOUNT)).0) == x.stake + AMOUNT
  }

  /** The pool has 1001 shares, all of account 1, and the accounts from `n` on are unused. */
  predicate Stage(s: Scene, n: nat, stake: nat) {
    && s == s.(times := [], queued := map[], hands := map[], now := 0)
    && s.pool == PlainPool(LEFT, stake, stake)
    && (0, 1) in s.stakers && s.stakers[(0, 1)] == UserStakeInfo(1, LEFT, LEFT, 0, 0)
  }

  ghost predicate Unused(s: Scene, n: nat) {
    forall w: Account :: w >= n ==> (0, w) !in s.stakers && w !in s.funded
  }

  lemma FixedLeft()
    ensures ToFixed(LEFT) == LEFT_BITS && ToFixed(AMOUNT) == AMOUNT_BITS
  {
    FixedIs(LEFT, LEFT_BITS);
    FixedIs(AMOUNT, AMOUNT_BITS);
  }

  lemma BuysInCycle(x: Cycle)
    requires Right(x)
    ensures SharesFor(PlainPool(LEFT, x.stake, x.stake), AMOUNT) == x.shares
  {
    hide ToFixed, Div;
    FixedLeft();
    FixedIs(x.stake, x.stakeBits);
    PriceIs(PlainPool(LEFT, x.stake, x.stake), x.stakeBits, LEFT_BITS, x.price);
    BuysIs(AMOUNT, x.price, AMOUNT_BITS, x.bought, x.shares);
  }

  lemma PaysInCycle(x: Cycle, who: Account)
    requires Right(x)
    ensures var pool := PlainPool(LEFT + x.shares, x.stake + AMOUNT, x.stake + AMOUNT);
      Pays(pool, UserStakeInfo(who, AMOUNT, x.shares, 0, 0), x.shares - 1000, x.price', x.stake + AMOUNT - x.after)
  {
    var pool := PlainPool(LEFT + x.shares, x.stake + AMOUNT, x.stake + AMOUNT);
    hide ToFixed, Div, Mul, SharePrice;
    FixedIs(x.stake + AMOUNT, x.sumBits);
    FixedIs(LEFT + x.shares, x.totalBits);
    FixedIs(x.shares - 1000, x.takenBits);
    FixedIs(x.shares, x.sharesBits);
    PriceIs(pool, x.sumBits, x.totalBits, x.price');
    BuysIs(x.stake + AMOUNT, x.price', x.sumBits, x.payable, x.payableShares);
    ProductIs(x.shares - 1000, x.price', x.takenBits, x.worthBits, x.worth);
    ProductIs(x.shares, x.price', x.sharesBits, x.allBits, x.all);
  }

  lemma Pump(c: State, moves: seq<Move>, s: Scene, n: nat, x: Cycle) returns (c': State, moves': seq<Move>, s': Scene)
    requires Reached(c, moves) && Shows(c, s) && n >= 2 && Stage(s, n, x.stake) && Unused(s, n) && Right(x)
    ensures Reached(c', moves') && Shows(c', s') && Stage(s', n + 1, x.after) && Unused(s', n + 1)
  {
    hide Reached, Shows, Pays, SharesFor;
    var c1, moves1 := Funds(c, moves, s, n, AMOUNT);
    BuysInCycle(x);
    var c2, moves2, s2 := Deposits(c1, moves1, s.(funded := s.funded[n := AMOUNT]), n, AMOUNT, x.shares);
    PaysInCycle(x, n);
    c', moves', s' := Leaves(c2, moves2, s2, n, x.shares - 1000, x.price', x.stake + AMOUNT - x.after);
  }

  // ---------------------------------------------------------------- the run

  lemma FirstPrice()
    ensures var pool, user := PlainPool(AMOUNT, AMOUNT, AMOUNT), UserStakeInfo(1, AMOUNT, AMOUNT, 0, 0);
      Pays(pool, user, AMOUNT - LEFT, ONE, 9_999_998_998) && Kept(user, ONE) == 9_999_999_999
    ensures SharesFor(PlainPool(0, 0, 0), AMOUNT) == AMOUNT
  {
    hide ToFixed, Mul, Div;
    FixedLeft();
    FixedIs(0, 0);
    FixedIs(9_999_998_999, 184467422271904698);
    PriceIs(PlainPool(AMOUNT, AMOUNT, AMOUNT), AMOUNT_BITS, AMOUNT_BITS, ONE);
    BuysIs(AMOUNT, ONE, AMOUNT_BITS, AMOUNT_BITS, 9_999_999_999);
    ProductIs(9_999_998_999, ONE, 184467422271904698, 184467422271904698, 9_999_998_998);
    ProductIs(AMOUNT, ONE, AMOUNT_BITS, AMOUNT_BITS, 9_999_999_999);
  }

  /** Account 1 contributes and withdraws all but 1001 shares. */
  lemma Staged() returns (c: State, moves: seq<Move>, s: Scene)
    ensures Reached(c, moves) && Shows(c, s) && Stage(s, 2, 1002) && Unused(s, 2)
  {
    hide Reached, Shows, Pays, SharesFor, Mul, Kept, PaidUser, PaidPool;
    FirstPrice();
    FirstPaid();
    var c1, moves1, s1 := Founded();
    c, moves, s := Leaves(c1, moves1, s1, 1, AMOUNT - LEFT, ONE, 9_999_998_998);
  }

  /** The first contribution. */
  lemma Founded() returns (c: State, moves: seq<Move>, s: Scene)
    ensures Reached(c, moves) && Shows(c, s)
    ensures s == FIRST.(pool := PlainPool(AMOUNT, AMOUNT, AMOUNT), funded := map[1 := AMOUNT],
                        stakers := map[(0, 1) := UserStakeInfo(1, AMOUNT, AMOUNT, 0, 0)])
  {
    hide Reached, Shows, SharesFor;
    FirstPrice();
    var c0, moves0 := Opens();
    var c1, moves1 := Funds(c0, moves0, FIRST, 1, AMOUNT);
    c, moves, s := Deposits(c1, moves1, FIRST.(funded := map[1 := AMOUNT]), 1, AMOUNT, AMOUNT);
  }

  lemma FirstPaid()
    requires Kept(UserStakeInfo(1, AMOUNT, AMOUNT, 0, 0), ONE) == 9_999_999_999
    ensures var pool, user := PlainPool(AMOUNT, AMOUNT, AMOUNT), UserStakeInfo(1, AMOUNT, AMOUNT, 0, 0);
      && PaidPool(pool, user, AMOUNT - LEFT, 9_999_998_998) == PlainPool(LEFT, 1002, 1002)
      && PaidUser(user, AMOUNT - LEFT, ONE, 9_999_998_998) == UserStakeInfo(1, LEFT, LEFT, 0, 0)
  {
    hide Kept;
  }

  /** After six cycles. */
  lemma HalfPumped() returns (c: State, moves: seq<Move>, s: Scene)
    ensures Reached(c, moves) && Shows(c, s) && Stage(s, 8, 63951) && Unused(s, 8)
  {
    hide Reached, Shows, Stage, Unused;
    c, moves, s := Staged();
    c, moves, s := Pump(c, moves, s, 2, Cycle(
      1002, 9990019960, 2003, 18483637561, 184467459220733078,
      184283359958560949, 184283323046626058, 184283341493370131, 18465172389394648997, 18465172389615077071,
      184283341495570014, 184283359958560949, 9990020960, 184467422271923126, 184467440737095515, 9999998999,
        9999999999));
    c, moves, s := Pump(c, moves, s, 3, Cycle(
      2003, 4997503744, 4004, 36948828379, 184467477685923895,
      92187691038164113, 92187654126229222, 92187672572973296, 36911916464103201612, 36911916466009057667,
      92187672577733180, 92187691038164113, 4997504744, 184467403825179047, 184467440737095514, 9999997999,
        9999999999));
    c, moves, s := Pump(c, moves, s, 4, Cycle(
      4004, 2499999999, 8005, 73860763271, 184467514597858787,
      46116878631017952, 46116841719083061, 46116860165827134, 73786976297835209461, 73786976324352986258,
      46116860182400752, 46116878631017952, 2500000999, 184467366950119163, 184467440737095485, 9999995999,
        9999999999));
    c, moves, s := Pump(c, moves, s, 5, Cycle(
      8005, 1250468457, 16003, 147666186310, 184467588403281826,
      23067090063716295, 23067053151781403, 23067071598525477, 147518667648615126778, 147518667667676715435,
      23067071601506086, 23067090063716295, 1250469457, 184467293218427818, 184467440737095488, 9999992002,
        9999999999));
    c, moves, s := Pump(c, moves, s, 6, Cycle(
      16003, 625507717, 31991, 295203245411, 184467735940340927,
      11538599236820159, 11538562324885267, 11538580771629341, 294908337086435570888, 294908337217357423256,
      11538580776751797, 11538599236820159, 625508717, 184467145828758146, 184467440737095368, 9999984012, 9999999999));
    c, moves, s := Pump(c, moves, s, 7, Cycle(
      31991, 312900503, 63951, 590129789662, 184468030866885178,
      5772013964566805, 5771977052631914, 5771995499375987, 589540249437594681057, 589540249914826858393,
      5771995504048426, 5772013964566805, 312901503, 184466851196845114, 184467440737095006, 9999968040, 9999999999));
  }

  /** After eleven, a share costs over 2000 pico. */
  lemma Pumped() returns (c: State, moves: seq<Move>, s: Scene)
    ensures Reached(c, moves) && Shows(c, s) && Stage(s, 13, 2041348) && Unused(s, 13)
  {
    hide Reached, Shows, Stage, Unused;
    c, moves, s := HalfPumped();
    c, moves, s := Pump(c, moves, s, 8, Cycle(
      63951, 156526090, 127839, 1179687730257, 184468620424825773,
      2887415188279245, 2887378276344354, 2887396723088427, 1178509221085954340297, 1178509223204217200313,
      2887396728278293, 2887415188279245, 156527090, 184466262227870172, 184467440737093331, 9999936112, 9999999999));
    c, moves, s := Pump(c, moves, s, 9, Cycle(
      127839, 78301613, 255551, 2358213315638, 184469798950411155,
      1444428280760466, 1444391368825575, 1444409815569648, 2355857458279751541576, 2355857480701873216881,
      1444409829317147, 1444428280760466, 78302613, 184465084879592333, 184467440737072944, 9999872288, 9999999999));
    c, moves, s := Pump(c, moves, s, 10, Cycle(
      255551, 39170263, 510847, 4714083894780, 184472154820990296,
      722582282051712, 722545370116820, 722563816860894, 4709374520459503707734, 4709374576755817071329,
      722563825498712, 722582282051712, 39171263, 184462731362462078, 184467440737038908, 9999744704, 9999999999));
    c, moves, s := Pump(c, moves, s, 11, Cycle(
      510847, 19594908, 1021184, 9423463869822, 184476864200965338,
      361480718214701, 361443806279810, 361462253023883, 9414049820401325565254, 9414049850964590508770,
      361462254197452, 361480718214701, 19595908, 184458026687213809, 184467440737064411, 9999489663, 9999999999));
    c, moves, s := Pump(c, moves, s, 12, Cycle(
      1021184, 9802347, 2041348, 18837519900167, 184486278256995683,
      180839851621512, 180802939686620, 180821386430694, 18818701199766288429078, 18818701351517468949084,
      180821387888960, 180839851621512, 9803347, 184448622035590779, 184467440736942592, 9998979836, 9999999999));
  }
}
