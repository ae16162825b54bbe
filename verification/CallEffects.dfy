/**
  What contributing, withdrawing and serving the queue do, in amounts: who is paid what, what is left, and when a
  call fails. The operations of Pool and Vault compute it; nothing here is stated through them.
*/
module CallEffects {
  import opened Base
  import opened FixedPoint
  import opened Pool
  import opened PoolLaws
  import opened Vault
  import opened VaultLaws
  import opened QueueLaws
  import opened CallLaws

  // ---------------------------------------------------------------- prices and dust

  /** An amount, or nothing if it is a thousand pico or less. */
  function PastDust(n: nat): nat {
    if n > 1000 then n else 0
  }

  lemma DustIs(n: nat)
    ensures ExtractDust(n) == (PastDust(n), n - PastDust(n)) && (Nondust(n) <==> PastDust(n) > 0)
  {
  }

  /** There is a price exactly if there are shares, and it is the greatest at which all of them are within the stake. */
  lemma PriceIsGreatest(pool: PoolInfo)
    ensures SharePrice(pool).Some? <==> pool.totalShares > 0
    ensures SharePrice(pool).Some? ==>
      var price, stake, shares := SharePrice(pool).value, ToFixed(pool.totalStake), ToFixed(pool.totalShares);
      price * shares <= stake * ONE < (price + 1) * shares
  {
    if pool.totalShares > 0 {
      ToFixedPositive(pool.totalShares);
      DivBounds(ToFixed(pool.totalStake) * ONE, ToFixed(pool.totalShares));
    }
  }

  /** The currency takes what it says, as far as it is asked to and the account has it. */
  lemma TakenIs(slash: Slasher, who: Account, asked: nat, free: nat)
    ensures var taken := Taken(slash, who, asked, free);
      && (slash(who, asked, free) <= asked && slash(who, asked, free) <= free ==> taken == slash(who, asked, free))
      && taken <= slash(who, asked, free) && taken <= asked && taken <= free
  {
  }

  // ---------------------------------------------------------------- a release

  /**
    What it comes to for a staker to give up `n` shares at a price: the stake it keeps before, what it is paid of
    it, and the shares and the stake it is left with, each without dust.
  */
  datatype Payout = Payout(kept: nat, paid: nat, shares: nat, locked: nat)

  function PayoutOf(pool: PoolInfo, user: UserStakeInfo, n: nat, price: Bits): Payout
    requires n <= user.shares
  {
    var kept := PastDust(Min(Mul(user.shares, price), user.locked));
    var paid := Min(Min(Mul(n, price), pool.freeStake), kept);
    Payout(kept, paid, PastDust(user.shares - n), PastDust(kept - paid))
  }

  /** The pool pays it from its free and its total stake alike; a remainder of dust goes as well. */
  predicate PoolPays(pool: PoolInfo, pool': PoolInfo, user: UserStakeInfo, p: Payout) {
    && SameTerms(pool, pool') && pool'.totalShares + (user.shares - p.shares) == pool.totalShares
    && if pool.totalStake > p.paid + 1000
       then pool'.totalStake + p.paid == pool.totalStake && pool'.freeStake + p.paid == pool.freeStake
       else pool'.totalStake == 0 && pool'.freeStake == 0
  }

  /**
    The account loses what was slashed of its stake, if it is past dust and as far as the currency takes it, and what
    it is paid is unlocked; dust of stake is unlocked and slashed.
  */
  predicate PursePaid(user: UserStakeInfo, purse: Purse, purse': Purse, p: Payout, slash: Slasher) {
    var slashed, dust := user.locked - p.kept, p.kept - p.paid - p.locked;
    slashed >= 0 && dust >= 0 &&
    var taken := if slashed > 1000 then Taken(slash, user.user, slashed, purse.free) else 0;
    var burnt := if dust > 0 then Taken(slash, user.user, dust, purse.free - taken) else 0;
    && purse'.ledger + taken + p.paid + dust == purse.ledger && purse'.lock == purse'.ledger
    && purse'.free + taken + burnt == purse.free && purse'.slack == purse.slack + slashed - taken
  }

  /** A desk whose slash is settled at a price: the staker keeps its part, and the account loses what is taken. */
  predicate SlashedTo(d: Desk, d1: Desk, price: Bits, slash: Slasher) {
    var kept := PastDust(Min(Mul(d.user.shares, price), d.user.locked));
    kept <= d.user.locked &&
    var taken := if d.user.locked - kept > 1000 then Taken(slash, d.user.user, d.user.locked - kept, d.purse.free)
                 else 0;
    && d1 == d.(user := d.user.(locked := kept), purse := d1.purse)
    && d1.purse.ledger + taken == d.purse.ledger && d1.purse.lock == d1.purse.ledger
    && d1.purse.free + taken == d.purse.free && d1.purse.slack == d.purse.slack + (d.user.locked - kept) - taken
  }

  lemma SlashSettles(d: Desk, slash: Slasher, staked: nat)
    requires DeskOk(d, staked) && SharePrice(d.pool).Some?
    ensures SlashedTo(d, SettleSlash(d, slash), SharePrice(d.pool).value, slash)
  {
    hide Mul, SharePrice, Backed;
  }

  /** A removal of shares at a price from a desk whose slash is settled. */
  predicate RemovedAt(d: Desk, r: Removal, n: nat, price: Bits)
    requires n <= d.user.shares
  {
    var paid := Min(Min(Mul(n, price), d.pool.freeStake), d.user.locked);
    var shares, locked := PastDust(d.user.shares - n), PastDust(d.user.locked - paid);
    && r.amount == paid && r.dust == d.user.locked - paid - locked && r.desk.purse == d.purse
    && r.desk.user == d.user.(shares := shares, locked := locked, rewardDebt := Mul(shares, d.pool.rewardAcc))
    && PoolPays(d.pool, r.desk.pool, d.user, Payout(d.user.locked, paid, shares, locked))
    && r.desk.pool.withdrawQueue == d.pool.withdrawQueue
  }

  lemma StakeRemoved(d: Desk, n: nat, slash: Slasher, staked: nat)
    requires DeskOk(d, staked) && n <= d.user.shares && d.pool.totalShares > 0 && SharePrice(d.pool).Some?
    ensures var r := RemoveStake(d, n); r.Ok? && RemovedAt(d, r.value, n, SharePrice(d.pool).value)
  {
    if d.pool.totalStake == 0 {
      WorthlessShares(d.pool, n);
    }
    hide Mul, SharePrice;
  }

  /** What a release leaves of a desk. */
  predicate PaidTo(d: Desk, d': Desk, n: nat, price: Bits, slash: Slasher)
    requires n <= d.user.shares
  {
    var p := PayoutOf(d.pool, d.user, n, price);
    && PoolPays(d.pool, d'.pool, d.user, p) && d'.pool.withdrawQueue == d.pool.withdrawQueue
    && d'.user == d.user.(shares := p.shares, locked := p.locked, rewardDebt := Mul(p.shares, d.pool.rewardAcc))
    && PursePaid(d.user, d.purse, d'.purse, p, slash)
  }

  lemma SettledThenRemoved(d: Desk, d1: Desk, r: Removal, purse: Purse, n: nat, price: Bits, slash: Slasher)
    requires n <= d.user.shares && SlashedTo(d, d1, price, slash) && RemovedAt(d1, r, n, price)
    requires purse.lock == purse.ledger && purse.slack == d1.purse.slack
    requires purse.free + (if r.dust > 0 then Taken(slash, d.user.user, r.dust, d1.purse.free) else 0) == d1.purse.free
    requires purse.ledger + r.amount + r.dust == d1.purse.ledger
    ensures PaidTo(d, r.desk.(purse := purse), n, price, slash)
  {
    hide Mul, Taken;
  }

  /** A release of no more shares than the staker has goes through and pays what it comes to. */
  lemma ReleasePaysOut(d: Desk, n: nat, slash: Slasher, staked: nat)
    requires DeskOk(d, staked) && n <= d.user.shares && d.pool.totalShares > 0
    ensures SharePrice(d.pool).Some? && Release(d, n, slash).Ok?
    ensures PaidTo(d, Release(d, n, slash).value, n, SharePrice(d.pool).value, slash)
  {
    PriceIsGreatest(d.pool);
    SlashSettles(d, slash, staked);
    SettleSlashKeeps(d, slash, staked);
    var d1 := SettleSlash(d, slash);
    SameTotals(d, d1, SharePrice(d.pool).value, slash);
    hide *;
    StakeRemoved(d1, n, slash, staked);
    RemoveStakeKeeps(d1, n, slash, staked);
    var r := RemoveStake(d1, n).value;
    LedgerReduced(d1.purse, d.user.user, r.amount, r.dust, slash);
    DeskHolds(d1, staked);
    AtMostLocked(d1, r, n, SharePrice(d.pool).value);
    SettledThenRemoved(d, d1, r, LedgerReduce(d1.purse, d.user.user, r.amount, r.dust, slash), n,
                       SharePrice(d.pool).value, slash);
    ReleaseIs(d, n, slash);
  }

  lemma SameTotals(d: Desk, d1: Desk, price: Bits, slash: Slasher)
    requires SlashedTo(d, d1, price, slash)
    ensures d1.pool == d.pool && d1.user.shares == d.user.shares && d1.user.user == d.user.user
  {
    hide Mul;
  }

  lemma DeskHolds(d: Desk, staked: nat)
    requires DeskOk(d, staked)
    ensures d.user.locked <= d.purse.ledger
  {
    hide Backed, StakerOk;
  }

  lemma AtMostLocked(d: Desk, r: Removal, n: nat, price: Bits)
    requires n <= d.user.shares && RemovedAt(d, r, n, price)
    ensures r.amount + r.dust <= d.user.locked && r.desk.purse == d.purse
  {
    hide Mul;
  }

  lemma ReleaseIs(d: Desk, n: nat, slash: Slasher)
    requires RemoveStake(SettleSlash(d, slash), n).Ok?
    ensures var r := RemoveStake(SettleSlash(d, slash), n).value;
      Release(d, n, slash) ==
      Ok(r.desk.(purse := LedgerReduce(r.desk.purse, d.user.user, r.amount, r.dust, slash)))
  {
    hide RemoveStake, SettleSlash, LedgerReduce;
  }

  lemma LedgerReduced(purse: Purse, who: Account, amount: nat, dust: nat, slash: Slasher)
    ensures var purse' := LedgerReduce(purse, who, amount, dust, slash);
      && purse'.lock == purse'.ledger && purse'.slack == purse.slack
      && purse'.free + (if dust > 0 then Taken(slash, who, dust, purse.free) else 0) == purse.free
      && (purse.ledger >= amount + dust ==> purse'.ledger + amount + dust == purse.ledger)
  {
  }

  // ---------------------------------------------------------------- in storage

  /** One pool, one of its stakers and that account: nothing else in storage changes, but perhaps the index. */
  ghost predicate OnlyAt(v: Store, v': Store, pid: Pid, who: Account) {
    && v'.pools.Keys == v.pools.Keys && (forall p :: p in v.pools && p != pid ==> v'.pools[p] == v.pools[p])
    && v'.stakers.Keys == v.stakers.Keys + {(pid, who)}
    && (forall k :: k in v.stakers && k != (pid, who) ==> v'.stakers[k] == v.stakers[k])
    && (forall w :: w != who ==> PurseOf(v', w) == PurseOf(v, w))
    && v'.poolCount == v.poolCount && v'.assignments == v.assignments
  }

  predicate SameIndex(v: Store, v': Store) {
    v'.timestamps == v.timestamps && v'.queuedPools == v.queuedPools
  }

  /** A staker with what was pending of its rewards credited, and its debt set for the shares it has then. */
  predicate Rewarded(pool: PoolInfo, user: UserStakeInfo, user': UserStakeInfo) {
    && user'.user == user.user && user'.rewardDebt == Mul(user'.shares, pool.rewardAcc)
    && user'.availableRewards + user.rewardDebt == user.availableRewards + Mul(user.shares, pool.rewardAcc)
  }

  /** A staker gives up `n` shares for what they come to, its pending rewards credited. */
  ghost predicate PaysOut(v: Store, v': Store, pid: Pid, who: Account, n: nat, slash: Slasher)
    requires pid in v.pools && (pid, who) in v.stakers && n <= v.stakers[(pid, who)].shares
  {
    var pool, user := v.pools[pid], v.stakers[(pid, who)];
    && OnlyAt(v, v', pid, who) && SharePrice(pool).Some?
    && var p := PayoutOf(pool, user, n, SharePrice(pool).value);
       && PoolPays(pool, v'.pools[pid], user, p)
       && v'.stakers[(pid, who)].shares == p.shares && v'.stakers[(pid, who)].locked == p.locked
       && Rewarded(pool, user, v'.stakers[(pid, who)])
       && PursePaid(user, PurseOf(v, who), PurseOf(v', who), p, slash)
  }

  lemma SavedOnlyAt(v: Store, pid: Pid, who: Account, d: Desk)
    requires pid in v.pools
    ensures var v' := Save(v, pid, who, d);
      && OnlyAt(v, v', pid, who) && SameIndex(v, v') && v'.pools[pid] == d.pool && v'.stakers[(pid, who)] == d.user
      && PurseOf(v', who) == d.purse
  {
  }

  /** The staker's pending rewards are credited first. */
  lemma RewardSettles(d: Desk, staked: nat)
    requires DeskOk(d, staked)
    ensures var r := SettleReward(d.pool, d.user);
      && r.Ok? && Rewarded(d.pool, d.user, r.value)
      && r.value.shares == d.user.shares && r.value.locked == d.user.locked
  {
    hide Mul;
  }

  // ---------------------------------------------------------------- a round of the queue

  /** How many of the shares wanted the free stake pays for: as many as it buys, or all if they are worth nothing. */
  function Payable(pool: PoolInfo, price: Bits, wanted: nat): (n: nat)
    ensures n <= wanted
  {
    if price > 0 then Min(wanted, Div(pool.freeStake, price)) else wanted
  }

  /** What is left of a request goes on waiting in front, unless it is dust. */
  function WithoutServed(q: seq<WithdrawInfo>, n: nat): seq<WithdrawInfo>
    requires q != [] && n <= q[0].shares
  {
    if PastDust(q[0].shares - n) > 0 then [WithdrawInfo(q[0].user, q[0].shares - n, q[0].startTime)] + q[1..]
    else q[1..]
  }

  lemma FrontPaysOut(d: Desk, price: Bits, slash: Slasher, staked: nat)
    requires DeskOk(d, staked) && d.pool.withdrawQueue != [] && d.pool.totalShares > 0
    requires Payable(d.pool, price, d.pool.withdrawQueue[0].shares) <= d.user.shares
    ensures SharePrice(d.pool).Some? && ServeFront(d, price, slash).Ok?
    ensures var d', n := ServeFront(d, price, slash).value, Payable(d.pool, price, d.pool.withdrawQueue[0].shares);
      var p := PayoutOf(d.pool, d.user, n, SharePrice(d.pool).value);
      && PoolPays(d.pool, d'.pool, d.user, p) && d'.pool.withdrawQueue == WithoutServed(d.pool.withdrawQueue, n)
      && d'.user.shares == p.shares && d'.user.locked == p.locked && Rewarded(d.pool, d.user, d'.user)
      && PursePaid(d.user, d.purse, d'.purse, p, slash)
  {
    RewardSettles(d, staked);
    SettleRewardKeeps(d, staked);
    var n := Payable(d.pool, price, d.pool.withdrawQueue[0].shares);
    var d1 := d.(user := SettleReward(d.pool, d.user).value);
    ReleasePaysOut(d1, n, slash, staked);
    SamePayout(d, d1, n);
    FrontIs(d, price, slash, d1.user);
    hide Mul, Div, SharePrice, Release, DeskOk, SettleReward, ServeFront, PayoutOf, PoolPays, WithoutServed;
  }

  lemma SamePayout(d: Desk, d1: Desk, n: nat)
    requires d1.pool == d.pool && d1.purse == d.purse && d1.user.shares == d.user.shares && n <= d.user.shares
    requires d1.user.locked == d.user.locked && d1.user.user == d.user.user
    ensures forall price :: PayoutOf(d1.pool, d1.user, n, price) == PayoutOf(d.pool, d.user, n, price)
    ensures forall pool', p :: PoolPays(d.pool, pool', d1.user, p) ==> PoolPays(d.pool, pool', d.user, p)
    ensures forall purse', p, slash ::
      PursePaid(d1.user, d.purse, purse', p, slash) ==> PursePaid(d.user, d.purse, purse', p, slash)
  {
    hide Mul;
  }

  lemma FrontIs(d: Desk, price: Bits, slash: Slasher, user: UserStakeInfo)
    requires d.pool.withdrawQueue != [] && SettleReward(d.pool, d.user) == Ok(user)
    ensures var n := Payable(d.pool, price, d.pool.withdrawQueue[0].shares);
      var r, r1 := ServeFront(d, price, slash), Release(d.(user := user), n, slash);
      r1.Ok? && r1.value.pool.withdrawQueue == d.pool.withdrawQueue ==>
        && r.Ok? && r.value.purse == r1.value.purse
        && r.value.pool == r1.value.pool.(withdrawQueue := WithoutServed(d.pool.withdrawQueue, n))
        && r.value.user == r1.value.user.(rewardDebt := Mul(r1.value.user.shares, r1.value.pool.rewardAcc))
  {
    hide Mul, Div, SharePrice, Release, SettleReward;
  }

  /**
    A round of the loop, at the price the loop started with: the first request is paid as far as the free stake
    goes, and what is left of it goes on waiting.
  */
  lemma RoundPaysOut(v: Store, pid: Pid, price: Bits, slash: Slasher, staked: map<Pid, nat>)
    requires Sound(v, staked) && pid in v.pools && v.pools[pid].withdrawQueue != []
    requires var request := v.pools[pid].withdrawQueue[0];
      && (pid, request.user) in v.stakers && v.pools[pid].totalShares > 0
      && Payable(v.pools[pid], price, request.shares) <= v.stakers[(pid, request.user)].shares
    ensures ServeOne(v, pid, price, slash).Ok?
    ensures var v', request := ServeOne(v, pid, price, slash).value, v.pools[pid].withdrawQueue[0];
      var n := Payable(v.pools[pid], price, request.shares);
      && PaysOut(v, v', pid, request.user, n, slash) && SameIndex(v, v')
      && v'.pools[pid].withdrawQueue == WithoutServed(v.pools[pid].withdrawQueue, n)
  {
    hide Sound, DeskOk, ServeFront, OnlyAt, PoolPays, PursePaid, PayoutOf, Payable, SharePrice, Save;
    var who := v.pools[pid].withdrawQueue[0].user;
    var d := DeskOf(v, pid, who);
    StoredDeskOk(v, pid, who, staked);
    StakerKeyed(v, staked, pid, who);
    FrontPaysOut(d, price, slash, Get(staked, pid));
    SavedOnlyAt(v, pid, who, ServeFront(d, price, slash).value);
  }

  lemma StakerKeyed(v: Store, staked: map<Pid, nat>, pid: Pid, who: Account)
    requires Sound(v, staked) && (pid, who) in v.stakers
    ensures v.stakers[(pid, who)].user == who && pid in v.pools
    ensures pid in v.pools ==> v.stakers[(pid, who)].shares <= v.pools[pid].totalShares
  {
    ShareAtMostTotal(v, pid, who);
    hide SharesAgree, AllCovered, AllStakersOk, AllSolvent, AllBacked;
  }

  /** The request of somebody who is no staker of the pool is dropped. */
  lemma StrangerDropped(v: Store, pid: Pid, price: Bits, slash: Slasher)
    requires pid in v.pools && v.pools[pid].withdrawQueue != []
    requires (pid, v.pools[pid].withdrawQueue[0].user) !in v.stakers
    ensures var pool := v.pools[pid];
      ServeOne(v, pid, price, slash) ==
      Ok(v.(pools := v.pools[pid := pool.(withdrawQueue := pool.withdrawQueue[1..])]))
  {
  }

  // ---------------------------------------------------------------- the loop

  /** More than a thousand pico are free and somebody waits. */
  predicate Waiting(v: Store, pid: Pid)
    requires pid in v.pools
  {
    v.pools[pid].freeStake > 1000 && v.pools[pid].withdrawQueue != []
  }

  /** Storages that follow one from another by a round each, as long as somebody waits for stake that is there. */
  ghost predicate Rounds(vs: seq<Store>, pid: Pid, price: Bits, slash: Slasher) {
    && vs != [] && (forall i :: 0 <= i < |vs| ==> pid in vs[i].pools)
    && (forall i {:trigger vs[i]} :: 0 <= i < |vs| - 1 ==>
          Waiting(vs[i], pid) && ServeOne(vs[i], pid, price, slash) == Ok(vs[i + 1]))
  }

  ghost predicate ServedTo(v: Store, v': Store, pid: Pid, price: Bits, slash: Slasher) {
    pid in v'.pools && !Waiting(v', pid) &&
    exists vs :: Rounds(vs, pid, price, slash) && vs[0] == v && vs[|vs| - 1] == v'
  }

  lemma {:induction false} QueueTakesRounds(v: Store, pid: Pid, price: Bits, slash: Slasher) returns (vs: seq<Store>)
    requires pid in v.pools && ServeQueue(v, pid, price, slash).Ok?
    ensures var v' := ServeQueue(v, pid, price, slash).value;
      Rounds(vs, pid, price, slash) && vs[0] == v && vs[|vs| - 1] == v' && !Waiting(v', pid)
    decreases QueueMeasure(v.pools[pid].withdrawQueue), v.pools[pid].freeStake
  {
    hide ServeOne;
    if LoopGuard(v, pid) {
      var rest := QueueTakesRounds(ServeOne(v, pid, price, slash).value, pid, price, slash);
      vs := [v] + rest;
      assert forall i :: 1 <= i < |vs| ==> vs[i] == rest[i - 1];
    } else {
      vs := [v];
    }
  }

  /** A round without progress that is followed by others is followed by them for ever. */
  predicate VainAt(v: Store, pid: Pid, price: Bits) {
    pid in v.pools && v.pools[pid].withdrawQueue != [] &&
    var who := v.pools[pid].withdrawQueue[0].user;
    (pid, who) in v.stakers && Vain(DeskOf(v, pid, who), price)
  }

  lemma VainRoundLeadsOn(v: Store, v': Store, pid: Pid, price: Bits, slash: Slasher)
    requires VainAt(v, pid, price) && ServeOne(v, pid, price, slash) == Ok(v')
    ensures VainAt(v', pid, price)
  {
    VainStays(DeskOf(v, pid, v.pools[pid].withdrawQueue[0].user), price, slash);
    hide Vain, ServeFront;
    var who := v.pools[pid].withdrawQueue[0].user;
    VainHere(ServeFront(DeskOf(v, pid, who), price, slash).value, DeskOf(v', pid, who), price);
  }

  lemma VainHere(d: Desk, d': Desk, price: Bits)
    requires Vain(d, price) && d'.pool == d.pool && d'.user == d.user
    ensures Vain(d', price)
  {
    hide Mul, Starved;
  }

  lemma VainWaits(v: Store, pid: Pid, price: Bits)
    requires VainAt(v, pid, price)
    ensures Waiting(v, pid)
  {
    hide Mul, Starved;
  }

  lemma StrangerMakesProgress(v: Store, v1: Store, pid: Pid, price: Bits, slash: Slasher)
    requires pid in v.pools && v.pools[pid].withdrawQueue != [] && ServeOne(v, pid, price, slash) == Ok(v1)
    requires pid in v1.pools && (pid, v.pools[pid].withdrawQueue[0].user) !in v.stakers
    ensures Progress(v.pools[pid], v1.pools[pid])
  {
  }

  lemma FrontSaved(v: Store, v1: Store, pid: Pid, price: Bits, slash: Slasher)
    requires pid in v.pools && v.pools[pid].withdrawQueue != [] && ServeOne(v, pid, price, slash) == Ok(v1)
    requires (pid, v.pools[pid].withdrawQueue[0].user) in v.stakers
    ensures var who := v.pools[pid].withdrawQueue[0].user;
      var r := ServeFront(DeskOf(v, pid, who), price, slash);
      && r.Ok? && pid in v1.pools && (pid, who) in v1.stakers
      && v1.pools[pid] == r.value.pool && v1.stakers[(pid, who)] == r.value.user
  {
    hide ServeFront;
  }

  lemma NoProgressIsVain(v: Store, v1: Store, pid: Pid, price: Bits, slash: Slasher)
    requires pid in v.pools && Waiting(v, pid) && ServeOne(v, pid, price, slash) == Ok(v1) && pid in v1.pools
    requires !Progress(v.pools[pid], v1.pools[pid])
    ensures Waiting(v1, pid)
    ensures ServeOne(v1, pid, price, slash).Ok? ==> VainAt(v1, pid, price)
  {
    hide Vain, ServeFront, ServeOne, Progress;
    var who := v.pools[pid].withdrawQueue[0].user;
    if (pid, who) !in v.stakers {
      StrangerMakesProgress(v, v1, pid, price, slash);
    } else {
      FrontSaved(v, v1, pid, price, slash);
      var d := DeskOf(v, pid, who);
      var d1 := ServeFront(d, price, slash).value;
      VainRound(d, price, slash);
      StillFree(d.pool, d1.pool);
      if ServeOne(v1, pid, price, slash).Ok? {
        FrontSaved(v1, ServeOne(v1, pid, price, slash).value, pid, price, slash);
        SameFront(d1, DeskOf(v1, pid, who), price, slash);
        VainHere(d1, DeskOf(v1, pid, who), price);
      }
    }
  }

  lemma StillFree(pool: PoolInfo, pool': PoolInfo)
    requires !Progress(pool, pool') && pool'.withdrawQueue == pool.withdrawQueue
    ensures pool'.freeStake >= pool.freeStake
  {
  }

  /** Whether a round succeeds does not depend on the account. */
  lemma SameFront(d: Desk, d': Desk, price: Bits, slash: Slasher)
    requires d'.pool == d.pool && d'.user == d.user && d.pool.withdrawQueue != []
    ensures ServeFront(d', price, slash).Ok? ==> ServeFront(d, price, slash).Ok?
  {
    hide Mul, Div, SharePrice;
  }

  lemma {:induction false} VainGoesOn(vs: seq<Store>, pid: Pid, price: Bits, slash: Slasher, i: nat)
    requires Rounds(vs, pid, price, slash) && i < |vs| && VainAt(vs[0], pid, price)
    ensures VainAt(vs[i], pid, price)
  {
    hide VainAt, ServeOne;
    if i > 0 {
      VainGoesOn(vs, pid, price, slash, i - 1);
      assert ServeOne(vs[i - 1], pid, price, slash) == Ok(vs[i - 1 + 1]);
      VainRoundLeadsOn(vs[i - 1], vs[i], pid, price, slash);
    }
  }

  lemma {:induction false} RoundsAreQueue(vs: seq<Store>, pid: Pid, price: Bits, slash: Slasher)
    requires Rounds(vs, pid, price, slash) && !Waiting(vs[|vs| - 1], pid)
    ensures ServeQueue(vs[0], pid, price, slash) == Ok(vs[|vs| - 1])
    decreases |vs|
  {
    hide ServeOne, VainAt, Progress;
    if |vs| > 1 {
      assert Waiting(vs[0], pid) && ServeOne(vs[0], pid, price, slash) == Ok(vs[0 + 1]);
      LaterRounds(vs, pid, price, slash);
      if Progress(vs[0].pools[pid], vs[1].pools[pid]) {
        RoundsAreQueue(vs[1..], pid, price, slash);
      } else {
        NoProgressIsVain(vs[0], vs[1], pid, price, slash);
        assert |vs| > 2 && ServeOne(vs[1], pid, price, slash) == Ok(vs[1 + 1]);
        VainGoesOn(vs[1..], pid, price, slash, |vs| - 2);
        VainWaits(vs[|vs| - 1], pid, price);
        assert false;
      }
    }
  }

  lemma LaterRounds(vs: seq<Store>, pid: Pid, price: Bits, slash: Slasher)
    requires Rounds(vs, pid, price, slash) && |vs| > 1
    ensures Rounds(vs[1..], pid, price, slash)
  {
    hide ServeOne;
    var ws := vs[1..];
    forall i {:trigger ws[i]} | 0 <= i < |ws| - 1
      ensures pid in ws[i].pools && Waiting(ws[i], pid) && ServeOne(ws[i], pid, price, slash) == Ok(ws[i + 1])
    {
      assert vs[i + 1] == ws[i] && vs[i + 1 + 1] == ws[i + 1];
    }
  }

  /**
    Serving a pool's queue is doing rounds, all at the price there is at first, until no more than dust is free or
    nobody waits; without shares nothing is done.
  */
  lemma QueueIsRounds(v: Store, v': Store, pid: Pid, slash: Slasher)
    requires pid in v.pools
    ensures SharePrice(v.pools[pid]).None? ==> (ProcessQueue(v, pid, slash) == Ok(v') <==> v' == v)
    ensures SharePrice(v.pools[pid]).Some? ==>
      (ProcessQueue(v, pid, slash) == Ok(v') <==> ServedTo(v, v', pid, SharePrice(v.pools[pid]).value, slash))
  {
    hide ServeQueue, Waiting, ServeOne;
    if SharePrice(v.pools[pid]).Some? {
      var price := SharePrice(v.pools[pid]).value;
      if ProcessQueue(v, pid, slash) == Ok(v') {
        var vs := QueueTakesRounds(v, pid, price, slash);
      }
      if ServedTo(v, v', pid, price, slash) {
        var vs :| Rounds(vs, pid, price, slash) && vs[0] == v && vs[|vs| - 1] == v';
        RoundsAreQueue(vs, pid, price, slash);
      }
    }
  }

  // ---------------------------------------------------------------- withdrawing

  /** When a withdrawal is refused, and with which error. */
  lemma WithdrawRefused(v: Store, who: Account, pid: Pid, shares: nat, now: nat, slash: Slasher)
    ensures var r, staker := Withdraw(v, who, pid, shares, now, slash), (pid, who) in v.stakers;
      var wrong := staker && (shares <= 1000 || shares > v.stakers[(pid, who)].shares);
      && (r == Err(PoolStakeNotFound) <==> !staker)
      && (r == Err(InvalidWithdrawalAmount) <==> wrong)
      && (r == Err(PoolDoesNotExist) <==> staker && !wrong && pid !in v.pools)
      && (r.Err? <==> !staker || wrong || pid !in v.pools)
  {
    if (pid, who) in v.stakers && pid in v.pools {
      NeverRefuses(Load(v, who, v.pools[pid], v.stakers[(pid, who)]), shares, now, slash);
    }
    hide TryWithdraw, QueuedNow, AddToIndex;
  }

  lemma NeverRefuses(d: Desk, shares: nat, now: nat, slash: Slasher)
    ensures !TryWithdraw(d, shares, now, slash).Err?
    ensures SharePrice(d.pool).None? && shares > 1000 ==> TryWithdraw(d, shares, now, slash) == Panic
  {
    hide Mul, Div, Without, SettleSlash, SharePrice;
    if SharePrice(d.pool).None? {
      NoPriceNoSlash(d.pool);
    }
  }

  lemma NoPriceNoSlash(pool: PoolInfo)
    requires SharePrice(pool).None?
    ensures forall d: Desk, slash: Slasher :: d.pool == pool ==> SettleSlash(d, slash) == d
  {
  }

  /** Shares of a pool that has none cannot be given up: the `expect` of the payment fails. */
  lemma WithdrawWithoutPrice(v: Store, who: Account, pid: Pid, shares: nat, now: nat, slash: Slasher)
    requires (pid, who) in v.stakers && 1000 < shares <= v.stakers[(pid, who)].shares
    requires pid in v.pools && v.pools[pid].totalShares == 0
    ensures Withdraw(v, who, pid, shares, now, slash) == Panic
  {
    PriceIsGreatest(v.pools[pid]);
    NeverRefuses(Load(v, who, v.pools[pid], v.stakers[(pid, who)]), shares, now, slash);
    hide TryWithdraw, QueuedNow, AddToIndex, SharePrice;
  }

  /** Nothing is given up: the staker is only credited its pending rewards. */
  ghost predicate OnlyCredited(v: Store, v': Store, pid: Pid, who: Account)
    requires pid in v.pools && (pid, who) in v.stakers
  {
    var pool, user := v.pools[pid], v.stakers[(pid, who)];
    && OnlyAt(v, v', pid, who) && v'.pools[pid] == pool.(withdrawQueue := v'.pools[pid].withdrawQueue)
    && v'.stakers[(pid, who)].shares == user.shares && v'.stakers[(pid, who)].locked == user.locked
    && Rewarded(pool, user, v'.stakers[(pid, who)]) && PurseOf(v', who) == PurseOf(v, who)
  }

  /** The most that is served at once: what is payable of the shares, unless that is dust. */
  function AtOnce(pool: PoolInfo, price: Bits, shares: nat): (n: nat)
    ensures n <= shares
  {
    PastDust(Payable(pool, price, shares))
  }

  lemma ServedIs(pool: PoolInfo, shares: nat)
    requires SharePrice(pool).Some? && shares > 1000
    ensures var n := AtOnce(pool, SharePrice(pool).value, shares);
      ServedNow(pool, shares) == n && QueuedNow(pool, shares) == PastDust(shares - n)
  {
    hide Div, SharePrice;
  }

  function Requested(q: seq<WithdrawInfo>, who: Account, rest: nat, now: nat): seq<WithdrawInfo> {
    if rest > 0 then Without(q, who) + [WithdrawInfo(who, rest, now)] else q
  }

  lemma TryWithdrawPays(d: Desk, shares: nat, now: nat, slash: Slasher, staked: nat)
    requires DeskOk(d, staked) && 1000 < shares <= d.user.shares && SharePrice(d.pool).Some?
    ensures var r, n := TryWithdraw(d, shares, now, slash), AtOnce(d.pool, SharePrice(d.pool).value, shares);
      var p := PayoutOf(d.pool, d.user, n, SharePrice(d.pool).value);
      && r.Ok? && Rewarded(d.pool, d.user, r.value.user)
      && r.value.pool.withdrawQueue == Requested(d.pool.withdrawQueue, d.user.user, PastDust(shares - n), now)
      && (n > 0 ==> PoolPays(d.pool, r.value.pool, d.user, p) && PursePaid(d.user, d.purse, r.value.purse, p, slash)
                    && r.value.user.shares == p.shares && r.value.user.locked == p.locked)
      && (n == 0 ==> r.value.pool == d.pool.(withdrawQueue := r.value.pool.withdrawQueue)
                     && r.value.purse == d.purse
                     && r.value.user.shares == d.user.shares && r.value.user.locked == d.user.locked)
  {
    var n := AtOnce(d.pool, SharePrice(d.pool).value, shares);
    ServedIs(d.pool, shares);
    RewardSettles(d, staked);
    SettleRewardKeeps(d, staked);
    var d1 := d.(user := SettleReward(d.pool, d.user).value);
    ReleasePaysOut(d1, n, slash, staked);
    SamePayout(d, d1, n);
    TryWithdrawIs(d, shares, now, slash, d1.user);
    hide Mul, Div, SharePrice, Release, DeskOk, SettleReward, TryWithdraw, PayoutOf, PursePaid, AtOnce, ServedNow,
         QueuedNow, Fair;
  }

  lemma TryWithdrawIs(d: Desk, shares: nat, now: nat, slash: Slasher, user: UserStakeInfo)
    requires SettleReward(d.pool, d.user) == Ok(user) && user.user == d.user.user
    requires ServedNow(d.pool, shares) > 0 ==>
      var r := Release(d.(user := user), ServedNow(d.pool, shares), slash);
      r.Ok? && SameTerms(d.pool, r.value.pool) && r.value.pool.withdrawQueue == d.pool.withdrawQueue
    ensures var r, served := TryWithdraw(d, shares, now, slash), ServedNow(d.pool, shares);
      var d1 := if served > 0 then Release(d.(user := user), served, slash).value else d.(user := user);
      && r.Ok? && r.value.purse == d1.purse
      && r.value.pool == d1.pool.(withdrawQueue := r.value.pool.withdrawQueue)
      && r.value.pool.withdrawQueue ==
         Requested(d.pool.withdrawQueue, d.user.user, QueuedNow(d.pool, shares), now)
      && r.value.user == d1.user.(rewardDebt := Mul(d1.user.shares, d.pool.rewardAcc))
  {
    hide Mul, Div, SharePrice, Release, SettleReward, ServedNow, QueuedNow, Without;
  }

  /**
    A withdrawal serves the most it can at once, and queues the rest: at a positive price as many shares as the free
    stake buys, at a price of zero all of them, and none if that would be dust. The rest replaces the caller's
    request and is listed under the present time, unless it is dust.
  */
  ghost predicate ServesMost(v: Store, v': Store, who: Account, pid: Pid, shares: nat, now: nat, slash: Slasher)
    requires pid in v.pools && (pid, who) in v.stakers && shares <= v.stakers[(pid, who)].shares
  {
    var pool := v.pools[pid];
    SharePrice(pool).Some? &&
    var price, free := SharePrice(pool).value, pool.freeStake;
    var n := PastDust(if price > 0 then Min(shares, Div(free, price)) else shares);
    var rest := PastDust(shares - n);
    && (if n > 0 then PaysOut(v, v', pid, who, n, slash) else OnlyCredited(v, v', pid, who)) && pid in v'.pools
    && v'.pools[pid].withdrawQueue ==
       (if rest > 0 then Without(pool.withdrawQueue, who) + [WithdrawInfo(who, rest, now)] else pool.withdrawQueue)
    && (rest == 0 ==> SameIndex(v, v'))
    && (rest > 0 ==> v'.timestamps == TimeAdded(v.timestamps, now)
                     && v'.queuedPools == PoolListed(v.queuedPools, now, pid))
  }

  /** One that is not refused does so. */
  lemma WithdrawServesMost(v: Store, who: Account, pid: Pid, shares: nat, now: nat, slash: Slasher,
      staked: map<Pid, nat>)
    requires Sound(v, staked) && (pid, who) in v.stakers && 1000 < shares <= v.stakers[(pid, who)].shares
    ensures pid in v.pools
    ensures var r := Withdraw(v, who, pid, shares, now, slash);
      r.Ok? && ServesMost(v, r.value, who, pid, shares, now, slash)
  {
    hide Sound, DeskOk, TryWithdraw, OnlyAt, PoolPays, PursePaid, PayoutOf, SharePrice, Save, Without, QueuedNow,
         Mul, Div;
    StakerKeyed(v, staked, pid, who);
    PriceIsGreatest(v.pools[pid]);
    var d := DeskOf(v, pid, who);
    StoredDeskOk(v, pid, who, staked);
    TryWithdrawPays(d, shares, now, slash, Get(staked, pid));
    ServedIs(v.pools[pid], shares);
    SavedOnlyAt(v, pid, who, TryWithdraw(d, shares, now, slash).value);
    IndexedOnlyAt(v, Save(v, pid, who, TryWithdraw(d, shares, now, slash).value), now, pid, who);
  }

  lemma IndexedOnlyAt(v: Store, v1: Store, now: nat, pid: Pid, who: Account)
    requires OnlyAt(v, v1, pid, who)
    ensures OnlyAt(v, AddToIndex(v1, now, pid), pid, who)
    ensures PurseOf(AddToIndex(v1, now, pid), who) == PurseOf(v1, who)
  {
    hide TimeAdded, PoolListed;
    assert forall w :: PurseOf(AddToIndex(v1, now, pid), w) == PurseOf(v1, w);
  }

  // ---------------------------------------------------------------- contributing

  /** When a contribution is refused, and with which error. */
  lemma ContributeRefused(v: Store, who: Account, pid: Pid, amount: nat, slash: Slasher, staked: map<Pid, nat>)
    requires Sound(v, staked)
    ensures var r := Contribute(v, who, pid, amount, slash);
      var small, poor := amount < 10_000_000_000, Get(v.free, who) < Get(v.ledger, who) + amount;
      var capped := pid in v.pools && v.pools[pid].cap.Some?
        && v.pools[pid].totalStake + amount > v.pools[pid].cap.value;
      var bankrupt := pid in v.pools && v.pools[pid].totalShares > 0 && v.pools[pid].totalStake == 0;
      && (r.Err? <==> small || poor || pid !in v.pools || capped || bankrupt)
      && (r == Err(InsufficientContribution) <==> small)
      && (r == Err(InsufficientBalance) <==> !small && poor)
      && (r == Err(PoolDoesNotExist) <==> !small && !poor && pid !in v.pools)
      && (r == Err(StakeExceedsCapacity) <==> !small && !poor && pid in v.pools && capped)
      && (r == Err(PoolBankrupt) <==> !small && !poor && pid in v.pools && !capped && bankrupt)
  {
    LedgerWithinFree(v, staked, who);
    if pid in v.pools && Prepared(v, pid, who, slash).Ok? && amount >= 10_000_000_000
      && Get(v.free, who) >= Get(v.ledger, who) + amount
      && (v.pools[pid].totalShares == 0 || v.pools[pid].totalStake > 0)
    {
      AddedNeverRefuses(v, who, pid, amount, slash, staked);
    }
    if pid in v.pools {
      PreparedKeeps(v, pid, who, slash, staked);
    }
    hide Sound, Prepared, Deposit, Save, ProcessQueue, DeskOk, Fair;
  }

  lemma LedgerWithinFree(v: Store, staked: map<Pid, nat>, who: Account)
    requires Sound(v, staked)
    ensures Get(v.ledger, who) == Get(v.lock, who) <= Get(v.free, who)
  {
    assert AccountOk(v, who);
    hide LockedBy, WellKeyed, SharesAgree, AllStakersOk, AllSolvent, AllBacked;
  }

  lemma AddedNeverRefuses(v: Store, who: Account, pid: Pid, amount: nat, slash: Slasher, staked: map<Pid, nat>)
    requires Sound(v, staked) && pid in v.pools && Prepared(v, pid, who, slash).Ok? && amount >= 10_000_000_000
    requires Get(v.free, who) >= Get(v.ledger, who) + amount
    requires v.pools[pid].totalShares == 0 || v.pools[pid].totalStake > 0
    ensures !ProcessQueue(Save(v, pid, who, Deposit(Prepared(v, pid, who, slash).value, amount)), pid, slash).Err?
  {
    hide Sound, Prepared, Deposit, Save, ServeQueue, OnlyPool, SharePrice;
    var v1 := Save(v, pid, who, Deposit(Prepared(v, pid, who, slash).value, amount));
    SavedOnlyAt(v, pid, who, Deposit(Prepared(v, pid, who, slash).value, amount));
    if SharePrice(v1.pools[pid]).Some? {
      QueueNeverRefuses(v1, pid, SharePrice(v1.pools[pid]).value, slash);
    }
  }

  lemma {:induction false} QueueNeverRefuses(v: Store, pid: Pid, price: Bits, slash: Slasher)
    requires pid in v.pools
    ensures !ServeQueue(v, pid, price, slash).Err?
    decreases QueueMeasure(v.pools[pid].withdrawQueue), v.pools[pid].freeStake
  {
    hide ServeOne;
    if LoopGuard(v, pid) {
      RoundNeverRefuses(v, pid, price, slash);
      if ServeOne(v, pid, price, slash).Ok? {
        var v1 := ServeOne(v, pid, price, slash).value;
        if Progress(v.pools[pid], v1.pools[pid]) {
          QueueNeverRefuses(v1, pid, price, slash);
        } else {
          RoundNeverRefuses(v1, pid, price, slash);
        }
      }
    }
  }

  lemma RoundNeverRefuses(v: Store, pid: Pid, price: Bits, slash: Slasher)
    requires pid in v.pools && v.pools[pid].withdrawQueue != []
    ensures !ServeOne(v, pid, price, slash).Err?
  {
    hide Mul, Div, SharePrice, Save, SettleSlash;
  }

  /**
    An account adds an amount to a pool: it gets the shares that the amount buys, or as many if there is no price
    or it is zero, and what it had before is settled.
  */
  ghost predicate Adds(v: Store, v': Store, pid: Pid, who: Account, amount: nat, slash: Slasher)
    requires pid in v.pools
  {
    var pool, user, user' := v.pools[pid], StakerOf(v, pid, who), StakerOf(v', pid, who);
    var price := if SharePrice(pool).Some? then SharePrice(pool).value else 0;
    var bought := if price > 0 then Div(amount, price) else amount;
    var kept := if SharePrice(pool).Some? then PastDust(Min(Mul(user.shares, price), user.locked)) else user.locked;
    var slashed := user.locked - kept;
    slashed >= 0 &&
    var taken := if slashed > 1000 then Taken(slash, who, slashed, Get(v.free, who)) else 0;
    && OnlyAt(v, v', pid, who) && SameIndex(v, v')
    && v'.pools[pid] == pool.(totalShares := pool.totalShares + bought, totalStake := pool.totalStake + amount,
                              freeStake := pool.freeStake + amount)
    && user'.shares == user.shares + bought && user'.locked == kept + amount && Rewarded(pool, user, user')
    && Get(v'.ledger, who) + taken == Get(v.ledger, who) + amount && Get(v'.lock, who) == Get(v'.ledger, who)
    && Get(v'.free, who) + taken == Get(v.free, who) && Get(v'.slack, who) == Get(v.slack, who) + slashed - taken
  }

  lemma DepositAdds(d: Desk, amount: nat)
    ensures var d', price := Deposit(d, amount), SharePrice(d.pool);
      var bought := if price.Some? && price.value > 0 then Div(amount, price.value) else amount;
      && d'.pool == d.pool.(totalShares := d.pool.totalShares + bought, totalStake := d.pool.totalStake + amount,
                            freeStake := d.pool.freeStake + amount)
      && d'.user == d.user.(shares := d.user.shares + bought, locked := d.user.locked + amount,
                            rewardDebt := Mul(d.user.shares + bought, d.pool.rewardAcc))
      && d'.purse == d.purse.(ledger := d.purse.ledger + amount, lock := d.purse.ledger + amount)
  {
    hide Mul, Div, SharePrice;
  }

  /** A desk with rewards and slash settled. */
  predicate SettledFrom(d: Desk, d1: Desk, slash: Slasher) {
    var price := SharePrice(d.pool);
    var kept := if price.Some? then PastDust(Min(Mul(d.user.shares, price.value), d.user.locked)) else d.user.locked;
    kept <= d.user.locked &&
    var slashed := d.user.locked - kept;
    var taken := if slashed > 1000 then Taken(slash, d.user.user, slashed, d.purse.free) else 0;
    && d1.pool == d.pool && d1.user.shares == d.user.shares && d1.user.locked == kept && d1.user.user == d.user.user
    && Rewarded(d.pool, d.user, d1.user)
    && d1.purse.ledger + taken == d.purse.ledger
    && d1.purse.free + taken == d.purse.free && d1.purse.slack == d.purse.slack + slashed - taken
  }

  lemma BothSettle(d: Desk, slash: Slasher, staked: nat)
    requires DeskOk(d, staked)
    ensures SettleReward(d.pool, d.user).Ok?
    ensures SettledFrom(d, SettleSlash(d.(user := SettleReward(d.pool, d.user).value), slash), slash)
  {
    RewardSettles(d, staked);
    SettleRewardKeeps(d, staked);
    var d1 := d.(user := SettleReward(d.pool, d.user).value);
    if SharePrice(d.pool).Some? {
      SlashSettles(d1, slash, staked);
    } else {
      NoPriceNoSlash(d.pool);
    }
    hide Mul, SharePrice, DeskOk, SettleReward, SettleSlash, Fair;
  }

  lemma NewSettled(d: Desk, who: Account, slash: Slasher)
    requires d.user == NewStaker(who)
    ensures SettledFrom(d, d, slash)
  {
    MulByZero(d.pool.rewardAcc);
    hide Mul, SharePrice;
  }

  lemma PreparedSettles(v: Store, pid: Pid, who: Account, slash: Slasher, staked: map<Pid, nat>)
    requires Sound(v, staked) && pid in v.pools
    ensures Prepared(v, pid, who, slash).Ok?
    ensures SettledFrom(DeskOf(v, pid, who), Prepared(v, pid, who, slash).value, slash)
    ensures DeskOf(v, pid, who).user.user == who
  {
    hide Sound, SettledFrom, DeskOk, SettleReward, SettleSlash, Mul, SharePrice;
    var d := DeskOf(v, pid, who);
    StoredDeskOk(v, pid, who, staked);
    if (pid, who) in v.stakers {
      StakerKeyed(v, staked, pid, who);
      BothSettle(d, slash, Get(staked, pid));
    } else {
      NewSettled(d, who, slash);
    }
  }

  /** A contribution that is not refused adds the amount, and then the pool's queue is served. */
  lemma ContributeAdds(v: Store, who: Account, pid: Pid, amount: nat, slash: Slasher, staked: map<Pid, nat>)
    requires Sound(v, staked) && !Contribute(v, who, pid, amount, slash).Err?
    ensures pid in v.pools
    ensures var v1 := Deposited(v, who, pid, amount, slash);
      Adds(v, v1, pid, who, amount, slash) && Contribute(v, who, pid, amount, slash) == ProcessQueue(v1, pid, slash)
  {
    hide Sound, Prepared, Deposit, Save, ProcessQueue, OnlyAt, SharePrice, Mul, Div, CapAllows;
    LedgerWithinFree(v, staked, who);
    ContributeRefused(v, who, pid, amount, slash, staked);
    PreparedSettles(v, pid, who, slash, staked);
    var d := Prepared(v, pid, who, slash).value;
    DepositAdds(d, amount);
    SavedOnlyAt(v, pid, who, Deposit(d, amount));
  }
}
