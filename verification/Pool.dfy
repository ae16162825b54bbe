/**
  One stake pool and one of its stakers: the `PoolInfo` methods of
  pallets/phala/src/stakepool.rs and the two routines that settle with the currency.

  The pallet decodes a pool record and a staker record from storage, changes its copies and
  writes them back. A `Desk` is that working set: the two copies and the staker's account.
*/
module Pool {
  import opened Base
  import opened FixedPoint

  type Pid = nat
  type Account = nat
  type Worker = nat

  datatype WithdrawInfo = WithdrawInfo(user: Account, shares: nat, startTime: nat)

  datatype PoolInfo = PoolInfo(
    pid: Pid,
    owner: Account,
    payoutCommission: Option<nat>,
    ownerReward: nat,
    cap: Option<nat>,
    rewardAcc: Bits,
    totalShares: nat,
    totalStake: nat,
    freeStake: nat,
    releasingStake: nat,
    workers: seq<Worker>,
    withdrawQueue: seq<WithdrawInfo>)

  datatype UserStakeInfo = UserStakeInfo(
    user: Account,
    locked: nat,
    shares: nat,
    availableRewards: nat,
    rewardDebt: nat)

  /**
    An account: its entry in `StakeLedger`, its staking lock and its free balance. `slack` is
    what settled slashes took off its records and not off its ledger: history that no code reads.
  */
  datatype Purse = Purse(ledger: nat, lock: nat, free: nat, slack: nat)

  /** `changes` counts the share changes of the staker; it is history that no code reads. */
  datatype Desk = Desk(pool: PoolInfo, user: UserStakeInfo, purse: Purse, changes: nat)

  /** What `Currency::slash` removes when asked for an amount of an account's balance. */
  type Slasher = (Account, nat, nat) -> nat

  function Taken(slash: Slasher, who: Account, asked: nat, free: nat): (taken: nat)
    ensures taken <= asked && taken <= free
  {
    Min(slash(who, asked, free), Min(asked, free))
  }

  // ---------------------------------------------------------------- dust

  const DUST: nat := 1000

  predicate CloseToZero(n: nat) { n <= DUST }

  predicate Nondust(n: nat) { !CloseToZero(n) }

  /** What a balance without dust may be. */
  predicate Clean(n: nat) { n == 0 || Nondust(n) }

  /** Splits a balance in what is kept and the dust. */
  function ExtractDust(n: nat): (nat, nat) {
    if CloseToZero(n) then (0, n) else (n, 0)
  }

  // ---------------------------------------------------------------- prices and rewards

  /** The price of one share, or None when there is no share. */
  function SharePrice(pool: PoolInfo): Option<Bits> {
    if ToFixed(pool.totalShares) == 0 then None
    else Some(FixDiv(ToFixed(pool.totalStake), ToFixed(pool.totalShares)))
  }

  function ResetPending(pool: PoolInfo, user: UserStakeInfo): UserStakeInfo {
    user.(rewardDebt := Mul(user.shares, pool.rewardAcc))
  }

  /** The reward accumulated since the last reset; its subtraction must not underflow. */
  function SettleReward(pool: PoolInfo, user: UserStakeInfo): Outcome<UserStakeInfo> {
    var earned := Mul(user.shares, pool.rewardAcc);
    if earned < user.rewardDebt then Panic
    else Ok(ResetPending(pool, user.(availableRewards := user.availableRewards + (earned - user.rewardDebt))))
  }

  /** `Accumulator::distribute`. */
  function Distribute(pool: PoolInfo, rewards: nat): PoolInfo
    requires pool.totalShares > 0
  {
    ToFixedPositive(pool.totalShares);
    pool.(rewardAcc := pool.rewardAcc + FixDiv(ToFixed(rewards), ToFixed(pool.totalShares)))
  }

  /** `handle_pool_new_reward`, with the commission the `Permill` product comes to. */
  function NewReward(pool: PoolInfo, rewards: nat, commission: nat): PoolInfo
    requires commission <= rewards
  {
    if rewards == 0 || CloseToZero(pool.totalShares) then pool
    else
      var paid := pool.(ownerReward := pool.ownerReward + commission);
      if Nondust(rewards - commission) then Distribute(paid, rewards - commission) else paid
  }

  // ---------------------------------------------------------------- the staker's account

  function LedgerAccrue(purse: Purse, amount: nat): Purse {
    purse.(ledger := purse.ledger + amount, lock := purse.ledger + amount)
  }

  /** Lowers the ledger and the lock, saturating, and slashes the dust away. */
  function LedgerReduce(purse: Purse, who: Account, amount: nat, dust: nat, slash: Slasher): Purse {
    var rest := if purse.ledger >= amount + dust then purse.ledger - (amount + dust) else 0;
    var removed := if dust == 0 then 0 else Taken(slash, who, dust, purse.free);
    purse.(ledger := rest, lock := rest, free := purse.free - removed)
  }

  // ---------------------------------------------------------------- stake

  function SharesFor(pool: PoolInfo, amount: nat): nat {
    match SharePrice(pool)
    case Some(price) => if price != 0 then Div(amount, price) else amount
    case None => amount
  }

  function AddStake(d: Desk, amount: nat): Desk {
    var shares := SharesFor(d.pool, amount);
    var user := d.user.(shares := d.user.shares + shares, locked := d.user.locked + amount);
    d.(user := ResetPending(d.pool, user),
       pool := d.pool.(totalShares := d.pool.totalShares + shares,
                       totalStake := d.pool.totalStake + amount,
                       freeStake := d.pool.freeStake + amount),
       changes := d.changes + 1)
  }

  /** A contribution: the stake is added and the account is locked. */
  function Deposit(d: Desk, amount: nat): Desk {
    var d' := AddStake(d, amount);
    d'.(purse := LedgerAccrue(d'.purse, amount))
  }

  datatype Removal = Removal(desk: Desk, amount: nat, dust: nat)

  /**
    `remove_stake`. Its callers `expect` a result, so a missing one is a panic, as is the
    underflow of total_stake - amount.
  */
  function RemoveStake(d: Desk, shares: nat): Outcome<Removal> {
    var pool, user := d.pool, d.user;
    match SharePrice(pool)
    case None => Panic
    case Some(price) =>
      var amount := Min(Min(Mul(shares, price), pool.freeStake), user.locked);
      if user.shares < shares then Panic else
      var (userShares, sharesDust) := ExtractDust(user.shares - shares);
      var (userLocked, dust) := ExtractDust(user.locked - amount);
      if pool.totalShares < shares + sharesDust || pool.totalStake < amount then Panic else
      var some := Nondust(pool.totalStake - amount);
      var pool' := pool.(totalShares := pool.totalShares - (shares + sharesDust),
                         totalStake := if some then pool.totalStake - amount else 0,
                         freeStake := if some then pool.freeStake - amount else 0);
      var user' := ResetPending(pool, user.(shares := userShares, locked := userLocked));
      Ok(Removal(Desk(pool', user', d.purse, d.changes + 1), amount, dust))
  }

  function Slash(pool: PoolInfo, amount: nat): PoolInfo {
    pool.(totalStake := ExtractDust(pool.totalStake - Min(pool.totalStake, amount)).0)
  }

  /** The stake a staker keeps at the current price; nothing is gained and dust is dropped. */
  function Kept(user: UserStakeInfo, price: Bits): nat {
    ExtractDust(Min(Mul(user.shares, price), user.locked)).0
  }

  /** `maybe_settle_slash`: the record always follows the price, the account only past dust. */
  function SettleSlash(d: Desk, slash: Slasher): Desk {
    match SharePrice(d.pool)
    case None => d
    case Some(price) =>
      var kept := Kept(d.user, price);
      var slashed := d.user.locked - kept;
      var purse :=
        if Nondust(slashed) then
          var taken := Taken(slash, d.user.user, slashed, d.purse.free);
          var before := d.purse.(free := d.purse.free - taken, slack := d.purse.slack + (slashed - taken));
          LedgerReduce(before, d.user.user, taken, 0, slash)
        else d.purse.(slack := d.purse.slack + slashed);
      d.(user := d.user.(locked := kept), purse := purse)
  }

  /** Settles the slash, takes `shares` out and pays the staker: the common part of a withdrawal. */
  function Release(d: Desk, shares: nat, slash: Slasher): Outcome<Desk> {
    var removal :- RemoveStake(SettleSlash(d, slash), shares);
    var purse := LedgerReduce(removal.desk.purse, d.user.user, removal.amount, removal.dust, slash);
    Ok(removal.desk.(purse := purse))
  }

  // ---------------------------------------------------------------- withdrawals

  /** How many shares the free stake pays for; any number when the stake is worth nothing. */
  function FreeShares(pool: PoolInfo, price: Option<Bits>, wanted: nat): nat {
    match price
    case Some(p) => if p != 0 then Div(pool.freeStake, p) else wanted
    case None => wanted
  }

  /** The part of a request that `try_withdraw` serves at once. */
  function ServedNow(pool: PoolInfo, shares: nat): (served: nat)
    ensures served <= shares && Clean(served)
  {
    ExtractDust(Min(shares, FreeShares(pool, SharePrice(pool), shares))).0
  }

  /** The part it puts in the queue. */
  function QueuedNow(pool: PoolInfo, shares: nat): (queued: nat)
    ensures queued <= shares && Clean(queued)
  {
    ExtractDust(shares - ServedNow(pool, shares)).0
  }

  function Without(queue: seq<WithdrawInfo>, who: Account): seq<WithdrawInfo> {
    if queue == [] then []
    else if queue[0].user == who then Without(queue[1..], who)
    else [queue[0]] + Without(queue[1..], who)
  }

  function TryWithdraw(d: Desk, shares: nat, now: nat, slash: Slasher): Outcome<Desk> {
    var user :- SettleReward(d.pool, d.user);
    var served := ServedNow(d.pool, shares);
    var queued := QueuedNow(d.pool, shares);
    var d1 :- if served > 0 then Release(d.(user := user), served, slash) else Ok(d.(user := user));
    var queue :=
      if queued > 0 then Without(d1.pool.withdrawQueue, d.user.user) + [WithdrawInfo(d.user.user, queued, now)]
      else d1.pool.withdrawQueue;
    Ok(d1.(pool := d1.pool.(withdrawQueue := queue), user := ResetPending(d1.pool, d1.user)))
  }

  /** One round of the loop of `try_process_withdraw_queue` for the requester at the desk. */
  function ServeFront(d: Desk, price: Bits, slash: Slasher): Outcome<Desk>
    requires d.pool.withdrawQueue != []
  {
    var request := d.pool.withdrawQueue[0];
    var user :- SettleReward(d.pool, d.user);
    var served := Min(FreeShares(d.pool, Some(price), request.shares), request.shares);
    var d1 :- Release(d.(user := user), served, slash);
    var rest := ExtractDust(request.shares - served).0;
    var queue := d1.pool.withdrawQueue;
    var queue' := if rest == 0 then queue[1..] else queue[0 := request.(shares := rest)];
    Ok(d1.(pool := d1.pool.(withdrawQueue := queue'), user := ResetPending(d1.pool, d1.user)))
  }
}
