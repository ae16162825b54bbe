/** What every operation of Pool keeps, at one desk: the local half of the ledger invariants. */
module PoolLaws {
  import opened Base
  import opened FixedPoint
  import opened Sums
  import opened Pool

  // ---------------------------------------------------------------- stake

  /**
    The stake of a pool is what is free plus what its miners hold, or the pool is bankrupt:
    worth nothing, with no miner, shares outstanding and at most dust left free.
  */
  predicate Backed(pool: PoolInfo, staked: nat) {
    && Clean(pool.totalStake)
    && (|| pool.totalStake == pool.freeStake + staked
        || (pool.totalStake == 0 && staked == 0 && CloseToZero(pool.freeStake) && pool.totalShares > 0))
  }

  /** Miners never hold a dust stake. */
  predicate Solid(staked: nat) {
    staked == 0 || Nondust(staked)
  }

  // ---------------------------------------------------------------- rewards

  /** The unrounded value of Mul(shares, acc), in units of pico / WIDTH. */
  function Exact(shares: nat, acc: Bits): nat {
    ToFixed(shares) * acc * SCALE
  }

  lemma MulClose(shares: nat, acc: Bits)
    ensures Worth(Mul(shares, acc)) <= Exact(shares, acc) < Worth(Mul(shares, acc) + 2)
  {
    var x := ToFixed(shares) * acc;
    var m := x / ONE;
    assert Mul(shares, acc) == m * SCALE / ONE;
  }

  /** A balance in units of pico / WIDTH. */
  function Worth(n: int): int {
    Scaled(WIDTH, n)
  }

  /** The rounding that `n` share changes may add, two pico each, in the same units. */
  function Drift(n: nat): int {
    Worth(2 * n)
  }

  lemma WorthAdds(a: int, b: int)
    ensures Worth(a + b) == Worth(a) + Worth(b)
  {
  }

  lemma DriftAdds(a: nat, b: nat)
    ensures Drift(a + b) == Drift(a) + Drift(b)
  {
  }

  /** What a pool owes a staker, exactly: rewards credited plus those still in the accumulator. */
  function Held(user: UserStakeInfo, acc: Bits): int {
    Exact(user.shares, acc) + Worth(user.availableRewards - user.rewardDebt)
  }

  // ---------------------------------------------------------------- the local invariant

  predicate Covered(purse: Purse, locked: nat) {
    locked + purse.slack <= purse.ledger == purse.lock <= purse.free
  }

  /** A staker's debt is within its accumulated rewards, and it never has a dust stake locked. */
  predicate StakerOk(pool: PoolInfo, user: UserStakeInfo) {
    user.rewardDebt <= Mul(user.shares, pool.rewardAcc) && Clean(user.locked)
  }

  predicate DeskOk(d: Desk, staked: nat) {
    && Backed(d.pool, staked) && Solid(staked)
    && d.user.shares <= d.pool.totalShares
    && StakerOk(d.pool, d.user)
    && Covered(d.purse, d.user.locked)
  }

  /** What the account's ledger holds for the stake in other pools. */
  function Gap(d: Desk): int {
    d.purse.ledger - d.user.locked - d.purse.slack
  }

  predicate SameTerms(pool: PoolInfo, pool': PoolInfo) {
    pool' == pool.(totalShares := pool'.totalShares, totalStake := pool'.totalStake,
                   freeStake := pool'.freeStake, withdrawQueue := pool'.withdrawQueue)
  }

  /**
    What one desk operation may do to the totals it takes part in: the pool's shares move
    with the staker's, the account's ledger moves with its stake and its slack, and what the
    pool owes grows by less than 2 pico a share change.
  */
  predicate Fair(d: Desk, d': Desk) {
    && SameTerms(d.pool, d'.pool)
    && d'.user.user == d.user.user
    && d'.pool.totalShares - d.pool.totalShares == d'.user.shares - d.user.shares
    && Gap(d') == Gap(d)
    && d'.changes >= d.changes
    && Held(d'.user, d.pool.rewardAcc) <= Held(d.user, d.pool.rewardAcc) + Drift(d'.changes - d.changes)
  }

  lemma FairReflexive(d: Desk)
    ensures Fair(d, d)
  {
  }

  lemma FairTransitive(d: Desk, e: Desk, f: Desk)
    requires Fair(d, e) && Fair(e, f)
    ensures Fair(d, f)
  {
  }

  // ---------------------------------------------------------------- each operation

  /** Settling rewards moves them within what the pool owes, and never underflows. */
  lemma SettleRewardKeeps(d: Desk, staked: nat)
    requires DeskOk(d, staked)
    ensures var user := SettleReward(d.pool, d.user);
      && user.Ok?
      && DeskOk(d.(user := user.value), staked)
      && Fair(d, d.(user := user.value))
      && Held(user.value, d.pool.rewardAcc) == Held(d.user, d.pool.rewardAcc)
      && user.value.rewardDebt == Mul(d.user.shares, d.pool.rewardAcc)
  {
  }

  /** A share change resets the debt, so it can add less than 2 pico to what is owed. */
  lemma ResetAddsLittle(pool: PoolInfo, user: UserStakeInfo, user': UserStakeInfo)
    requires StakerOk(pool, user) && user'.availableRewards == user.availableRewards
    requires user' == ResetPending(pool, user')
    ensures Held(user', pool.rewardAcc) <= Held(user, pool.rewardAcc) + Drift(1)
  {
    MulClose(user.shares, pool.rewardAcc);
    MulClose(user'.shares, pool.rewardAcc);
  }

  /** `SettleSlash` leaves the ledger covering at least what it covered. */
  lemma SettleSlashKeeps(d: Desk, slash: Slasher, staked: nat)
    requires DeskOk(d, staked)
    ensures DeskOk(SettleSlash(d, slash), staked) && Fair(d, SettleSlash(d, slash))
  {
  }

  /**
    What a settled slash adds to the slack: the slashed dust, which is not collected, or what
    the currency fails to slash. The ledger's saturation is never needed.
  */
  lemma SlashSlack(d: Desk, slash: Slasher, staked: nat)
    requires DeskOk(d, staked)
    ensures var d' := SettleSlash(d, slash);
      var slashed := d.user.locked - d'.user.locked;
      var taken := if Nondust(slashed) then Taken(slash, d.user.user, slashed, d.purse.free) else 0;
      && 0 <= slashed
      && d'.purse.slack == d.purse.slack + (slashed - taken)
      && d'.purse.ledger == d.purse.ledger - taken
  {
    hide Mul;
  }

  lemma DepositKeeps(d: Desk, amount: nat, staked: nat)
    requires DeskOk(d, staked) && amount <= d.purse.free - d.purse.ledger && Nondust(amount)
    requires d.pool.totalShares == 0 || d.pool.totalStake > 0
    ensures DeskOk(Deposit(d, amount), staked) && Fair(d, Deposit(d, amount))
    ensures Deposit(d, amount).user.shares >= d.user.shares
    ensures Deposit(d, amount).pool.withdrawQueue == d.pool.withdrawQueue
  {
    ResetAddsLittle(d.pool, d.user, AddStake(d, amount).user);
  }

  /**
    Withdrawing no more than one has always succeeds. The ledger falls by exactly what the
    record does: its saturation is never needed.
  */
  lemma RemoveStakeKeeps(d: Desk, shares: nat, slash: Slasher, staked: nat)
    requires DeskOk(d, staked)
    requires shares <= d.user.shares && d.pool.totalShares > 0
    ensures var r := RemoveStake(d, shares);
      && r.Ok?
      && r.value.amount + r.value.dust == d.user.locked - r.value.desk.user.locked
      && var purse := LedgerReduce(d.purse, d.user.user, r.value.amount, r.value.dust, slash);
         && purse.ledger == d.purse.ledger - (r.value.amount + r.value.dust)
         && DeskOk(r.value.desk.(purse := purse), staked)
         && Fair(d, r.value.desk.(purse := purse))
  {
    ToFixedPositive(d.pool.totalShares);
    if d.pool.totalStake == 0 {
      WorthlessShares(d.pool, shares);
    }
    var r := RemoveStake(d, shares);
    ResetAddsLittle(d.pool, d.user, r.value.desk.user);
  }

  lemma WorthlessShares(pool: PoolInfo, shares: nat)
    requires pool.totalShares > 0 && pool.totalStake == 0
    ensures SharePrice(pool) == Some(0) && Mul(shares, 0) == 0
  {
    ToFixedPositive(pool.totalShares);
    DivUnique(0, ToFixed(pool.totalShares), 0);
  }

  lemma ReleaseKeeps(d: Desk, shares: nat, slash: Slasher, staked: nat)
    requires DeskOk(d, staked)
    requires shares <= d.user.shares && d.pool.totalShares > 0
    ensures var r := Release(d, shares, slash);
      r.Ok? && DeskOk(r.value, staked) && Fair(d, r.value)
  {
    SettleSlashKeeps(d, slash, staked);
    RemoveStakeKeeps(SettleSlash(d, slash), shares, slash, staked);
    FairTransitive(d, SettleSlash(d, slash), Release(d, shares, slash).value);
  }
}
