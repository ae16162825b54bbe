/**
  The stake pool pallet as an object: storage items are fields, calls are methods that change them
  in place. Every method is proved to do what its function in Vault says, so what is proved about
  that function is proved about the method.
*/
module StakePallet {
  import opened Base
  import opened FixedPoint
  import opened Pool
  import opened Vault
  import opened Records
  import opened Ledger

  /**
    A method's verdict and new storage are those of the function it is proved against. A method
    that answers `Diverge` stands for one that does not answer.
  */
  predicate Does<T(==)>(spec: Outcome<T>, r: Outcome<()>, before: T, after: T) {
    match spec
    case Ok(value) => r == Ok(()) && after == value
    case Err(e) => r == Err(e) && after == before
    case Panic => r == Panic
    case Diverge => r == Diverge
  }

  /** The records change in the same way whatever is in the purse. */
  lemma PurseApart(pool: PoolInfo, user: UserStakeInfo, purse: Purse, shares: nat)
    ensures var r, s := RemoveStake(Desk(pool, user, purse, 0), shares),
      RemoveStake(Desk(pool, user, NO_PURSE, 0), shares);
      && (r.Ok? <==> s.Ok?) && (r.Ok? || r == Panic)
      && (r.Ok? ==> r.value == Removal(s.value.desk.(purse := purse), s.value.amount, s.value.dust))
  {
    hide Mul;
  }

  function BalancesOf(v: Store): Balances {
    Balances(v.ledger, v.lock, v.free, v.slack)
  }

  /** What it takes for a storage to be another with a desk written back. */
  lemma SaveIs(v: Store, v': Store, pid: Pid, who: Account, d: Desk)
    requires v' == v.(pools := v'.pools, stakers := v'.stakers, ledger := v'.ledger, lock := v'.lock, free := v'.free,
                      slack := v'.slack, audits := v'.audits)
    requires v'.pools == v.pools[pid := d.pool] && v'.stakers == v.stakers[(pid, who) := d.user]
    requires OnlyPurse(BalancesOf(v), BalancesOf(v'), who) && d.purse == PurseIn(BalancesOf(v'), who)
    requires var audit := AuditOf(v, pid); v'.audits == v.audits[pid := audit.(changes := audit.changes + d.changes)]
    ensures v' == Save(v, pid, who, d)
  {
  }

  lemma ReleaseKeepsQueue(d: Desk, shares: nat, slash: Slasher)
    requires Release(d, shares, slash).Ok?
    ensures Release(d, shares, slash).value.pool.withdrawQueue == d.pool.withdrawQueue
  {
    hide Mul;
  }

  lemma PaidIs(v: Store, v': Store, pid: Pid, who: Account, pool: PoolInfo, user: UserStakeInfo, target: Account,
               rewards: nat)
    requires v' == v.(pools := v.pools[pid := pool], stakers := v'.stakers, free := v'.free, audits := v'.audits)
    requires v'.stakers == if (pid, who) in v.stakers then v.stakers[(pid, who) := user] else v.stakers
    requires v'.free == v.free[target := Get(v.free, target) + rewards]
    requires var audit := AuditOf(v, pid); v'.audits == v.audits[pid := audit.(paid := audit.paid + rewards)]
    ensures v' == Paid(v, pid, who, pool, user, target, rewards)
  {
  }

  class StakePools {
    var stakePools: map<Pid, PoolInfo>
    var poolStakers: map<Key, UserStakeInfo>
    var poolCount: nat
    var workerAssignments: map<Worker, Pid>
    var withdrawalTimestamps: seq<nat>
    var withdrawalQueuedPools: map<nat, seq<Pid>>
    var miningEnabled: bool
    ghost var audits: map<Pid, Audit>
    const accounts: Accounts

    ghost function Snapshot(): Store
      reads this, accounts
    {
      Store(stakePools, poolStakers, poolCount, workerAssignments, accounts.stakeLedger, accounts.locks, accounts.free,
            accounts.slack, withdrawalTimestamps, withdrawalQueuedPools, audits)
    }

    /** Records are stored under their own keys. */
    ghost predicate Valid()
      reads this, accounts
    {
      && accounts.Valid()
      && (forall pid :: pid in stakePools ==> stakePools[pid].pid == pid)
      && (forall pid, who :: (pid, who) in poolStakers ==> poolStakers[(pid, who)].user == who)
    }

    constructor (slash: Slasher)
      ensures Valid() && fresh(accounts) && accounts.slasher == slash
      ensures Snapshot() == Store(map[], map[], 0, map[], map[], map[], map[], map[], [], map[], map[])
      ensures !miningEnabled
    {
      stakePools, poolStakers, poolCount, workerAssignments := map[], map[], 0, map[];
      withdrawalTimestamps, withdrawalQueuedPools, miningEnabled := [], map[], false;
      audits := map[];
      accounts := new Accounts(slash);
    }

    /** The working set of a call: its copies of the records and the staker's account. */
    ghost function DeskAt(pool: PoolRecord, user: StakerRecord, changes: nat): Desk
      reads pool, user, accounts
    {
      Desk(pool.Info(), user.Info(), accounts.PurseOf(user.user), changes)
    }

    /** The storage with a working copy of a pool written back. */
    ghost function View(pool: PoolRecord): Store
      reads this, accounts, pool
    {
      SavePool(Snapshot(), pool.pid, pool.Info())
    }

    // -------------------------------------------------------------- settling and releasing

    method MaybeSettleSlash(pool: PoolRecord, user: StakerRecord)
      requires accounts.Valid()
      modifies user, accounts
      ensures accounts.Valid() && OnlyPurse(old(accounts.Value()), accounts.Value(), user.user)
      ensures DeskAt(pool, user, 0) == Pool.SettleSlash(old(DeskAt(pool, user, 0)), accounts.slasher)
    {
      hide Mul;
      PurseKept(accounts.Value(), user.user);
      var slashed := pool.SettleSlash(user);
      if slashed.Some? && Nondust(slashed.value) {
        var taken := accounts.Slash(user.user, slashed.value);
        ghost var b := accounts.Value();
        accounts.NoteSlack(user.user, slashed.value - taken);
        OnlyPurseTransitive(old(accounts.Value()), b, accounts.Value(), user.user);
        b := accounts.Value();
        accounts.Reduce(user.user, taken, 0);
        OnlyPurseTransitive(old(accounts.Value()), b, accounts.Value(), user.user);
      } else if slashed.Some? {
        accounts.NoteSlack(user.user, slashed.value);
      }
    }

    /** The common part of a withdrawal; false stands for the failed `expect`. */
    method ReleaseShares(pool: PoolRecord, user: StakerRecord, shares: nat) returns (ok: bool)
      requires accounts.Valid()
      modifies pool, user, accounts
      ensures accounts.Valid() && OnlyPurse(old(accounts.Value()), accounts.Value(), user.user)
      ensures var r := Pool.Release(old(DeskAt(pool, user, 0)), shares, accounts.slasher);
        && ok == r.Ok?
        && (ok ==> DeskAt(pool, user, 1) == r.value)
        && (!ok ==> r == Panic)
    {
      hide Mul;
      MaybeSettleSlash(pool, user);
      PurseApart(pool.Info(), user.Info(), accounts.PurseOf(user.user), shares);
      ghost var b := accounts.Value();
      var removed := pool.RemoveStake(user, shares);
      if removed.None? {
        return false;
      }
      accounts.Reduce(user.user, removed.value.0, removed.value.1);
      OnlyPurseTransitive(old(accounts.Value()), b, accounts.Value(), user.user);
      return true;
    }

    method MaybeAddWithdrawQueue(startTime: nat, pid: Pid)
      modifies this`withdrawalTimestamps, this`withdrawalQueuedPools
      ensures withdrawalTimestamps == TimeAdded(old(withdrawalTimestamps), startTime)
      ensures withdrawalQueuedPools == PoolListed(old(withdrawalQueuedPools), startTime, pid)
    {
      var t := withdrawalTimestamps;
      if t != [] {
        if t[|t| - 1] < startTime {
          withdrawalTimestamps := t + [startTime];
        }
      } else {
        withdrawalTimestamps := t + [startTime];
      }
      if startTime in withdrawalQueuedPools {
        var list := withdrawalQueuedPools[startTime];
        if pid !in list {
          withdrawalQueuedPools := withdrawalQueuedPools[startTime := list + [pid]];
        }
      } else {
        withdrawalQueuedPools := withdrawalQueuedPools[startTime := [pid]];
      }
    }

    // -------------------------------------------------------------- withdrawing

    /** Serves what the free stake pays for and queues the rest; false stands for a panic. */
    method TryWithdraw(pool: PoolRecord, user: StakerRecord, shares: nat, now: nat)
        returns (ok: bool, ghost changes: nat)
      requires accounts.Valid()
      modifies pool, user, accounts, this`withdrawalTimestamps, this`withdrawalQueuedPools
      ensures accounts.Valid() && OnlyPurse(old(accounts.Value()), accounts.Value(), user.user)
      ensures var r := Pool.TryWithdraw(old(DeskAt(pool, user, 0)), shares, now, accounts.slasher);
        && ok == r.Ok?
        && (ok ==> DeskAt(pool, user, changes) == r.value)
        && (!ok ==> r == Panic)
      ensures ok ==>
        if QueuedNow(old(pool.Info()), shares) > 0 then
          && withdrawalTimestamps == TimeAdded(old(withdrawalTimestamps), now)
          && withdrawalQueuedPools == PoolListed(old(withdrawalQueuedPools), now, pool.pid)
        else
          withdrawalTimestamps == old(withdrawalTimestamps) && withdrawalQueuedPools == old(withdrawalQueuedPools)
    {
      hide Mul, Div, Pool.Release, Without, TimeAdded, PoolListed, WithPurse, Put;
      PurseKept(accounts.Value(), user.user);
      changes := 0;
      ok := pool.SettleUserPendingReward(user);
      if !ok {
        return;
      }
      var price := SharePrice(pool.Info());
      var freeShares := shares;
      if price.Some? && price.value != 0 {
        freeShares := Div(pool.freeStake, price.value);
      }
      var (serving, _) := ExtractDust(Min(shares, freeShares));
      var (queued, _) := ExtractDust(shares - serving);
      if serving > 0 {
        ok := ReleaseShares(pool, user, serving);
        changes := 1;
        if !ok {
          return;
        }
      }
      if queued > 0 {
        pool.RetainOthers(user.user);
        pool.withdrawQueue := pool.withdrawQueue + [WithdrawInfo(user.user, queued, now)];
        MaybeAddWithdrawQueue(now, pool.pid);
      }
      pool.ResetPendingReward(user);
    }

    /** One request from the front of the queue, whose requester is `user`. */
    method ServeFrontRequest(pool: PoolRecord, user: StakerRecord, price: Bits) returns (ok: bool)
      requires accounts.Valid() && pool.withdrawQueue != []
      modifies pool, user, accounts
      ensures accounts.Valid() && OnlyPurse(old(accounts.Value()), accounts.Value(), user.user)
      ensures var r := Pool.ServeFront(old(DeskAt(pool, user, 0)), price, accounts.slasher);
        && ok == r.Ok?
        && (ok ==> DeskAt(pool, user, 1) == r.value)
        && (!ok ==> r == Panic)
    {
      hide Mul, Div, Pool.Release;
      PurseKept(accounts.Value(), user.user);
      var withdraw := pool.withdrawQueue[0];
      ok := pool.SettleUserPendingReward(user);
      if !ok {
        return;
      }
      var freeShares := if price == 0 then withdraw.shares else Div(pool.freeStake, price);
      var serving := Min(freeShares, withdraw.shares);
      ghost var d := DeskAt(pool, user, 0);
      ok := ReleaseShares(pool, user, serving);
      if !ok {
        return;
      }
      ReleaseKeepsQueue(d, serving, accounts.slasher);
      var (rest, _) := ExtractDust(withdraw.shares - serving);
      pool.ResetPendingReward(user);
      if rest == 0 {
        pool.withdrawQueue := pool.withdrawQueue[1..];
      } else {
        pool.withdrawQueue := pool.withdrawQueue[0 := withdraw.(shares := rest)];
      }
    }

    /** Writes a staker back, with the history of the pool's share changes. */
    method StoreStaker(pid: Pid, user: StakerRecord, ghost changes: nat)
      modifies this`poolStakers, this`audits
      ensures poolStakers == old(poolStakers)[(pid, user.user) := user.Info()]
      ensures var audit := AuditOf(old(Snapshot()), pid);
        audits == old(audits)[pid := audit.(changes := audit.changes + changes)]
    {
      ghost var audit := AuditOf(Snapshot(), pid);
      audits := audits[pid := audit.(changes := audit.changes + changes)];
      poolStakers := poolStakers[(pid, user.user) := user.Info()];
    }

    /** A round of the queue's loop. */
    method ServeRound(pool: PoolRecord, price: Bits) returns (ok: bool)
      requires Valid() && pool.withdrawQueue != []
      modifies this`poolStakers, this`audits, pool, accounts
      ensures Valid()
      ensures var r := ServeOne(old(View(pool)), pool.pid, price, accounts.slasher);
        && ok == r.Ok?
        && (ok ==> View(pool) == r.value)
        && (!ok ==> r == Panic)
    {
      hide Pool.ServeFront, Save, NormalBalances;
      var who := pool.withdrawQueue[0].user;
      if (pool.pid, who) !in poolStakers {
        pool.withdrawQueue := pool.withdrawQueue[1..];
        assert View(pool).pools == old(View(pool)).pools[pool.pid := pool.Info()];
        return true;
      }
      var user := new StakerRecord(poolStakers[(pool.pid, who)]);
      ok := ServeFrontRequest(pool, user, price);
      if ok {
        StoreStaker(pool.pid, user, 1);
        assert View(pool).pools == old(View(pool)).pools[pool.pid := pool.Info()];
        SaveIs(old(View(pool)), View(pool), pool.pid, who, DeskAt(pool, user, 1));
      }
    }

    /**
      `try_process_withdraw_queue`. A method must terminate, so this one stops with `Diverge`
      where the loop goes on for ever: after two rounds in vain.
    */
    method TryProcessWithdrawQueue(pool: PoolRecord) returns (r: Outcome<()>)
      requires Valid()
      modifies this`poolStakers, this`audits, pool, accounts
      ensures Valid()
      ensures match ProcessQueue(old(View(pool)), pool.pid, accounts.slasher)
        case Ok(v) => r == Ok(()) && View(pool) == v
        case Err(_) => false
        case Panic => r == Panic
        case Diverge => r == Diverge
    {
      hide ServeOne, SharePrice;
      var price := SharePrice(pool.Info());
      if price.None? {
        return Ok(());
      }
      while Nondust(pool.freeStake) && pool.withdrawQueue != []
        invariant Valid()
        invariant ServeQueue(old(View(pool)), pool.pid, price.value, accounts.slasher) ==
                  ServeQueue(View(pool), pool.pid, price.value, accounts.slasher)
        decreases QueueMeasure(pool.withdrawQueue), pool.freeStake
      {
        var before := pool.Info();
        var ok := ServeRound(pool, price.value);
        if !ok {
          return Panic;
        }
        if !Progress(before, pool.Info()) {
          ok := ServeRound(pool, price.value);
          return if ok then Diverge else Panic;
        }
      }
      return Ok(());
    }

    // -------------------------------------------------------------- calls

    method Create(owner: Account)
      requires Valid()
      modifies this`stakePools, this`poolCount
      ensures Valid() && Snapshot() == Vault.Create(old(Snapshot()), owner)
    {
      var pid := poolCount;
      stakePools := stakePools[pid := PoolInfo(pid, owner, None, 0, None, 0, 0, 0, 0, 0, [], [])];
      poolCount := pid + 1;
    }

    method SetCap(owner: Account, pid: Pid, cap: nat) returns (r: Outcome<()>)
      requires Valid()
      modifies this`stakePools
      ensures Valid() && Does(Vault.SetCap(old(Snapshot()), owner, pid, cap), r, old(Snapshot()), Snapshot())
    {
      if pid !in stakePools {
        return Err(PoolDoesNotExist);
      }
      var pool := new PoolRecord(stakePools[pid]);
      if pool.owner != owner {
        return Err(UnauthorizedPoolOwner);
      }
      if pool.totalStake > cap {
        return Err(InadequateCapacity);
      }
      pool.cap := Some(cap);
      stakePools := stakePools[pid := pool.Info()];
      return Ok(());
    }

    method SetPayoutPref(owner: Account, pid: Pid, rate: nat) returns (r: Outcome<()>)
      requires Valid()
      modifies this`stakePools
      ensures Valid() && Does(Vault.SetPayoutPref(old(Snapshot()), owner, pid, rate), r, old(Snapshot()), Snapshot())
    {
      if pid !in stakePools {
        return Err(PoolDoesNotExist);
      }
      var pool := new PoolRecord(stakePools[pid]);
      if pool.owner != owner {
        return Err(UnauthorizedPoolOwner);
      }
      pool.payoutCommission := Some(rate);
      stakePools := stakePools[pid := pool.Info()];
      return Ok(());
    }

    /** Takes what the caller may claim off the records; false stands for a panic. */
    method CollectRewards(pool: PoolRecord, who: Account) returns (user: StakerRecord, rewards: nat, ok: bool)
      requires Valid()
      modifies pool
      ensures fresh(user) && user.user == who
      ensures var before := old(pool.Info());
        && pool.Info() == (if who == pool.owner then before.(ownerReward := 0) else before)
        && var settled := if (pool.pid, who) in poolStakers then SettleReward(pool.Info(), poolStakers[(pool.pid, who)])
                          else Ok(NewStaker(who));
           && ok == settled.Ok? && (!ok ==> settled == Panic)
           && (ok ==>
                 && user.Info() == settled.value.(availableRewards := 0)
                 && rewards == (if who == pool.owner then before.ownerReward else 0) + settled.value.availableRewards)
    {
      hide Mul;
      rewards := 0;
      ok := true;
      if who == pool.owner {
        rewards := rewards + pool.ownerReward;
        pool.ownerReward := 0;
      }
      if (pool.pid, who) in poolStakers {
        user := new StakerRecord(poolStakers[(pool.pid, who)]);
        ok := pool.SettleUserPendingReward(user);
        if ok {
          rewards := rewards + user.availableRewards;
          user.availableRewards := 0;
        }
      } else {
        user := new StakerRecord(NewStaker(who));
      }
    }

    /** Writes back the records a claim took rewards off; no staker is stored that was not there. */
    method StoreClaim(pool: PoolRecord, user: StakerRecord)
      requires Valid() && pool.pid in stakePools
      modifies this`stakePools, this`poolStakers
      ensures Valid() && stakePools == old(stakePools)[pool.pid := pool.Info()]
      ensures var key := (pool.pid, user.user);
        poolStakers == if key in old(poolStakers) then old(poolStakers)[key := user.Info()] else old(poolStakers)
    {
      stakePools := stakePools[pool.pid := pool.Info()];
      if (pool.pid, user.user) in poolStakers {
        poolStakers := poolStakers[(pool.pid, user.user) := user.Info()];
      }
    }

    method PayOut(pool: PoolRecord, user: StakerRecord, target: Account, rewards: nat)
      requires Valid() && rewards > 0
      requires pool.pid in stakePools
      modifies this`stakePools, this`poolStakers, this`audits, accounts
      ensures Valid()
      ensures Snapshot() == Paid(old(Snapshot()), pool.pid, user.user, pool.Info(), user.Info(), target, rewards)
    {
      hide Paid, AuditOf, NormalBalances;
      ghost var audit := AuditOf(Snapshot(), pool.pid);
      accounts.Deposit(target, rewards);
      StoreClaim(pool, user);
      audits := audits[pool.pid := audit.(paid := audit.paid + rewards)];
      PaidIs(old(Snapshot()), Snapshot(), pool.pid, user.user, pool.Info(), user.Info(), target, rewards);
    }

    method ClaimRewards(who: Account, pid: Pid, target: Account, funded: bool) returns (r: Outcome<()>)
      requires Valid()
      modifies this`stakePools, this`poolStakers, this`audits, accounts
      ensures Valid()
      ensures Does(Vault.ClaimRewards(old(Snapshot()), who, pid, target, funded), r, old(Snapshot()), Snapshot())
    {
      hide SettleReward, Paid;
      if pid !in stakePools {
        return Err(PoolDoesNotExist);
      }
      var pool := new PoolRecord(stakePools[pid]);
      var user, rewards, ok := CollectRewards(pool, who);
      if !ok {
        return Panic;
      }
      if rewards == 0 {
        return Err(NoRewardToClaim);
      }
      if !funded {
        return Err(InternalSubsidyPoolCannotWithdraw);
      }
      PayOut(pool, user, target, rewards);
      return Ok(());
    }

    /** The caller's record for a contribution, with rewards and slashes settled; None is a panic. */
    method PrepareStaker(pool: PoolRecord, who: Account) returns (user: StakerRecord, ok: bool)
      requires Valid() && pool.pid in stakePools && pool.Info() == stakePools[pool.pid]
      modifies accounts
      ensures Valid() && fresh(user) && user.user == who
      ensures OnlyPurse(old(accounts.Value()), accounts.Value(), who)
      ensures var r := Prepared(old(Snapshot()), pool.pid, who, accounts.slasher);
        && ok == r.Ok?
        && (ok ==> DeskAt(pool, user, 0) == r.value)
        && (!ok ==> r == Panic)
    {
      hide Mul, Pool.SettleSlash;
      PurseKept(accounts.Value(), who);
      if (pool.pid, who) in poolStakers {
        user := new StakerRecord(poolStakers[(pool.pid, who)]);
        ok := pool.SettleUserPendingReward(user);
        if ok {
          MaybeSettleSlash(pool, user);
        }
      } else {
        user := new StakerRecord(NewStaker(who));
        ok := true;
      }
    }

    /** Adds the stake and locks the account. */
    method DepositStake(pool: PoolRecord, user: StakerRecord, amount: nat)
      requires accounts.Valid()
      modifies pool, user, accounts
      ensures accounts.Valid() && OnlyPurse(old(accounts.Value()), accounts.Value(), user.user)
      ensures DeskAt(pool, user, 1) == Pool.Deposit(old(DeskAt(pool, user, 0)), amount)
    {
      hide SharesFor, Mul;
      pool.AddStake(user, amount);
      accounts.Accrue(user.user, amount);
    }

    /** Everything of a contribution up to the withdraw queue; false stands for a panic. */
    method EnterStake(pool: PoolRecord, who: Account, amount: nat) returns (ok: bool)
      requires Valid() && pool.pid in stakePools && pool.Info() == stakePools[pool.pid]
      modifies this`poolStakers, this`audits, pool, accounts
      ensures Valid()
      ensures var r := Prepared(old(Snapshot()), pool.pid, who, accounts.slasher);
        && ok == r.Ok?
        && (ok ==> View(pool) == Save(old(Snapshot()), pool.pid, who, Pool.Deposit(r.value, amount)))
        && (!ok ==> r == Panic)
    {
      hide Prepared, Pool.Deposit, Save, NormalBalances;
      var user: StakerRecord;
      user, ok := PrepareStaker(pool, who);
      if ok {
        ghost var b := accounts.Value();
        DepositStake(pool, user, amount);
        OnlyPurseTransitive(old(accounts.Value()), b, accounts.Value(), who);
        StoreStaker(pool.pid, user, 1);
        ghost var d := Pool.Deposit(Prepared(old(Snapshot()), pool.pid, who, accounts.slasher).value, amount);
        SaveIs(old(Snapshot()), View(pool), pool.pid, who, d);
      }
    }

    method Contribute(who: Account, pid: Pid, amount: nat) returns (r: Outcome<()>)
      requires Valid()
      modifies this`stakePools, this`poolStakers, this`audits, accounts
      ensures Valid()
      ensures Does(Vault.Contribute(old(Snapshot()), who, pid, amount, accounts.slasher), r, old(Snapshot()),
        Snapshot())
    {
      hide Prepared, Pool.Deposit, ProcessQueue, Save, NormalBalances;
      if amount < MIN_CONTRIBUTION {
        return Err(InsufficientContribution);
      }
      var free, locked := Get(accounts.free, who), Get(accounts.stakeLedger, who);
      if free < locked {
        return Panic;
      }
      if free - locked < amount {
        return Err(InsufficientBalance);
      }
      if pid !in stakePools {
        return Err(PoolDoesNotExist);
      }
      var pool := new PoolRecord(stakePools[pid]);
      if !CapAllows(pool.Info(), amount) {
        return Err(StakeExceedsCapacity);
      }
      if pool.totalShares != 0 && pool.totalStake == 0 {
        return Err(PoolBankrupt);
      }
      var ok := EnterStake(pool, who, amount);
      if !ok {
        return Panic;
      }
      r := TryProcessWithdrawQueue(pool);
      if r == Ok(()) {
        stakePools := stakePools[pid := pool.Info()];
      }
    }

    /** The withdrawal of a staker that has passed the checks, written back. */
    method WithdrawShares(pool: PoolRecord, user: StakerRecord, shares: nat, now: nat) returns (ok: bool)
      requires Valid() && pool.pid in stakePools && (pool.pid, user.user) in poolStakers
      modifies this`stakePools, this`poolStakers, this`withdrawalTimestamps, this`withdrawalQueuedPools, this`audits
      modifies pool, user, accounts
      ensures Valid()
      ensures var r := Pool.TryWithdraw(old(DeskAt(pool, user, 0)), shares, now, accounts.slasher);
        && ok == r.Ok? && (!ok ==> r == Panic)
        && (ok ==>
              var v := Save(old(Snapshot()), pool.pid, user.user, r.value);
              Snapshot() == if QueuedNow(old(pool.Info()), shares) > 0 then AddToIndex(v, now, pool.pid) else v)
    {
      hide Pool.TryWithdraw, QueuedNow, TimeAdded, PoolListed, Save, OnlyPurse, NormalBalances;
      ghost var changes;
      ok, changes := TryWithdraw(pool, user, shares, now);
      if ok {
        StoreStaker(pool.pid, user, changes);
        stakePools := stakePools[pool.pid := pool.Info()];
        SaveIs(old(Snapshot()), Snapshot().(timestamps := old(withdrawalTimestamps),
          queuedPools := old(withdrawalQueuedPools)),
               pool.pid, user.user, DeskAt(pool, user, changes));
      }
    }

    method Withdraw(who: Account, pid: Pid, shares: nat, now: nat) returns (r: Outcome<()>)
      requires Valid()
      modifies this`stakePools, this`poolStakers, this`withdrawalTimestamps, this`withdrawalQueuedPools, this`audits,
        accounts
      ensures Valid()
      ensures Does(Vault.Withdraw(old(Snapshot()), who, pid, shares, now, accounts.slasher), r, old(Snapshot()),
        Snapshot())
    {
      hide Pool.TryWithdraw, QueuedNow, AddToIndex, Save, NormalBalances;
      if (pid, who) !in poolStakers {
        return Err(PoolStakeNotFound);
      }
      var user := new StakerRecord(poolStakers[(pid, who)]);
      if CloseToZero(shares) || shares > user.shares {
        return Err(InvalidWithdrawalAmount);
      }
      if pid !in stakePools {
        return Err(PoolDoesNotExist);
      }
      var pool := new PoolRecord(stakePools[pid]);
      var ok := WithdrawShares(pool, user, shares, now);
      r := if ok then Ok(()) else Panic;
    }

    method ReconcileWithdrawQueue(pid: Pid, account: Account) returns (r: Outcome<()>)
      requires Valid()
      modifies this`stakePools
      ensures Valid() && Does(Reconcile(old(Snapshot()), pid, account), r, old(Snapshot()), Snapshot())
    {
      hide Lowered;
      if pid !in stakePools {
        return Err(PoolDoesNotExist);
      }
      var pool := new PoolRecord(stakePools[pid]);
      if (pid, account) !in poolStakers {
        return Err(PoolStakeNotFound);
      }
      var user := poolStakers[(pid, account)];
      var (available, _) := ExtractDust(user.shares);
      pool.LowerRequest(account, available);
      stakePools := stakePools[pid := pool.Info()];
      return Ok(());
    }

    // -------------------------------------------------------------- rewards and callbacks

    method HandlePoolNewReward(pool: PoolRecord, rewards: nat, permill: Permill)
      modifies pool
      ensures pool.Info() == NewReward(old(pool.Info()), rewards, Commission(old(pool.Info()), rewards, permill))
    {
      if rewards > 0 {
        if CloseToZero(pool.totalShares) {
          return;
        }
        var commission := Commission(pool.Info(), rewards, permill);
        pool.ownerReward := pool.ownerReward + commission;
        if Nondust(rewards - commission) {
          pool.DistributeReward(rewards - commission);
        }
      }
    }

    /** `on_reward`, with its early return at the first worker without a pool. */
    method OnReward(settle: seq<SettleInfo>, permill: Permill) returns (ok: bool)
      requires Valid()
      modifies this`stakePools, this`audits
      ensures Valid()
      ensures var r := Vault.OnReward(old(Snapshot()), settle, permill);
        ok == r.Ok? && (ok ==> Snapshot() == r.value) && (!ok ==> r == Panic)
    {
      hide NewReward, Commission;
      var i := 0;
      while i < |settle|
        invariant i <= |settle| && Valid()
        invariant Vault.OnReward(old(Snapshot()), settle, permill) == Vault.OnReward(Snapshot(), settle[i..], permill)
      {
        assert settle[i..][1..] == settle[i + 1..];
        var worker := settle[i].pubkey;
        if worker !in workerAssignments {
          return true;
        }
        var pid := workerAssignments[worker];
        if pid !in stakePools {
          return false;
        }
        CreditPool(pid, FromFixed(settle[i].payout), permill);
        i := i + 1;
      }
      assert settle[i..] == [];
      return true;
    }

    method CreditPool(pid: Pid, reward: nat, permill: Permill)
      requires Valid() && pid in stakePools
      modifies this`stakePools, this`audits
      ensures Valid() && Snapshot() == Credit(old(Snapshot()), pid, reward, permill)
    {
      hide NewReward, Commission;
      var pool := new PoolRecord(stakePools[pid]);
      HandlePoolNewReward(pool, reward, permill);
      stakePools := stakePools[pid := pool.Info()];
      ghost var audit := AuditOf(Snapshot(), pid);
      audits := audits[pid := audit.(received := audit.received + reward)];
    }

    method OnStopped(worker: Worker, origStake: nat, slashed: nat) returns (ok: bool)
      requires Valid()
      modifies this`stakePools
      ensures Valid()
      ensures var r := Vault.OnStopped(old(Snapshot()), worker, origStake, slashed);
        ok == r.Ok? && (ok ==> Snapshot() == r.value) && (!ok ==> r == Panic)
    {
      if worker !in workerAssignments || workerAssignments[worker] !in stakePools || origStake < slashed {
        return false;
      }
      var pid := workerAssignments[worker];
      var pool := new PoolRecord(stakePools[pid]);
      pool.releasingStake := pool.releasingStake + (origStake - slashed);
      stakePools := stakePools[pid := pool.Info()];
      return true;
    }

    method RemoveWorkerFromPool(worker: Worker) returns (ok: bool)
      requires Valid()
      modifies this`stakePools, this`workerAssignments
      ensures Valid()
      ensures var r := Vault.RemoveWorkerFromPool(old(Snapshot()), worker);
        ok == r.Ok? && (ok ==> Snapshot() == r.value) && (!ok ==> r == Panic)
    {
      hide Removed;
      if worker !in workerAssignments {
        return false;
      }
      var pid := workerAssignments[worker];
      workerAssignments := workerAssignments - {worker};
      if pid in stakePools {
        var pool := new PoolRecord(stakePools[pid]);
        pool.RemoveWorker(worker);
        stakePools := stakePools[pid := pool.Info()];
      }
      return true;
    }

    method HandleReclaim(pid: Pid, origStake: nat, slashed: nat) returns (r: Outcome<()>)
      requires Valid()
      modifies this`stakePools, this`poolStakers, this`audits, accounts
      ensures Valid()
      ensures match Vault.HandleReclaim(old(Snapshot()), pid, origStake, slashed, accounts.slasher)
        case Ok(v) => r == Ok(()) && Snapshot() == v
        case Err(_) => false
        case Panic => r == Panic
        case Diverge => r == Diverge
    {
      hide ProcessQueue, Reclaimed;
      if pid !in stakePools || origStake < slashed {
        return Panic;
      }
      var pool := new PoolRecord(stakePools[pid]);
      pool.TakeBack(origStake, slashed);
      r := TryProcessWithdrawQueue(pool);
      if r == Ok(()) {
        stakePools := stakePools[pid := pool.Info()];
      }
    }
  }
}
