/**
  The pool and staker records as the pallet works on them: decoded copies with methods that
  change their fields in place. Each method is proved against its function in Pool or Vault.
*/
module Records {
  import opened Base
  import opened FixedPoint
  import Pool
  import Vault

  /** What the record methods do not touch. */
  const NO_PURSE: Pool.Purse := Pool.Purse(0, 0, 0, 0)

  class StakerRecord {
    const user: Pool.Account
    var locked: nat
    var shares: nat
    var availableRewards: nat
    var rewardDebt: nat

    /** The stored form of the record. */
    function Info(): Pool.UserStakeInfo
      reads this
    {
      Pool.UserStakeInfo(user, locked, shares, availableRewards, rewardDebt)
    }

    constructor (info: Pool.UserStakeInfo)
      ensures Info() == info
    {
      user, locked, shares := info.user, info.locked, info.shares;
      availableRewards, rewardDebt := info.availableRewards, info.rewardDebt;
    }
  }

  class PoolRecord {
    const pid: Pool.Pid
    const owner: Pool.Account
    var payoutCommission: Option<nat>
    var ownerReward: nat
    var cap: Option<nat>
    var rewardAcc: Bits
    var totalShares: nat
    var totalStake: nat
    var freeStake: nat
    var releasingStake: nat
    var workers: seq<Pool.Worker>
    var withdrawQueue: seq<Pool.WithdrawInfo>

    function Info(): Pool.PoolInfo
      reads this
    {
      Pool.PoolInfo(pid, owner, payoutCommission, ownerReward, cap, rewardAcc, totalShares, totalStake, freeStake,
                    releasingStake, workers, withdrawQueue)
    }

    constructor (info: Pool.PoolInfo)
      ensures Info() == info
    {
      pid, owner, payoutCommission, ownerReward := info.pid, info.owner, info.payoutCommission, info.ownerReward;
      cap, rewardAcc, totalShares, totalStake := info.cap, info.rewardAcc, info.totalShares, info.totalStake;
      freeStake, releasingStake := info.freeStake, info.releasingStake;
      workers, withdrawQueue := info.workers, info.withdrawQueue;
    }

    ghost function DeskWith(user: StakerRecord): Pool.Desk
      reads this, user
    {
      Pool.Desk(Info(), user.Info(), NO_PURSE, 0)
    }

    // -------------------------------------------------------------- rewards

    method ResetPendingReward(user: StakerRecord)
      modifies user
      ensures user.Info() == Pool.ResetPending(Info(), old(user.Info()))
    {
      user.rewardDebt := Mul(user.shares, rewardAcc);
    }

    /** False stands for the underflow of the pending reward; the record is then as it was. */
    method SettleUserPendingReward(user: StakerRecord) returns (ok: bool)
      modifies user
      ensures ok == Pool.SettleReward(Info(), old(user.Info())).Ok?
      ensures user.Info() == if ok then Pool.SettleReward(Info(), old(user.Info())).value else old(user.Info())
    {
      var earned := Mul(user.shares, rewardAcc);
      if earned < user.rewardDebt {
        return false;
      }
      user.availableRewards := user.availableRewards + (earned - user.rewardDebt);
      ResetPendingReward(user);
      return true;
    }

    method DistributeReward(rewards: nat)
      requires totalShares > 0
      modifies this
      ensures Info() == Pool.Distribute(old(Info()), rewards)
    {
      ToFixedPositive(totalShares);
      rewardAcc := rewardAcc + FixDiv(ToFixed(rewards), ToFixed(totalShares));
    }

    // -------------------------------------------------------------- stake

    method AddStake(user: StakerRecord, amount: nat)
      modifies this, user
      ensures var d := Pool.AddStake(old(DeskWith(user)), amount);
        Info() == d.pool && user.Info() == d.user && d.changes == 1
    {
      hide Mul, Div;
      var added := amount;
      var price := Pool.SharePrice(Info());
      if price.Some? && price.value != 0 {
        added := Div(amount, price.value);
      }
      user.shares := user.shares + added;
      user.locked := user.locked + amount;
      ResetPendingReward(user);
      totalShares := totalShares + added;
      totalStake := totalStake + amount;
      freeStake := freeStake + amount;
    }

    /** The stake taken out and the dust to remove, or None with nothing changed. */
    method RemoveStake(user: StakerRecord, shares: nat) returns (r: Option<(nat, nat)>)
      modifies this, user
      ensures var removal := Pool.RemoveStake(old(DeskWith(user)), shares);
        if removal.Ok? then
          && r == Some((removal.value.amount, removal.value.dust))
          && Info() == removal.value.desk.pool && user.Info() == removal.value.desk.user
          && removal.value.desk.changes == 1
        else
          && removal == Panic && r == None && Info() == old(Info()) && user.Info() == old(user.Info())
    {
      hide Mul;
      var price := Pool.SharePrice(Info());
      if price.None? {
        return None;
      }
      var amount := Min(Min(Mul(shares, price.value), freeStake), user.locked);
      if user.shares < shares {
        return None;
      }
      var (userShares, sharesDust) := Pool.ExtractDust(user.shares - shares);
      var (userLocked, userDust) := Pool.ExtractDust(user.locked - amount);
      if totalShares < shares + sharesDust || totalStake < amount {
        return None;
      }
      var (remaining, _) := Pool.ExtractDust(totalStake - amount);
      if remaining > 0 {
        freeStake := freeStake - amount;
        totalStake := totalStake - amount;
      } else {
        freeStake := 0;
        totalStake := 0;
      }
      totalShares := totalShares - (shares + sharesDust);
      user.shares := userShares;
      user.locked := userLocked;
      ResetPendingReward(user);
      return Some((amount, userDust));
    }

    method Slash(amount: nat)
      modifies this
      ensures Info() == Pool.Slash(old(Info()), amount)
    {
      var taken := Min(totalStake, amount);
      var (rest, _) := Pool.ExtractDust(totalStake - taken);
      totalStake := rest;
    }

    /** Takes a reclaimed stake back, less what was slashed; the releasing stake saturates. */
    method TakeBack(origStake: nat, slashed: nat)
      requires slashed <= origStake
      modifies this
      ensures Info() == Vault.Reclaimed(old(Info()), origStake, slashed)
    {
      var returned: nat := origStake - slashed;
      if slashed != 0 {
        Slash(slashed);
      }
      freeStake := freeStake + returned;
      releasingStake := if releasingStake >= returned then releasingStake - returned else 0;
    }

    /** What the staker loses at the current price, or None when there is no price. */
    method SettleSlash(user: StakerRecord) returns (slashed: Option<nat>)
      modifies user
      ensures match Pool.SharePrice(Info())
        case None => slashed == None && user.Info() == old(user.Info())
        case Some(price) =>
          && user.Info() == old(user.Info()).(locked := Pool.Kept(old(user.Info()), price))
          && slashed == Some(old(user.locked) - user.locked)
    {
      var price := Pool.SharePrice(Info());
      if price.None? {
        return None;
      }
      var locked := user.locked;
      var kept := Min(Mul(user.shares, price.value), locked);
      var (rest, _) := Pool.ExtractDust(kept);
      user.locked := rest;
      return Some(locked - rest);
    }

    // -------------------------------------------------------------- workers and requests

    method RemoveWorker(worker: Pool.Worker)
      modifies this
      ensures Info() == old(Info()).(workers := Vault.Removed(old(workers), worker))
    {
      var kept := [];
      var i := 0;
      while i < |workers|
        invariant i <= |workers| && Info() == old(Info())
        invariant kept + Vault.Removed(workers[i..], worker) == Vault.Removed(workers, worker)
      {
        assert workers[i..][1..] == workers[i + 1..];
        if workers[i] != worker {
          kept := kept + [workers[i]];
        }
        i := i + 1;
      }
      assert workers[i..] == [];
      workers := kept;
    }

    method RetainOthers(who: Pool.Account)
      modifies this
      ensures Info() == old(Info()).(withdrawQueue := Pool.Without(old(withdrawQueue), who))
    {
      var kept := [];
      var i := 0;
      while i < |withdrawQueue|
        invariant i <= |withdrawQueue| && Info() == old(Info())
        invariant kept + Pool.Without(withdrawQueue[i..], who) == Pool.Without(withdrawQueue, who)
      {
        assert withdrawQueue[i..][1..] == withdrawQueue[i + 1..];
        if withdrawQueue[i].user != who {
          kept := kept + [withdrawQueue[i]];
        }
        i := i + 1;
      }
      assert withdrawQueue[i..] == [];
      withdrawQueue := kept;
    }

    /** The loop of `reconcile_withdraw_queue` over the account's requests. */
    method LowerRequest(who: Pool.Account, available: nat)
      modifies this
      ensures Info() == old(Info()).(withdrawQueue := Vault.Lowered(old(withdrawQueue), who, available))
    {
      var q := withdrawQueue;
      var k := 0;
      while k < |q| && !(q[k].user == who && q[k].shares > available)
        invariant k <= |q|
        invariant Vault.Lowered(q, who, available) == q[..k] + Vault.Lowered(q[k..], who, available)
      {
        assert q[k..][1..] == q[k + 1..] && q[..k + 1] == q[..k] + [q[k]];
        k := k + 1;
      }
      if k < |q| {
        if available == 0 {
          withdrawQueue := q[..k] + q[k + 1..];
          assert q[k..][1..] == q[k + 1..];
        } else {
          withdrawQueue := q[k := q[k].(shares := available)];
          assert withdrawQueue == q[..k] + q[k..][0 := q[k].(shares := available)];
        }
      } else {
        assert q[..k] == q;
      }
    }

    /** The scan spends a budget on the requests in order, up to the first it cannot pay. */
    method FindExpiredWithdrawal(now: nat, grace: nat) returns (expired: bool)
      ensures expired == Vault.HasExpiredWithdrawal(Info(), now, grace)
    {
      var price := Pool.SharePrice(Info());
      if price.None? || price.value == 0 {
        return false;
      }
      var budget: nat := freeStake + releasingStake;
      var i := 0;
      while i < |withdrawQueue|
        invariant i <= |withdrawQueue|
        invariant Vault.ExpiredBeyond(withdrawQueue, price.value, freeStake + releasingStake, now, grace) ==
                  Vault.ExpiredBeyond(withdrawQueue[i..], price.value, budget, now, grace)
      {
        assert withdrawQueue[i..][1..] == withdrawQueue[i + 1..];
        var amount := Mul(withdrawQueue[i].shares, price.value);
        if amount > budget {
          return now - withdrawQueue[i].startTime > grace;
        }
        budget := budget - amount;
        i := i + 1;
      }
      return false;
    }
  }
}
