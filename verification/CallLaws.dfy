/** What each call of the stake pool pallet keeps. */
module CallLaws {
  import opened Base
  import opened FixedPoint
  import opened Sums
  import opened Pool
  import opened PoolLaws
  import opened Vault
  import opened VaultLaws
  import opened QueueLaws

  // ---------------------------------------------------------------- contribute

  lemma PreparedKeeps(v: Store, pid: Pid, who: Account, slash: Slasher, staked: map<Pid, nat>)
    requires Sound(v, staked) && pid in v.pools
    ensures var r := Prepared(v, pid, who, slash);
      && r.Ok? && r.value.pool == v.pools[pid] && r.value.user.shares == StakerOf(v, pid, who).shares
      && DeskOk(r.value, Get(staked, pid)) && Fair(DeskOf(v, pid, who), r.value)
      && r.value.purse.free - r.value.purse.ledger >= Get(v.free, who) - Get(v.ledger, who)
  {
    hide Held, Worth, Drift, Mul, Sound;
    var d := DeskOf(v, pid, who);
    StoredDeskOk(v, pid, who, staked);
    if (pid, who) in v.stakers {
      SettleRewardKeeps(d, Get(staked, pid));
      var d1 := d.(user := SettleReward(d.pool, d.user).value);
      SettleSlashKeeps(d1, slash, Get(staked, pid));
    } else {
      FairReflexive(d);
    }
  }

  /** The books after the stake is added and the account is locked, before the queue is served. */
  lemma ContributionKeeps(v: Store, who: Account, pid: Pid, amount: nat, slash: Slasher, staked: map<Pid, nat>)
    requires Sound(v, staked) && pid in v.pools
    requires Nondust(amount) && amount <= Get(v.free, who) - Get(v.ledger, who)
    requires v.pools[pid].totalShares == 0 || v.pools[pid].totalStake > 0
    ensures Prepared(v, pid, who, slash).Ok?
    ensures var v1 := Save(v, pid, who, Deposit(Prepared(v, pid, who, slash).value, amount));
      && Sound(v1, staked) && OnlyPool(v, v1, pid)
      && v1.pools[pid].withdrawQueue == v.pools[pid].withdrawQueue
      && v1.stakers == v.stakers[(pid, who) := v1.stakers[(pid, who)]]
      && StakerOf(v1, pid, who).shares >= StakerOf(v, pid, who).shares
  {
    hide Held, Worth, Drift, Mul, Sound, OnlyPool, DeskOk, Deposit, Fair, Prepared;
    PreparedKeeps(v, pid, who, slash, staked);
    var d := Prepared(v, pid, who, slash).value;
    assert d.purse.free - d.purse.ledger >= amount;
    DepositKeeps(d, amount, Get(staked, pid));
    FairTransitive(DeskOf(v, pid, who), d, Deposit(d, amount));
    SaveKeepsSound(v, pid, who, Deposit(d, amount), staked);
  }

  lemma ContributeKeeps(v: Store, who: Account, pid: Pid, amount: nat, slash: Slasher, staked: map<Pid, nat>)
    requires Sound(v, staked) && Contribute(v, who, pid, amount, slash).Ok?
    ensures var v' := Contribute(v, who, pid, amount, slash).value;
      && pid in v.pools && Sound(v', staked) && OnlyPool(v, v', pid)
      && FrontServed(v.pools[pid].withdrawQueue, v'.pools[pid].withdrawQueue)
  {
    hide Sound, OnlyPool, Deposit, Prepared, FrontServed, ProcessQueue;
    ContributionKeeps(v, who, pid, amount, slash, staked);
    var v1 := Save(v, pid, who, Deposit(Prepared(v, pid, who, slash).value, amount));
    ProcessQueueKeeps(v1, pid, slash, staked);
    OnlyPoolTransitive(v, v1, ProcessQueue(v1, pid, slash).value, pid);
  }

  // ---------------------------------------------------------------- owned requests

  /** Every queued request is for shares its requester owns, one a user. */
  ghost predicate AllWithin(v: Store) {
    forall pid :: pid in v.pools ==> WithinShares(v, pid)
  }

  lemma OthersWithin(v: Store, v': Store, pid: Pid)
    requires OnlyPool(v, v', pid) && AllWithin(v) && pid in v.pools && WithinShares(v', pid)
    ensures AllWithin(v')
  {
    forall p | p in v'.pools ensures WithinShares(v', p) {
      if p != pid {
        assert WithinShares(v, p);
        assert forall w :: StakerOf(v', p, w) == StakerOf(v, p, w);
      }
    }
  }

  /** The checks of a contribution. */
  predicate Accepts(v: Store, who: Account, pid: Pid, amount: nat) {
    && amount >= MIN_CONTRIBUTION && amount + Get(v.ledger, who) <= Get(v.free, who)
    && pid in v.pools && CapAllows(v.pools[pid], amount)
    && (v.pools[pid].totalShares == 0 || v.pools[pid].totalStake > 0)
  }

  /** The storage with the stake of a contribution added, before the queue is served. */
  function Deposited(v: Store, who: Account, pid: Pid, amount: nat, slash: Slasher): Store
    requires pid in v.pools
    ensures pid in Deposited(v, who, pid, amount, slash).pools
  {
    var d := Prepared(v, pid, who, slash);
    if d.Ok? then Save(v, pid, who, Deposit(d.value, amount)) else v
  }

  lemma ContributeIs(v: Store, who: Account, pid: Pid, amount: nat, slash: Slasher)
    requires Get(v.ledger, who) <= Get(v.free, who)
    ensures !Accepts(v, who, pid, amount) ==> Contribute(v, who, pid, amount, slash).Err?
    ensures Accepts(v, who, pid, amount) && Prepared(v, pid, who, slash).Ok? ==>
      Contribute(v, who, pid, amount, slash) == ProcessQueue(Deposited(v, who, pid, amount, slash), pid, slash)
  {
    hide Prepared, Deposit, Save, ProcessQueue;
  }

  /**
    A contribution never panics and leaves every request owned. It hangs if and only if it is
    accepted and the queue of the pool with its stake hangs.
  */
  lemma ContributeOwned(v: Store, who: Account, pid: Pid, amount: nat, slash: Slasher, staked: map<Pid, nat>)
    requires Sound(v, staked) && AllWithin(v)
    ensures var r := Contribute(v, who, pid, amount, slash);
      && r != Panic
      && (r.Ok? ==> AllWithin(r.value))
      && (r == Diverge <==>
            Accepts(v, who, pid, amount) && QueueHangs(Deposited(v, who, pid, amount, slash), pid, slash))
  {
    hide Held, Worth, Drift, Mul, Deposit, Prepared, OnlyPool, Fair, ProcessQueue, WithinShares, Contribute, Save,
         WellKeyed, SharesAgree, AllStakersOk, AllSolvent, AllBacked, QueueHangs;
    assert AccountOk(v, who);
    EntryAtMostSum(LockedBy(v.stakers, who), (pid, who));
    hide LockedBy;
    ContributeIs(v, who, pid, amount, slash);
    if Accepts(v, who, pid, amount) {
      ContributionKeeps(v, who, pid, amount, slash, staked);
      var v1 := Deposited(v, who, pid, amount, slash);
      MoreSharesWithin(v, v1, pid, who);
      OwnedQueueProcessed(v1, pid, slash, staked);
      var r := Contribute(v, who, pid, amount, slash);
      if r.Ok? {
        ContributeKeeps(v, who, pid, amount, slash, staked);
        OthersWithin(v, r.value, pid);
      }
    }
  }

  lemma MoreSharesWithin(v: Store, v': Store, pid: Pid, who: Account)
    requires pid in v.pools && pid in v'.pools && WithinShares(v, pid)
    requires v'.pools[pid].withdrawQueue == v.pools[pid].withdrawQueue
    requires (pid, who) in v'.stakers && v'.stakers == v.stakers[(pid, who) := v'.stakers[(pid, who)]]
    requires StakerOf(v', pid, who).shares >= StakerOf(v, pid, who).shares
    ensures WithinShares(v', pid)
  {
    assert forall w :: w != who ==> StakerOf(v', pid, w) == StakerOf(v, pid, w);
  }

  // ---------------------------------------------------------------- withdraw

  /** The queue after `try_withdraw`. */
  function Requeued(d: Desk, shares: nat, now: nat): seq<WithdrawInfo> {
    var q := d.pool.withdrawQueue;
    if QueuedNow(d.pool, shares) > 0
    then Without(q, d.user.user) + [WithdrawInfo(d.user.user, QueuedNow(d.pool, shares), now)]
    else q
  }

  lemma TryWithdrawKeeps(d: Desk, shares: nat, now: nat, slash: Slasher, staked: nat)
    requires DeskOk(d, staked) && 0 < shares <= d.user.shares
    ensures var r := TryWithdraw(d, shares, now, slash);
      && r.Ok? && DeskOk(r.value, staked) && Fair(d, r.value)
      && r.value.pool.withdrawQueue == Requeued(d, shares, now)
      && (ServedNow(d.pool, shares) > 0 ==>
            r.value.user.shares == ExtractDust(d.user.shares - ServedNow(d.pool, shares)).0)
      && (ServedNow(d.pool, shares) == 0 ==> r.value.user.shares == d.user.shares)
  {
    hide Held, Worth, Drift, Mul, ServedNow, QueuedNow;
    SettleRewardKeeps(d, staked);
    var d1 := d.(user := SettleReward(d.pool, d.user).value);
    var served := ServedNow(d.pool, shares);
    if served > 0 {
      ReleaseKeeps(d1, served, slash, staked);
      ReleaseResets(d1, served, slash);
      FairTransitive(d, d1, Release(d1, served, slash).value);
      ReleasedShares(d1, served, slash);
    }
  }

  lemma ReleasedShares(d: Desk, shares: nat, slash: Slasher)
    requires Release(d, shares, slash).Ok?
    ensures Release(d, shares, slash).value.user.shares == ExtractDust(d.user.shares - shares).0
  {
  }

  /** The books after a withdrawal is written back, before it is listed in the index. */
  lemma WithdrawalKeeps(v: Store, who: Account, pid: Pid, shares: nat, now: nat, slash: Slasher, staked: map<Pid, nat>)
    requires Sound(v, staked) && (pid, who) in v.stakers
    requires 0 < shares <= v.stakers[(pid, who)].shares
    ensures pid in v.pools
    ensures var d := DeskOf(v, pid, who);
      var r := TryWithdraw(d, shares, now, slash);
      && r.Ok?
      && var v1 := Save(v, pid, who, r.value);
         Sound(v1, staked) && OnlyPool(v, v1, pid)
  {
    hide Held, Worth, Drift, Mul, OnlyPool, DeskOk, Fair, TryWithdraw;
    StoredDeskOk(v, pid, who, staked);
    TryWithdrawKeeps(DeskOf(v, pid, who), shares, now, slash, Get(staked, pid));
    SaveKeepsSound(v, pid, who, TryWithdraw(DeskOf(v, pid, who), shares, now, slash).value, staked);
  }

  /** The index and the assignments hold no money. */
  lemma IndexKeepsSound(v: Store, v': Store, staked: map<Pid, nat>)
    requires Sound(v, staked)
    requires v' == v.(timestamps := v'.timestamps, queuedPools := v'.queuedPools, assignments := v'.assignments)
    ensures Sound(v', staked)
  {
    hide *;
    SoundUnfold(v, staked);
    CoveredFrame(v, v');
    SolventFrame(v, v');
    SharesFrame(v, v');
    BackedFrame(v, v', staked);
    SoundUnfold(v', staked);
  }

  lemma SolventFrame(v: Store, v': Store)
    requires AllSolvent(v) && v'.pools == v.pools && v'.stakers == v.stakers && v'.audits == v.audits
    ensures AllSolvent(v')
  {
    hide HeldIn, Worth, Drift;
    forall p | p in v'.pools ensures Solvent(v', p) {
      assert Solvent(v, p);
    }
  }

  lemma SharesFrame(v: Store, v': Store)
    requires WellKeyed(v) && SharesAgree(v) && AllStakersOk(v)
    requires v'.pools == v.pools && v'.stakers == v.stakers && v'.audits == v.audits && v'.poolCount == v.poolCount
    ensures WellKeyed(v') && SharesAgree(v') && AllStakersOk(v')
  {
    hide SharesIn, StakerOk;
  }

  lemma BackedFrame(v: Store, v': Store, staked: map<Pid, nat>)
    requires AllBacked(v, staked) && v'.pools == v.pools
    ensures AllBacked(v', staked)
  {
    hide Backed;
  }

  lemma WithdrawKeeps(v: Store, who: Account, pid: Pid, shares: nat, now: nat, slash: Slasher, staked: map<Pid, nat>)
    requires Sound(v, staked)
    ensures var r := Withdraw(v, who, pid, shares, now, slash);
      && r != Panic && r != Diverge
      && (r.Ok? ==>
            && pid in v.pools && Sound(r.value, staked)
            && OnlyPool(v, r.value.(timestamps := v.timestamps, queuedPools := v.queuedPools), pid)
            && r.value.pools[pid].withdrawQueue == Requeued(DeskOf(v, pid, who), shares, now)
            && StakerOf(r.value, pid, who).shares == AfterWithdrawal(v, pid, who, shares)
            && (forall w :: w != who ==> StakerOf(r.value, pid, w) == StakerOf(v, pid, w)))
  {
    hide Held, Worth, Drift, Mul, OnlyPool, DeskOk, Fair, TryWithdraw, Sound, Requeued, ServedNow, QueuedNow;
    var r := Withdraw(v, who, pid, shares, now, slash);
    if (pid, who) in v.stakers && Nondust(shares) && shares <= v.stakers[(pid, who)].shares {
      WithdrawalKeeps(v, who, pid, shares, now, slash, staked);
      StoredDeskOk(v, pid, who, staked);
      TryWithdrawKeeps(DeskOf(v, pid, who), shares, now, slash, Get(staked, pid));
      var v1 := Save(v, pid, who, TryWithdraw(DeskOf(v, pid, who), shares, now, slash).value);
      IndexKeepsSound(v1, r.value, staked);
    }
  }

  /** The shares a staker is left with by an accepted withdrawal. */
  function AfterWithdrawal(v: Store, pid: Pid, who: Account, shares: nat): nat
    requires pid in v.pools
  {
    var owned := StakerOf(v, pid, who).shares;
    var served := ServedNow(v.pools[pid], shares);
    if served == 0 || served > owned then owned else ExtractDust(owned - served).0
  }

  /** A withdrawal replaces the caller's pending request, or leaves one its shares still cover. */
  predicate KeepsCover(v: Store, pid: Pid, who: Account, shares: nat)
    requires pid in v.pools
  {
    || QueuedNow(v.pools[pid], shares) > 0
    || (forall i :: 0 <= i < |v.pools[pid].withdrawQueue| && v.pools[pid].withdrawQueue[i].user == who ==>
          v.pools[pid].withdrawQueue[i].shares <= AfterWithdrawal(v, pid, who, shares))
  }

  lemma {:induction false} WithoutContents(q: seq<WithdrawInfo>, who: Account)
    ensures forall r :: r in Without(q, who) <==> r in q && r.user != who
  {
    if q != [] {
      WithoutContents(q[1..], who);
      assert forall r :: r in q <==> r == q[0] || r in q[1..];
    }
  }

  lemma {:induction false} WithoutKeepsDistinct(q: seq<WithdrawInfo>, who: Account)
    requires Distinct(q)
    ensures Distinct(Without(q, who))
  {
    if q != [] {
      var rest := Without(q[1..], who);
      WithoutKeepsDistinct(q[1..], who);
      WithoutContents(q[1..], who);
      assert forall i :: 0 <= i < |rest| ==> rest[i] in q[1..];
      assert q[0].user != who ==> Without(q, who) == [q[0]] + rest;
    }
  }

  lemma {:induction false} WithoutKeepsOrdered(q: seq<WithdrawInfo>, who: Account)
    requires Ordered(q)
    ensures Ordered(Without(q, who))
  {
    if q != [] {
      var rest := Without(q[1..], who);
      WithoutKeepsOrdered(q[1..], who);
      WithoutContents(q[1..], who);
      assert forall i :: 0 <= i < |rest| ==> rest[i] in q[1..];
      assert q[0].user != who ==> Without(q, who) == [q[0]] + rest;
    }
  }

  lemma WithdrawOwnedHere(v: Store, v': Store, who: Account, pid: Pid, shares: nat, now: nat)
    requires pid in v.pools && pid in v'.pools && WithinShares(v, pid)
    requires Nondust(shares) && shares <= StakerOf(v, pid, who).shares
    requires v'.pools[pid].withdrawQueue == Requeued(DeskOf(v, pid, who), shares, now)
    requires StakerOf(v, pid, who).user == who
    requires StakerOf(v', pid, who).shares == AfterWithdrawal(v, pid, who, shares)
    requires forall w :: w != who ==> StakerOf(v', pid, w) == StakerOf(v, pid, w)
    ensures WithinShares(v', pid) <==> KeepsCover(v, pid, who, shares)
  {
    var q, q' := v.pools[pid].withdrawQueue, v'.pools[pid].withdrawQueue;
    var queued := QueuedNow(v.pools[pid], shares);
    assert queued > 0 ==> Nondust(queued) && queued <= AfterWithdrawal(v, pid, who, shares);
    hide ServedNow, QueuedNow, AfterWithdrawal;
    if queued > 0 {
      WithoutContents(q, who);
      WithoutKeepsDistinct(q, who);
      var kept := Without(q, who);
      forall i | 0 <= i < |q'|
        ensures Nondust(q'[i].shares) && q'[i].shares <= StakerOf(v', pid, q'[i].user).shares
      {
        if i < |kept| {
          assert kept[i] in q;
        }
      }
      forall i, j | 0 <= i < j < |q'| ensures q'[i].user != q'[j].user {
        assert kept[i] in kept;
      }
    }
  }

  lemma AllWithinHere(v: Store, v': Store, pid: Pid)
    requires AllWithin(v) && pid in v.pools
    requires v'.pools.Keys == v.pools.Keys
    requires forall p :: p in v.pools && p != pid ==> v'.pools[p] == v.pools[p]
    requires forall p, w :: p != pid ==> StakerOf(v', p, w) == StakerOf(v, p, w)
    ensures AllWithin(v') <==> WithinShares(v', pid)
  {
    forall p | p in v'.pools && p != pid ensures WithinShares(v', p) {
      assert WithinShares(v, p);
    }
  }

  lemma WithdrawalAccepted(v: Store, who: Account, pid: Pid, shares: nat, now: nat, slash: Slasher,
      staked: map<Pid, nat>)
    requires Sound(v, staked) && AllWithin(v) && Withdraw(v, who, pid, shares, now, slash).Ok?
    ensures pid in v.pools && WithinShares(v, pid) && StakerOf(v, pid, who).user == who
    ensures Nondust(shares) && shares <= StakerOf(v, pid, who).shares
  {
  }

  /**
    After an accepted withdrawal every request is still owned, if and only if the withdrawal
    re-queues a remainder or leaves the caller enough shares for its pending request.
  */
  lemma WithdrawOwned(v: Store, who: Account, pid: Pid, shares: nat, now: nat, slash: Slasher, staked: map<Pid, nat>)
    requires Sound(v, staked) && AllWithin(v) && Withdraw(v, who, pid, shares, now, slash).Ok?
    ensures pid in v.pools
    ensures AllWithin(Withdraw(v, who, pid, shares, now, slash).value) <==> KeepsCover(v, pid, who, shares)
  {
    hide Held, Worth, Drift, Mul, DeskOk, Fair, TryWithdraw, Sound, ServedNow, Withdraw, AllWithin;
    WithdrawKeeps(v, who, pid, shares, now, slash, staked);
    var v' := Withdraw(v, who, pid, shares, now, slash).value;
    WithdrawalAccepted(v, who, pid, shares, now, slash, staked);
    WithdrawOwnedHere(v, v', who, pid, shares, now);
    AllWithinHere(v, v', pid);
  }
}
