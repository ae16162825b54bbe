/** The books of the stake pool pallet balance, over all pools and stakers, after every call. */
module VaultLaws {
  import opened Base
  import opened FixedPoint
  import opened Sums
  import opened Pool
  import opened PoolLaws
  import opened Vault

  // ---------------------------------------------------------------- totals

  ghost function SharesIn(stakers: map<Key, UserStakeInfo>, pid: Pid): map<Key, int> {
    map k | k in stakers && k.0 == pid :: stakers[k].shares
  }

  ghost function LockedBy(stakers: map<Key, UserStakeInfo>, who: Account): map<Key, int> {
    map k | k in stakers && k.1 == who :: stakers[k].locked
  }

  ghost function HeldIn(stakers: map<Key, UserStakeInfo>, pid: Pid, acc: Bits): map<Key, int> {
    map k | k in stakers && k.0 == pid :: Held(stakers[k], acc)
  }

  /** Every record is stored under its own key, and every staker's pool exists. */
  ghost predicate WellKeyed(v: Store) {
    && (forall pid :: pid in v.pools ==> v.pools[pid].pid == pid && pid < v.poolCount)
    && (forall pid, who :: (pid, who) in v.stakers ==> pid in v.pools && v.stakers[(pid, who)].user == who)
  }

  /** The shares of a pool are those of its stakers. */
  ghost predicate SharesAgree(v: Store) {
    forall pid :: pid in v.pools ==> v.pools[pid].totalShares == Sum(SharesIn(v.stakers, pid))
  }

  /** Every account's ledger is its stake in all pools and its slack, is what is locked, and is there. */
  ghost predicate AllCovered(v: Store) {
    forall who :: AccountOk(v, who)
  }

  ghost predicate AccountOk(v: Store, who: Account) {
    Sum(LockedBy(v.stakers, who)) + Get(v.slack, who) == Get(v.ledger, who) == Get(v.lock, who) <= Get(v.free, who)
  }

  ghost predicate AllStakersOk(v: Store) {
    forall pid, who :: (pid, who) in v.stakers && pid in v.pools ==>
      StakerOk(v.pools[pid], v.stakers[(pid, who)])
  }

  /** What a pool has paid and still owes is covered by what it received, but for 2 pico a share change. */
  ghost predicate Solvent(v: Store, pid: Pid)
    requires pid in v.pools
  {
    Worth(AuditOf(v, pid).paid + v.pools[pid].ownerReward) + Sum(HeldIn(v.stakers, pid, v.pools[pid].rewardAcc))
    <= Worth(AuditOf(v, pid).received) + Drift(AuditOf(v, pid).changes)
  }

  ghost predicate AllSolvent(v: Store) {
    forall pid :: pid in v.pools ==> Solvent(v, pid)
  }

  ghost predicate Books(v: Store) {
    WellKeyed(v) && SharesAgree(v) && AllCovered(v) && AllStakersOk(v) && AllSolvent(v)
  }

  // ---------------------------------------------------------------- consequences

  lemma ShareAtMostTotal(v: Store, pid: Pid, who: Account)
    requires WellKeyed(v) && SharesAgree(v) && (pid, who) in v.stakers
    ensures v.stakers[(pid, who)].shares <= v.pools[pid].totalShares
  {
    EntryAtMostSum(SharesIn(v.stakers, pid), (pid, who));
  }

  lemma LockedAtMostLedger(v: Store, pid: Pid, who: Account)
    requires AllCovered(v) && (pid, who) in v.stakers
    ensures v.stakers[(pid, who)].locked + Get(v.slack, who) <= Get(v.ledger, who)
  {
    assert AccountOk(v, who);
    EntryAtMostSum(LockedBy(v.stakers, who), (pid, who));
  }

  lemma CoveredFrame(v: Store, v': Store)
    requires AllCovered(v) && v'.stakers == v.stakers
    requires v'.ledger == v.ledger && v'.lock == v.lock && v'.free == v.free && v'.slack == v.slack
    ensures AllCovered(v')
  {
    hide LockedBy;
    forall who ensures AccountOk(v', who) {
      assert AccountOk(v, who);
    }
  }

  /** The record a call works on: the stored one, or a new one. */
  function StakerOf(v: Store, pid: Pid, who: Account): UserStakeInfo {
    if (pid, who) in v.stakers then v.stakers[(pid, who)] else NewStaker(who)
  }

  function DeskOf(v: Store, pid: Pid, who: Account): Desk
    requires pid in v.pools
  {
    Load(v, who, v.pools[pid], StakerOf(v, pid, who))
  }

  lemma DeskOfOk(v: Store, pid: Pid, who: Account, staked: nat)
    requires Books(v) && pid in v.pools && Backed(v.pools[pid], staked) && Solid(staked)
    ensures DeskOk(DeskOf(v, pid, who), staked)
  {
    if (pid, who) in v.stakers {
      ShareAtMostTotal(v, pid, who);
      LockedAtMostLedger(v, pid, who);
    } else {
      assert AccountOk(v, who);
      EntryAtMostSum(LockedBy(v.stakers, who), (pid, who));
    }
  }

  // ---------------------------------------------------------------- writing a desk back

  lemma SharesSaved(stakers: map<Key, UserStakeInfo>, pid: Pid, who: Account, user: UserStakeInfo, pid': Pid)
    ensures Sum(SharesIn(stakers[(pid, who) := user], pid')) == Sum(SharesIn(stakers, pid')) +
            if pid' == pid then user.shares - At(SharesIn(stakers, pid), (pid, who)) else 0
  {
    var old' := SharesIn(stakers, pid');
    if pid' == pid {
      assert SharesIn(stakers[(pid, who) := user], pid) == old'[(pid, who) := user.shares];
      SumUpdate(old', (pid, who), user.shares);
    } else {
      assert SharesIn(stakers[(pid, who) := user], pid') == old';
    }
  }

  lemma LockedSaved(stakers: map<Key, UserStakeInfo>, pid: Pid, who: Account, user: UserStakeInfo, who': Account)
    ensures Sum(LockedBy(stakers[(pid, who) := user], who')) == Sum(LockedBy(stakers, who')) +
            if who' == who then user.locked - At(LockedBy(stakers, who), (pid, who)) else 0
  {
    var old' := LockedBy(stakers, who');
    if who' == who {
      assert LockedBy(stakers[(pid, who) := user], who) == old'[(pid, who) := user.locked];
      SumUpdate(old', (pid, who), user.locked);
    } else {
      assert LockedBy(stakers[(pid, who) := user], who') == old';
    }
  }

  lemma HeldSaved(stakers: map<Key, UserStakeInfo>, pid: Pid, who: Account, user: UserStakeInfo, pid': Pid, acc: Bits)
    ensures Sum(HeldIn(stakers[(pid, who) := user], pid', acc)) == Sum(HeldIn(stakers, pid', acc)) +
            if pid' == pid then Held(user, acc) - At(HeldIn(stakers, pid, acc), (pid, who)) else 0
  {
    var old' := HeldIn(stakers, pid', acc);
    if pid' == pid {
      assert HeldIn(stakers[(pid, who) := user], pid, acc) == old'[(pid, who) := Held(user, acc)];
      SumUpdate(old', (pid, who), Held(user, acc));
    } else {
      assert HeldIn(stakers[(pid, who) := user], pid', acc) == old';
    }
  }

  lemma NewStakerHoldsNothing(who: Account, acc: Bits)
    ensures Held(NewStaker(who), acc) == 0
  {
  }

  lemma SaveKeepsSolvent(v: Store, pid: Pid, who: Account, d: Desk)
    requires AllSolvent(v) && pid in v.pools
    requires Fair(DeskOf(v, pid, who), d)
    ensures AllSolvent(Save(v, pid, who, d))
  {
    hide Solvent, Fair;
    var v' := Save(v, pid, who, d);
    forall p | p in v'.pools ensures Solvent(v', p) {
      assert Solvent(v, p);
      if p == pid {
        SavedSolvent(v, pid, who, d);
      } else {
        ElsewhereSolvent(v, pid, who, d, p);
      }
    }
  }

  lemma SavedSolvent(v: Store, pid: Pid, who: Account, d: Desk)
    requires pid in v.pools && Solvent(v, pid) && Fair(DeskOf(v, pid, who), d)
    ensures Solvent(Save(v, pid, who, d), pid)
  {
    hide Held, Worth, Drift, Mul;
    DriftAdds(AuditOf(v, pid).changes, d.changes);
    HeldSaved(v.stakers, pid, who, d.user, pid, d.pool.rewardAcc);
    NewStakerHoldsNothing(who, d.pool.rewardAcc);
  }

  lemma ElsewhereSolvent(v: Store, pid: Pid, who: Account, d: Desk, other: Pid)
    requires other in v.pools && Solvent(v, other) && other != pid
    ensures Solvent(Save(v, pid, who, d), other)
  {
    hide Held, Worth, Drift;
    HeldSaved(v.stakers, pid, who, d.user, other, v.pools[other].rewardAcc);
  }

  lemma SaveKeepsShares(v: Store, pid: Pid, who: Account, d: Desk)
    requires WellKeyed(v) && SharesAgree(v) && pid in v.pools
    requires Fair(DeskOf(v, pid, who), d)
    ensures SharesAgree(Save(v, pid, who, d))
  {
    hide Held, Mul, Worth, Drift;
    var v' := Save(v, pid, who, d);
    forall p | p in v'.pools ensures v'.pools[p].totalShares == Sum(SharesIn(v'.stakers, p)) {
      SharesSaved(v.stakers, pid, who, d.user, p);
    }
  }

  lemma SaveKeepsKeys(v: Store, pid: Pid, who: Account, d: Desk)
    requires WellKeyed(v) && pid in v.pools
    requires Fair(DeskOf(v, pid, who), d)
    ensures WellKeyed(Save(v, pid, who, d))
  {
    hide Held, Mul, Worth, Drift;
    assert d.user.user == who && d.pool.pid == pid;
  }

  lemma SaveKeepsCovered(v: Store, pid: Pid, who: Account, d: Desk)
    requires AllCovered(v) && pid in v.pools
    requires Fair(DeskOf(v, pid, who), d) && Covered(d.purse, d.user.locked)
    ensures AllCovered(Save(v, pid, who, d))
  {
    hide Held, Mul, Worth, Drift, LockedBy;
    var v' := Save(v, pid, who, d);
    SavedAccounts(v, pid, who, d);
    assert AccountOk(v, who);
    LockedOwn(v, pid, who);
    forall w ensures AccountOk(v', w) {
      assert AccountOk(v, w);
      LockedSaved(v.stakers, pid, who, d.user, w);
    }
  }

  lemma LockedOwn(v: Store, pid: Pid, who: Account)
    ensures At(LockedBy(v.stakers, who), (pid, who)) == StakerOf(v, pid, who).locked
  {
  }

  /** What a saved desk leaves in the account maps. */
  lemma SavedAccounts(v: Store, pid: Pid, who: Account, d: Desk)
    requires pid in v.pools
    ensures var v' := Save(v, pid, who, d);
      && PurseOf(v', who) == d.purse && v'.stakers == v.stakers[(pid, who) := d.user]
      && (forall w :: w != who ==> PurseOf(v', w) == PurseOf(v, w))
  {
  }

  /** A fair desk operation leaves the books balanced. */
  lemma SaveKeepsBooks(v: Store, pid: Pid, who: Account, d: Desk)
    requires Books(v) && pid in v.pools
    requires Fair(DeskOf(v, pid, who), d) && Covered(d.purse, d.user.locked) && StakerOk(d.pool, d.user)
    ensures Books(Save(v, pid, who, d))
  {
    hide Held, Mul, Worth, Drift;
    SaveKeepsKeys(v, pid, who, d);
    SaveKeepsShares(v, pid, who, d);
    SaveKeepsCovered(v, pid, who, d);
    SaveKeepsSolvent(v, pid, who, d);
  }

  /** Every pool is backed by its free stake and what its miners hold. */
  ghost predicate AllBacked(v: Store, staked: map<Pid, nat>) {
    forall pid :: pid in v.pools ==> Backed(v.pools[pid], Get(staked, pid)) && Solid(Get(staked, pid))
  }

  ghost predicate Sound(v: Store, staked: map<Pid, nat>) {
    Books(v) && AllBacked(v, staked)
  }

  lemma SoundBacks(v: Store, staked: map<Pid, nat>, pid: Pid)
    requires Sound(v, staked) && pid in v.pools
    ensures Backed(v.pools[pid], Get(staked, pid)) && Solid(Get(staked, pid))
  {
  }

  /** What a desk operation on one pool leaves alone. */
  ghost predicate OnlyPool(v: Store, v': Store, pid: Pid) {
    && v'.pools.Keys == v.pools.Keys
    && (forall p :: p in v.pools && p != pid ==> v'.pools[p] == v.pools[p])
    && (pid in v.pools ==> SameTerms(v.pools[pid], v'.pools[pid]))
    && (forall p, w :: p != pid ==> ((p, w) in v.stakers <==> (p, w) in v'.stakers))
    && (forall p, w :: p != pid && (p, w) in v.stakers ==> v'.stakers[(p, w)] == v.stakers[(p, w)])
    && v.stakers.Keys <= v'.stakers.Keys
    && v'.poolCount == v.poolCount && v'.assignments == v.assignments
    && v'.timestamps == v.timestamps && v'.queuedPools == v.queuedPools
    && v'.audits.Keys <= v.audits.Keys + {pid}
  }

  lemma OnlyPoolTransitive(u: Store, v: Store, w: Store, pid: Pid)
    requires OnlyPool(u, v, pid) && OnlyPool(v, w, pid)
    ensures OnlyPool(u, w, pid)
  {
  }

  lemma SaveOnlyPool(v: Store, pid: Pid, who: Account, d: Desk)
    requires pid in v.pools && Fair(DeskOf(v, pid, who), d)
    ensures OnlyPool(v, Save(v, pid, who, d), pid)
  {
    hide Held, Mul, Worth, Drift;
    assert SameTerms(v.pools[pid], d.pool);
  }

  /** The desk of a pool's staker, operated on fairly and written back, keeps everything. */
  lemma SaveKeepsSound(v: Store, pid: Pid, who: Account, d: Desk, staked: map<Pid, nat>)
    requires Sound(v, staked) && pid in v.pools
    requires Fair(DeskOf(v, pid, who), d) && DeskOk(d, Get(staked, pid))
    ensures Sound(Save(v, pid, who, d), staked) && OnlyPool(v, Save(v, pid, who, d), pid)
  {
    hide Held, Mul, Worth, Drift, Fair, Books, Backed, Covered, StakerOk, OnlyPool;
    SaveKeepsBooks(v, pid, who, d);
    SaveOnlyPool(v, pid, who, d);
  }

  /** Same identity, shares and rewards: all that the books ask of a pool. */
  predicate SameAccounts(pool: PoolInfo, pool': PoolInfo) {
    && pool'.pid == pool.pid && pool'.totalShares == pool.totalShares
    && pool'.rewardAcc == pool.rewardAcc && pool'.ownerReward == pool.ownerReward
  }

  lemma SavePoolKeepsSolvent(v: Store, pid: Pid, pool: PoolInfo)
    requires AllSolvent(v) && pid in v.pools && SameAccounts(v.pools[pid], pool)
    ensures AllSolvent(SavePool(v, pid, pool))
  {
    hide Held, Mul, Worth, Drift;
    forall p | p in v.pools ensures Solvent(SavePool(v, pid, pool), p) {
      assert Solvent(v, p);
    }
  }

  lemma SavePoolKeepsStakers(v: Store, pid: Pid, pool: PoolInfo)
    requires WellKeyed(v) && SharesAgree(v) && AllStakersOk(v) && pid in v.pools && SameAccounts(v.pools[pid], pool)
    ensures var v' := SavePool(v, pid, pool); WellKeyed(v') && SharesAgree(v') && AllStakersOk(v')
  {
    hide Mul;
  }

  /** Changing anything else in a pool keeps the books; stake must stay backed. */
  lemma SavePoolKeepsSound(v: Store, pid: Pid, pool: PoolInfo, staked: map<Pid, nat>, n: nat)
    requires Sound(v, staked) && pid in v.pools && SameAccounts(v.pools[pid], pool)
    requires Backed(pool, n) && Solid(n)
    ensures Sound(SavePool(v, pid, pool), staked[pid := n])
  {
    SoundUnfold(v, staked);
    SavePoolKeepsBacked(v, pid, pool, staked, n);
    SavePoolKeepsStakers(v, pid, pool);
    SavePoolKeepsSolvent(v, pid, pool);
    SavePoolKeepsCovered(v, pid, pool);
    SoundUnfold(SavePool(v, pid, pool), staked[pid := n]);
    hide *;
  }

  lemma SoundUnfold(v: Store, staked: map<Pid, nat>)
    ensures Sound(v, staked) <==>
      WellKeyed(v) && SharesAgree(v) && AllCovered(v) && AllStakersOk(v) && AllSolvent(v) && AllBacked(v, staked)
  {
    hide WellKeyed, SharesAgree, AllCovered, AllStakersOk, AllSolvent, AllBacked;
  }

  lemma SavePoolKeepsBacked(v: Store, pid: Pid, pool: PoolInfo, staked: map<Pid, nat>, n: nat)
    requires AllBacked(v, staked) && pid in v.pools && Backed(pool, n) && Solid(n)
    ensures AllBacked(SavePool(v, pid, pool), staked[pid := n])
  {
    hide Backed, Solid;
  }

  lemma SavePoolKeepsCovered(v: Store, pid: Pid, pool: PoolInfo)
    requires AllCovered(v)
    ensures AllCovered(SavePool(v, pid, pool))
  {
    CoveredFrame(v, SavePool(v, pid, pool));
    hide AllCovered;
  }

  predicate SameMoney(pool: PoolInfo, pool': PoolInfo) {
    pool' == pool.(withdrawQueue := pool'.withdrawQueue, cap := pool'.cap, payoutCommission := pool'.payoutCommission,
                   releasingStake := pool'.releasingStake, workers := pool'.workers)
  }

  /** Changing the queue, the workers or the terms of a pool moves no money. */
  lemma SaveTermsKeepsSound(v: Store, pid: Pid, pool: PoolInfo, staked: map<Pid, nat>)
    requires Sound(v, staked) && pid in v.pools && SameMoney(v.pools[pid], pool)
    ensures Sound(SavePool(v, pid, pool), staked)
  {
    SoundBacks(v, staked, pid);
    SameMoneyBacked(v.pools[pid], pool, Get(staked, pid));
    hide *;
    SavePoolKeepsSound(v, pid, pool, staked, Get(staked, pid));
    SoundFor(SavePool(v, pid, pool), staked[pid := Get(staked, pid)], staked);
  }

  lemma SameMoneyBacked(pool: PoolInfo, pool': PoolInfo, n: nat)
    requires SameMoney(pool, pool')
    ensures SameAccounts(pool, pool') && (Backed(pool, n) ==> Backed(pool', n))
  {
  }

  /** Soundness asks for the stakes of existing pools only. */
  lemma SoundFor(v: Store, staked: map<Pid, nat>, staked': map<Pid, nat>)
    requires Sound(v, staked)
    requires forall p :: p in v.pools ==> Get(staked', p) == Get(staked, p)
    ensures Sound(v, staked')
  {
    hide Books;
  }
}
