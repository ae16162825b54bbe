/** The migration that removes dust shares, stake and requests (pallets/phala/src/stakepool/migrations.rs). */
module Migration {
  import opened Base
  import opened Sums
  import opened Pool
  import opened PoolLaws
  import opened Vault
  import opened VaultLaws
  import opened QueueLaws
  import opened Ledger
  import opened StakePallet

  // ---------------------------------------------------------------- what it computes

  function Stripped(user: UserStakeInfo): UserStakeInfo {
    user.(shares := ExtractDust(user.shares).0, locked := ExtractDust(user.locked).0)
  }

  function SharesDust(user: UserStakeInfo): nat {
    ExtractDust(user.shares).1
  }

  function AllStripped(stakers: map<Key, UserStakeInfo>): map<Key, UserStakeInfo> {
    map k | k in stakers :: Stripped(stakers[k])
  }

  /** The dust shares of a pool among the stakers dealt with. */
  ghost function DustIn(stakers: map<Key, UserStakeInfo>, pid: Pid, done: set<Key>): map<Key, int> {
    map k | k in stakers && k in done && k.0 == pid :: SharesDust(stakers[k])
  }

  ghost function DustOf(stakers: map<Key, UserStakeInfo>, pid: Pid): nat {
    SumNonNegative(DustIn(stakers, pid, stakers.Keys));
    Sum(DustIn(stakers, pid, stakers.Keys))
  }

  function NondustRequests(q: seq<WithdrawInfo>): seq<WithdrawInfo> {
    if q == [] then []
    else if Nondust(q[0].shares) then [q[0]] + NondustRequests(q[1..])
    else NondustRequests(q[1..])
  }

  /** The requests of users not yet visited, one each. */
  function FirstRequests(q: seq<WithdrawInfo>, visited: seq<Account>): seq<WithdrawInfo> {
    if q == [] then []
    else if q[0].user !in visited then [q[0]] + FirstRequests(q[1..], visited + [q[0].user])
    else FirstRequests(q[1..], visited)
  }

  function StrippedPool(pool: PoolInfo, dust: nat): PoolInfo
    requires dust <= pool.totalShares
  {
    var some := ExtractDust(pool.totalStake).0 > 0;
    pool.(totalShares := pool.totalShares - dust,
          totalStake := if some then pool.totalStake else 0,
          freeStake := if some then pool.freeStake else 0,
          withdrawQueue := FirstRequests(NondustRequests(pool.withdrawQueue), []))
  }

  /** A staker loses shares and locked stake of a thousand pico or less, and nothing else. */
  predicate WithoutDust(user: UserStakeInfo, user': UserStakeInfo) {
    && user' == user.(shares := user'.shares, locked := user'.locked)
    && user'.shares == (if user.shares > 1000 then user.shares else 0)
    && user'.locked == (if user.locked > 1000 then user.locked else 0)
  }

  /**
    A pool keeps its total and its free stake if the total is more than a thousand pico, and else has neither; but
    for them, its shares and its queue, it is as it was.
  */
  predicate StakeWithoutDust(pool: PoolInfo, pool': PoolInfo) {
    && SameTerms(pool, pool')
    && (pool.totalStake > 1000 ==> pool'.totalStake == pool.totalStake && pool'.freeStake == pool.freeStake)
    && (pool.totalStake <= 1000 ==> pool'.totalStake == 0 && pool'.freeStake == 0)
  }

  /** Of the requests past dust, each user's first, in the order they had. */
  ghost predicate OneEach(q: seq<WithdrawInfo>, q': seq<WithdrawInfo>) {
    && Subsequence(q', q) && Distinct(q')
    && (forall r :: r in q' ==> r.shares > 1000)
    && (forall r :: r in q && r.shares > 1000 ==> exists r' :: r' in q' && r'.user == r.user)
    && (forall i, r :: 0 <= i < |q| && q[i].shares > 1000 && r in q' && r.user == q[i].user ==>
          r == q[i] || exists j :: 0 <= j < i && q[j] == r)
  }

  lemma StrippedIs(user: UserStakeInfo)
    ensures WithoutDust(user, Stripped(user)) && Stripped(user).shares + SharesDust(user) == user.shares
  {
  }

  lemma StrippedPoolIs(pool: PoolInfo, dust: nat)
    requires dust <= pool.totalShares
    ensures var pool' := StrippedPool(pool, dust);
      StakeWithoutDust(pool, pool') && pool'.totalShares + dust == pool.totalShares
      && OneEach(pool.withdrawQueue, pool'.withdrawQueue)
  {
    QueueIsClean(pool.withdrawQueue);
    var n := NondustRequests(pool.withdrawQueue);
    var q' := FirstRequests(n, []);
    forall i, r | 0 <= i < |pool.withdrawQueue| && pool.withdrawQueue[i].shares > 1000 && r in q'
                  && r.user == pool.withdrawQueue[i].user
      ensures r == pool.withdrawQueue[i] || exists j :: 0 <= j < i && pool.withdrawQueue[j] == r
    {
      FirstIsEarlier(pool.withdrawQueue, i, r);
    }
    hide NondustRequests, FirstRequests, Subsequence, FirstOf;
  }

  /** The first request past dust of a user stands at or before every other one. */
  lemma {:induction false} FirstIsEarlier(q: seq<WithdrawInfo>, i: nat, r: WithdrawInfo)
    requires i < |q| && Nondust(q[i].shares) && FirstOf(NondustRequests(q), q[i].user) == Some(r)
    ensures r == q[i] || exists j :: 0 <= j < i && q[j] == r
  {
    if Nondust(q[0].shares) && q[0].user == q[i].user {
      assert NondustRequests(q)[0] == q[0];
    } else if i > 0 {
      assert Nondust(q[0].shares) ==> NondustRequests(q)[1..] == NondustRequests(q[1..]);
      FirstIsEarlier(q[1..], i - 1, r);
      if r != q[i] {
        var j :| 0 <= j < i - 1 && q[1..][j] == r;
        assert q[j + 1] == r;
      }
    }
  }

  /** A pool's miners hold what is not free of its stake, or nothing if it has none. */
  predicate HeldWith(pool: PoolInfo, staked: nat) {
    pool.totalStake == pool.freeStake + staked || (pool.totalStake == 0 && staked == 0)
  }

  /** What a pool's miners hold goes on being the rest of its stake: the migration takes no stake that is held. */
  lemma StakeStaysBacked(pool: PoolInfo, pool': PoolInfo, staked: nat)
    requires StakeWithoutDust(pool, pool') && Solid(staked)
    requires HeldWith(pool, staked)
    ensures pool'.totalStake == pool'.freeStake + staked && Clean(pool'.totalStake)
  {
  }

  // ---------------------------------------------------------------- the queue

  method RetainNondust(q: seq<WithdrawInfo>) returns (kept: seq<WithdrawInfo>)
    ensures kept == NondustRequests(q)
  {
    kept := [];
    var i := 0;
    while i < |q|
      invariant i <= |q| && kept + NondustRequests(q[i..]) == NondustRequests(q)
    {
      assert q[i..][1..] == q[i + 1..];
      if Nondust(q[i].shares) {
        kept := kept + [q[i]];
      }
      i := i + 1;
    }
    assert q[i..] == [];
  }

  method RetainFirst(q: seq<WithdrawInfo>) returns (kept: seq<WithdrawInfo>)
    ensures kept == FirstRequests(q, [])
  {
    kept := [];
    var visited: seq<Account> := [];
    var i := 0;
    while i < |q|
      invariant i <= |q| && kept + FirstRequests(q[i..], visited) == FirstRequests(q, [])
    {
      assert q[i..][1..] == q[i + 1..];
      if q[i].user !in visited {
        visited := visited + [q[i].user];
        kept := kept + [q[i]];
      }
      i := i + 1;
    }
    assert q[i..] == [];
  }

  /** Whether `part` is what is left of `whole` after leaving some elements out. */
  predicate Subsequence<T(==)>(part: seq<T>, whole: seq<T>) {
    if whole == [] then part == []
    else (part != [] && part[0] == whole[0] && Subsequence(part[1..], whole[1..])) || Subsequence(part, whole[1..])
  }

  lemma {:induction false} SubsequenceTransitive<T>(a: seq<T>, b: seq<T>, c: seq<T>)
    requires Subsequence(a, b) && Subsequence(b, c)
    ensures Subsequence(a, c)
    decreases |c|
  {
    if c != [] {
      if Subsequence(b, c[1..]) {
        SubsequenceTransitive(a, b, c[1..]);
      } else if Subsequence(a, b[1..]) {
        SubsequenceTransitive(a, b[1..], c[1..]);
      } else {
        SubsequenceTransitive(a[1..], b[1..], c[1..]);
      }
    }
  }

  lemma {:induction false} NondustContents(q: seq<WithdrawInfo>)
    ensures Subsequence(NondustRequests(q), q)
    ensures forall r :: r in NondustRequests(q) <==> r in q && Nondust(r.shares)
  {
    if q != [] {
      NondustContents(q[1..]);
      assert forall r :: r in q <==> r == q[0] || r in q[1..];
      if Nondust(q[0].shares) {
        assert NondustRequests(q)[1..] == NondustRequests(q[1..]);
      }
    }
  }

  /** The first request of a user in a queue. */
  function FirstOf(q: seq<WithdrawInfo>, user: Account): Option<WithdrawInfo> {
    if q == [] then None
    else if q[0].user == user then Some(q[0])
    else FirstOf(q[1..], user)
  }

  lemma {:induction false} FirstContents(q: seq<WithdrawInfo>, visited: seq<Account>)
    ensures Subsequence(FirstRequests(q, visited), q)
    ensures forall r :: r in FirstRequests(q, visited) <==> r.user !in visited && FirstOf(q, r.user) == Some(r)
    ensures Distinct(FirstRequests(q, visited))
  {
    if q != [] {
      if q[0].user !in visited {
        var rest := FirstRequests(q[1..], visited + [q[0].user]);
        FirstContents(q[1..], visited + [q[0].user]);
        assert FirstRequests(q, visited) == [q[0]] + rest;
        assert ([q[0]] + rest)[1..] == rest;
        assert forall i :: 0 <= i < |rest| ==> rest[i] in rest;
      } else {
        FirstContents(q[1..], visited);
      }
    }
  }

  /** Afterwards the queue has only nondust requests, each user's first, in the order they had. */
  lemma QueueIsClean(q: seq<WithdrawInfo>)
    ensures var q' := FirstRequests(NondustRequests(q), []);
      && Subsequence(q', q) && Distinct(q')
      && (forall r :: r in q' <==> FirstOf(NondustRequests(q), r.user) == Some(r))
      && (forall r :: r in q' ==> Nondust(r.shares))
      && (forall r :: r in q && Nondust(r.shares) ==> exists r' :: r' in q' && r'.user == r.user)
  {
    NondustContents(q);
    FirstContents(NondustRequests(q), []);
    SubsequenceTransitive(FirstRequests(NondustRequests(q), []), NondustRequests(q), q);
    var n := NondustRequests(q);
    forall r | r in q && Nondust(r.shares) ensures exists r' :: r' in FirstRequests(n, []) && r'.user == r.user {
      var r' := FirstIsThere(n, r);
      assert r' in FirstRequests(n, []);
    }
    hide NondustRequests, FirstRequests;
    forall r | r in FirstRequests(n, []) ensures Nondust(r.shares) {
      FirstIsPart(n, r.user);
    }
  }

  lemma {:induction false} FirstIsThere(q: seq<WithdrawInfo>, r: WithdrawInfo) returns (r': WithdrawInfo)
    requires r in q
    ensures r'.user == r.user && FirstOf(q, r.user) == Some(r')
  {
    if q[0].user == r.user {
      r' := q[0];
    } else {
      r' := FirstIsThere(q[1..], r);
    }
  }

  lemma {:induction false} FirstIsPart(q: seq<WithdrawInfo>, user: Account)
    ensures FirstOf(q, user).Some? ==> FirstOf(q, user).value in q
  {
    if q != [] {
      FirstIsPart(q[1..], user);
    }
  }

  // ---------------------------------------------------------------- the shares

  lemma DustAdded(stakers: map<Key, UserStakeInfo>, pid: Pid, done: set<Key>, k: Key)
    requires k in stakers && k !in done
    ensures Sum(DustIn(stakers, pid, done + {k})) ==
            Sum(DustIn(stakers, pid, done)) + if k.0 == pid then SharesDust(stakers[k]) else 0
  {
    hide SharesDust;
    var before, after := DustIn(stakers, pid, done), DustIn(stakers, pid, done + {k});
    if k.0 == pid {
      assert after == before[k := SharesDust(stakers[k])];
      SumUpdate(before, k, SharesDust(stakers[k]));
    } else {
      assert after == before;
    }
  }

  /** Stripping takes exactly the dust off the sum of a pool's shares. */
  lemma StrippedShares(stakers: map<Key, UserStakeInfo>, pid: Pid)
    ensures Sum(SharesIn(AllStripped(stakers), pid)) == Sum(SharesIn(stakers, pid)) - DustOf(stakers, pid)
    ensures DustOf(stakers, pid) <= Sum(SharesIn(stakers, pid))
  {
    var left := SharesIn(AllStripped(stakers), pid);
    SumAdd(SharesIn(stakers, pid), left, DustIn(stakers, pid, stakers.Keys));
    SumNonNegative(left);
  }

  // ---------------------------------------------------------------- the accounts

  /** One staker stripped, the dust of its stake slashed from its account. */
  function StripOne(v: Store, k: Key, slash: Slasher): Store
    requires k in v.stakers
  {
    var user, dust := v.stakers[k], ExtractDust(v.stakers[k].locked).1;
    var purse := if dust > 0 then LedgerReduce(PurseOf(v, k.1), k.1, 0, dust, slash) else PurseOf(v, k.1);
    v.(stakers := v.stakers[k := Stripped(user)],
       ledger := Put(v.ledger, k.1, purse.ledger), lock := Put(v.lock, k.1, purse.lock),
       free := Put(v.free, k.1, purse.free))
  }

  /** The dust of a staker's stake is unlocked and slashed from its account; no other account changes. */
  lemma StripBurnsDust(v: Store, k: Key, slash: Slasher)
    requires AllCovered(v) && k in v.stakers
    ensures var v', locked := StripOne(v, k, slash), v.stakers[k].locked;
      var dust := if locked <= 1000 then locked else 0;
      var burnt := if dust > 0 then Taken(slash, k.1, dust, Get(v.free, k.1)) else 0;
      && Get(v'.ledger, k.1) + dust == Get(v.ledger, k.1) && Get(v'.lock, k.1) == Get(v'.ledger, k.1)
      && Get(v'.free, k.1) + burnt == Get(v.free, k.1) && v'.slack == v.slack
      && (forall w :: w != k.1 ==> PurseOf(v', w) == PurseOf(v, w))
      && WithoutDust(v.stakers[k], v'.stakers[k])
  {
    LockedAtMostLedger(v, k.0, k.1);
    assert AccountOk(v, k.1);
    StrippedIs(v.stakers[k]);
    hide LockedBy;
  }

  /** The accounts go on covering the stake of their stakers. */
  lemma StripKeepsCovered(v: Store, k: Key, slash: Slasher)
    requires AllCovered(v) && k in v.stakers
    ensures AllCovered(StripOne(v, k, slash))
  {
    var v' := StripOne(v, k, slash);
    LockedAtMostLedger(v, k.0, k.1);
    forall w ensures AccountOk(v', w) {
      assert AccountOk(v, w);
      LockedSaved(v.stakers, k.0, k.1, Stripped(v.stakers[k]), w);
      assert k == (k.0, k.1);
      hide LockedBy;
    }
  }

  method StripStaker(pools: StakePools, k: Key) returns (sharesDust: nat)
    requires pools.Valid() && k in pools.poolStakers
    modifies pools`poolStakers, pools.accounts
    ensures pools.Valid() && sharesDust == SharesDust(old(pools.poolStakers)[k])
    ensures pools.Snapshot() == StripOne(old(pools.Snapshot()), k, pools.accounts.slasher)
  {
    var user := pools.poolStakers[k];
    var (shares, ofShares) := ExtractDust(user.shares);
    var (locked, stakeDust) := ExtractDust(user.locked);
    sharesDust := ofShares;
    PurseKept(pools.accounts.Value(), k.1);
    if stakeDust > 0 {
      pools.accounts.Reduce(k.1, 0, stakeDust);
    }
    pools.poolStakers := pools.poolStakers[k := user.(shares := shares, locked := locked)];
  }

  // ---------------------------------------------------------------- the whole migration

  /** The first pass: the stakers, with the dust shares collected by pool. */
  method StripStakers(pools: StakePools) returns (dust: map<Pid, nat>)
    requires pools.Valid()
    modifies pools`poolStakers, pools.accounts
    ensures pools.Valid() && pools.poolStakers == AllStripped(old(pools.poolStakers))
    ensures forall pid :: Get(dust, pid) == DustOf(old(pools.poolStakers), pid)
    ensures AllCovered(old(pools.Snapshot())) ==> AllCovered(pools.Snapshot())
  {
    hide Stripped, SharesDust, AllCovered, DustIn, Put, LedgerReduce, Vault.PurseOf, NormalBalances;
    dust := map[];
    ghost var stakers := pools.poolStakers;
    ghost var done: set<Key> := {};
    var keys := pools.poolStakers.Keys;
    NothingDone(stakers);
    while keys != {}
      invariant pools.Valid() && keys == stakers.Keys - done && done <= stakers.Keys == pools.poolStakers.Keys
      invariant forall k :: k in stakers ==>
        pools.poolStakers[k] == if k in done then Stripped(stakers[k]) else stakers[k]
      invariant forall pid :: Get(dust, pid) == Sum(DustIn(stakers, pid, done))
      invariant AllCovered(old(pools.Snapshot())) ==> AllCovered(pools.Snapshot())
    {
      var k :| k in keys;
      forall pid {
        DustAdded(stakers, pid, done, k);
      }
      if AllCovered(pools.Snapshot()) {
        StripKeepsCovered(pools.Snapshot(), k, pools.accounts.slasher);
      }
      var sharesDust := StripStaker(pools, k);
      if sharesDust > 0 {
        dust := dust[k.0 := Get(dust, k.0) + sharesDust];
      }
      done := done + {k};
      keys := keys - {k};
    }
    assert done == stakers.Keys;
  }

  lemma NothingDone(stakers: map<Key, UserStakeInfo>)
    ensures forall pid :: Sum(DustIn(stakers, pid, {})) == 0
  {
    forall pid ensures Sum(DustIn(stakers, pid, {})) == 0 {
      assert DustIn(stakers, pid, {}) == map[];
    }
  }

  method StripPool(pools: StakePools, pid: Pid, dust: nat)
    requires pools.Valid() && pid in pools.stakePools && dust <= pools.stakePools[pid].totalShares
    modifies pools`stakePools
    ensures pools.Valid()
    ensures pools.stakePools == old(pools.stakePools)[pid := StrippedPool(old(pools.stakePools)[pid], dust)]
  {
    var pool := pools.stakePools[pid];
    pool := pool.(totalShares := pool.totalShares - dust);
    var (totalStake, _) := ExtractDust(pool.totalStake);
    if totalStake == 0 {
      pool := pool.(totalStake := 0, freeStake := 0);
    }
    var queue := RetainNondust(pool.withdrawQueue);
    queue := RetainFirst(queue);
    pools.stakePools := pools.stakePools[pid := pool.(withdrawQueue := queue)];
  }

  /** The second pass: the pools. */
  method StripPools(pools: StakePools, dust: map<Pid, nat>)
    requires pools.Valid()
    requires forall pid :: pid in pools.stakePools ==> Get(dust, pid) <= pools.stakePools[pid].totalShares
    modifies pools`stakePools
    ensures pools.Valid() && pools.stakePools.Keys == old(pools.stakePools).Keys
    ensures forall pid :: pid in pools.stakePools ==>
      pools.stakePools[pid] == StrippedPool(old(pools.stakePools)[pid], Get(dust, pid))
  {
    hide StrippedPool, Get;
    var pids := pools.stakePools.Keys;
    while pids != {}
      invariant pools.Valid() && pids <= old(pools.stakePools).Keys == pools.stakePools.Keys
      invariant forall pid :: pid in pids ==> pools.stakePools[pid] == old(pools.stakePools)[pid]
      invariant forall pid :: pid in pools.stakePools && pid !in pids ==>
        pools.stakePools[pid] == StrippedPool(old(pools.stakePools)[pid], Get(dust, pid))
    {
      var pid :| pid in pids;
      StripPool(pools, pid, Get(dust, pid));
      pids := pids - {pid};
    }
  }

  /**
    From any storage in which the shares agree: no staker keeps dust, the shares still agree,
    the queues are clean, and the accounts cover their stake if they did.
  */
  method RemovePoolDust(pools: StakePools)
    requires pools.Valid() && SharesAgree(pools.Snapshot())
    modifies pools`stakePools, pools`poolStakers, pools.accounts
    ensures pools.Valid() && SharesAgree(pools.Snapshot())
    ensures pools.poolStakers == AllStripped(old(pools.poolStakers))
    ensures forall k :: k in pools.poolStakers ==>
      && Clean(pools.poolStakers[k].shares)
      && Clean(pools.poolStakers[k].locked)
    ensures pools.poolStakers.Keys == old(pools.poolStakers).Keys
    ensures forall k :: k in pools.poolStakers ==> WithoutDust(old(pools.poolStakers)[k], pools.poolStakers[k])
    ensures pools.stakePools.Keys == old(pools.stakePools).Keys
    ensures forall pid :: pid in pools.stakePools ==>
      && StakeWithoutDust(old(pools.stakePools)[pid], pools.stakePools[pid])
      && OneEach(old(pools.stakePools)[pid].withdrawQueue, pools.stakePools[pid].withdrawQueue)
    ensures forall pid, staked: nat {:trigger pools.stakePools[pid], Solid(staked)} ::
      pid in pools.stakePools && Solid(staked) && HeldWith(old(pools.stakePools)[pid], staked) ==>
        pools.stakePools[pid].totalStake == pools.stakePools[pid].freeStake + staked
    ensures forall pid :: pid in pools.stakePools ==>
      && DustOf(old(pools.poolStakers), pid) <= old(pools.stakePools)[pid].totalShares
      && pools.stakePools[pid] == StrippedPool(old(pools.stakePools)[pid], DustOf(old(pools.poolStakers), pid))
    ensures AllCovered(old(pools.Snapshot())) ==> AllCovered(pools.Snapshot())
  {
    ghost var before := pools.Snapshot();
    TakesDust(before);
    hide FirstRequests, NondustRequests, SharesIn, DustIn, DustOf, AllCovered, StrippedPool, AllStripped,
         SharesAgree, Get;
    var dust := StripStakers(pools);
    ghost var v := pools.Snapshot();
    assert forall pid :: pid in pools.stakePools ==> Get(dust, pid) == DustOf(before.stakers, pid);
    StripPools(pools, dust);
    StrippedClean(before.stakers);
    StrippedStakers(before.stakers);
    StrippedPools(before.pools, before.stakers, pools.stakePools);
    StrippedAgree(before, pools.Snapshot());
    if AllCovered(v) {
      CoveredFrame(v, pools.Snapshot());
    }
  }

  lemma StrippedStakers(stakers: map<Key, UserStakeInfo>)
    ensures AllStripped(stakers).Keys == stakers.Keys
    ensures forall k :: k in stakers ==> WithoutDust(stakers[k], AllStripped(stakers)[k])
  {
    forall k | k in stakers ensures WithoutDust(stakers[k], AllStripped(stakers)[k]) {
      StrippedIs(stakers[k]);
    }
  }

  lemma StrippedPools(pools: map<Pid, PoolInfo>, stakers: map<Key, UserStakeInfo>, pools': map<Pid, PoolInfo>)
    requires pools'.Keys == pools.Keys
    requires forall pid :: pid in pools ==> DustOf(stakers, pid) <= pools[pid].totalShares
    requires forall pid :: pid in pools ==> pools'[pid] == StrippedPool(pools[pid], DustOf(stakers, pid))
    ensures forall pid :: pid in pools ==>
      StakeWithoutDust(pools[pid], pools'[pid]) && OneEach(pools[pid].withdrawQueue, pools'[pid].withdrawQueue)
    ensures forall pid, staked: nat {:trigger pools'[pid], Solid(staked)} ::
      pid in pools && Solid(staked) && HeldWith(pools[pid], staked) ==>
        pools'[pid].totalStake == pools'[pid].freeStake + staked
  {
    hide StrippedPool, DustOf, StakeWithoutDust, OneEach, HeldWith, Solid;
    forall pid | pid in pools
      ensures StakeWithoutDust(pools[pid], pools'[pid]) && OneEach(pools[pid].withdrawQueue, pools'[pid].withdrawQueue)
    {
      StrippedPoolIs(pools[pid], DustOf(stakers, pid));
    }
    forall pid, staked: nat | pid in pools && Solid(staked) && HeldWith(pools[pid], staked)
      ensures pools'[pid].totalStake == pools'[pid].freeStake + staked
    {
      StakeStaysBacked(pools[pid], pools'[pid], staked);
    }
  }

  lemma TakesDust(v: Store)
    requires SharesAgree(v)
    ensures forall pid :: pid in v.pools ==> DustOf(v.stakers, pid) <= v.pools[pid].totalShares
  {
    hide SharesIn, DustOf;
    forall pid | pid in v.pools ensures DustOf(v.stakers, pid) <= v.pools[pid].totalShares {
      StrippedShares(v.stakers, pid);
    }
  }

  lemma StrippedAgree(v: Store, v': Store)
    requires SharesAgree(v) && v'.stakers == AllStripped(v.stakers) && v'.pools.Keys == v.pools.Keys
    requires forall pid :: pid in v.pools ==>
      && DustOf(v.stakers, pid) <= v.pools[pid].totalShares
      && v'.pools[pid] == StrippedPool(v.pools[pid], DustOf(v.stakers, pid))
    ensures SharesAgree(v')
  {
    hide SharesIn, DustOf, AllStripped, FirstRequests, NondustRequests;
    forall pid | pid in v'.pools ensures v'.pools[pid].totalShares == Sum(SharesIn(v'.stakers, pid)) {
      StrippedShares(v.stakers, pid);
    }
  }

  lemma StrippedClean(stakers: map<Key, UserStakeInfo>)
    ensures forall k :: k in AllStripped(stakers) ==>
      && Clean(AllStripped(stakers)[k].shares)
      && Clean(AllStripped(stakers)[k].locked)
  {
  }
}
