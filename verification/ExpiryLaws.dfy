/** Expired withdraw requests, and the index by which they are found. */
module ExpiryLaws {
  import opened FixedPoint
  import opened Pool
  import opened Vault
  import opened QueueLaws
  import opened CallLaws

  // ---------------------------------------------------------------- expired requests

  /** What the first `n` requests come to at a price. */
  function Due(q: seq<WithdrawInfo>, price: Bits, n: nat): nat
    requires n <= |q|
  {
    if n == 0 then 0 else Mul(q[0].shares, price) + Due(q[1..], price, n - 1)
  }

  predicate ExpiredAt(q: seq<WithdrawInfo>, price: Bits, budget: nat, now: nat, grace: nat, i: nat)
    requires i < |q|
  {
    Due(q, price, i + 1) > budget && now - q[i].startTime > grace
  }

  /** Some request past the grace period cannot be paid after all those in front of it. */
  ghost predicate SomeExpired(q: seq<WithdrawInfo>, price: Bits, budget: nat, now: nat, grace: nat) {
    exists i: nat :: i < |q| && ExpiredAt(q, price, budget, now, grace, i)
  }

  lemma {:induction false} ExpiredHasWitness(q: seq<WithdrawInfo>, price: Bits, budget: nat, now: nat, grace: nat)
    returns (i: nat)
    requires ExpiredBeyond(q, price, budget, now, grace)
    ensures i < |q| && ExpiredAt(q, price, budget, now, grace, i)
  {
    hide Mul;
    var amount := Mul(q[0].shares, price);
    if amount > budget {
      i := 0;
      assert Due(q, price, 1) == amount + Due(q[1..], price, 0);
    } else {
      var j := ExpiredHasWitness(q[1..], price, budget - amount, now, grace);
      i := j + 1;
      assert Due(q, price, i + 1) == amount + Due(q[1..], price, i);
    }
  }

  lemma {:induction false} WitnessIsExpired(q: seq<WithdrawInfo>, price: Bits, budget: nat, now: nat, grace: nat,
      i: nat)
    requires Ordered(q) && i < |q| && ExpiredAt(q, price, budget, now, grace, i)
    ensures ExpiredBeyond(q, price, budget, now, grace)
  {
    hide Mul;
    var amount := Mul(q[0].shares, price);
    assert Due(q, price, i + 1) == amount + Due(q[1..], price, i);
    if amount <= budget {
      assert i > 0 by { assert Due(q[1..], price, 0) == 0; }
      WitnessIsExpired(q[1..], price, budget - amount, now, grace, i - 1);
    } else {
      assert q[0].startTime <= q[i].startTime;
    }
  }

  /**
    On a queue with the oldest request first, the scan finds an expired request exactly when
    some request past the grace period cannot be paid after all those in front of it.
  */
  lemma ExpiredBeyondMeans(q: seq<WithdrawInfo>, price: Bits, budget: nat, now: nat, grace: nat)
    requires Ordered(q)
    ensures ExpiredBeyond(q, price, budget, now, grace) <==> SomeExpired(q, price, budget, now, grace)
  {
    hide ExpiredAt, ExpiredBeyond;
    if ExpiredBeyond(q, price, budget, now, grace) {
      var i := ExpiredHasWitness(q, price, budget, now, grace);
    }
    forall i: nat | i < |q| && ExpiredAt(q, price, budget, now, grace, i)
      ensures ExpiredBeyond(q, price, budget, now, grace)
    {
      WitnessIsExpired(q, price, budget, now, grace, i);
    }
  }

  /**
    `has_expired_withdrawal`: the pool has a positive share price, and some request past the
    grace period cannot be paid, after all those in front of it, from what is free and what is
    being released.
  */
  lemma HasExpiredMeans(pool: PoolInfo, now: nat, grace: nat)
    requires Ordered(pool.withdrawQueue)
    ensures HasExpiredWithdrawal(pool, now, grace) <==>
      && SharePrice(pool).Some? && SharePrice(pool).value != 0
      && SomeExpired(pool.withdrawQueue, SharePrice(pool).value, pool.freeStake + pool.releasingStake, now, grace)
  {
    hide SomeExpired, ExpiredBeyond, SharePrice, Ordered;
    if SharePrice(pool).Some? {
      ExpiredBeyondMeans(pool.withdrawQueue, SharePrice(pool).value, pool.freeStake + pool.releasingStake, now, grace);
    }
  }

  // ---------------------------------------------------------------- the index

  /** The times listed are increasing and are exactly those with pools, and the pools exist. */
  ghost predicate IndexOk(v: Store) {
    && Increasing(v.timestamps)
    && (forall t :: t in v.timestamps <==> t in v.queuedPools)
    && (forall t, pid :: t in v.queuedPools && pid in v.queuedPools[t] ==> pid in v.pools)
  }

  /** Nothing was requested in the future, and every queue is clean with its oldest request first. */
  ghost predicate TimesOk(v: Store, now: nat) {
    && (forall t :: t in v.timestamps ==> t <= now)
    && (forall pid :: pid in v.pools ==> QueueOk(v.pools[pid].withdrawQueue, now))
  }

  predicate QueueOk(q: seq<WithdrawInfo>, now: nat) {
    Ordered(q) && QueueClean(q) && forall r :: r in q ==> r.startTime <= now
  }

  /** Every request is listed under its time, unless it had expired when a block last ended. */
  ghost predicate AllListed(v: Store, last: nat) {
    forall pid, r :: pid in v.pools && r in v.pools[pid].withdrawQueue ==> Listed(v, pid, r.startTime, last)
  }

  ghost predicate Listed(v: Store, pid: Pid, start: nat, last: nat) {
    (start in v.queuedPools && pid in v.queuedPools[start]) || last - start > GRACE_PERIOD
  }

  ghost predicate Indexed(v: Store, now: nat, last: nat) {
    last <= now && IndexOk(v) && TimesOk(v, now) && AllListed(v, last)
  }

  /** Serving a queue from the front leaves it indexed. */
  lemma FrontServedIndexed(q: seq<WithdrawInfo>, q': seq<WithdrawInfo>, now: nat)
    requires FrontServed(q, q') && QueueOk(q, now)
    ensures QueueOk(q', now)
    ensures forall r' :: r' in q' ==> exists r :: r in q && r.startTime == r'.startTime
  {
    if q' != [] {
      var k := |q| - |q'|;
      assert forall i :: 0 < i < |q'| ==> q'[i] == q'[1..][i - 1] == q[k + 1..][i - 1] == q[k + i];
      assert q'[0].startTime == q[k].startTime;
    }
  }

  /** Calls that only shorten or keep the queues leave everything indexed. */
  lemma ShorterQueuesIndexed(v: Store, v': Store, pid: Pid, now: nat, last: nat)
    requires Indexed(v, now, last) && pid in v.pools
    requires v'.pools.Keys == v.pools.Keys && v'.timestamps == v.timestamps && v'.queuedPools == v.queuedPools
    requires forall p :: p in v.pools && p != pid ==> v'.pools[p].withdrawQueue == v.pools[p].withdrawQueue
    requires FrontServed(v.pools[pid].withdrawQueue, v'.pools[pid].withdrawQueue)
    ensures Indexed(v', now, last)
  {
    FrontServedIndexed(v.pools[pid].withdrawQueue, v'.pools[pid].withdrawQueue, now);
    forall p, r | p in v'.pools && r in v'.pools[p].withdrawQueue ensures Listed(v', p, r.startTime, last) {
      if p == pid {
        var r0 :| r0 in v.pools[pid].withdrawQueue && r0.startTime == r.startTime;
        assert Listed(v, pid, r0.startTime, last);
      } else {
        assert Listed(v, p, r.startTime, last);
      }
    }
  }

  ghost predicate Increasing(t: seq<nat>) {
    forall i, j :: 0 <= i < j < |t| ==> t[i] < t[j]
  }

  lemma TimeAddedKeeps(t: seq<nat>, now: nat)
    requires Increasing(t) && forall x :: x in t ==> x <= now
    ensures Increasing(TimeAdded(t, now))
    ensures forall x :: x in TimeAdded(t, now) <==> x == now || x in t
  {
    if t != [] {
      assert t[|t| - 1] in t;
    }
    assert (t + [now])[|t|] == now;
  }

  lemma PoolListedContents(queued: map<nat, seq<Pid>>, now: nat, pid: Pid)
    ensures var queued' := PoolListed(queued, now, pid);
      && (forall t :: t in queued' <==> t == now || t in queued)
      && (forall t, p :: t in queued' ==> (p in queued'[t] <==>
        (t == now && p == pid) || (t in queued && p in queued[t])))
  {
  }

  lemma AddToIndexKeeps(v: Store, now: nat, pid: Pid)
    requires IndexOk(v) && pid in v.pools && forall t :: t in v.timestamps ==> t <= now
    ensures var v' := AddToIndex(v, now, pid);
      IndexOk(v') && (forall t :: t in v'.timestamps ==> t <= now)
  {
    TimeAddedKeeps(v.timestamps, now);
    PoolListedContents(v.queuedPools, now, pid);
    hide TimeAdded, PoolListed, Increasing;
  }

  /** A request put in the queue is listed with the pool under the present time. */
  lemma RequeuedIndexed(v: Store, v': Store, pid: Pid, who: Account, now: nat, last: nat, queued: WithdrawInfo)
    requires Indexed(v, now, last) && pid in v.pools
    requires queued.startTime == now && queued.user == who && Nondust(queued.shares)
    requires v'.pools.Keys == v.pools.Keys
    requires forall p :: p in v.pools && p != pid ==> v'.pools[p].withdrawQueue == v.pools[p].withdrawQueue
    requires v'.pools[pid].withdrawQueue == Without(v.pools[pid].withdrawQueue, who) + [queued]
    requires v'.timestamps == AddToIndex(v, now, pid).timestamps
    requires v'.queuedPools == AddToIndex(v, now, pid).queuedPools
    ensures Indexed(v', now, last)
  {
    AddToIndexKeeps(v, now, pid);
    PoolListedContents(v.queuedPools, now, pid);
    hide TimeAdded, PoolListed, IndexOk, Ordered;
    var q := v.pools[pid].withdrawQueue;
    WithoutContents(q, who);
    RequeuedTimes(q, who, now, queued);
    forall p, r | p in v'.pools && r in v'.pools[p].withdrawQueue ensures Listed(v', p, r.startTime, last) {
      if !(p == pid && r == queued) {
        assert r in v.pools[p].withdrawQueue;
        assert Listed(v, p, r.startTime, last);
      }
    }
  }

  lemma RequeuedTimes(q: seq<WithdrawInfo>, who: Account, now: nat, queued: WithdrawInfo)
    requires QueueOk(q, now) && queued.startTime == now && queued.user == who && Nondust(queued.shares)
    ensures QueueOk(Without(q, who) + [queued], now)
  {
    var kept := Without(q, who);
    WithoutContents(q, who);
    WithoutKeepsOrdered(q, who);
    WithoutKeepsDistinct(q, who);
    assert forall i :: 0 <= i < |kept| ==> kept[i] in kept;
  }
}
