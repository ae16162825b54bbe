/** What the calls that move no money do to a pool, and what a reclaim makes of it before its queue is served. */
module PoolEffects {
  import opened Base
  import opened Pool
  import opened Vault
  import opened ReclaimLaws
  import opened WorkerLaws
  import opened CallEffects

  // ---------------------------------------------------------------- pools and their terms

  /** A new pool has the next number and nothing in it; the others are as they were. */
  lemma CreateOpensEmpty(v: Store, owner: Account)
    requires v.poolCount !in v.pools
    ensures var v', pid := Create(v, owner), v.poolCount;
      && v' == v.(pools := v'.pools, poolCount := pid + 1)
      && v'.pools.Keys == v.pools.Keys + {pid} && (forall p :: p in v.pools ==> v'.pools[p] == v.pools[p])
      && var pool := v'.pools[pid];
         && pool.pid == pid && pool.owner == owner && pool.payoutCommission.None? && pool.cap.None?
         && pool.ownerReward == pool.rewardAcc == pool.totalShares == pool.totalStake == 0
         && pool.freeStake == pool.releasingStake == |pool.workers| == |pool.withdrawQueue| == 0
  {
  }

  /** The owner alone sets the cap, and not below the stake there is. */
  lemma CapIsSet(v: Store, who: Account, pid: Pid, cap: nat)
    ensures var r := SetCap(v, who, pid, cap);
      var stranger := pid in v.pools && who != v.pools[pid].owner;
      var low := pid in v.pools && cap < v.pools[pid].totalStake;
      && (r == Err(PoolDoesNotExist) <==> pid !in v.pools) && (r == Err(UnauthorizedPoolOwner) <==> stranger)
      && (r == Err(InadequateCapacity) <==> !stranger && low)
      && (r.Ok? <==> pid in v.pools && !stranger && !low)
      && (r.Ok? ==> r.value == v.(pools := v.pools[pid := v.pools[pid].(cap := Some(cap))]))
  {
  }

  /** And the owner alone sets the commission. */
  lemma CommissionIsSet(v: Store, who: Account, pid: Pid, rate: nat)
    ensures var r := SetPayoutPref(v, who, pid, rate);
      var stranger := pid in v.pools && who != v.pools[pid].owner;
      && (r == Err(PoolDoesNotExist) <==> pid !in v.pools) && (r == Err(UnauthorizedPoolOwner) <==> stranger)
      && (r.Ok? <==> pid in v.pools && !stranger)
      && (r.Ok? ==> r.value == v.(pools := v.pools[pid := v.pools[pid].(payoutCommission := Some(rate))]))
  {
  }

  // ---------------------------------------------------------------- reconciling

  /** The first request of an account for more than an amount of shares. */
  predicate FirstAbove(q: seq<WithdrawInfo>, who: Account, owned: nat, k: nat) {
    && k < |q| && q[k].user == who && q[k].shares > owned
    && forall i :: 0 <= i < k && q[i].user == who ==> q[i].shares <= owned
  }

  /**
    Reconciling an account lowers its first request for more than it owns to what it owns, or removes it if that
    is dust; a queue without such a request stays as it is.
  */
  lemma ReconcileLowers(v: Store, pid: Pid, who: Account)
    ensures var r := Reconcile(v, pid, who);
      && (r == Err(PoolDoesNotExist) <==> pid !in v.pools)
      && (r == Err(PoolStakeNotFound) <==> pid in v.pools && (pid, who) !in v.stakers)
      && (r.Ok? <==> pid in v.pools && (pid, who) in v.stakers)
    ensures pid in v.pools && (pid, who) in v.stakers ==>
      var q, owned := v.pools[pid].withdrawQueue, PastDust(v.stakers[(pid, who)].shares);
      var v' := Reconcile(v, pid, who).value;
      && pid in v'.pools
      && var q' := v'.pools[pid].withdrawQueue;
         && v' == v.(pools := v.pools[pid := v.pools[pid].(withdrawQueue := q')])
         && ((forall i :: 0 <= i < |q| && q[i].user == who ==> q[i].shares <= owned) ==> q' == q)
         && (forall k: nat :: FirstAbove(q, who, owned, k) ==>
               q' == if owned == 0 then q[..k] + q[k + 1..] else q[k := WithdrawInfo(who, owned, q[k].startTime)])
  {
    if pid in v.pools && (pid, who) in v.stakers {
      var q, owned := v.pools[pid].withdrawQueue, PastDust(v.stakers[(pid, who)].shares);
      LoweredAt(q, who, owned);
      forall k: nat | FirstAbove(q, who, owned, k) ensures Exceeding(q, who, owned) == k {
      }
    }
    hide Lowered, Exceeding;
  }

  // ---------------------------------------------------------------- what miners give back

  /**
    What a reclaim makes of a pool: the total stake is lower by what is slashed, no further than to zero, and what
    is left is no dust; what comes back is free and no longer expected.
  */
  function GivenBack(pool: PoolInfo, orig: nat, slashed: nat): PoolInfo
    requires slashed <= orig
  {
    var back := orig - slashed;
    var left := if pool.totalStake > slashed then PastDust(pool.totalStake - slashed) else 0;
    pool.(totalStake := if slashed > 0 then left else pool.totalStake,
          freeStake := pool.freeStake + back,
          releasingStake := if pool.releasingStake > back then pool.releasingStake - back else 0)
  }

  /** Then the queue is served. */
  lemma ReclaimGivesBack(v: Store, pid: Pid, orig: nat, slashed: nat, slash: Slasher)
    requires pid in v.pools && slashed <= orig
    ensures HandleReclaim(v, pid, orig, slashed, slash) ==
      ProcessQueue(v.(pools := v.pools[pid := GivenBack(v.pools[pid], orig, slashed)]), pid, slash)
  {
    hide ProcessQueue;
    assert Reclaimed(v.pools[pid], orig, slashed) == GivenBack(v.pools[pid], orig, slashed);
  }

  /** A pool whose miner stops expects what the miner will give back. */
  lemma StopIsExpected(v: Store, worker: Worker, orig: nat, slashed: nat)
    ensures var r := OnStopped(v, worker, orig, slashed);
      && (r.Ok? <==> worker in v.assignments && v.assignments[worker] in v.pools && slashed <= orig)
      && (r.Ok? || r == Panic)
      && (r.Ok? ==> var pool := v.pools[v.assignments[worker]];
            r.value == v.(pools := v.pools[v.assignments[worker] := pool.(
                            releasingStake := pool.releasingStake + orig - slashed)]))
  {
  }

  // ---------------------------------------------------------------- the list of workers

  /** Whether `part` is `whole` without one element. */
  predicate IsWithout(part: seq<Worker>, whole: seq<Worker>, w: Worker) {
    if whole == [] then part == []
    else if whole[0] == w then IsWithout(part, whole[1..], w)
    else part != [] && part[0] == whole[0] && IsWithout(part[1..], whole[1..], w)
  }

  lemma {:induction false} RemovedInOrder(workers: seq<Worker>, w: Worker)
    ensures IsWithout(Removed(workers, w), workers, w)
  {
    if workers != [] {
      RemovedInOrder(workers[1..], w);
      assert workers[0] != w ==> Removed(workers, w)[1..] == Removed(workers[1..], w);
    }
  }

  /** A worker that leaves is taken off the assignments and off its pool's list. */
  lemma WorkerLeaves(v: Store, worker: Worker)
    requires worker in v.assignments && v.assignments[worker] in v.pools
    ensures var r, pid := RemoveWorkerFromPool(v, worker), v.assignments[worker];
      && r.Ok? && pid in r.value.pools
      && var pool, pool' := v.pools[pid], r.value.pools[pid];
         && r.value == v.(assignments := v.assignments - {worker},
                          pools := v.pools[pid := pool.(workers := pool'.workers)])
         && IsWithout(pool'.workers, pool.workers, worker)
         && (forall w :: w in pool'.workers <==> w in pool.workers && w != worker)
  {
    RemovedInOrder(v.pools[v.assignments[worker]].workers, worker);
    RemovedContents(v.pools[v.assignments[worker]].workers, worker);
    hide Removed, IsWithout;
  }
}
