/** Reclaiming a miner's stake, reconciling a queue, and the calls that move no money. */
module ReclaimLaws {
  import opened Base
  import opened FixedPoint
  import opened Sums
  import opened Pool
  import opened PoolLaws
  import opened Vault
  import opened VaultLaws
  import opened QueueLaws
  import opened CallLaws

  // ---------------------------------------------------------------- reclaim

  /** Nothing is slashed, there are shares to bear it, or it leaves no dust in a pool without shares. */
  predicate SlashAllowed(pool: PoolInfo, slashed: nat) {
    slashed == 0 || pool.totalShares > 0 || slashed == pool.totalStake ||
    (slashed < pool.totalStake && Nondust(pool.totalStake - slashed))
  }

  /**
    Returning a miner's stake, less what was slashed, leaves the pool backed by the miners
    that remain, unless the slash takes the stake of a pool without shares down to dust.
  */
  lemma ReclaimedBacked(pool: PoolInfo, staked: nat, orig: nat, slashed: nat)
    requires Backed(pool, staked) && slashed <= orig <= staked && Solid(staked - orig)
    requires staked > 0
    ensures Backed(Reclaimed(pool, orig, slashed), staked - orig) <==> SlashAllowed(pool, slashed)
  {
  }

  /**
    A pool of one miner and no shares, slashed to 999 pico: the next contribution does not add up. A run from
    the empty chain to such a slash is `FaultLaws.SlashWithoutShares`.
  */
  lemma SlashWithoutSharesBreaksBacking(pool: PoolInfo, user: UserStakeInfo, purse: Purse)
    requires pool.totalShares == 0 && pool.freeStake == 0 && pool.totalStake == 5000
    ensures Backed(pool, 5000)
    ensures var d := Desk(Reclaimed(pool, 5000, 4001), user, purse, 0);
      && !Backed(d.pool, 0)
      && AddStake(d, MIN_CONTRIBUTION).pool.totalStake + 999 == AddStake(d, MIN_CONTRIBUTION).pool.freeStake
  {
    hide Mul, Div;
  }

  lemma ReclaimedKeepsSound(v: Store, pid: Pid, orig: nat, slashed: nat, staked: map<Pid, nat>)
    requires Sound(v, staked) && pid in v.pools && slashed <= orig && 0 < orig <= Get(staked, pid)
    requires Solid(Get(staked, pid) - orig) && SlashAllowed(v.pools[pid], slashed)
    ensures Sound(SavePool(v, pid, Reclaimed(v.pools[pid], orig, slashed)), staked[pid := Get(staked, pid) - orig])
  {
    hide Sound, Backed;
    SoundBacks(v, staked, pid);
    ReclaimedBacked(v.pools[pid], Get(staked, pid), orig, slashed);
    SavePoolKeepsSound(v, pid, Reclaimed(v.pools[pid], orig, slashed), staked, Get(staked, pid) - orig);
  }

  /** A reclaim hands the stake back and serves the queue; the books balance with the miner gone. */
  lemma HandleReclaimKeeps(v: Store, pid: Pid, orig: nat, slashed: nat, slash: Slasher, staked: map<Pid, nat>)
    requires Sound(v, staked) && pid in v.pools && slashed <= orig && 0 < orig <= Get(staked, pid)
    requires Solid(Get(staked, pid) - orig) && SlashAllowed(v.pools[pid], slashed)
    requires HandleReclaim(v, pid, orig, slashed, slash).Ok?
    ensures var v1, v' := SavePool(v, pid, Reclaimed(v.pools[pid], orig, slashed)),
                          HandleReclaim(v, pid, orig, slashed, slash).value;
      && Sound(v', staked[pid := Get(staked, pid) - orig]) && OnlyPool(v1, v', pid)
      && FrontServed(v.pools[pid].withdrawQueue, v'.pools[pid].withdrawQueue)
  {
    hide Sound, OnlyPool, FrontServed, ProcessQueue;
    ReclaimedKeepsSound(v, pid, orig, slashed, staked);
    ProcessQueueKeeps(SavePool(v, pid, Reclaimed(v.pools[pid], orig, slashed)), pid, slash,
                      staked[pid := Get(staked, pid) - orig]);
  }

  /** On owned requests a reclaim hangs if and only if the queue with the stake taken back does, and else succeeds. */
  lemma HandleReclaimOwned(v: Store, pid: Pid, orig: nat, slashed: nat, slash: Slasher, staked: map<Pid, nat>)
    requires Sound(v, staked) && AllWithin(v)
    requires pid in v.pools && slashed <= orig && 0 < orig <= Get(staked, pid)
    requires Solid(Get(staked, pid) - orig) && SlashAllowed(v.pools[pid], slashed)
    ensures var r := HandleReclaim(v, pid, orig, slashed, slash);
      && (r == Diverge <==> QueueHangs(SavePool(v, pid, Reclaimed(v.pools[pid], orig, slashed)), pid, slash))
      && (r != Diverge ==> r.Ok? && AllWithin(r.value))
  {
    hide Sound, OnlyPool, FrontServed, ProcessQueue, WithinShares, QueueHangs;
    var v1 := SavePool(v, pid, Reclaimed(v.pools[pid], orig, slashed));
    assert v1.pools[pid].withdrawQueue == v.pools[pid].withdrawQueue;
    ReclaimedKeepsSound(v, pid, orig, slashed, staked);
    SameQueueWithin(v, v1, pid);
    AllWithinHere(v, v1, pid);
    OwnedQueueProcessed(v1, pid, slash, staked[pid := Get(staked, pid) - orig]);
    if HandleReclaim(v, pid, orig, slashed, slash).Ok? {
      HandleReclaimKeeps(v, pid, orig, slashed, slash, staked);
      OthersWithin(v1, HandleReclaim(v, pid, orig, slashed, slash).value, pid);
    }
  }

  lemma SameQueueWithin(v: Store, v': Store, pid: Pid)
    requires pid in v.pools && pid in v'.pools && AllWithin(v) && v'.stakers == v.stakers
    requires v'.pools[pid].withdrawQueue == v.pools[pid].withdrawQueue
    ensures WithinShares(v', pid)
  {
    assert WithinShares(v, pid);
  }

  // ---------------------------------------------------------------- reconcile

  /** The first request of an account that exceeds what it has, as `position` finds it. */
  function Exceeding(q: seq<WithdrawInfo>, who: Account, available: nat): (k: nat)
    ensures k <= |q|
    ensures k < |q| ==> q[k].user == who && q[k].shares > available
    ensures forall i :: 0 <= i < k ==> !(q[i].user == who && q[i].shares > available)
  {
    if q == [] || (q[0].user == who && q[0].shares > available) then 0
    else
      assert forall i :: 1 <= i < |q| ==> q[i] == q[1..][i - 1];
      1 + Exceeding(q[1..], who, available)
  }

  lemma {:induction false} LoweredAt(q: seq<WithdrawInfo>, who: Account, available: nat)
    ensures var k := Exceeding(q, who, available);
      Lowered(q, who, available) ==
        if k == |q| then q
        else if available == 0 then q[..k] + q[k + 1..]
        else q[k := q[k].(shares := available)]
  {
    hide Lowered, Exceeding;
    LoweredFront(q, who, available);
    if q != [] && !(q[0].user == who && q[0].shares > available) {
      LoweredAt(q[1..], who, available);
      LoweredBehind(q, Exceeding(q[1..], who, available), available);
    }
  }

  lemma LoweredFront(q: seq<WithdrawInfo>, who: Account, available: nat)
    ensures q == [] ==> Lowered(q, who, available) == [] && Exceeding(q, who, available) == 0
    ensures q != [] ==>
      if q[0].user == who && q[0].shares > available then
        && Exceeding(q, who, available) == 0
        && Lowered(q, who, available) == (if available == 0 then q[..0] + q[1..]
                                              else q[0 := q[0].(shares := available)])
      else
        && Exceeding(q, who, available) == 1 + Exceeding(q[1..], who, available)
        && Lowered(q, who, available) == [q[0]] + Lowered(q[1..], who, available)
  {
    if q != [] {
      assert q[..0] + q[1..] == q[1..];
    }
  }

  /** Lowering a request of the tail is lowering it in the queue. */
  lemma LoweredBehind(q: seq<WithdrawInfo>, k: nat, available: nat)
    requires q != [] && k < |q|
    ensures [q[0]] + q[1..] == q
    ensures k < |q| - 1 ==> [q[0]] + (q[1..][..k] + q[1..][k + 1..]) == q[..k + 1] + q[k + 2..]
    ensures k < |q| - 1 ==>
      [q[0]] + q[1..][k := q[1..][k].(shares := available)] == q[k + 1 := q[k + 1].(shares := available)]
  {
  }

  lemma LoweredRequests(q: seq<WithdrawInfo>, who: Account, available: nat)
    requires Distinct(q)
    ensures var q' := Lowered(q, who, available);
      && Distinct(q')
      && (forall r :: r in q' && r.user != who <==> r in q && r.user != who)
      && (forall r :: r in q' && r.user == who ==> r.shares <= available && (r in q || r.shares == available > 0))
  {
    LoweredAt(q, who, available);
    var k, q' := Exceeding(q, who, available), Lowered(q, who, available);
    hide Lowered, Exceeding;
    if k < |q| {
      forall r | r in q && r.user != who ensures r in q' {
        var i :| 0 <= i < |q| && q[i] == r;
        assert q'[if available == 0 && i > k then i - 1 else i] == r;
      }
    }
  }

  /**
    From any queue with one request a user, reconciling an account makes its request owned
    and leaves everybody else's as it was.
  */
  lemma ReconcileRestores(v: Store, pid: Pid, who: Account)
    requires Reconcile(v, pid, who).Ok?
    requires Distinct(v.pools[pid].withdrawQueue)
    ensures var q, q' := v.pools[pid].withdrawQueue, Reconcile(v, pid, who).value.pools[pid].withdrawQueue;
      && Distinct(q')
      && (forall r :: r in q' && r.user != who <==> r in q && r.user != who)
      && (forall r :: r in q' && r.user == who ==> r.shares <= v.stakers[(pid, who)].shares)
      && ((forall r :: r in q ==> Nondust(r.shares)) ==> (forall r :: r in q' ==> Nondust(r.shares)))
  {
    LoweredRequests(v.pools[pid].withdrawQueue, who, ExtractDust(v.stakers[(pid, who)].shares).0);
  }

  // ---------------------------------------------------------------- creating a pool

  lemma CreateKeeps(v: Store, owner: Account, staked: map<Pid, nat>)
    requires Sound(v, staked) && v.poolCount !in v.pools && v.poolCount !in v.audits
    requires Get(staked, v.poolCount) == 0
    ensures Sound(Create(v, owner), staked)
  {
    CoveredFrame(v, Create(v, owner));
    hide Held, Mul, Worth, Drift, WellKeyed, SharesAgree, AllSolvent, AllStakersOk, AllCovered;
    CreateKeepsShares(v, owner);
    CreateKeepsSolvent(v, owner);
  }

  lemma CreateKeepsShares(v: Store, owner: Account)
    requires WellKeyed(v) && SharesAgree(v) && AllStakersOk(v) && v.poolCount !in v.pools
    ensures var v' := Create(v, owner); WellKeyed(v') && SharesAgree(v') && AllStakersOk(v')
  {
    hide Mul;
    NoStakers(v, v.poolCount);
  }

  lemma CreateKeepsSolvent(v: Store, owner: Account)
    requires WellKeyed(v) && AllSolvent(v) && v.poolCount !in v.pools && v.poolCount !in v.audits
    ensures AllSolvent(Create(v, owner))
  {
    hide Held, Mul, Worth, Drift;
    NoStakers(v, v.poolCount);
    forall p | p in Create(v, owner).pools ensures Solvent(Create(v, owner), p) {
      if p in v.pools {
        assert Solvent(v, p);
      }
    }
  }

  lemma NoStakers(v: Store, pid: Pid)
    requires WellKeyed(v) && pid !in v.pools
    ensures SharesIn(v.stakers, pid) == map[] && HeldIn(v.stakers, pid, 0) == map[]
    ensures Sum<Key>(map[]) == 0 && Worth(0) == 0 && Drift(0) == 0
  {
  }
}
