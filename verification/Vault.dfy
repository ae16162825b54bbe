/**
  The storage of the stake pool pallet and its calls (pallets/phala/src/stakepool.rs), as
  functions from storage to storage. The class `StakePallet.StakePools` runs the same calls in
  place; these functions are what its methods are proved against.
*/
module Vault {
  import opened Base
  import opened FixedPoint
  import opened Pool

  type Key = (Pid, Account)

  /** Per pool history that no code reads: rewards received, rewards paid out, share changes. */
  datatype Audit = Audit(received: nat, paid: nat, changes: nat)

  datatype Store = Store(
    pools: map<Pid, PoolInfo>,
    stakers: map<Key, UserStakeInfo>,
    poolCount: nat,
    assignments: map<Worker, Pid>,
    ledger: map<Account, nat>,
    lock: map<Account, nat>,
    free: map<Account, nat>,
    slack: map<Account, nat>,
    timestamps: seq<nat>,
    queuedPools: map<nat, seq<Pid>>,
    audits: map<Pid, Audit>)

  // From the runtime configuration (runtime/khala/src/lib.rs)
  const MIN_CONTRIBUTION: nat := 10_000_000_000
  const GRACE_PERIOD: nat := 604_800
  const MAX_POOL_WORKERS: nat := 200

  /** Writes a map entry that reads as zero when absent: zero removes it. */
  function Put<K>(m: map<K, nat>, k: K, n: nat): map<K, nat> {
    if n == 0 then m - {k} else m[k := n]
  }

  function PurseOf(v: Store, who: Account): Purse {
    Purse(Get(v.ledger, who), Get(v.lock, who), Get(v.free, who), Get(v.slack, who))
  }

  function AuditOf(v: Store, pid: Pid): Audit {
    if pid in v.audits then v.audits[pid] else Audit(0, 0, 0)
  }

  function Load(v: Store, who: Account, pool: PoolInfo, user: UserStakeInfo): Desk {
    Desk(pool, user, PurseOf(v, who), 0)
  }

  /** Writes a desk back: the pool, the staker, and what happened to the account on the way. */
  function Save(v: Store, pid: Pid, who: Account, d: Desk): Store {
    var audit := AuditOf(v, pid);
    v.(pools := v.pools[pid := d.pool],
       stakers := v.stakers[(pid, who) := d.user],
       ledger := Put(v.ledger, who, d.purse.ledger),
       lock := Put(v.lock, who, d.purse.lock),
       free := Put(v.free, who, d.purse.free),
       slack := Put(v.slack, who, d.purse.slack),
       audits := v.audits[pid := audit.(changes := audit.changes + d.changes)])
  }

  function SavePool(v: Store, pid: Pid, pool: PoolInfo): Store {
    v.(pools := v.pools[pid := pool])
  }

  function NewStaker(who: Account): UserStakeInfo {
    UserStakeInfo(who, 0, 0, 0, 0)
  }

  // ---------------------------------------------------------------- the withdraw queue

  /** Sum of the queued shares plus the number of requests. */
  function QueueMeasure(queue: seq<WithdrawInfo>): nat {
    if queue == [] then 0 else 1 + queue[0].shares + QueueMeasure(queue[1..])
  }

  predicate LoopGuard(v: Store, pid: Pid)
    requires pid in v.pools
  {
    Nondust(v.pools[pid].freeStake) && v.pools[pid].withdrawQueue != []
  }

  /** The body of the loop of `try_process_withdraw_queue`. */
  function ServeOne(v: Store, pid: Pid, price: Bits, slash: Slasher): (r: Outcome<Store>)
    requires pid in v.pools && v.pools[pid].withdrawQueue != []
    ensures r.Ok? ==> pid in r.value.pools
  {
    var pool := v.pools[pid];
    var who := pool.withdrawQueue[0].user;
    if (pid, who) !in v.stakers then
      Ok(SavePool(v, pid, pool.(withdrawQueue := pool.withdrawQueue[1..])))
    else
      var d :- ServeFront(Load(v, who, pool, v.stakers[(pid, who)]), price, slash);
      Ok(Save(v, pid, who, d))
  }

  /** Whether a round of the loop changed what the loop depends on. */
  predicate Progress(pool: PoolInfo, pool': PoolInfo): (b: bool)
    ensures !b && pool.withdrawQueue != [] ==> pool'.withdrawQueue != []
  {
    var m, m' := QueueMeasure(pool.withdrawQueue), QueueMeasure(pool'.withdrawQueue);
    m' < m || (m' == m && pool'.freeStake < pool.freeStake)
  }

  /** The round after one without progress: it fails, or the loop never ends. */
  function OnceMore(v: Store, pid: Pid, price: Bits, slash: Slasher): (r: Outcome<Store>)
    requires pid in v.pools && v.pools[pid].withdrawQueue != []
    ensures !r.Ok?
  {
    var _ :- ServeOne(v, pid, price, slash);
    Diverge
  }

  /**
    The loop. Once a round without progress is followed by another one that does not fail, all
    further rounds are like it: see `QueueLaws.VainRoundsRepeat`.
  */
  function ServeQueue(v: Store, pid: Pid, price: Bits, slash: Slasher): (r: Outcome<Store>)
    requires pid in v.pools
    ensures r.Ok? ==> pid in r.value.pools
    decreases QueueMeasure(v.pools[pid].withdrawQueue), v.pools[pid].freeStake
  {
    if !LoopGuard(v, pid) then Ok(v)
    else
      var v' :- ServeOne(v, pid, price, slash);
      if Progress(v.pools[pid], v'.pools[pid]) then ServeQueue(v', pid, price, slash)
      else OnceMore(v', pid, price, slash)
  }

  function ProcessQueue(v: Store, pid: Pid, slash: Slasher): (r: Outcome<Store>)
    requires pid in v.pools
    ensures r.Ok? ==> pid in r.value.pools
  {
    match SharePrice(v.pools[pid])
    case None => Ok(v)
    case Some(price) => ServeQueue(v, pid, price, slash)
  }

  /** The times with a new one; the newest is last. */
  function TimeAdded(t: seq<nat>, now: nat): seq<nat> {
    if t == [] || t[|t| - 1] < now then t + [now] else t
  }

  function PoolListed(queued: map<nat, seq<Pid>>, now: nat, pid: Pid): map<nat, seq<Pid>> {
    if now in queued then
      if pid in queued[now] then queued else queued[now := queued[now] + [pid]]
    else queued[now := [pid]]
  }

  /** `maybe_add_withdraw_queue`: lists a pool under the time of its newest request. */
  function AddToIndex(v: Store, now: nat, pid: Pid): Store {
    v.(timestamps := TimeAdded(v.timestamps, now), queuedPools := PoolListed(v.queuedPools, now, pid))
  }

  // ---------------------------------------------------------------- calls

  function Create(v: Store, owner: Account): Store {
    var pid := v.poolCount;
    v.(pools := v.pools[pid := PoolInfo(pid, owner, None, 0, None, 0, 0, 0, 0, 0, [], [])],
       poolCount := pid + 1)
  }

  function SetCap(v: Store, who: Account, pid: Pid, cap: nat): Outcome<Store> {
    if pid !in v.pools then Err(PoolDoesNotExist)
    else if v.pools[pid].owner != who then Err(UnauthorizedPoolOwner)
    else if v.pools[pid].totalStake > cap then Err(InadequateCapacity)
    else Ok(SavePool(v, pid, v.pools[pid].(cap := Some(cap))))
  }

  function SetPayoutPref(v: Store, who: Account, pid: Pid, rate: nat): Outcome<Store> {
    if pid !in v.pools then Err(PoolDoesNotExist)
    else if v.pools[pid].owner != who then Err(UnauthorizedPoolOwner)
    else Ok(SavePool(v, pid, v.pools[pid].(payoutCommission := Some(rate))))
  }

  /** The staker a contribution goes to, with rewards and slashes settled. */
  function Prepared(v: Store, pid: Pid, who: Account, slash: Slasher): Outcome<Desk>
    requires pid in v.pools
  {
    var pool := v.pools[pid];
    if (pid, who) !in v.stakers then Ok(Load(v, who, pool, NewStaker(who)))
    else
      var user :- SettleReward(pool, v.stakers[(pid, who)]);
      Ok(SettleSlash(Load(v, who, pool, user), slash))
  }

  function CapAllows(pool: PoolInfo, amount: nat): bool {
    pool.cap.None? || (if pool.cap.value >= pool.totalStake then pool.cap.value - pool.totalStake else 0) >= amount
  }

  function Contribute(v: Store, who: Account, pid: Pid, amount: nat, slash: Slasher): Outcome<Store> {
    if amount < MIN_CONTRIBUTION then Err(InsufficientContribution)
    else if Get(v.free, who) < Get(v.ledger, who) then Panic
    else if Get(v.free, who) - Get(v.ledger, who) < amount then Err(InsufficientBalance)
    else if pid !in v.pools then Err(PoolDoesNotExist)
    else if !CapAllows(v.pools[pid], amount) then Err(StakeExceedsCapacity)
    else if !(v.pools[pid].totalShares == 0 || v.pools[pid].totalStake > 0) then Err(PoolBankrupt)
    else
      var d :- Prepared(v, pid, who, slash);
      ProcessQueue(Save(v, pid, who, Deposit(d, amount)), pid, slash)
  }

  function Withdraw(v: Store, who: Account, pid: Pid, shares: nat, now: nat, slash: Slasher): Outcome<Store> {
    if (pid, who) !in v.stakers then Err(PoolStakeNotFound)
    else if CloseToZero(shares) || shares > v.stakers[(pid, who)].shares then Err(InvalidWithdrawalAmount)
    else if pid !in v.pools then Err(PoolDoesNotExist)
    else
      var pool := v.pools[pid];
      var d :- TryWithdraw(Load(v, who, pool, v.stakers[(pid, who)]), shares, now, slash);
      var v1 := Save(v, pid, who, d);
      Ok(if QueuedNow(pool, shares) > 0 then AddToIndex(v1, now, pid) else v1)
  }

  /** The storage after `target` was paid the rewards taken off a pool and its staker. */
  function Paid(v: Store, pid: Pid, who: Account, pool: PoolInfo, user: UserStakeInfo, target: Account,
      rewards: nat): Store
  {
    var key, audit := (pid, who), AuditOf(v, pid);
    v.(pools := v.pools[pid := pool],
       stakers := if key in v.stakers then v.stakers[key := user] else v.stakers,
       free := v.free[target := Get(v.free, target) + rewards],
       audits := v.audits[pid := audit.(paid := audit.paid + rewards)])
  }

  /** Pays the owner's reward and the staker's to `target`, if the subsidy pool has the funds. */
  function ClaimRewards(v: Store, who: Account, pid: Pid, target: Account, funded: bool): Outcome<Store> {
    if pid !in v.pools then Err(PoolDoesNotExist)
    else
      var pool := v.pools[pid];
      var asOwner := if who == pool.owner then pool.ownerReward else 0;
      var pool' := if who == pool.owner then pool.(ownerReward := 0) else pool;
      var key := (pid, who);
      var user :- if key in v.stakers then SettleReward(pool', v.stakers[key]) else Ok(NewStaker(who));
      var rewards := asOwner + user.availableRewards;
      if rewards == 0 then Err(NoRewardToClaim)
      else if !funded then Err(InternalSubsidyPoolCannotWithdraw)
      else Ok(Paid(v, pid, who, pool', user.(availableRewards := 0), target, rewards))
  }

  /** `reconcile_withdraw_queue`: lowers the account's first request that exceeds its shares. */
  function Reconcile(v: Store, pid: Pid, who: Account): Outcome<Store> {
    if pid !in v.pools then Err(PoolDoesNotExist)
    else if (pid, who) !in v.stakers then Err(PoolStakeNotFound)
    else
      var pool := v.pools[pid];
      var available := ExtractDust(v.stakers[(pid, who)].shares).0;
      Ok(SavePool(v, pid, pool.(withdrawQueue := Lowered(pool.withdrawQueue, who, available))))
  }

  function Lowered(queue: seq<WithdrawInfo>, who: Account, available: nat): seq<WithdrawInfo> {
    if queue == [] then []
    else if queue[0].user == who && queue[0].shares > available then
      if available == 0 then queue[1..] else queue[0 := queue[0].(shares := available)]
    else [queue[0]] + Lowered(queue[1..], who, available)
  }

  // ---------------------------------------------------------------- callbacks from mining

  datatype SettleInfo = SettleInfo(pubkey: Worker, v: Bits, payout: Bits, treasury: Bits)

  /** The `Permill` product, a library operation: a part of the rewards it is applied to. */
  type Permill = (nat, nat) -> nat

  function Commission(pool: PoolInfo, rewards: nat, permill: Permill): (c: nat)
    ensures c <= rewards
  {
    match pool.payoutCommission
    case None => 0
    case Some(rate) => Min(permill(rate, rewards), rewards)
  }

  function Credit(v: Store, pid: Pid, rewards: nat, permill: Permill): Store
    requires pid in v.pools
  {
    var audit := AuditOf(v, pid);
    SavePool(v, pid, NewReward(v.pools[pid], rewards, Commission(v.pools[pid], rewards, permill))).(
      audits := v.audits[pid := audit.(received := audit.received + rewards)])
  }

  /** `on_reward`: as written, the first worker without a pool ends the whole round. */
  function OnReward(v: Store, settle: seq<SettleInfo>, permill: Permill): Outcome<Store>
    decreases |settle|
  {
    if settle == [] then Ok(v)
    else if settle[0].pubkey !in v.assignments then Ok(v)
    else if v.assignments[settle[0].pubkey] !in v.pools then Panic
    else
      var v1 := Credit(v, v.assignments[settle[0].pubkey], FromFixed(settle[0].payout), permill);
      OnReward(v1, settle[1..], permill)
  }

  function OnStopped(v: Store, worker: Worker, orig: nat, slashed: nat): Outcome<Store> {
    if worker !in v.assignments || v.assignments[worker] !in v.pools || orig < slashed then Panic
    else
      var pid := v.assignments[worker];
      var pool := v.pools[pid];
      Ok(SavePool(v, pid, pool.(releasingStake := pool.releasingStake + (orig - slashed))))
  }

  function Removed(workers: seq<Worker>, worker: Worker): seq<Worker> {
    if workers == [] then []
    else if workers[0] == worker then Removed(workers[1..], worker)
    else [workers[0]] + Removed(workers[1..], worker)
  }

  function RemoveWorkerFromPool(v: Store, worker: Worker): Outcome<Store> {
    if worker !in v.assignments then Panic
    else
      var pid := v.assignments[worker];
      var v1 := v.(assignments := v.assignments - {worker});
      if pid !in v.pools then Ok(v1)
      else Ok(SavePool(v1, pid, v.pools[pid].(workers := Removed(v.pools[pid].workers, worker))))
  }

  /** The pool after a reclaim, before the queue is served. */
  function Reclaimed(pool: PoolInfo, orig: nat, slashed: nat): PoolInfo
    requires slashed <= orig
  {
    var pool' := if slashed != 0 then Slash(pool, slashed) else pool;
    var returned := orig - slashed;
    pool'.(freeStake := pool.freeStake + returned,
           releasingStake := if pool.releasingStake >= returned then pool.releasingStake - returned else 0)
  }

  function HandleReclaim(v: Store, pid: Pid, orig: nat, slashed: nat, slash: Slasher): Outcome<Store> {
    if pid !in v.pools || orig < slashed then Panic
    else ProcessQueue(SavePool(v, pid, Reclaimed(v.pools[pid], orig, slashed)), pid, slash)
  }

  // ---------------------------------------------------------------- expired requests

  /** The requests in front of the first one the budget cannot pay for are skipped. */
  function ExpiredBeyond(queue: seq<WithdrawInfo>, price: Bits, budget: nat, now: nat, grace: nat): bool {
    if queue == [] then false
    else
      var amount := Mul(queue[0].shares, price);
      if amount > budget then now - queue[0].startTime > grace
      else ExpiredBeyond(queue[1..], price, budget - amount, now, grace)
  }

  function HasExpiredWithdrawal(pool: PoolInfo, now: nat, grace: nat): bool {
    match SharePrice(pool)
    case Some(price) => price != 0 &&
        ExpiredBeyond(pool.withdrawQueue, price, pool.freeStake + pool.releasingStake, now, grace)
    case None => false
  }
}
