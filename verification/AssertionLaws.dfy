/** The debug assertions of the stake pool pallet that do not always hold, and exactly when they do. */
module AssertionLaws {
  import opened Base
  import opened FixedPoint
  import opened Pool
  import opened Vault
  import opened QueueLaws
  import opened Chain
  import opened ChainLaws
  import opened FinalizeLaws
  import opened StepLaws
  import opened RunLaws

  // ---------------------------------------------------------------- no free stake where requests have expired

  /** The assertion of `has_expired_withdrawal` for the pools of one time, checked one after the other. */
  predicate PoolsAsserted(f: Forced, pids: seq<Pid>)
    decreases |pids|
  {
    pids == [] || pids[0] !in f.c.v.pools ||
    (f.c.v.pools[pids[0]].freeStake == 0 && PoolsAsserted(Forcing(f, pids[0]), pids[1..]))
  }

  /** And for all times that `maybe_force_withdraw` takes off the index. */
  predicate Asserted(f: Forced)
    decreases |f.c.v.timestamps|
  {
    var t := f.c.v.timestamps;
    t == [] || f.c.now - t[0] <= GRACE_PERIOD || t[0] !in f.c.v.queuedPools ||
    (&& PoolsAsserted(Forced(Popped(f.c), f.found), f.c.v.queuedPools[t[0]])
     && (Round(f).Ok? ==> Asserted(Round(f).value)))
  }

  lemma DealtFree(f: Forced, g: Forced)
    requires Dealt(f, g)
    ensures forall p :: p in f.c.v.pools ==> p in g.c.v.pools && g.c.v.pools[p].freeStake == f.c.v.pools[p].freeStake
  {
    hide SameRequests, Idle, Checked, CoolingKept;
  }

  lemma {:induction false} PoolsAssertedWhen(f: Forced, pids: seq<Pid>)
    requires Inv(f.c) && forall p :: p in pids ==> p in f.c.v.pools
    ensures PoolsAsserted(f, pids) <==> forall p :: p in pids ==> f.c.v.pools[p].freeStake == 0
    decreases |pids|
  {
    hide Inv, Dealt, Forcing, Checked, ForcePools;
    if pids != [] {
      var g := Forcing(f, pids[0]);
      ForcingKeeps(f, pids[0]);
      DealtFree(f, g);
      PoolsAssertedWhen(g, pids[1..]);
      assert forall p :: p in pids <==> p == pids[0] || p in pids[1..];
    }
  }

  /** No pool that the index lists under an expired time has any stake free. */
  ghost predicate ExpiredPoolsUsed(c: State) {
    forall p :: ListedExpired(c, p) && p in c.v.pools ==> c.v.pools[p].freeStake == 0
  }

  /** The pools listed as expired are those of the oldest time and those listed without it. */
  lemma ExpiredSplit(c: State, c': State)
    requires c.v.timestamps != [] && c.v.timestamps[0] in c.v.queuedPools && c.now - c.v.timestamps[0] > GRACE_PERIOD
    requires c'.now == c.now && c'.v.timestamps == c.v.timestamps[1..]
    requires c'.v.queuedPools == c.v.queuedPools - {c.v.timestamps[0]}
    ensures forall p :: ListedExpired(c, p) <==> p in c.v.queuedPools[c.v.timestamps[0]] || ListedExpired(c', p)
  {
    forall p | ListedExpired(c, p) ensures p in c.v.queuedPools[c.v.timestamps[0]] || ListedExpired(c', p) {
      ListedLater(c, c', p);
    }
  }

  /** Without the oldest time: its own pools, and the rest. */
  lemma UsedSplit(c: State, c': State)
    requires c.v.timestamps != [] && c.v.timestamps[0] in c.v.queuedPools && c.now - c.v.timestamps[0] > GRACE_PERIOD
    requires c'.now == c.now && c'.v.timestamps == c.v.timestamps[1..] && c'.v.pools.Keys == c.v.pools.Keys
    requires c'.v.queuedPools == c.v.queuedPools - {c.v.timestamps[0]}
    requires forall p :: p in c.v.pools ==> c'.v.pools[p].freeStake == c.v.pools[p].freeStake
    requires forall p :: p in c.v.queuedPools[c.v.timestamps[0]] ==> p in c.v.pools
    ensures ExpiredPoolsUsed(c) <==>
      ExpiredPoolsUsed(c') && forall p :: p in c.v.queuedPools[c.v.timestamps[0]] ==> c.v.pools[p].freeStake == 0
  {
    ExpiredSplit(c, c');
    hide ListedExpired;
  }

  lemma {:induction false} AssertedWhen(f: Forced)
    requires Inv(f.c) && f.c.lastFinalized == f.c.now
    ensures Asserted(f) <==> ExpiredPoolsUsed(f.c)
    decreases |f.c.v.timestamps|
  {
    var t := f.c.v.timestamps;
    if t == [] || f.c.now - t[0] <= GRACE_PERIOD {
      NothingExpired(f.c);
      hide Inv, ListedExpired;
    } else {
      hide Inv, Dealt, Round, Checked, PoolsAsserted, ExpiredPoolsUsed, ListedExpired;
      PoppedKeeps(f.c);
      RoundKeeps(f);
      ForceWithdrawStep(f);
      var f1, g := Forced(Popped(f.c), f.found), Round(f).value;
      PoolsAssertedWhen(f1, f.c.v.queuedPools[t[0]]);
      DealtFree(f, g);
      DealtParts(f, g);
      AssertedWhen(g);
      UsedSplit(f.c, g.c);
    }
  }

  /** The assertion holds throughout the end of a block. */
  predicate FinalizeAsserts(c: State) {
    Asserted(Forced(c.(lastFinalized := c.now), {}))
  }

  /**
    Whatever the queues hold: the assertion holds throughout the end of a block if and only if no pool
    listed under an expired time has any stake free, which can be seen before.
  */
  lemma FinalizeAssertsWhen(c: State)
    requires Inv(c)
    ensures FinalizeAsserts(c) <==> ExpiredPoolsUsed(c)
  {
    hide *;
    var c0 := c.(lastFinalized := c.now);
    InvParts(c);
    LaterIndexed(c.v, c.now, c.lastFinalized);
    ClockKeeps(c, c.now, c.now);
    assert c0 == c.(now := c.now, lastFinalized := c.now);
    AssertedWhen(Forced(c0, {}));
    FinalizeAssertsIs(c);
    ExpiredPoolsSame(c, c0);
  }

  lemma FinalizeAssertsIs(c: State)
    ensures FinalizeAsserts(c) == Asserted(Forced(c.(lastFinalized := c.now), {}))
  {
    hide Asserted;
  }

  lemma ExpiredPoolsSame(c: State, c': State)
    requires c'.v == c.v && c'.now == c.now
    ensures ExpiredPoolsUsed(c') <==> ExpiredPoolsUsed(c)
  {
    forall p ensures ListedExpired(c', p) <==> ListedExpired(c, p) {
      ListedExpiredSame(c, c', p);
    }
    hide ListedExpired;
  }

  /** The assertion holds at every block end of the run. */
  predicate AssertedRun(c: State, moves: seq<Move>)
    decreases |moves|
  {
    moves == [] ||
    ((moves[0].action.ActFinalize? ==> FinalizeAsserts(c)) && AssertedRun(After(c, moves[0]), moves[1..]))
  }

  /** Every block of the run ends with nothing free in the pools that are then listed as expired. */
  ghost predicate UsedRun(c: State, moves: seq<Move>)
    decreases |moves|
  {
    moves == [] ||
    ((moves[0].action.ActFinalize? ==> ExpiredPoolsUsed(c)) && UsedRun(After(c, moves[0]), moves[1..]))
  }

  lemma {:induction false} RunAsserts(c: State, moves: seq<Move>)
    requires Inv(c) && AdmissibleRun(c, moves)
    ensures AssertedRun(c, moves) <==> UsedRun(c, moves)
    decreases |moves|
  {
    hide Inv, FinalizeAsserts, ExpiredPoolsUsed, Admissible, After;
    if moves != [] {
      MoveKeeps(c, moves[0]);
      FinalizeAssertsWhen(c);
      RunAsserts(After(c, moves[0]), moves[1..]);
    }
  }

  /** Along a run from the empty chain the assertion holds at every block's end if and only if it is so. */
  lemma EveryRunAsserts(now: nat, moves: seq<Move>)
    requires AdmissibleRun(Genesis(now), moves)
    ensures AssertedRun(Genesis(now), moves) <==> UsedRun(Genesis(now), moves)
  {
    hide *;
    GenesisOk(now);
    RunAsserts(Genesis(now), moves);
  }

  // ---------------------------------------------------------------- no dust served to a queued request

  /** The assertion of a round at stakepool.rs:868, for the requester at the front. */
  predicate RoundAsserted(v: Store, pid: Pid, price: Bits)
    requires pid in v.pools && v.pools[pid].withdrawQueue != []
  {
    var pool := v.pools[pid];
    var wanted := pool.withdrawQueue[0].shares;
    (pid, pool.withdrawQueue[0].user) in v.stakers ==> Nondust(Min(FreeShares(pool, Some(price), wanted), wanted))
  }

  /** It holds in every round that serving the queue comes to. */
  predicate RoundsAsserted(v: Store, pid: Pid, price: Bits, slash: Slasher)
    requires pid in v.pools
    decreases QueueMeasure(v.pools[pid].withdrawQueue), v.pools[pid].freeStake
  {
    !LoopGuard(v, pid) ||
    (&& RoundAsserted(v, pid, price)
     && (var r := ServeOne(v, pid, price, slash);
         r.Ok? && Progress(v.pools[pid], r.value.pools[pid]) ==> RoundsAsserted(r.value, pid, price, slash)))
  }

  lemma CleanAfterRound(v: Store, pid: Pid, price: Bits, slash: Slasher)
    requires pid in v.pools && v.pools[pid].withdrawQueue != [] && ServeOne(v, pid, price, slash).Ok?
    requires forall r :: r in v.pools[pid].withdrawQueue ==> Nondust(r.shares)
    ensures forall r :: r in ServeOne(v, pid, price, slash).value.pools[pid].withdrawQueue ==> Nondust(r.shares)
  {
    hide ServeOne;
    RoundServesFront(v, pid, price, slash);
    var q, q' := v.pools[pid].withdrawQueue, ServeOne(v, pid, price, slash).value.pools[pid].withdrawQueue;
    forall i | 0 <= i < |q'| ensures Nondust(q'[i].shares) {
      assert q[|q| - |q'| + i] in q;
      assert i > 0 ==> q'[i] == q'[1..][i - 1] == q[|q| - |q'| + i];
    }
  }

  /** At the prices up to NONDUST_PRICE it holds in every round, and at no other price whatever is free. */
  lemma {:induction false} RoundsAssertedWhen(v: Store, pid: Pid, price: Bits, slash: Slasher)
    requires pid in v.pools && forall r :: r in v.pools[pid].withdrawQueue ==> Nondust(r.shares)
    requires price <= NONDUST_PRICE
    ensures RoundsAsserted(v, pid, price, slash)
    decreases QueueMeasure(v.pools[pid].withdrawQueue), v.pools[pid].freeStake
  {
    hide ServeOne, Div;
    if LoopGuard(v, pid) {
      PriceServesNondust(price);
      RoundServesNondust(v.pools[pid], price);
      assert v.pools[pid].withdrawQueue[0] in v.pools[pid].withdrawQueue;
      var r := ServeOne(v, pid, price, slash);
      if r.Ok? && Progress(v.pools[pid], r.value.pools[pid]) {
        CleanAfterRound(v, pid, price, slash);
        RoundsAssertedWhen(r.value, pid, price, slash);
      }
    }
  }

  // ---------------------------------------------------------------- no dirty slash

  predicate NearlyEqual(a: nat, b: nat) {
    CloseToZero(if a > b then a - b else b - a)
  }

  /** `assert_slash_clean`: what a staker has locked is nearly what its shares are worth. */
  predicate SlashClean(pool: PoolInfo, user: UserStakeInfo) {
    pool.totalShares == 0 ||
    (SharePrice(pool).Some? && NearlyEqual(Mul(user.shares, SharePrice(pool).value), user.locked))
  }

  /**
    The assertion is made of a staker whose slash has just been settled. It holds if and only if the shares are
    worth dust, or the staker had more than dust locked and the worth is no more than dust above it: not
    when the price has risen since the stake was locked.
  */
  lemma SlashCleanWhen(d: Desk, slash: Slasher)
    requires d.pool.totalShares > 0
    ensures SharePrice(d.pool).Some?
    ensures var worth, locked := Mul(d.user.shares, SharePrice(d.pool).value), d.user.locked;
      SlashClean(d.pool, SettleSlash(d, slash).user) <==>
      CloseToZero(worth) || (Nondust(locked) && worth <= locked + DUST)
  {
    ToFixedPositive(d.pool.totalShares);
    hide Mul;
  }

  /** A staker that is new to the pool is always clean. */
  lemma NewStakerClean(pool: PoolInfo, who: Account)
    ensures SlashClean(pool, NewStaker(who))
  {
    ToFixedPositive(pool.totalShares);
  }
}
