/** The end of a block: forced withdrawals stop the miners of every pool found with an expired request. */
module FinalizeLaws {
  import opened Base
  import opened Pool
  import opened Vault
  import opened VaultLaws
  import opened CallLaws
  import opened Mining
  import opened Chain
  import opened ExpiryLaws
  import opened ChainLaws
  import opened MinerLaws

  /** No worker of the pool has a miner at work. */
  ghost predicate Idle(c: State, pid: Pid) {
    pid in c.v.pools && forall w :: w in c.v.pools[pid].workers ==> !MinerAtWork(c.m, Miner(pid, w))
  }

  predicate MinerAtWork(m: Mines, miner: Miner) {
    miner in m.miners && AtWork(m.miners[miner])
  }

  /** The pool has no expired request that its idle miners leave hope for. */
  ghost predicate Checked(c: State, pid: Pid) {
    pid in c.v.pools && (HasExpiredWithdrawal(c.v.pools[pid], c.now, GRACE_PERIOD) ==> Idle(c, pid))
  }

  /** The same requests, for as many shares as their requesters had, and no more stake free to serve them. */
  ghost predicate SameRequests(v: Store, v': Store) {
    && v'.pools.Keys == v.pools.Keys
    && (forall p :: p in v.pools ==> v'.pools[p].freeStake <= v.pools[p].freeStake)
    && (forall p :: p in v.pools ==> v'.pools[p].withdrawQueue == v.pools[p].withdrawQueue)
    && (forall p, w :: StakerOf(v', p, w).shares == StakerOf(v, p, w).shares)
  }

  /** What is free in every pool stays free. */
  ghost predicate SameFree(v: Store, v': Store) {
    forall p :: p in v.pools && p in v'.pools ==> v'.pools[p].freeStake == v.pools[p].freeStake
  }

  predicate Cooling(m: Mines, miner: Miner) {
    miner in m.miners && m.miners[miner].state.MiningCoolingDown?
  }

  /** Miners cooling down stay as they are, with their stakes. */
  ghost predicate CoolingKept(m: Mines, m': Mines) {
    && (forall mi :: Cooling(m, mi) ==> Cooling(m', mi) && m'.miners[mi] == m.miners[mi])
    && (forall mi :: Cooling(m, mi) ==> Get(m'.stakes, mi) == Get(m.stakes, mi))
  }

  /** Stopping miners of one pool: nobody starts to work, and no other pool hears of it. */
  ghost predicate Quieter(c: State, c': State, pid: Pid) {
    && c'.now == c.now && c'.lastFinalized == c.lastFinalized
    && c'.v.timestamps == c.v.timestamps && c'.v.queuedPools == c.v.queuedPools
    && c'.v.pools.Keys == c.v.pools.Keys
    && (forall p :: p in c.v.pools && p != pid ==> c'.v.pools[p] == c.v.pools[p])
    && (forall p :: p in c.v.pools ==> c'.v.pools[p].workers == c.v.pools[p].workers)
    && (forall mi :: MinerAtWork(c'.m, mi) ==> MinerAtWork(c.m, mi))
    && SameRequests(c.v, c'.v) && SameFree(c.v, c'.v) && CoolingKept(c.m, c'.m)
  }

  lemma QuieterTransitive(c: State, d: State, e: State, pid: Pid)
    requires Quieter(c, d, pid) && Quieter(d, e, pid)
    ensures Quieter(c, e, pid)
  {
  }

  // ---------------------------------------------------------------- stopping a pool

  lemma StoppedQuieter(c: State, miner: Miner)
    requires miner.pid in c.v.pools && miner in c.m.miners && AtWork(c.m.miners[miner]) && c.m.onlineMiners > 0
    ensures Quieter(c, StoppedState(c, miner), miner.pid) && !MinerAtWork(StoppedState(c, miner).m, miner)
  {
    hide Expected;
  }

  lemma WorkingIsBound(m: Mines, pools: set<Pid>, miner: Miner)
    requires MinesOk(m, pools) && MinerAtWork(m, miner)
    ensures miner in m.minerBindings
  {
  }

  lemma AtWorkIs(m: Mines, miner: Miner)
    ensures MinerAtWork(m, miner) <==> miner in m.miners && AtWork(m.miners[miner])
  {
  }

  lemma QuieterReflexive(c: State, pid: Pid)
    ensures Quieter(c, c, pid)
  {
  }

  /** Stopping one miner, or being told that it cannot be stopped, leaves it idle. */
  lemma StopQuiets(c: State, miner: Miner)
    requires Inv(c)
    ensures var r := StopMining(c, miner);
      && r != Panic && r != Diverge
      && var c' := if r.Ok? then r.value else c;
         Inv(c') && Quieter(c, c', miner.pid) && !MinerAtWork(c'.m, miner)
  {
    hide *;
    InvParts(c);
    StopEffects(c, miner);
    AtWorkIs(c.m, miner);
    if StopMining(c, miner).Ok? {
      StopKeeps(c, miner);
      StoppedMinesOk(c.m, c.v.pools.Keys, miner, c.now);
      StoppedQuieter(c, miner);
    } else {
      QuieterReflexive(c, miner.pid);
      if MinerAtWork(c.m, miner) {
        WorkingIsBound(c.m, c.v.pools.Keys, miner);
      }
    }
  }

  lemma {:induction false} StopAllKeeps(c: State, pid: Pid, workers: seq<Worker>)
    requires Inv(c)
    ensures var r := StopAll(c, pid, workers);
      && r.Ok? && Inv(r.value) && Quieter(c, r.value, pid)
      && (forall w :: w in workers ==> !MinerAtWork(r.value.m, Miner(pid, w)))
    decreases |workers|
  {
    hide Inv, StopMining, AtWork;
    if workers != [] {
      StopQuiets(c, Miner(pid, workers[0]));
      var r := StopMining(c, Miner(pid, workers[0]));
      var c1 := if r.Ok? then r.value else c;
      StopAllKeeps(c1, pid, workers[1..]);
      QuieterTransitive(c, c1, StopAll(c, pid, workers).value, pid);
      hide MinerAtWork;
      forall w | w in workers ensures !MinerAtWork(StopAll(c, pid, workers).value.m, Miner(pid, w)) {
        assert w == workers[0] || w in workers[1..];
      }
    }
  }

  lemma IdleStays(c: State, c': State, pid: Pid, p: Pid)
    requires Quieter(c, c', pid) && Idle(c, p)
    ensures Idle(c', p)
  {
    hide MinerAtWork;
  }

  lemma CheckedStays(c: State, c': State, pid: Pid, p: Pid)
    requires Quieter(c, c', pid) && Idle(c', pid) && Checked(c, p)
    ensures Checked(c', p)
  {
    hide MinerAtWork, HasExpiredWithdrawal;
  }

  // ---------------------------------------------------------------- the pools of one time

  /** All that a forced round promises of the pools it has dealt with. */
  ghost predicate Dealt(f: Forced, g: Forced) {
    && g.c.now == f.c.now && g.c.lastFinalized == f.c.lastFinalized
    && g.c.v.pools.Keys == f.c.v.pools.Keys && f.found <= g.found
    && (forall p :: p in f.found && Idle(f.c, p) ==> Idle(g.c, p))
    && (forall p :: p in g.found && p !in f.found ==> Idle(g.c, p))
    && (forall p :: Checked(f.c, p) ==> Checked(g.c, p))
    && SameRequests(f.c.v, g.c.v) && SameFree(f.c.v, g.c.v) && CoolingKept(f.c.m, g.c.m)
  }

  lemma DealtTransitive(f: Forced, g: Forced, h: Forced)
    requires Dealt(f, g) && Dealt(g, h)
    ensures Dealt(f, h)
  {
    hide Idle, Checked;
  }

  /** One pool of the list: its miners are stopped if it has an expired request. */
  function Forcing(f: Forced, pid: Pid): Forced
    requires pid in f.c.v.pools
  {
    if HasExpiredWithdrawal(f.c.v.pools[pid], f.c.now, GRACE_PERIOD) then
      var r := StopAll(f.c, pid, f.c.v.pools[pid].workers);
      Forced(if r.Ok? then r.value else f.c, f.found + {pid})
    else f
  }

  lemma ForcingKeeps(f: Forced, pid: Pid)
    requires Inv(f.c) && pid in f.c.v.pools
    ensures var g := Forcing(f, pid);
      && Inv(g.c) && Dealt(f, g) && Checked(g.c, pid)
      && g.c.v.timestamps == f.c.v.timestamps && g.c.v.queuedPools == f.c.v.queuedPools
      && ForcePools(f, [pid]) == Ok(g)
  {
    hide Inv, HasExpiredWithdrawal, StopMining, MinerAtWork;
    assert [pid][1..] == [];
    if HasExpiredWithdrawal(f.c.v.pools[pid], f.c.now, GRACE_PERIOD) {
      StopAllKeeps(f.c, pid, f.c.v.pools[pid].workers);
      var g := Forcing(f, pid);
      assert Idle(g.c, pid);
      hide Idle, Checked;
      forall p | p in f.found && Idle(f.c, p) ensures Idle(g.c, p) {
        IdleStays(f.c, g.c, pid, p);
      }
      forall p | Checked(f.c, p) ensures Checked(g.c, p) {
        CheckedStays(f.c, g.c, pid, p);
      }
      IdleIsChecked(g.c, pid);
    }
  }

  lemma IdleIsChecked(c: State, pid: Pid)
    requires Idle(c, pid)
    ensures Checked(c, pid)
  {
  }

  lemma ForcePoolsStep(f: Forced, pids: seq<Pid>)
    requires pids != [] && pids[0] in f.c.v.pools && ForcePools(f, [pids[0]]) == Ok(Forcing(f, pids[0]))
    ensures ForcePools(f, pids) == ForcePools(Forcing(f, pids[0]), pids[1..])
  {
    hide StopAll, HasExpiredWithdrawal;
    assert [pids[0]][1..] == [];
  }

  lemma {:induction false} ForcePoolsKeeps(f: Forced, pids: seq<Pid>)
    requires Inv(f.c) && forall p :: p in pids ==> p in f.c.v.pools
    ensures var r := ForcePools(f, pids);
      && r.Ok? && Inv(r.value.c) && Dealt(f, r.value)
      && (forall p :: p in pids ==> Checked(r.value.c, p))
      && r.value.c.v.timestamps == f.c.v.timestamps && r.value.c.v.queuedPools == f.c.v.queuedPools
    decreases |pids|
  {
    if pids == [] {
      hide Inv, Idle, Checked;
    } else {
      hide Inv, Idle, Checked, Forcing, ForcePools, Dealt;
      var g := Forcing(f, pids[0]);
      ForcingKeeps(f, pids[0]);
      ForcePoolsStep(f, pids);
      DealtParts(f, g);
      ForcePoolsKeeps(g, pids[1..]);
      var h := ForcePools(f, pids).value;
      DealtTransitive(f, g, h);
      DealtChecked(g, h, pids[0]);
      forall p | p in pids ensures Checked(h.c, p) {
        assert p == pids[0] || p in pids[1..];
      }
    }
  }

  lemma DealtParts(f: Forced, g: Forced)
    requires Dealt(f, g)
    ensures g.c.v.pools.Keys == f.c.v.pools.Keys && g.c.now == f.c.now && g.c.lastFinalized == f.c.lastFinalized
  {
  }

  lemma DealtChecked(f: Forced, g: Forced, pid: Pid)
    requires Dealt(f, g) && Checked(f.c, pid)
    ensures Checked(g.c, pid)
  {
    hide Idle, Checked;
  }

  // ---------------------------------------------------------------- the expired times

  /** The index without its oldest time. */
  function Popped(c: State): State
    requires c.v.timestamps != []
  {
    c.(v := c.v.(queuedPools := c.v.queuedPools - {c.v.timestamps[0]}, timestamps := c.v.timestamps[1..]))
  }

  lemma PoppedIndexed(c: State)
    requires c.v.timestamps != [] && c.now - c.v.timestamps[0] > GRACE_PERIOD
    requires Indexed(c.v, c.now, c.now)
    ensures Indexed(Popped(c).v, c.now, c.now)
    ensures c.v.timestamps[0] in c.v.queuedPools
    ensures forall p :: p in c.v.queuedPools[c.v.timestamps[0]] ==> p in c.v.pools
  {
    var t := c.v.timestamps;
    var v' := Popped(c).v;
    assert forall i :: 1 <= i < |t| ==> t[i] == t[1..][i - 1];
    assert forall x :: x in t <==> x == t[0] || x in t[1..];
    assert t[0] !in t[1..];
    hide QueueOk;
    forall p, r | p in v'.pools && r in v'.pools[p].withdrawQueue ensures Listed(v', p, r.startTime, c.now) {
      assert Listed(c.v, p, r.startTime, c.now);
    }
  }

  lemma PoppedSkeleton(c: State)
    requires c.v.timestamps != []
    ensures Popped(c) == c.(v := Popped(c).v) && SameSkeleton(c.v, Popped(c).v)
    ensures Popped(c).v == c.v.(timestamps := Popped(c).v.timestamps, queuedPools := Popped(c).v.queuedPools,
                                assignments := Popped(c).v.assignments)
  {
  }

  lemma PoppedKeeps(c: State)
    requires Inv(c) && c.lastFinalized == c.now
    requires c.v.timestamps != [] && c.now - c.v.timestamps[0] > GRACE_PERIOD
    ensures Inv(Popped(c))
    ensures c.v.timestamps[0] in c.v.queuedPools
    ensures forall p :: p in c.v.queuedPools[c.v.timestamps[0]] ==> p in c.v.pools
  {
    hide *;
    InvParts(c);
    PoppedIndexed(c);
    PoppedSkeleton(c);
    IndexKeepsSound(c.v, Popped(c).v, StakedMap(c));
    VaultStepKeeps(c, Popped(c).v);
  }

  lemma PoppedDealt(f: Forced)
    requires f.c.v.timestamps != []
    ensures Dealt(f, Forced(Popped(f.c), f.found))
  {
    assert forall p :: Idle(Popped(f.c), p) <==> Idle(f.c, p);
    hide Idle, HasExpiredWithdrawal;
  }

  /** The pools the index lists under times past the grace period. */
  ghost predicate ListedExpired(c: State, pid: Pid) {
    exists t :: t in c.v.timestamps && t in c.v.queuedPools && c.now - t > GRACE_PERIOD && pid in c.v.queuedPools[t]
  }

  ghost predicate NoneExpired(c: State) {
    forall t :: t in c.v.timestamps ==> c.now - t <= GRACE_PERIOD
  }

  /** The round for the oldest time. */
  function Round(f: Forced): Outcome<Forced>
    requires f.c.v.timestamps != [] && f.c.v.timestamps[0] in f.c.v.queuedPools
  {
    ForcePools(Forced(Popped(f.c), f.found), f.c.v.queuedPools[f.c.v.timestamps[0]])
  }

  lemma ForceWithdrawStep(f: Forced)
    requires f.c.v.timestamps != [] && f.c.v.timestamps[0] in f.c.v.queuedPools
    requires f.c.now - f.c.v.timestamps[0] > GRACE_PERIOD && Round(f).Ok?
    ensures |Round(f).value.c.v.timestamps| < |f.c.v.timestamps|
    ensures ForceWithdraw(f) == ForceWithdraw(Round(f).value)
  {
    hide ForcePools;
  }

  lemma RoundKeeps(f: Forced)
    requires Inv(f.c) && f.c.lastFinalized == f.c.now
    requires f.c.v.timestamps != [] && f.c.now - f.c.v.timestamps[0] > GRACE_PERIOD
    ensures var t := f.c.v.timestamps;
      && t[0] in f.c.v.queuedPools && Round(f).Ok?
      && var g := Round(f).value;
         && Inv(g.c) && Dealt(f, g) && g.c.lastFinalized == g.c.now == f.c.now
         && (forall p :: p in f.c.v.queuedPools[t[0]] ==> Checked(g.c, p))
         && g.c.v.timestamps == t[1..] && g.c.v.queuedPools == f.c.v.queuedPools - {t[0]}
  {
    hide Inv, ForcePools, Dealt, Checked;
    PoppedKeeps(f.c);
    PoppedDealt(f);
    var f1 := Forced(Popped(f.c), f.found);
    ForcePoolsKeeps(f1, f.c.v.queuedPools[f.c.v.timestamps[0]]);
    DealtTransitive(f, f1, Round(f).value);
    DealtParts(f, Round(f).value);
  }

  /** The loop over the index never fails an `expect` and deals with every pool listed as expired. */
  lemma {:induction false} ForceWithdrawKeeps(f: Forced)
    requires Inv(f.c) && f.c.lastFinalized == f.c.now
    ensures var r := ForceWithdraw(f);
      && r.Ok? && Inv(r.value.c) && Dealt(f, r.value) && NoneExpired(r.value.c)
      && (forall p :: ListedExpired(f.c, p) ==> Checked(r.value.c, p))
    decreases |f.c.v.timestamps|
  {
    var t := f.c.v.timestamps;
    if t == [] || f.c.now - t[0] <= GRACE_PERIOD {
      NothingExpired(f.c);
      hide Inv, Idle, Checked;
    } else {
      hide Inv, Idle, Checked, ForceWithdraw, Dealt, Round, ListedExpired, NoneExpired;
      RoundKeeps(f);
      var g := Round(f).value;
      ForceWithdrawStep(f);
      ForceWithdrawKeeps(g);
      var h := ForceWithdraw(f).value;
      DealtTransitive(f, g, h);
      forall p | ListedExpired(f.c, p) ensures Checked(h.c, p) {
        ListedLater(f.c, g.c, p);
        if p in f.c.v.queuedPools[t[0]] {
          DealtChecked(g, h, p);
        }
      }
    }
  }

  lemma ListedLater(c: State, c': State, pid: Pid)
    requires ListedExpired(c, pid) && c.v.timestamps != [] && c.v.timestamps[0] in c.v.queuedPools
    requires c'.now == c.now && c'.v.timestamps == c.v.timestamps[1..]
    requires c'.v.queuedPools == c.v.queuedPools - {c.v.timestamps[0]}
    ensures pid in c.v.queuedPools[c.v.timestamps[0]] || ListedExpired(c', pid)
  {
    var t :| t in c.v.timestamps && t in c.v.queuedPools && c.now - t > GRACE_PERIOD && pid in c.v.queuedPools[t];
    assert t == c.v.timestamps[0] || t in c.v.timestamps[1..];
  }

  lemma NothingExpired(c: State)
    requires Inv(c) && (c.v.timestamps == [] || c.now - c.v.timestamps[0] <= GRACE_PERIOD)
    ensures NoneExpired(c) && forall p :: !ListedExpired(c, p)
  {
    InvParts(c);
    hide Inv, Sound, StakedMap, BindingsOk, MinesOk, ReleasingOk, BoundBothWays, AssignedAsBound, ListedAsAssigned;
    assert Increasing(c.v.timestamps);
  }

  // ---------------------------------------------------------------- the block's end

  lemma LaterIndexed(v: Store, now: nat, last: nat)
    requires Indexed(v, now, last)
    ensures Indexed(v, now, now)
  {
    hide IndexOk, TimesOk;
    forall p, r | p in v.pools && r in v.pools[p].withdrawQueue ensures Listed(v, p, r.startTime, now) {
      assert Listed(v, p, r.startTime, last);
    }
  }

  lemma ClockKeeps(c: State, now: nat, last: nat)
    requires Inv(c) && Indexed(c.v, now, last)
    ensures Inv(c.(now := now, lastFinalized := last))
  {
    hide *;
    var c' := c.(now := now, lastFinalized := last);
    InvParts(c);
    BindingsFrame(c, c');
    StakedMapSame(c, c');
    InvUnfolds(c');
  }

  /** The pools found expired while a block was finalized. */
  function FoundExpired(c: State): set<Pid> {
    var f := ForceWithdraw(Forced(c.(lastFinalized := c.now), {}));
    if f.Ok? then f.value.found else {}
  }

  /**
    Finalizing a block never panics. Afterwards no time past the grace period is listed, no
    pool found expired has a miner of a listed worker at work, and a pool that was listed and
    still has an expired request has no such miner either.
  */
  lemma FinalizeKeeps(c: State)
    requires Inv(c)
    ensures var r := Finalize(c);
      && r.Ok? && Inv(r.value) && NoneExpired(r.value)
      && (forall p :: p in FoundExpired(c) ==> Idle(r.value, p))
      && (forall p :: ListedExpired(c, p) ==> Checked(r.value, p))
      && SameRequests(c.v, r.value.v) && CoolingKept(c.m, r.value.m)
  {
    hide *;
    var c0 := c.(lastFinalized := c.now);
    InvParts(c);
    LaterIndexed(c.v, c.now, c.lastFinalized);
    ClockKeeps(c, c.now, c.now);
    assert c0 == c.(now := c.now, lastFinalized := c.now);
    ForceWithdrawKeeps(Forced(c0, {}));
    FinalizeIs(c);
    DealtFound(Forced(c0, {}), ForceWithdraw(Forced(c0, {})).value);
    forall p | ListedExpired(c, p) ensures ListedExpired(c0, p) {
      ListedExpiredSame(c, c0, p);
    }
  }

  lemma ListedExpiredSame(c: State, c': State, pid: Pid)
    requires c'.v == c.v && c'.now == c.now
    ensures ListedExpired(c', pid) <==> ListedExpired(c, pid)
  {
  }

  lemma DealtFound(f: Forced, g: Forced)
    requires Dealt(f, g) && f.found == {}
    ensures forall p :: p in g.found ==> Idle(g.c, p)
    ensures SameRequests(f.c.v, g.c.v) && CoolingKept(f.c.m, g.c.m)
  {
    hide Idle, Checked, SameRequests, CoolingKept;
  }

  lemma FinalizeIs(c: State)
    requires ForceWithdraw(Forced(c.(lastFinalized := c.now), {})).Ok?
    ensures var f := ForceWithdraw(Forced(c.(lastFinalized := c.now), {})).value;
      Finalize(c) == Ok(f.c) && FoundExpired(c) == f.found
  {
    hide ForceWithdraw;
  }
}
