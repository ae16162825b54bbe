/** What the end of a block does: exactly the miners of the pools with an overdue request stop. */
module BlockEffects {
  import opened Base
  import opened Pool
  import opened Vault
  import opened Mining
  import opened Chain
  import opened ChainLaws
  import opened MinerLaws
  import opened MinerEffects
  import opened FinalizeLaws
  import opened AssertionLaws

  // ---------------------------------------------------------------- stopping workers

  /** A record of a miner that was stopped now. */
  function Cooled(info: MinerInfo, now: nat): MinerInfo {
    info.(state := MiningCoolingDown, coolDownStart := now)
  }

  /** Of all storage only the records of miners and what pools expect of them change, and the index. */
  ghost predicate OnlyStops(c: State, d: State) {
    && d == c.(m := c.m.(miners := d.m.miners, onlineMiners := d.m.onlineMiners),
               v := c.v.(pools := d.v.pools, timestamps := d.v.timestamps, queuedPools := d.v.queuedPools))
    && d.m.miners.Keys == c.m.miners.Keys && d.v.pools.Keys == c.v.pools.Keys
    && (forall p :: p in c.v.pools ==> d.v.pools[p] == c.v.pools[p].(releasingStake := d.v.pools[p].releasingStake))
  }

  /** Exactly the miners at work of one pool's workers stop. */
  ghost predicate Stops(c: State, d: State, pid: Pid, workers: seq<Worker>) {
    && OnlyStops(c, d) && d.v.timestamps == c.v.timestamps && d.v.queuedPools == c.v.queuedPools
    && (forall p :: p in c.v.pools && p != pid ==> d.v.pools[p] == c.v.pools[p])
    && (forall mi :: mi in c.m.miners ==>
          d.m.miners[mi] == if mi.pid == pid && mi.worker in workers && AtWork(c.m.miners[mi])
                            then Cooled(c.m.miners[mi], c.now) else c.m.miners[mi])
  }

  lemma OneStops(c: State, pid: Pid, w: Worker)
    requires Inv(c)
    ensures var r := StopMining(c, Miner(pid, w));
      && r != Panic && r != Diverge
      && var d := if r.Ok? then r.value else c; Inv(d) && Stops(c, d, pid, [w])
  {
    hide *;
    var miner := Miner(pid, w);
    StopQuiets(c, miner);
    InvBindings(c);
    StopEffects(c, miner);
    if StopMining(c, miner).Ok? {
      StopCoolsDown(c, miner);
      OneStopped(c, miner, StopMining(c, miner).value);
    } else {
      if MinerAtWork(c.m, miner) {
        WorkingIsBound(c.m, c.v.pools.Keys, miner);
      }
      AtWorkIs(c.m, miner);
      NoneStopped(c, pid, [w]);
    }
  }

  lemma OneStopped(c: State, miner: Miner, d: State)
    requires miner in c.m.miners && miner in c.m.stakes && c.m.miners[miner].ve > 0 && miner.pid in c.v.pools
    requires AtWork(c.m.miners[miner]) && c.m.onlineMiners > 0
    requires var info, pool := c.m.miners[miner], c.v.pools[miner.pid];
      d == c.(m := c.m.(miners := c.m.miners[miner := info.(state := MiningCoolingDown, coolDownStart := c.now)],
                        onlineMiners := c.m.onlineMiners - 1),
              v := c.v.(pools := c.v.pools[miner.pid := pool.(
                          releasingStake := pool.releasingStake + Returned(info, c.m.stakes[miner]))]))
    ensures Stops(c, d, miner.pid, [miner.worker])
  {
    hide Returned, AtWork;
  }

  lemma NoneStopped(c: State, pid: Pid, workers: seq<Worker>)
    requires forall w :: w in workers && Miner(pid, w) in c.m.miners ==> !AtWork(c.m.miners[Miner(pid, w)])
    ensures Stops(c, c, pid, workers)
  {
    hide AtWork;
    forall mi | mi in c.m.miners && mi.pid == pid && mi.worker in workers ensures !AtWork(c.m.miners[mi]) {
      assert mi == Miner(pid, mi.worker);
    }
  }

  lemma StopsMore(c: State, d: State, e: State, pid: Pid, workers: seq<Worker>)
    requires workers != [] && Stops(c, d, pid, [workers[0]]) && Stops(d, e, pid, workers[1..])
    ensures Stops(c, e, pid, workers)
  {
    assert forall w :: w in workers <==> w == workers[0] || w in workers[1..];
    forall mi | mi in c.m.miners
      ensures e.m.miners[mi] == if mi.pid == pid && mi.worker in workers && AtWork(c.m.miners[mi])
                                then Cooled(c.m.miners[mi], c.now) else c.m.miners[mi]
    {
    }
  }

  lemma {:induction false} AllStop(c: State, pid: Pid, workers: seq<Worker>)
    requires Inv(c)
    ensures var r := StopAll(c, pid, workers); r.Ok? && Inv(r.value) && Stops(c, r.value, pid, workers)
    decreases |workers|
  {
    if workers == [] {
      hide Inv, AtWork;
    } else {
      hide Inv, StopMining, Stops;
      OneStops(c, pid, workers[0]);
      var r := StopMining(c, Miner(pid, workers[0]));
      var d := if r.Ok? then r.value else c;
      AllStop(d, pid, workers[1..]);
      StopsMore(c, d, StopAll(c, pid, workers).value, pid, workers);
    }
  }

  // ---------------------------------------------------------------- the pools that were looked at

  /** A request of the pool is past the grace period and cannot be paid. */
  predicate Overdue(c: State, pid: Pid) {
    pid in c.v.pools && HasExpiredWithdrawal(c.v.pools[pid], c.now, GRACE_PERIOD)
  }

  /** Exactly the miners at work of those pools that were looked at and are overdue have stopped. */
  ghost predicate Swept(c: State, d: State, done: set<Pid>) {
    && OnlyStops(c, d)
    && (forall p :: p in c.v.pools && !(p in done && Overdue(c, p)) ==> d.v.pools[p] == c.v.pools[p])
    && (forall mi :: mi in c.m.miners ==>
          d.m.miners[mi] == if mi.pid in done && Overdue(c, mi.pid) && AtWork(c.m.miners[mi])
                            then Cooled(c.m.miners[mi], c.now) else c.m.miners[mi])
  }

  lemma SweepsNext(c: State, d: State, e: State, done: set<Pid>, pid: Pid)
    requires Swept(c, d, done) && pid in c.v.pools && pid !in done && Overdue(c, pid)
    requires Stops(d, e, pid, d.v.pools[pid].workers)
    requires forall mi :: mi in d.m.miners && mi.pid == pid && AtWork(d.m.miners[mi]) ==>
      mi.worker in d.v.pools[pid].workers
    ensures Swept(c, e, done + {pid})
  {
    hide HasExpiredWithdrawal;
  }

  lemma SweepsNothing(c: State, d: State, e: State, done: set<Pid>, pid: Pid)
    requires Swept(c, d, done) && pid in c.v.pools && (pid in done || !Overdue(c, pid)) && e == d
    ensures Swept(c, e, done + {pid})
  {
    hide HasExpiredWithdrawal, AtWork;
  }

  lemma IdleIsNotStopped(c: State, miner: Miner)
    requires Inv(c) && (miner in c.m.miners ==> !AtWork(c.m.miners[miner]))
    ensures StopMining(c, miner).Err?
  {
    hide *;
    InvBindings(c);
    StopEffects(c, miner);
  }

  lemma {:induction false} NoneToStop(c: State, pid: Pid, workers: seq<Worker>)
    requires Inv(c)
    requires forall w :: w in workers && Miner(pid, w) in c.m.miners ==> !AtWork(c.m.miners[Miner(pid, w)])
    ensures StopAll(c, pid, workers) == Ok(c)
    decreases |workers|
  {
    if workers != [] {
      hide Inv, StopMining, AtWork;
      assert workers[0] in workers;
      IdleIsNotStopped(c, Miner(pid, workers[0]));
      NoneToStop(c, pid, workers[1..]);
    }
  }

  lemma WorkingIsListed(c: State, pid: Pid)
    requires Inv(c) && pid in c.v.pools
    ensures forall mi :: mi in c.m.miners && mi.pid == pid && AtWork(c.m.miners[mi]) ==>
      mi.worker in c.v.pools[pid].workers
  {
    hide *;
    InvBindings(c);
    forall mi | mi in c.m.miners && mi.pid == pid && AtWork(c.m.miners[mi])
      ensures mi.worker in c.v.pools[pid].workers
    {
      AtWorkIs(c.m, mi);
      WorkingIsBound(c.m, c.v.pools.Keys, mi);
      BoundMiner(c, mi);
    }
  }

  lemma SweptNotAtWork(c: State, d: State, done: set<Pid>, pid: Pid)
    requires Swept(c, d, done) && pid in done && Overdue(c, pid)
    ensures forall mi :: mi in d.m.miners && mi.pid == pid ==> !AtWork(d.m.miners[mi])
  {
    hide HasExpiredWithdrawal;
  }

  lemma SweptPool(c: State, d: State, done: set<Pid>, pid: Pid)
    requires Swept(c, d, done) && pid in c.v.pools && !(pid in done && Overdue(c, pid))
    ensures pid in d.v.pools && d.v.pools[pid] == c.v.pools[pid] && d.now == c.now
    ensures Overdue(d, pid) <==> Overdue(c, pid)
  {
    hide HasExpiredWithdrawal, AtWork;
  }

  /** One more pool is looked at. */
  lemma ForcingSweeps(c: State, f: Forced, done: set<Pid>, pid: Pid)
    requires Swept(c, f.c, done) && Inv(f.c) && pid in c.v.pools && pid in f.c.v.pools
    ensures Swept(c, Forcing(f, pid).c, done + {pid}) && Inv(Forcing(f, pid).c)
    ensures Forcing(f, pid).c.v.timestamps == f.c.v.timestamps && Forcing(f, pid).c.v.queuedPools == f.c.v.queuedPools
  {
    hide *;
    var d, workers := f.c, f.c.v.pools[pid].workers;
    ForcingKeeps(f, pid);
    ForcingIs(f, pid);
    AllStop(d, pid, workers);
    if pid in done && Overdue(c, pid) {
      SweptNotAtWork(c, d, done, pid);
      NoneToStop(d, pid, workers);
      SweepsNothing(c, d, d, done, pid);
    } else {
      SweptPool(c, d, done, pid);
      if Overdue(c, pid) {
        WorkingIsListed(d, pid);
        SweepsNext(c, d, StopAll(d, pid, workers).value, done, pid);
      } else {
        SweepsNothing(c, d, d, done, pid);
      }
    }
  }

  lemma ForcingIs(f: Forced, pid: Pid)
    requires pid in f.c.v.pools
    ensures var r := StopAll(f.c, pid, f.c.v.pools[pid].workers);
      Forcing(f, pid).c == if Overdue(f.c, pid) && r.Ok? then r.value else f.c
  {
    hide StopAll, HasExpiredWithdrawal;
  }

  function Pids(pids: seq<Pid>): set<Pid> {
    set p | p in pids
  }

  lemma NoPids(done: set<Pid>)
    ensures done + Pids([]) == done
  {
  }

  lemma FirstPid(pids: seq<Pid>, done: set<Pid>)
    requires pids != []
    ensures (done + {pids[0]}) + Pids(pids[1..]) == done + Pids(pids) && pids[0] in pids
    ensures forall p :: p in pids[1..] ==> p in pids
  {
  }

  lemma {:induction false} ForcePoolsSweeps(c: State, f: Forced, done: set<Pid>, pids: seq<Pid>)
    requires Swept(c, f.c, done) && Inv(f.c) && (forall p :: p in pids ==> p in c.v.pools)
    ensures var r := ForcePools(f, pids);
      && r.Ok? && Inv(r.value.c) && Swept(c, r.value.c, done + Pids(pids))
      && r.value.c.v.timestamps == f.c.v.timestamps && r.value.c.v.queuedPools == f.c.v.queuedPools
    decreases |pids|
  {
    if pids == [] {
      NoPids(done);
      hide Inv, Swept, Pids;
    } else {
      hide *;
      SweptKeys(c, f.c, done);
      FirstPid(pids, done);
      ForcingKeeps(f, pids[0]);
      ForcePoolsStep(f, pids);
      ForcingSweeps(c, f, done, pids[0]);
      ForcePoolsSweeps(c, Forcing(f, pids[0]), done + {pids[0]}, pids[1..]);
    }
  }

  lemma SweptKeys(c: State, d: State, done: set<Pid>)
    requires Swept(c, d, done)
    ensures d.v.pools.Keys == c.v.pools.Keys && d.now == c.now && d.lastFinalized == c.lastFinalized
  {
    hide Overdue, AtWork;
  }

  // ---------------------------------------------------------------- the expired times

  /** Whether `t` is past the grace period. */
  predicate Past(c: State, t: nat) { c.now - t > GRACE_PERIOD }

  /** Some times at the front are gone, all of them past the grace period, and none that is stays. */
  ghost predicate TimesUnlisted(c: State, t: seq<nat>, t': seq<nat>) {
    && (exists k :: 0 <= k <= |t| && t' == t[k..] && forall i :: 0 <= i < k ==> Past(c, t[i]))
    && (forall x :: x in t' ==> !Past(c, x))
  }

  /** The times past the grace period are taken off the index, with the pools listed under them; the others stay. */
  ghost predicate Unlisted(c: State, d: State) {
    && TimesUnlisted(c, c.v.timestamps, d.v.timestamps)
    && (forall t :: t in d.v.queuedPools <==> t in c.v.queuedPools && !(t in c.v.timestamps && Past(c, t)))
    && (forall t :: t in d.v.queuedPools ==> d.v.queuedPools[t] == c.v.queuedPools[t])
  }

  lemma NothingUnlisted(c: State)
    requires NoneExpired(c)
    ensures Unlisted(c, c)
  {
    assert c.v.timestamps[0..] == c.v.timestamps;
  }

  lemma TimesUnlistedMore(c: State, t: seq<nat>, t': seq<nat>)
    requires t != [] && Past(c, t[0]) && TimesUnlisted(c, t[1..], t')
    ensures TimesUnlisted(c, t, t')
  {
    hide Past;
    var k :| 0 <= k <= |t[1..]| && t' == t[1..][k..] && forall i :: 0 <= i < k ==> Past(c, t[1..][i]);
    assert t' == t[k + 1..];
    forall i | 0 <= i < k + 1 ensures Past(c, t[i]) {
      assert i > 0 ==> t[i] == t[1..][i - 1];
    }
  }

  lemma SameClock(c: State, g: State, t: seq<nat>, t': seq<nat>)
    requires g.now == c.now && TimesUnlisted(g, t, t')
    ensures TimesUnlisted(c, t, t')
  {
    var k :| 0 <= k <= |t| && t' == t[k..] && forall i :: 0 <= i < k ==> Past(g, t[i]);
    assert forall i :: 0 <= i < k ==> Past(c, t[i]);
  }

  lemma UnlistedMore(c: State, g: State, d: State)
    requires c.v.timestamps != [] && Past(c, c.v.timestamps[0]) && c.v.timestamps[0] in c.v.queuedPools
    requires g.now == c.now && g.v.timestamps == c.v.timestamps[1..]
    requires g.v.queuedPools == c.v.queuedPools - {c.v.timestamps[0]} && Unlisted(g, d)
    ensures Unlisted(c, d)
  {
    hide TimesUnlisted;
    SameClock(c, g, g.v.timestamps, d.v.timestamps);
    TimesUnlistedMore(c, c.v.timestamps, d.v.timestamps);
    assert forall t :: t in c.v.timestamps <==> t == c.v.timestamps[0] || t in c.v.timestamps[1..];
  }

  /** The pools listed under times past the grace period. */
  ghost function ListedPids(c: State): set<Pid> {
    set p | p in c.v.pools && ListedExpired(c, p)
  }

  lemma ListedSplit(c: State, g: State)
    requires c.v.timestamps != [] && c.v.timestamps[0] in c.v.queuedPools && c.now - c.v.timestamps[0] > GRACE_PERIOD
    requires g.now == c.now && g.v.timestamps == c.v.timestamps[1..] && g.v.pools.Keys == c.v.pools.Keys
    requires g.v.queuedPools == c.v.queuedPools - {c.v.timestamps[0]}
    requires forall p :: p in c.v.queuedPools[c.v.timestamps[0]] ==> p in c.v.pools
    ensures ListedPids(c) == Pids(c.v.queuedPools[c.v.timestamps[0]]) + ListedPids(g)
  {
    ExpiredSplit(c, g);
    hide ListedExpired;
  }

  lemma PoppedSweeps(c: State, f: Forced, done: set<Pid>)
    requires Swept(c, f.c, done) && f.c.v.timestamps != []
    ensures Swept(c, Popped(f.c), done)
  {
    hide Overdue, AtWork;
  }

  /** The loop over the expired times looks at every pool listed under one of them, and unlists them. */
  lemma {:induction false} ForceWithdrawSweeps(c: State, f: Forced, done: set<Pid>)
    requires Swept(c, f.c, done) && Inv(f.c) && f.c.lastFinalized == f.c.now
    ensures var r := ForceWithdraw(f);
      r.Ok? && Inv(r.value.c) && Swept(c, r.value.c, done + ListedPids(f.c)) && Unlisted(f.c, r.value.c)
    decreases |f.c.v.timestamps|
  {
    var t := f.c.v.timestamps;
    if t == [] || f.c.now - t[0] <= GRACE_PERIOD {
      NothingExpired(f.c);
      NothingUnlisted(f.c);
      assert done + ListedPids(f.c) == done;
      hide Inv, Swept, Unlisted, ListedExpired;
    } else {
      hide *;
      RoundSweeps(c, f, done);
      var g := Round(f).value;
      ForceWithdrawStep(f);
      ForceWithdrawSweeps(c, g, done + Pids(f.c.v.queuedPools[t[0]]));
      SetsAdd(done, Pids(f.c.v.queuedPools[t[0]]), ListedPids(g.c));
      PastIs(f.c, t[0]);
      UnlistedMore(f.c, g.c, ForceWithdraw(f).value.c);
    }
  }

  lemma PastIs(c: State, t: nat)
    ensures Past(c, t) <==> c.now - t > GRACE_PERIOD
  {
  }

  lemma SetsAdd(a: set<Pid>, b: set<Pid>, c: set<Pid>)
    ensures a + b + c == a + (b + c)
  {
  }

  lemma RoundSweeps(c: State, f: Forced, done: set<Pid>)
    requires Swept(c, f.c, done) && Inv(f.c) && f.c.lastFinalized == f.c.now
    requires f.c.v.timestamps != [] && f.c.now - f.c.v.timestamps[0] > GRACE_PERIOD
    ensures var t := f.c.v.timestamps;
      && t[0] in f.c.v.queuedPools && Round(f).Ok?
      && var g := Round(f).value;
         && Inv(g.c) && g.c.lastFinalized == g.c.now == f.c.now && g.c.v.timestamps == t[1..]
         && g.c.v.queuedPools == f.c.v.queuedPools - {t[0]}
         && Swept(c, g.c, done + Pids(f.c.v.queuedPools[t[0]]))
         && ListedPids(f.c) == Pids(f.c.v.queuedPools[t[0]]) + ListedPids(g.c)
  {
    hide *;
    var t := f.c.v.timestamps;
    RoundKeeps(f);
    PoppedKeeps(f.c);
    PoppedSweeps(c, f, done);
    SweptKeys(c, f.c, done);
    ForcePoolsSweeps(c, Forced(Popped(f.c), f.found), done, f.c.v.queuedPools[t[0]]);
    RoundIs(f);
    SweptKeys(c, Round(f).value.c, done + Pids(f.c.v.queuedPools[t[0]]));
    ListedSplit(f.c, Round(f).value.c);
  }

  lemma RoundIs(f: Forced)
    requires f.c.v.timestamps != [] && f.c.v.timestamps[0] in f.c.v.queuedPools
    ensures Round(f) == ForcePools(Forced(Popped(f.c), f.found), f.c.v.queuedPools[f.c.v.timestamps[0]])
  {
    hide ForcePools, Popped;
  }

  // ---------------------------------------------------------------- the end of a block

  /**
    The end of a block stops exactly the miners at work of the pools that are listed under a time past the grace
    period and have, before it, a request overdue; they cool down from now on. It unlists those times. Of the pools
    only what those expect to come back changes, and nothing else in storage does.
  */
  lemma BlockStopsOverdue(c: State)
    requires Inv(c)
    ensures var r := Finalize(c);
      && r.Ok? && Inv(r.value) && Unlisted(c, r.value)
      && Swept(c.(lastFinalized := c.now), r.value, ListedPids(c))
  {
    hide *;
    var c0 := c.(lastFinalized := c.now);
    InvParts(c);
    LaterIndexed(c.v, c.now, c.lastFinalized);
    ClockKeeps(c, c.now, c.now);
    assert c0 == c.(now := c.now, lastFinalized := c.now);
    NothingSwept(c0);
    ForceWithdrawSweeps(c0, Forced(c0, {}), {});
    FinalizeIs(c);
    SameListed(c, c0, Finalize(c).value);
  }

  lemma NothingSwept(c: State)
    ensures Swept(c, c, {})
  {
    hide Overdue, AtWork;
  }

  lemma SameListed(c: State, c0: State, d: State)
    requires c0 == c.(lastFinalized := c.now) && Unlisted(c0, d)
    ensures {} + ListedPids(c0) == ListedPids(c) && Unlisted(c, d)
  {
    forall p ensures ListedExpired(c0, p) <==> ListedExpired(c, p) {
      ListedExpiredSame(c, c0, p);
    }
    hide ListedExpired;
    SameClock(c, c0, c.v.timestamps, d.v.timestamps);
  }
}
