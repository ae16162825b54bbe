/** What is proved of the functions carries over to the objects: a node that performs whatever it is sent. */
module RuntimeLaws {
  import opened Base
  import opened Pool
  import opened Vault
  import opened Chain
  import opened StakePallet
  import opened Runtime
  import opened CallLaws
  import opened ChainLaws
  import opened StepLaws
  import opened SafetyLaws
  import opened RunLaws

  // ---------------------------------------------------------------- lifting

  /** A method proved against a function on the stake pool's storage does what the step says. */
  lemma StoreCallDoes(c: Chain.State, spec: Outcome<Store>, r: Outcome<()>, v': Store)
    requires Does(spec, r, c.v, v')
    ensures Does(WithStore(c, spec), r, c, c.(v := v'))
  {
  }

  /** So does one that answers with a flag. */
  lemma FlagDoes<T>(spec: Outcome<T>, ok: bool, before: T, after: T)
    requires ok == spec.Ok? && (if ok then after == spec.value else spec == Panic)
    ensures Does(spec, if ok then Ok(()) else Panic, before, after)
  {
  }

  /**
    A method that does what a step says, called on a state with the invariant and with owned
    requests, does not panic and leaves such a state behind.
  */
  lemma CallKeeps(c: Chain.State, a: Action, o: Oracle, r: Outcome<()>, c': Chain.State)
    requires Does(Chain.Step(c, a, o), r, c, c')
    requires Inv(c) && AllWithin(c.v) && Admissible(c, a)
    ensures r != Panic
    ensures r == Diverge <==> Hangs(c, a, o)
    ensures r != Diverge ==> Inv(c') && (LeavesCover(c, a) ==> AllWithin(c'.v))
  {
    hide Inv, AllWithin, Admissible, LeavesCover, Hangs, Chain.Step;
    StepSafe(c, a, o);
    if Chain.Step(c, a, o).Ok? {
      StepKeeps(c, a, o);
    }
  }

  // ---------------------------------------------------------------- performing one action

  /** The library operations of a node. */
  function OracleOf(node: Node, permill: Permill): Oracle {
    Oracle(node.pools.accounts.slasher, permill)
  }

  /** The function behind a call of the stake pool pallet. */
  function StoreCall(c: Chain.State, a: Action, slash: Slasher): Outcome<Store>
    requires OfStakePool(a)
  {
    match a
    case ActCreate(who) => Ok(Vault.Create(c.v, who))
    case ActSetCap(who, pid, cap) => Vault.SetCap(c.v, who, pid, cap)
    case ActSetPayoutPref(who, pid, rate) => Vault.SetPayoutPref(c.v, who, pid, rate)
    case ActClaimRewards(who, pid, target, funded) => Vault.ClaimRewards(c.v, who, pid, target, funded)
    case ActContribute(who, pid, amount) => Vault.Contribute(c.v, who, pid, amount, slash)
    case ActWithdraw(who, pid, shares) => Vault.Withdraw(c.v, who, pid, shares, c.now, slash)
    case ActReconcile(pid, who) => Reconcile(c.v, pid, who)
  }

  lemma StepOfStore(c: Chain.State, a: Action, o: Oracle)
    requires OfStakePool(a)
    ensures Chain.Step(c, a, o) == WithStore(c, StoreCall(c, a, o.slash))
  {
    hide Vault.Create, Vault.SetCap, Vault.SetPayoutPref, Vault.ClaimRewards, Vault.Contribute, Vault.Withdraw,
         Reconcile;
  }

  method CallPools(pools: StakePools, a: Action, now: nat, ghost c: Chain.State) returns (r: Outcome<()>)
    requires pools.Valid() && OfStakePool(a) && c.v == pools.Snapshot() && c.now == now
    modifies pools, pools.accounts
    ensures pools.Valid() && pools.miningEnabled == old(pools.miningEnabled)
    ensures Does(StoreCall(c, a, pools.accounts.slasher), r, c.v, pools.Snapshot())
  {
    hide Vault.Create, Vault.SetCap, Vault.SetPayoutPref, Vault.ClaimRewards, Vault.Contribute, Vault.Withdraw,
         Reconcile;
    match a {
      case ActCreate(who) =>
        pools.Create(who);
        r := Ok(());
      case ActSetCap(who, pid, cap) => r := pools.SetCap(who, pid, cap);
      case ActSetPayoutPref(who, pid, rate) => r := pools.SetPayoutPref(who, pid, rate);
      case ActClaimRewards(who, pid, target, funded) => r := pools.ClaimRewards(who, pid, target, funded);
      case ActContribute(who, pid, amount) => r := pools.Contribute(who, pid, amount);
      case ActWithdraw(who, pid, shares) => r := pools.Withdraw(who, pid, shares, now);
      case ActReconcile(pid, who) => r := pools.ReconcileWithdrawQueue(pid, who);
    }
  }

  method PerformPoolCall(node: Node, a: Action, permill: Permill) returns (r: Outcome<()>)
    requires node.Valid() && OfStakePool(a)
    modifies node.pools, node.pools.accounts
    ensures node.Valid()
    ensures Does(Chain.Step(old(node.State()), a, OracleOf(node, permill)), r, old(node.State()), node.State())
  {
    hide Chain.Step, StoreCall, Does, WithStore;
    ghost var c := node.State();
    r := CallPools(node.pools, a, node.now, c);
    StepOfStore(c, a, OracleOf(node, permill));
    StoreCallDoes(c, StoreCall(c, a, node.pools.accounts.slasher), r, node.pools.Snapshot());
  }

  predicate OfWorkers(a: Action) {
    a.ActAddWorker? || a.ActRemoveWorker? || a.ActUnbind?
  }

  method PerformWorkerCall(node: Node, a: Action, permill: Permill) returns (r: Outcome<()>)
    requires node.Valid() && OfWorkers(a)
    modifies node.pools, node.mining
    ensures node.Valid()
    ensures Does(Chain.Step(old(node.State()), a, OracleOf(node, permill)), r, old(node.State()), node.State())
  {
    hide Chain.AddWorker, Chain.RemoveWorker, Chain.Unbind, Does;
    match a {
      case ActAddWorker(who, pid, worker) => r := node.AddWorker(who, pid, worker);
      case ActRemoveWorker(who, pid, worker) => r := node.RemoveWorker(who, pid, worker);
      case ActUnbind(who, miner) => r := node.Unbind(who, miner);
    }
  }

  method PerformMinerCall(node: Node, a: Action, permill: Permill) returns (r: Outcome<()>)
    requires node.Valid() && OfMiners(a) && !OfWorkers(a)
    modifies node, node.pools, node.pools.accounts, node.mining
    ensures node.Valid()
    ensures Does(Chain.Step(old(node.State()), a, OracleOf(node, permill)), r, old(node.State()), node.State())
  {
    hide StartPoolMining, StopPoolMining, ReclaimPoolWorker, GatekeeperMessage, Finalize, Does;
    match a {
      case ActStartMining(who, pid, worker, stake, quote) => r := node.StartMining(who, pid, worker, stake, quote);
      case ActStopMining(who, pid, worker) => r := node.StopWorker(who, pid, worker);
      case ActReclaim(pid, worker) => r := node.ReclaimWorker(pid, worker);
      case ActGatekeeper(offline, recovered, settle) =>
        r := node.OnGatekeeperMessage(offline, recovered, settle, permill);
      case ActFinalize =>
        var ok := node.OnFinalize();
        FlagDoes(Finalize(old(node.State())), ok, old(node.State()), node.State());
        r := if ok then Ok(()) else Panic;
    }
  }

  /** Payments around the pallets; the staking lock keeps the locked part of a balance from being spent. */
  method PerformPayment(node: Node, a: Action, permill: Permill) returns (r: Outcome<()>)
    requires node.Valid() && (a.ActReceive? || a.ActSpend?)
    modifies node.pools.accounts
    ensures node.Valid()
    ensures Does(Chain.Step(old(node.State()), a, OracleOf(node, permill)), r, old(node.State()), node.State())
  {
    hide Put;
    var accounts := node.pools.accounts;
    if a.ActReceive? {
      accounts.Pay(a.who, Get(accounts.free, a.who) + a.amount);
    } else if Get(accounts.free, a.who) < Get(accounts.locks, a.who) + a.amount {
      return Err(InsufficientBalance);
    } else {
      accounts.Pay(a.who, Get(accounts.free, a.who) - a.amount);
    }
    return Ok(());
  }

  method PerformWorldEvent(node: Node, a: Action, permill: Permill) returns (r: Outcome<()>)
    requires node.Valid() && !OfStakePool(a) && !OfMiners(a) && !a.ActReceive? && !a.ActSpend?
    modifies node, node.pools, node.mining
    ensures node.Valid()
    ensures Does(Chain.Step(old(node.State()), a, OracleOf(node, permill)), r, old(node.State()), node.State())
  {
    match a {
      case ActSetMiningEnable(on) => node.pools.miningEnabled := on;
      case ActSetCoolDown(period) => node.mining.coolDownPeriod := period;
      case ActRegister(worker, info) => node.registry := node.registry[worker := info];
      case ActAdvance(seconds) => node.now := node.now + seconds;
    }
    r := Ok(());
  }

  /** Whatever the action, the node does what the step says. */
  method Perform(node: Node, a: Action, permill: Permill) returns (r: Outcome<()>)
    requires node.Valid()
    modifies node, node.pools, node.pools.accounts, node.mining
    ensures node.Valid()
    ensures Does(Chain.Step(old(node.State()), a, OracleOf(node, permill)), r, old(node.State()), node.State())
  {
    hide Chain.Step;
    if OfStakePool(a) {
      r := PerformPoolCall(node, a, permill);
    } else if OfWorkers(a) {
      r := PerformWorkerCall(node, a, permill);
    } else if OfMiners(a) {
      r := PerformMinerCall(node, a, permill);
    } else if a.ActReceive? || a.ActSpend? {
      r := PerformPayment(node, a, permill);
    } else {
      r := PerformWorldEvent(node, a, permill);
    }
  }

  // ---------------------------------------------------------------- performing a run

  function Moves(actions: seq<Action>, o: Oracle): (moves: seq<Move>)
    ensures |moves| == |actions|
  {
    if actions == [] then [] else [Move(actions[0], o)] + Moves(actions[1..], o)
  }

  /**
    A node performs a sequence of actions up to the first that panics or hangs: its state is that of
    the run, call by call, and it stops short only where the run's own step does.
  */
  method PerformAll(node: Node, actions: seq<Action>, permill: Permill) returns (n: nat)
    requires node.Valid()
    modifies node, node.pools, node.pools.accounts, node.mining
    ensures node.Valid() && n <= |actions|
    ensures var o := OracleOf(node, permill);
      if n == |actions| then node.State() == Run(old(node.State()), Moves(actions, o))
      else
        var r := Chain.Step(Run(old(node.State()), Moves(actions[..n], o)), actions[n], o);
        r == Panic || r == Diverge
  {
    hide Chain.Step, Run;
    ghost var o := OracleOf(node, permill);
    ghost var c := node.State();
    n := 0;
    assert actions[..0] == [];
    RunOf(c, []);
    while n < |actions|
      invariant n <= |actions| && node.Valid()
      invariant node.State() == Run(c, Moves(actions[..n], o))
    {
      var r := Perform(node, actions[n], permill);
      if r == Panic || r == Diverge {
        return;
      }
      MovesMore(c, actions, n, o);
      n := n + 1;
    }
    assert actions[..n] == actions;
  }

  lemma RunOf(c: Chain.State, moves: seq<Move>)
    ensures moves == [] ==> Run(c, moves) == c
    ensures moves != [] ==> Run(c, moves) == Run(After(c, moves[0]), moves[1..])
  {
    hide After;
  }

  lemma {:induction false} MovesAppend(actions: seq<Action>, a: Action, o: Oracle)
    ensures Moves(actions + [a], o) == Moves(actions, o) + [Move(a, o)]
  {
    if actions == [] {
      assert [a][1..] == [];
    } else {
      assert (actions + [a])[1..] == actions[1..] + [a];
      MovesAppend(actions[1..], a, o);
    }
  }

  lemma MovesMore(c: Chain.State, actions: seq<Action>, n: nat, o: Oracle)
    requires n < |actions|
    ensures Run(c, Moves(actions[..n + 1], o)) == After(Run(c, Moves(actions[..n], o)), Move(actions[n], o))
  {
    assert actions[..n + 1] == actions[..n] + [actions[n]];
    MovesAppend(actions[..n], actions[n], o);
    RunAppend(c, Moves(actions[..n], o), Move(actions[n], o));
  }

  lemma {:induction false} SafeAt(c: Chain.State, actions: seq<Action>, n: nat, o: Oracle)
    requires n < |actions| && SafeRun(c, Moves(actions, o))
    ensures var d := Run(c, Moves(actions[..n], o));
      Chain.Step(d, actions[n], o) != Panic && (Chain.Step(d, actions[n], o) == Diverge <==> Hangs(d, actions[n], o))
    decreases n
  {
    hide Chain.Step, Hangs, After;
    if n == 0 {
      assert actions[..0] == [];
    } else {
      assert actions[..n][1..] == actions[1..][..n - 1];
      SafeAt(After(c, Move(actions[0], o)), actions[1..], n - 1, o);
    }
  }

  /**
    A new node, sent any admissible sequence of actions whose withdrawals leave requests owned, never
    panics; it performs them all and ends with its books balanced, or comes to one that hangs.
  */
  method Launch(slash: Slasher, time: nat, actions: seq<Action>, permill: Permill) returns (node: Node, n: nat)
    requires AdmissibleRun(Genesis(time), Moves(actions, Oracle(slash, permill)))
    requires CoveringRun(Genesis(time), Moves(actions, Oracle(slash, permill)))
    ensures fresh(node) && node.Valid() && n <= |actions|
    ensures n == |actions| ==> Inv(node.State()) && AllWithin(node.State().v)
    ensures n == |actions| ==> node.State() == Run(Genesis(time), Moves(actions, Oracle(slash, permill)))
    ensures n < |actions| ==>
      Hangs(Run(Genesis(time), Moves(actions[..n], Oracle(slash, permill))), actions[n], Oracle(slash, permill))
  {
    hide AdmissibleRun, CoveringRun, Run, Inv, AllWithin, Hangs, SafeRun, Chain.Step, Moves;
    node := new Node(slash, time);
    n := PerformAll(node, actions, permill);
    ghost var o := Oracle(slash, permill);
    EveryRunKeeps(time, Moves(actions, o));
    EveryOwnedRunIsSafe(time, Moves(actions, o));
    if n < |actions| {
      SafeAt(Genesis(time), actions, n, o);
    }
  }
}
