/** The mining pallet as an object, proved against the functions of Mining. */
module MiningPallet {
  import opened Base
  import opened Pool
  import opened Vault
  import opened Mining
  import opened StakePallet

  class Miners {
    var miners: map<Miner, MinerInfo>
    var minerBindings: map<Miner, Worker>
    var workerBindings: map<Worker, Miner>
    var stakes: map<Miner, nat>
    var onlineMiners: nat
    var coolDownPeriod: nat

    function Value(): Mines
      reads this
    {
      Mines(miners, minerBindings, workerBindings, stakes, onlineMiners, coolDownPeriod)
    }

    constructor ()
      ensures Value() == Mines(map[], map[], map[], map[], 0, 0)
    {
      miners, minerBindings, workerBindings, stakes := map[], map[], map[], map[];
      onlineMiners, coolDownPeriod := 0, 0;
    }

    method Bind(registry: Registry, miner: Miner, worker: Worker, now: nat) returns (r: Outcome<()>)
      modifies this
      ensures Does(Mining.Bind(old(Value()), registry, miner, worker, now), r, old(Value()), Value())
    {
      if worker !in registry {
        return Err(WorkerNotRegistered);
      }
      if registry[worker].initialScore.None? {
        return Err(BenchmarkMissing);
      }
      if miner in minerBindings {
        return Err(DuplicateBoundMiner);
      }
      if worker in workerBindings {
        return Err(DuplicateBoundWorker);
      }
      if miner in miners && !miners[miner].state.Ready? {
        return Err(MinerNotReady);
      }
      minerBindings := minerBindings[miner := worker];
      workerBindings := workerBindings[worker := miner];
      miners := miners[miner := MinerInfo(Ready, 0, 0, now, 0)];
      return Ok(());
    }

    method StartMining(registry: Registry, miner: Miner, stake: nat, quote: Quote, now: nat) returns (r: Outcome<()>)
      modifies this
      ensures Does(Mining.StartMining(old(Value()), registry, miner, stake, quote, now), r, old(Value()), Value())
    {
      if miner !in minerBindings {
        return Err(MinerNotFound);
      }
      var worker := minerBindings[miner];
      if miner !in miners {
        return Panic;
      }
      if !miners[miner].state.Ready? {
        return Err(MinerNotReady);
      }
      if miner in stakes {
        return Err(CannotStartWithExistingStake);
      }
      if worker !in registry {
        return Panic;
      }
      var score := registry[worker].initialScore;
      if score.None? {
        return Err(BenchmarkMissing);
      }
      if score.value < MIN_INIT_P {
        return Err(BenchmarkTooLow);
      }
      if stake < quote.minimalStake {
        return Err(InsufficientStake);
      }
      if quote.ve > quote.vMax {
        return Err(TooMuchStake);
      }
      stakes := stakes[miner := stake];
      miners := miners[miner := miners[miner].(state := MiningIdle, ve := quote.ve, v := quote.ve, vUpdatedAt := now)];
      onlineMiners := onlineMiners + 1;
      return Ok(());
    }

    /** The stake that will be returned is predicted from the record as it is written. */
    method StopMiner(miner: Miner, now: nat) returns (r: Outcome<()>, worker: Worker, orig: nat, slashed: nat)
      modifies this
      ensures match Mining.StopMiner(old(Value()), miner, now)
        case Ok(stop) => r == Ok(()) && Value() == stop.mines && worker == stop.worker && orig == stop.orig
          && slashed == stop.slashed
        case Err(e) => r == Err(e) && Value() == old(Value())
        case Panic => r == Panic
        case Diverge => false
    {
      hide Returned;
      worker, orig, slashed := 0, 0, 0;
      if miner !in minerBindings {
        r := Err(MinerNotBound);
        return;
      }
      worker := minerBindings[miner];
      if miner !in miners {
        r := Err(MinerNotFound);
        return;
      }
      var info := miners[miner];
      if info.state.CanUnbind() {
        r := Err(MinerNotMining);
        return;
      }
      if onlineMiners == 0 {
        r := Panic;
        return;
      }
      info := info.(state := MiningCoolingDown, coolDownStart := now);
      miners := miners[miner := info];
      onlineMiners := onlineMiners - 1;
      orig := Get(stakes, miner);
      var lost := FinalSlash(info, orig);
      if !lost.Ok? {
        r := Panic;
        return;
      }
      slashed := lost.value;
      r := Ok(());
    }

    method Reclaim(miner: Miner, now: nat) returns (r: Outcome<()>, orig: nat, slashed: nat)
      modifies this
      ensures match ReclaimMiner(old(Value()), miner, now)
        case Ok(reclaim) => r == Ok(()) && Value() == reclaim.mines && orig == reclaim.orig
          && slashed == reclaim.slashed
        case Err(e) => r == Err(e) && Value() == old(Value())
        case Panic => r == Panic
        case Diverge => false
    {
      hide Returned;
      orig, slashed := 0, 0;
      if miner !in miners {
        r := Err(MinerNotFound);
        return;
      }
      var info := miners[miner];
      if !info.state.MiningCoolingDown? || now - info.coolDownStart < coolDownPeriod {
        r := Err(CoolDownNotReady);
        return;
      }
      info := info.(state := Ready, coolDownStart := 0);
      miners := miners[miner := info];
      orig := Get(stakes, miner);
      stakes := stakes - {miner};
      var lost := FinalSlash(info, orig);
      if !lost.Ok? {
        r := Panic;
        return;
      }
      slashed := lost.value;
      r := Ok(());
    }

    method Unbind(miner: Miner)
      requires miner in minerBindings
      modifies this`minerBindings, this`workerBindings
      ensures Value() == Unbound(old(Value()), miner)
    {
      var worker := minerBindings[miner];
      minerBindings := minerBindings - {miner};
      workerBindings := workerBindings - {worker};
    }

    /** The gatekeeper's reports of workers that went offline or came back. */
    method Report(workers: seq<Worker>, state: MinerState)
      modifies this`miners
      ensures Value() == AllReported(old(Value()), workers, state)
    {
      var i := 0;
      while i < |workers|
        invariant i <= |workers|
        invariant AllReported(old(Value()), workers, state) == AllReported(Value(), workers[i..], state)
      {
        assert workers[i..][1..] == workers[i + 1..];
        ghost var before := Value();
        if workers[i] in workerBindings {
          var miner := workerBindings[workers[i]];
          if miner in miners && miners[miner].state.IsMining() {
            miners := miners[miner := miners[miner].(state := state)];
          }
        }
        assert Value() == Reported(before, workers[i], state);
        i := i + 1;
      }
      assert workers[i..] == [];
    }

    method Settle(settle: seq<SettleInfo>, now: nat)
      modifies this`miners
      ensures Value() == AllSettled(old(Value()), settle, now)
    {
      var i := 0;
      while i < |settle|
        invariant i <= |settle|
        invariant AllSettled(old(Value()), settle, now) == AllSettled(Value(), settle[i..], now)
      {
        assert settle[i..][1..] == settle[i + 1..];
        ghost var before := Value();
        if settle[i].pubkey in workerBindings {
          var miner := workerBindings[settle[i].pubkey];
          if miner in miners {
            miners := miners[miner := miners[miner].(v := settle[i].v, vUpdatedAt := now)];
          }
        }
        assert Value() == Settled(before, settle[i], now);
        i := i + 1;
      }
      assert settle[i..] == [];
    }
  }
}
