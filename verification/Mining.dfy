/**
  The mining pallet (pallets/phala/src/mining.rs): bindings, miner states and stakes, as
  functions from storage to storage. The callbacks into the stake pool are in Chain.
*/
module Mining {
  import opened Base
  import opened FixedPoint
  import opened Pool
  import opened Vault

  /** The sub-account of a worker in a pool; the hash that names it is taken to be injective. */
  datatype Miner = Miner(pid: Pid, worker: Worker)

  datatype MinerState = Ready | MiningIdle | MiningActive | MiningUnresponsive | MiningCoolingDown {
    predicate CanUnbind() { Ready? || MiningCoolingDown? }
    predicate CanSettle() { MiningIdle? || MiningActive? || MiningUnresponsive? }
    /** As written, an active miner is not counted as mining by the gatekeeper's reports. */
    predicate IsMining() { MiningIdle? || MiningUnresponsive? }
  }

  datatype MinerInfo = MinerInfo(state: MinerState, ve: Bits, v: Bits, vUpdatedAt: nat, coolDownStart: nat)

  datatype WorkerInfo = WorkerInfo(operator: Option<Account>, initialScore: Option<nat>)

  type Registry = map<Worker, WorkerInfo>

  datatype Mines = Mines(
    miners: map<Miner, MinerInfo>,
    minerBindings: map<Miner, Worker>,
    workerBindings: map<Worker, Miner>,
    stakes: map<Miner, nat>,
    onlineMiners: nat,
    coolDownPeriod: nat)

  /** What the tokenomic parameters come to for a worker and a stake. */
  datatype Quote = Quote(minimalStake: nat, ve: Bits, vMax: Bits)

  const MIN_INIT_P: nat := 50

  // ---------------------------------------------------------------- the final stake

  /** What is returned of a stake; the rest is slashed. */
  function Returned(info: MinerInfo, orig: nat): nat
    requires info.ve > 0
  {
    FromFixed(FixMul(Min(FixDiv(info.v, info.ve), ONE), ToFixed(orig)))
  }

  lemma ReturnedAtMost(info: MinerInfo, orig: nat)
    requires info.ve > 0
    ensures Returned(info, orig) <= orig
  {
    var rate := Min(FixDiv(info.v, info.ve), ONE);
    FixMulMono(rate, ONE, ToFixed(orig), ToFixed(orig));
    assert FixMul(ONE, ToFixed(orig)) == ToFixed(orig);
  }

  /** A miner that kept its V loses one pico at most, and none if 5^12 divides the stake. */
  lemma FullVReturnsAll(info: MinerInfo, orig: nat)
    requires info.ve > 0 && info.v >= info.ve
    ensures Returned(info, orig) == if orig % SCALE_ODD == 0 then orig else orig - 1
  {
    DivAtLeast(info.v * ONE, info.ve, ONE);
    assert FixMul(ONE, ToFixed(orig)) == ToFixed(orig);
    RoundTrip(orig);
  }

  /** The return grows with V. */
  lemma ReturnedIsMonotone(info: MinerInfo, info': MinerInfo, orig: nat)
    requires info.ve == info'.ve > 0 && info.v <= info'.v
    ensures Returned(info, orig) <= Returned(info', orig)
  {
    DivMono(info.v * ONE, info'.v * ONE, info.ve);
    FixMulMono(Min(FixDiv(info.v, info.ve), ONE), Min(FixDiv(info'.v, info.ve), ONE), ToFixed(orig), ToFixed(orig));
    FromFixedMono(FixMul(Min(FixDiv(info.v, info.ve), ONE), ToFixed(orig)),
                  FixMul(Min(FixDiv(info'.v, info.ve), ONE), ToFixed(orig)));
  }

  /** `calc_final_stake`; dividing by a zero `ve` panics. */
  function FinalSlash(info: MinerInfo, orig: nat): Outcome<nat> {
    if info.ve == 0 || Returned(info, orig) > orig then Panic
    else Ok(orig - Returned(info, orig))
  }

  // ---------------------------------------------------------------- calls

  function Bind(m: Mines, registry: Registry, miner: Miner, worker: Worker, now: nat): Outcome<Mines> {
    if worker !in registry then Err(WorkerNotRegistered)
    else if registry[worker].initialScore.None? then Err(BenchmarkMissing)
    else if miner in m.minerBindings then Err(DuplicateBoundMiner)
    else if worker in m.workerBindings then Err(DuplicateBoundWorker)
    else if miner in m.miners && !m.miners[miner].state.Ready? then Err(MinerNotReady)
    else Ok(m.(minerBindings := m.minerBindings[miner := worker],
               workerBindings := m.workerBindings[worker := miner],
               miners := m.miners[miner := MinerInfo(Ready, 0, 0, now, 0)]))
  }

  function StartMining(m: Mines, registry: Registry, miner: Miner, stake: nat, quote: Quote, now: nat): Outcome<Mines> {
    if miner !in m.minerBindings then Err(MinerNotFound)
    else if miner !in m.miners then Panic
    else if !m.miners[miner].state.Ready? then Err(MinerNotReady)
    else if miner in m.stakes then Err(CannotStartWithExistingStake)
    else if m.minerBindings[miner] !in registry then Panic
    else if registry[m.minerBindings[miner]].initialScore.None? then Err(BenchmarkMissing)
    else if registry[m.minerBindings[miner]].initialScore.value < MIN_INIT_P then Err(BenchmarkTooLow)
    else if stake < quote.minimalStake then Err(InsufficientStake)
    else if quote.ve > quote.vMax then Err(TooMuchStake)
    else
      var info := m.miners[miner].(state := MiningIdle, ve := quote.ve, v := quote.ve, vUpdatedAt := now);
      Ok(m.(stakes := m.stakes[miner := stake], miners := m.miners[miner := info], onlineMiners := m.onlineMiners + 1))
  }

  /** The part of `stop_mining` before the stake pool is told: who is stopped, and what it will lose. */
  datatype Stop = Stop(mines: Mines, worker: Worker, orig: nat, slashed: nat)

  function StopMiner(m: Mines, miner: Miner, now: nat): Outcome<Stop> {
    if miner !in m.minerBindings then Err(MinerNotBound)
    else if miner !in m.miners then Err(MinerNotFound)
    else if m.miners[miner].state.CanUnbind() then Err(MinerNotMining)
    else if m.onlineMiners == 0 then Panic
    else
      var info := m.miners[miner].(state := MiningCoolingDown, coolDownStart := now);
      var orig := Get(m.stakes, miner);
      var slashed :- FinalSlash(info, orig);
      Ok(Stop(m.(miners := m.miners[miner := info], onlineMiners := m.onlineMiners - 1),
              m.minerBindings[miner], orig, slashed))
  }

  datatype Reclaim = Reclaim(mines: Mines, orig: nat, slashed: nat)

  function ReclaimMiner(m: Mines, miner: Miner, now: nat): Outcome<Reclaim> {
    if miner !in m.miners then Err(MinerNotFound)
    else if !m.miners[miner].state.MiningCoolingDown? || now - m.miners[miner].coolDownStart < m.coolDownPeriod
    then Err(CoolDownNotReady)
    else
      var info := m.miners[miner].(state := Ready, coolDownStart := 0);
      var orig := Get(m.stakes, miner);
      var slashed :- FinalSlash(info, orig);
      Ok(Reclaim(m.(miners := m.miners[miner := info], stakes := m.stakes - {miner}), orig, slashed))
  }

  function Unbound(m: Mines, miner: Miner): Mines
    requires miner in m.minerBindings
  {
    m.(minerBindings := m.minerBindings - {miner}, workerBindings := m.workerBindings - {m.minerBindings[miner]})
  }

  // ---------------------------------------------------------------- reports of the gatekeeper

  /** A report that a worker went offline or came back: only miners at work change state. */
  function Reported(m: Mines, worker: Worker, state: MinerState): Mines {
    if worker in m.workerBindings && m.workerBindings[worker] in m.miners
      && m.miners[m.workerBindings[worker]].state.IsMining()
    then m.(miners := m.miners[m.workerBindings[worker] := m.miners[m.workerBindings[worker]].(state := state)])
    else m
  }

  function AllReported(m: Mines, workers: seq<Worker>, state: MinerState): Mines
    decreases |workers|
  {
    if workers == [] then m else AllReported(Reported(m, workers[0], state), workers[1..], state)
  }

  /** `try_handle_settle`: as written, only a debug build checks that the miner can settle. */
  function Settled(m: Mines, info: SettleInfo, now: nat): Mines {
    if info.pubkey in m.workerBindings && m.workerBindings[info.pubkey] in m.miners
    then
      var miner := m.workerBindings[info.pubkey];
      m.(miners := m.miners[miner := m.miners[miner].(v := info.v, vUpdatedAt := now)])
    else m
  }

  function AllSettled(m: Mines, settle: seq<SettleInfo>, now: nat): Mines
    decreases |settle|
  {
    if settle == [] then m else AllSettled(Settled(m, settle[0], now), settle[1..], now)
  }
}
