# Stake pools, mining and messages of the Phala blockchain, verified

This project models three parts of the repository in Dafny 4.11 and proves what they are for.

1. **The stake pool ledger with the mining state machine** (`pallets/phala/src/stakepool.rs`,
   `pallets/phala/src/mining.rs`, `utils/balance_convert.rs`, `utils/accumulator.rs`,
   `stakepool/migrations.rs`). Users contribute stake for shares, the owner lends free stake to
   miners, miners are slashed, stopped, cooled down and reclaimed, withdrawals wait in a first-in
   first-out queue, and rewards flow through an accumulator. All money is floor-rounded U64F64
   arithmetic over 10^12 pico with a dust rule of 1000 pico, and the floors are in every theorem.
2. **The sequenced message protocol** (`crates/phala-mq/src/send_queue.rs`,
   `pallets/phala/src/mq.rs`, `mq/check_seq.rs`, `crates/phala-node-rpc-ext/src/mq_seq.rs`).
3. **The in-process dispatcher** (`crates/phala-mq/src/dispatcher.rs`, `simple_mpsc.rs`).

## How it is built

Each operation is a function from state to state, and a method that changes an object in place
and is proved to do what the function says; the theorems are about the functions. What the functions
themselves compute is said again in the Effects modules, from amounts and conditions alone.

| files | contents |
|---|---|
| Base, Sums, FixedPoint | outcomes, finite sums over maps, the fixed point arithmetic and its machine width |
| Pool, Vault, Mining, Chain | the functions: one pool and staker, the stake pool's storage, the miners, both pallets as steps and runs |
| Records, Ledger, StakePallet, MiningPallet, Runtime | the same as classes with fields, loops and `modifies` clauses |
| PoolLaws, PriceLaws, VaultLaws, QueueLaws, CallLaws, RewardLaws, ReclaimLaws, ExpiryLaws | what each operation and call keeps |
| ChainLaws, MinerLaws, WorkerLaws, MessageLaws, FinalizeLaws, StepLaws, SafetyLaws, RunLaws | the joint invariant of both pallets, over single steps and over runs |
| CallEffects, RewardEffects, PoolEffects, MinerEffects, BlockEffects | what each call does to every part of storage, in amounts, and exactly when it is refused, said without the functions that compute it |
| AssertionLaws, ServedLaws | exactly when the debug assertions that do not always hold do; when free stake stands beside waiting requests |
| PanicLaws, WorthLaws, MachineLaws | exactly which steps panic, owned requests or not; what others' shares lose by a call; 128-bit arithmetic along runs |
| Tokenomic, Scenes, PumpedRuns, WitnessLaws, FaultLaws | the quotes of the tokenomic; moves of concrete runs; runs from the empty chain that hang, panic, lose stake and break assertions |
| RuntimeLaws | a node of objects that performs any sequence of actions as the run of the functions says |
| Migration, Halving | the dust migration, the subsidy halving |
| Messages, SendQueue, MqPallet, Delivery, CheckSeq | the two ends of the protocol, their joint runs, the transaction pool |
| Mpsc, Dispatcher, MergeOrder, MergeRefinement | channels, dispatcher and `select!`, the order it merges in, and that the objects merge so |

An `Outcome` is a value, one of the pallets' errors with the storage untouched, `Panic` for a
failed `expect` or an underflow, or `Diverge` for the withdraw-queue loop when it never ends. The
theorems say when a panic or a hang happens; they do not assume them away. A method must end, so
`TryProcessWithdrawQueue` answers `Diverge` where the loop would go on: after a round without
progress and another one that succeeds, since all further rounds are like it
(`QueueLaws.VainRoundsRepeat`).

A run (`Chain.Run`) is any sequence of calls by anybody with any arguments, callbacks, block ends,
outside payments and passing time. A move is admissible if a started miner's minimal stake is past
dust and its V is positive, a gatekeeper message settles no miner that is cooling down
(`MessageLaws.SettlementKeepsPrediction` says exactly why), and a reclaim does not slash a pool without
shares down to dust, which is exactly when it keeps the stake conserved (`ReclaimLaws.ReclaimedBacked`).

The concrete runs are admissible, keep requests owned up to the step in question, and start every miner with
the minimal stake, `ve` and `v_max` that the tokenomic computes (`Scenes.Reached`, `Scenes.IsQuote`): with the
parameters of a new chain, but for the run of `FaultLaws.SlashWithoutShares`, whose `k` is small.

Every contract of a method that takes an `Outcome` apart reads `Does(F(old state), verdict, old
state, new state)`: the verdict and the whole new state are those of the function, and an error
leaves the state as it was.

## Where the code differs from what is said of it

- The comment at stakepool.rs:1423 states the share invariant with `total_stake`; the invariant the
  code keeps is the one of stakepool.rs:1234-1236, on `total_shares`, and is the one proved.
- The debug assertion at stakepool.rs:868, that a round serves no dust, is no invariant:
  `FaultLaws.RoundServesDust` is a run from the empty chain to an unslashed pool in which it fails. It holds of
  a round exactly if the request is no dust and the free stake buys shares past dust
  (`QueueLaws.RoundServesNondust`), and for every free stake past dust exactly at the prices up to a bound just
  below one (`PriceServesNondust`), at which it holds in every round (`AssertionLaws.RoundsAssertedWhen`).
- The debug assertion at stakepool.rs:1384, that a pool checked for expired requests has no free stake, is none
  either, whether its queue is empty (`WitnessLaws.FreeStakeWithoutRequest`) or not
  (`WitnessLaws.FreeStakeBesideRequest`). At every check of a block's end it holds if and only if, before it, no
  pool that the index lists under an expired time has any stake free (`AssertionLaws.FinalizeAssertsWhen`, along
  runs `EveryRunAsserts`). ServedLaws is about the weaker intent that its message gives: no stake past dust
  stays free beside waiting requests. `ServedLaws.StepIdles` says exactly which steps break that one: a
  withdrawal that queues something and whose payment leaves more than dust free, and a reclaim for a pool
  without shares, which owned requests rule out (`OwnedReclaimServes`).
- The debug assertion `assert_slash_clean` (stakepool.rs:1291-1301) fails of a staker whose slash has just been
  settled once the price has risen since its stake was locked (`FaultLaws.SlashUnclean`);
  `AssertionLaws.SlashCleanWhen` says exactly when it holds.
- The debug assertion at stakepool.rs:1272, that a slashed pool has shares, fails too:
  `FaultLaws.SlashWithoutShares` is a run from the empty chain to a reclaim that slashes a pool without shares
  and leaves stake free that is no part of the total.
- The share price does change while the queue is served, against the comment at stakepool.rs:838: up by what
  requesters leave behind, and down by roundings. `WorthLaws.QueueKeepsValue` bounds what other shares can lose
  by it, `DepositKeepsValue`, `ReleaseKeepsValue`, `ContributeKeepsValue` and `WithdrawKeepsValue` what they can
  lose by a call, `DepositRaisesValue` and `ReleaseRaisesValue` what they can gain.
- A withdrawal that is served at once can leave its caller's older request uncovered (issue 527);
  `CallLaws.WithdrawOwned` gives the exact condition, and `FaultLaws.RequestNobodyOwns` is a run from the empty
  chain to one, after which a contribution panics. `PanicLaws.StepPanicsWhen` says of every step, requests owned
  or not, exactly when it panics.
- The withdraw-queue loop never ends once the free stake is past dust and buys no share.
  `WitnessLaws.ContributionThatHangs` and `ReclaimThatHangs` are runs from the empty chain to such calls;
  `SafetyLaws.StepSafe` says for every step when it hangs, `SafetyLaws.HangsWhen` and `HangsNext` give guards
  that can be checked before the call.
- `on_reward` returns at the first worker without a pool (`PriceLaws.RewardsStopAtUnassigned`, `RewardsReceived`).
- `is_mining` does not count an active miner, so reports do not reach it; modelled as written.

## Model

| member | source | states |
|---|---|---|
| RunLaws.EveryRunKeeps | pallets/phala/src/stakepool.rs:71-203 | From the empty chain, every admissible run of calls, callbacks and block ends of the two pallets keeps the joint invariant: bindings, stakes, releasing stake, books, expiry index. |
| RunLaws.EveryRunBalances | pallets/phala/src/stakepool.rs:1141-1166 | After every admissible run from the empty chain: stake conservation, shares and their worth, rewards within 2 pico a share change, releasing stake exactly what cooling miners will return, and every account's ledger exactly its locked stake and its slack. |
| RunLaws.BindingsAgree | pallets/phala/src/mining.rs:647-720 | Bindings are inverse; pool list, assignment and binding to the pool's sub-account coincide. |
| RunLaws.StakesAgree | pallets/phala/src/mining.rs:726-814 | Stakes are held exactly for miners at work or cooling; OnlineMiners counts the miners at work. |
| RunLaws.ReleasingIsExact | pallets/phala/src/stakepool.rs:1090-1097 | The releasing stake is the sum of what the pool's cooling miners will return. |
| RunLaws.EveryOwnedRunIsSafe | pallets/phala/src/stakepool.rs:773-904 | On a run whose withdrawals leave no request uncovered, no `expect` fires and no subtraction underflows at any step; a step never ends if and only if it is a contribution or a reclaim that is accepted and whose pool's queue, with the stake in, comes to a starved round; every queued request stays within its owner's shares. |
| RunLaws.OwnedRunIsSafe | pallets/phala/src/stakepool.rs:773-904 | The same from any state with the invariant and owned requests. |
| RunLaws.RunKeeps | pallets/phala/src/stakepool.rs:71-203 | The invariant along a run from any state that has it. |
| RunLaws.PredictionIsExact | pallets/phala/src/mining.rs:161-166 | The stake and slash that `on_stopped` is given equal what `reclaim` returns later, after any admissible run in between on which no reclaim of that miner succeeds. |
| RunLaws.RunCoolsAs | pallets/phala/src/mining.rs:622-634 | Over any run on which no reclaim of it succeeds, a cooling miner keeps its record and its stake. |
| RunLaws.StakeIsConserved | pallets/phala/src/stakepool.rs:1255-1262 | In every reachable state total stake = free stake + the stakes of the pool's mining and cooling miners, or the pool is bankrupt: no total stake, no staked miner, at most dust free. |
| RunLaws.SharesAreSolvent | pallets/phala/src/stakepool.rs:1234-1239 | Total shares are the sum of the stakers' shares, and paying every staker out at the share price, floors included, takes no more than the total stake. |
| RunLaws.RewardsAreSolvent | pallets/phala/src/stakepool.rs:1339-1375 | Paid rewards + the owner's reward + everything stakers can claim <= rewards received + 2 pico per share change, and no pending reward is negative. |
| RunLaws.LedgerCovers | pallets/phala/src/stakepool.rs:494-496 | For every account the locked stake over all pools and what settled slashes left on the ledger come to exactly its ledger, which is its currency lock and within its free balance. |
| RunLaws.IdlePoolRests | pallets/phala/src/stakepool.rs:1019-1024 | A pool whose listed workers are idle has no miner at work at all. |
| RunLaws.WithdrawalOrphansRequest | pallets/phala/src/stakepool.rs:563-568 | Concrete case of issue 527: a withdrawal served at once succeeds and leaves its caller a queued request for more shares than it has left. |
| RunLaws.QueuesAreClean | pallets/phala/src/stakepool.rs:866-871 | In every reachable state each queue has one request a user at most, none for dust, and the oldest in front. |
| RunLaws.EveryRunIsClean | pallets/phala/src/stakepool.rs:1255-1262 | After every admissible run no pool's total stake, no staker's locked stake and no queued request is dust. |
| RunLaws.WithinIfCovered | pallets/phala/src/stakepool.rs:675-702 | All requests of a pool are owned if and only if each account's is. |
| RunLaws.EveryReconcileRestores | pallets/phala/src/stakepool.rs:675-702 | After any admissible run, past an issue-527 withdrawal too: reconciling an account makes its request owned or drops it, leaves everybody else's requests as they were, and the queue clean. |
| RunLaws.QuotesAdmit | pallets/phala/src/mining.rs:880-897 | What the tokenomic quotes for a positive stake makes an admissible start exactly if k times the root of the performance is past dust. |
| AssertionLaws.FinalizeAssertsWhen | pallets/phala/src/stakepool.rs:1383-1387 | The debug assertion of `has_expired_withdrawal`, that no stake is free, holds at every check of a block's end if and only if before it no pool listed under an expired time has any stake free, whatever its queue holds. |
| AssertionLaws.EveryRunAsserts | pallets/phala/src/stakepool.rs:1383-1387 | Along every admissible run from the empty chain it holds at every check of every block's end if and only if each of those ends finds no listed pool with stake free. |
| AssertionLaws.AssertedWhen | pallets/phala/src/stakepool.rs:1002-1031 | The same from any point of the loop over the expired times. |
| AssertionLaws.SlashCleanWhen | pallets/phala/src/stakepool.rs:1291-1301 | The debug assertion `assert_slash_clean`, made when a staker's slash has just been settled, holds if and only if the shares are worth dust, or more than dust was locked and the worth is no more than dust above it. |
| AssertionLaws.NewStakerClean | pallets/phala/src/stakepool.rs:1291-1301 | It holds of a staker that is new to the pool. |
| AssertionLaws.RoundsAssertedWhen | pallets/phala/src/stakepool.rs:866-871 | The debug assertion that no dust is served holds in every round of the queue at every price up to that of QueueLaws.PriceServesNondust. |
| WitnessLaws.FreeStakeWithoutRequest | pallets/phala/src/stakepool.rs:1384-1387 | A run from the empty chain, its miners started as the tokenomic quotes them, after which a block's end checks a pool with free stake and an empty queue: the assertion fails. |
| WitnessLaws.FreeStakeBesideRequest | pallets/phala/src/stakepool.rs:1384-1387 | Another one after which it checks a pool with free stake past dust and a request waiting past the grace period. |
| WitnessLaws.ContributionThatHangs | pallets/phala/src/stakepool.rs:486-546 | A run from the empty chain, its miners started as the tokenomic quotes them and all requests owned, after which a contribution of the least amount never ends. |
| WitnessLaws.ReclaimThatHangs | pallets/phala/src/stakepool.rs:837-904 | Another one after which reclaiming a miner whose V never fell never ends. |
| FaultLaws.RoundServesDust | pallets/phala/src/stakepool.rs:866-871 | A run from the empty chain to an unslashed pool in which an accepted contribution makes a round serve 1000 shares: the assertion on served dust fails. |
| FaultLaws.SlashUnclean | pallets/phala/src/stakepool.rs:1291-1301 | A run from the empty chain to a pool in which `assert_slash_clean` fails of a staker just settled. |
| FaultLaws.RequestNobodyOwns | pallets/phala/src/stakepool.rs:563-568 | Issue 527 reached: a run from the empty chain whose requests are all owned, a withdrawal that succeeds and leaves a request for more than is owned, and a contribution by a fresh account that then panics. |
| FaultLaws.SlashWithoutShares | pallets/phala/src/stakepool.rs:1271-1289 | A run from the empty chain to a reclaim that slashes a pool without shares, against its debug assertion, and leaves stake free that is no part of the total. |
| ServedLaws.StepIdles | pallets/phala/src/stakepool.rs:1384-1387 | A weaker reading of the assertion, the one its message gives: from states in which no pool has stake past dust free while requests wait, a step leads to such a state again if and only if it is none of the withdrawals and reclaims named by a condition on the state before it. The assertion itself is AssertionLaws.FinalizeAssertsWhen. |
| ServedLaws.EveryRunServes | pallets/phala/src/stakepool.rs:1384-1387 | In that weaker reading: along a run from the empty chain it is so throughout if and only if no step of it meets that condition. |
| ServedLaws.ContributeServes | pallets/phala/src/stakepool.rs:486-546 | After a contribution no stake past dust is free in its pool while requests wait, whatever was so before. |
| ServedLaws.WithdrawServes | pallets/phala/src/stakepool.rs:773-834 | After a withdrawal it is so exactly if something is queued and what the payment leaves free is past dust. |
| ServedLaws.ProcessedServed | pallets/phala/src/stakepool.rs:837-904 | After serving the queue it is so exactly if it was and the pool has no shares. |
| ServedLaws.OwnedReclaimServes | pallets/phala/src/stakepool.rs:646-662 | On owned requests a reclaim never leaves it so. |
| MachineLaws.EveryRunFits | pallets/phala/src/utils/balance_convert.rs:18-39 | After every admissible run, a pool with stake and shares below 2^62 has its price, the worth of every staker's shares and what its free stake buys computed exactly on 128 bits; and rewards, while those of all shares together are below 2^64. |
| MachineLaws.PriceFits | pallets/phala/src/stakepool.rs:1332-1336 | `share_price` of such a pool neither panics nor overflows. |
| MachineLaws.WorthFits | pallets/phala/src/utils/balance_convert.rs:27-32 | `mul` of its shares with its price is exact. |
| MachineLaws.FreeSharesFit | pallets/phala/src/utils/balance_convert.rs:34-39 | `div` of its stake by its price is exact. |
| MachineLaws.SoldSharesFit | pallets/phala/src/stakepool.rs:1182-1186 | The shares sold for a contribution are exact if the pool is still within the bound with them. |
| RuntimeLaws.CallKeeps | pallets/phala/src/stakepool.rs:460-662 | Any method proved against a step, called on an owned state with the invariant, does not panic, hangs exactly when the step does, and otherwise leaves such a state. |
| RuntimeLaws.StoreCallDoes | pallets/phala/src/stakepool.rs:460-662 | A method proved against a function on the stake pool's storage does what the step on both pallets says. |
| RuntimeLaws.Perform | pallets/phala/src/stakepool.rs:460-662 | Whatever the action, the object node does what the step says. |
| RuntimeLaws.PerformAll | pallets/phala/src/stakepool.rs:460-662 | The object node performs any sequence of actions as the run of the functions says, and stops short only where a step panics or hangs. |
| RuntimeLaws.Launch | pallets/phala/src/stakepool.rs:460-662 | A new node sent an admissible sequence of actions whose withdrawals keep requests owned never panics; it performs them all, ending with the invariant, or comes to one that hangs. |
| StepLaws.StepKeeps | pallets/phala/src/stakepool.rs:71-203 | Each single call, callback, block end or outside event keeps the invariant. |
| SafetyLaws.StepSafe | pallets/phala/src/stakepool.rs:773-904 | No step panics on owned requests, whatever its arguments; it hangs if and only if the queue it goes on to serve does; requests stay owned unless a withdrawal leaves one uncovered. |
| SafetyLaws.HangsWhen | pallets/phala/src/stakepool.rs:846-866 | A step hangs if its pool, with the stake in, has a waiting request, free stake past dust and a share that it cannot buy; and only if 1001 pico do not buy a share. |
| SafetyLaws.HangsNext | pallets/phala/src/stakepool.rs:846-904 | On owned requests a step hangs, too, if its pool's free stake, with the stake in, pays for a part of the first request and what the payment leaves is past dust and buys no share. |
| PanicLaws.StepPanicsWhen | pallets/phala/src/stakepool.rs:875-880 | From any state with the invariant, requests owned or not, an admissible step panics if and only if it is a contribution or a reclaim that goes through and whose pool's queue comes to a round serving more shares than its requester owns. |
| PanicLaws.EveryRunPanicsWhere | pallets/phala/src/stakepool.rs:875-880 | So it is at every step of every admissible run from the empty chain. |
| PanicLaws.QueuePanicsWhen | pallets/phala/src/stakepool.rs:837-904 | The loop panics if and only if it comes to such a round; it never returns an error. |
| PanicLaws.RoundPanicsWhen | pallets/phala/src/stakepool.rs:875-880 | A round panics exactly if more is served than the requester owns, or no share is left; otherwise it succeeds. |
| CallEffects.PriceIsGreatest | pallets/phala/src/stakepool.rs:1332-1336 | There is a price exactly if there are shares, and it is the greatest at which all shares are within the stake, in bits. |
| CallEffects.WithdrawServesMost | pallets/phala/src/stakepool.rs:773-834 | A withdrawal that is not refused serves at once as many of the shares as the free stake buys, all of them at a price of zero, and none if that is a thousand or less; it pays them (PaysOut: the pool's shares, total and free stake, the caller's shares, locked stake and rewards, its ledger, lock and balance, all else as it was); the rest, past dust, replaces the caller's request at the back of the queue and is listed under the present time. |
| CallEffects.WithdrawRefused | pallets/phala/src/stakepool.rs:557-571 | Exactly when a withdrawal is refused, with each error. |
| CallEffects.WithdrawWithoutPrice | pallets/phala/src/stakepool.rs:779-800 | In a pool without shares an accepted withdrawal fails the `expect`. |
| CallEffects.ReleasePaysOut | pallets/phala/src/stakepool.rs:796-808 | What it comes to for a staker to give up shares: the slash settled, the payment from free and total stake, dust dropped and slashed. |
| CallEffects.ContributeRefused | pallets/phala/src/stakepool.rs:486-512 | Exactly when a contribution is refused, with each error: too small, unfunded, no pool, total stake and amount above a cap, or a bankrupt pool. |
| CallEffects.ContributeAdds | pallets/phala/src/stakepool.rs:513-546 | Any other contribution settles the account, gives it the shares that the amount buys, locks the amount, and then serves the queue. |
| CallEffects.RoundPaysOut | pallets/phala/src/stakepool.rs:846-903 | A round pays the first request as far as the free stake goes and leaves the rest of it in front, unless that is dust. |
| CallEffects.StrangerDropped | pallets/phala/src/stakepool.rs:853-858 | A request of an account without a record is dropped. |
| CallEffects.QueueIsRounds | pallets/phala/src/stakepool.rs:837-904 | Serving a queue ends in a storage if and only if rounds, all at the first price, lead there and no further one is due; without shares nothing is done. |
| RewardEffects.CreditReaches | pallets/phala/src/stakepool.rs:711-732 | A reward to a pool with shares past dust raises the owner's reward by exactly the commission and, if the rest is past dust, the accumulator by the greatest step that the rest pays for on all shares; else nothing moves. |
| RewardEffects.RewardsInTurn | pallets/phala/src/stakepool.rs:1042-1061 | A round of rewards credits the workers' pools so one after the other, up to the first worker without a pool. |
| RewardEffects.StakersEarn | pallets/phala/src/utils/accumulator.rs:23-25 | Every staker can claim at least its part of that step more, less 2 pico, and nobody's claim changes without a step. |
| RewardEffects.RewardReachesStakers | pallets/phala/src/stakepool.rs:1351-1361 | Together the stakers can claim at least the rest of the reward more, less 2 pico each, as long as the rounding of step and shares comes to less than a pico; the exact bound is stated for all. |
| RewardEffects.ClaimRefused | pallets/phala/src/stakepool.rs:446-470 | Exactly when a claim is refused, with each error. |
| RewardEffects.ClaimTakesAll | pallets/phala/src/stakepool.rs:446-478 | A claim that is not takes all that the account could claim, as owner and as staker, to the target, and changes nothing else. |
| PoolEffects.CreateOpensEmpty | pallets/phala/src/stakepool.rs:267-292 | A new pool has the next number, its owner, and nothing in it. |
| PoolEffects.CapIsSet | pallets/phala/src/stakepool.rs:399-413 | The owner alone sets the cap, and not below the total stake. |
| PoolEffects.CommissionIsSet | pallets/phala/src/stakepool.rs:420-439 | The owner alone sets the commission. |
| PoolEffects.ReconcileLowers | pallets/phala/src/stakepool.rs:675-702 | Reconciling an account lowers its first request for more than it owns to what it owns, or removes it if that is dust, and does nothing else; exactly when it is refused. |
| PoolEffects.ReclaimGivesBack | pallets/phala/src/stakepool.rs:738-760 | A reclaim lowers the total stake by the slash, dropping dust, frees what comes back, no longer expects it, and then serves the queue. |
| PoolEffects.StopIsExpected | pallets/phala/src/stakepool.rs:1090-1097 | The pool of a stopped worker expects the stake less the slash, and nothing else changes. |
| PoolEffects.WorkerLeaves | pallets/phala/src/stakepool.rs:962-973 | A worker that leaves is off the assignments and off its pool's list, whose order stays. |
| MinerEffects.ReturnedIsItsPart | pallets/phala/src/mining.rs:131-147 | A miner gives back the part of its stake that v is of ve: never more, and less by 4 pico at most below 2^64. |
| MinerEffects.AddWorkerRefused | pallets/phala/src/stakepool.rs:304-350 | Exactly when adding a worker is refused, operator, score, pool, room and bindings included. |
| MinerEffects.StartRefused | pallets/phala/src/stakepool.rs:585-614 | Exactly when starting a miner is refused, minimal stake, greatest V and score included. |
| MinerEffects.StartLends | pallets/phala/src/mining.rs:726-780 | A started miner works with the stake lent and the V quoted, from now on, and nothing else changes. |
| MinerEffects.StopRefused | pallets/phala/src/stakepool.rs:622-642 | Exactly when stopping a worker is refused. |
| MinerEffects.StopCoolsDown | pallets/phala/src/mining.rs:786-814 | A stopped miner cools down from now on and its pool expects what it will give back; nothing else changes. |
| MinerEffects.ReclaimReadies | pallets/phala/src/stakepool.rs:646-662 | Exactly when a reclaim is refused; any other makes the miner ready and hands its stake, less the slash, to the pool. |
| MinerEffects.LeavingRefused | pallets/phala/src/stakepool.rs:359-381 | Exactly when taking a worker out of a pool is refused. |
| MinerEffects.UnbindRefused | pallets/phala/src/mining.rs:344-353 | Exactly when unbinding by the operator is refused. |
| MinerEffects.UnbindFrees | pallets/phala/src/mining.rs:700-720 | Unbinding stops a miner at work, and then frees it and its worker of each other and of the pool; nothing else changes. |
| MinerEffects.MessageReaches | pallets/phala/src/mining.rs:523-587 | After a gatekeeper's message a bound miner that was idle or unresponsive is idle if its worker recovered, else unresponsive if it went offline, else as it was; V and its time are those of the last settlement for its worker, and unchanged without one; all else of every miner is unchanged. |
| BlockEffects.BlockStopsOverdue | pallets/phala/src/stakepool.rs:1002-1031 | The end of a block stops exactly the miners at work of the pools listed under a time past the grace period that have an overdue request, and unlists those times; of the pools only what they expect changes, and nothing else at all. |
| BlockEffects.AllStop | pallets/phala/src/stakepool.rs:1019-1024 | Stopping a pool's workers stops exactly those at work. |
| ChainLaws.GenesisOk | pallets/phala/src/stakepool.rs:71-203 | The empty chain satisfies the invariant. |
| FixedPoint.RoundTrip | pallets/phala/src/utils/balance_convert.rs:18-24 | from_fixed(to_fixed(n)) is n if 5^12 divides n and n - 1 otherwise. |
| FixedPoint.MulIsMonotone | pallets/phala/src/utils/balance_convert.rs:27-32 | `mul` is monotone in both arguments. |
| FixedPoint.DivIsMonotone | pallets/phala/src/utils/balance_convert.rs:34-39 | `div` is monotone in the balance. |
| FixedPoint.MulDivAtMost | pallets/phala/src/utils/balance_convert.rs:27-39 | mul(div(x, y), y) <= x. |
| FixedPoint.MulDivGap | pallets/phala/src/utils/balance_convert.rs:27-39 | What is lost by dividing and multiplying back is at most 1 + y pico, up to a relative error of 2 * 10^12 / 2^64. |
| FixedPoint.MulSuperadditive | pallets/phala/src/utils/balance_convert.rs:27-32 | Two parts multiplied apart come to no more than their sum multiplied. |
| FixedPoint.MachineMulExact | pallets/phala/src/utils/balance_convert.rs:18-32 | On 128-bit U64F64 numbers `mul` computes the exact floor if and only if the balance and the product are below 2^64. |
| FixedPoint.MachineDivExact | pallets/phala/src/utils/balance_convert.rs:18-39 | The same for `div`. |
| FixedPoint.MachineFromFixedExact | pallets/phala/src/utils/balance_convert.rs:18-20 | The saturating `from_fixed` is exact if and only if its value is below 2^64. |
| Mining.ReturnedAtMost | pallets/phala/src/mining.rs:131-147 | `calc_final_stake` never returns more than the stake. |
| Mining.FullVReturnsAll | pallets/phala/src/mining.rs:131-147 | With v >= ve it returns the stake, less one pico unless 5^12 divides it. |
| Mining.ReturnedIsMonotone | pallets/phala/src/mining.rs:131-147 | The return grows with V. |
| PoolLaws.SettleRewardKeeps | pallets/phala/src/stakepool.rs:1339-1343 | Settling rewards never underflows and moves nothing but credit within what the pool owes. |
| PoolLaws.SettleSlashKeeps | pallets/phala/src/stakepool.rs:975-997 | Settling a slash keeps the desk's invariant and the account's cover. |
| PoolLaws.SlashSlack | pallets/phala/src/stakepool.rs:981-993 | What a settled slash leaves on the ledger is exactly uncollected slashed dust or what the currency failed to slash; the ledger never saturates. |
| PoolLaws.DepositKeeps | pallets/phala/src/stakepool.rs:1177-1194 | Adding stake keeps the stake backed, the shares agreed and rewards within 2 pico. |
| PoolLaws.RemoveStakeKeeps | pallets/phala/src/stakepool.rs:1207-1268 | Removing no more shares than owned always succeeds; the ledger falls by exactly what the record does, so its saturating subtraction never saturates. |
| PoolLaws.ReleaseKeeps | pallets/phala/src/stakepool.rs:793-808 | Settling and removing together keep the desk's invariant. |
| PriceLaws.SharesAreWorth | pallets/phala/src/stakepool.rs:1182-1186 | The shares given for a contribution are worth at most it, and less by about one pico and one price only. |
| PriceLaws.ServedIsPayable | pallets/phala/src/stakepool.rs:779-790 | What is served at once never costs more than the free stake. |
| PriceLaws.SplitLosesDust | pallets/phala/src/stakepool.rs:790-794 | A request splits into served and queued shares, losing at most dust. |
| PriceLaws.ReleasePays | pallets/phala/src/stakepool.rs:1219-1267 | A payable release pays the shares' worth, within what is locked, from free and total stake alike, except that a remainder of dust goes too. |
| PriceLaws.ServesUntilDone | pallets/phala/src/stakepool.rs:846-904 | The queue loop stops only when no more than dust is free or no request waits. |
| PriceLaws.ContributionBuysNondust | pallets/phala/src/stakepool.rs:1182-1186 | Every contribution buys shares past dust exactly at the prices up to 9990009.98 or zero. |
| PriceLaws.SharesStayClean | pallets/phala/src/stakepool.rs:1177-1268 | A release leaves no staker dust shares; a contribution does if and only if it is the first and buys some, but only dust. |
| PriceLaws.TotalSharesClean | pallets/phala/src/stakepool.rs:1234-1239 | If no staker's shares are dust, the pool's total is not. |
| PriceLaws.ContributeRespectsCap | pallets/phala/src/stakepool.rs:483-505 | After a contribution the pool is within its cap. |
| PriceLaws.DistributionReaches | pallets/phala/src/utils/accumulator.rs:23-25 | A distribution raises each staker's claim by its part of the accumulator's step, but for 2 pico. |
| PriceLaws.StepIsGreatest | pallets/phala/src/utils/accumulator.rs:23-25 | One more unit of the accumulator would distribute more than the reward. |
| PriceLaws.ClaimPays | pallets/phala/src/stakepool.rs:446-478 | A claim pays exactly what owner and staker could claim and leaves nothing to claim. |
| PriceLaws.RewardsReachPools | pallets/phala/src/stakepool.rs:1042-1061 | If all workers are assigned, every pool receives the payouts of its workers. |
| PriceLaws.RewardsReceived | pallets/phala/src/stakepool.rs:1042-1061 | A pool receives exactly the payouts of its workers in front of the first worker without a pool, and all of them if and only if those behind come to nothing. |
| PriceLaws.RewardsStopAtUnassigned | pallets/phala/src/stakepool.rs:1047-1056 | As written, an unassigned worker ends the round: nothing behind it is credited. |
| WorthLaws.QueueKeepsValue | pallets/phala/src/stakepool.rs:838-841 | Serving the queue takes from any shares that are still there, in worth at the share price, no more than 2 bits and a bit a token's number of shares for each round; only if dust of stake is left and dropped may shares worth dust lose it. |
| WorthLaws.ContributeKeepsValue | pallets/phala/src/stakepool.rs:486-546 | A contribution, the queue it makes be served included, takes no more than that and a bit for every unit of the price. |
| WorthLaws.WithdrawKeepsValue | pallets/phala/src/stakepool.rs:557-577 | A withdrawal takes no more than the rounding from the shares that are left. |
| WorthLaws.DepositKeepsValue | pallets/phala/src/stakepool.rs:1177-1194 | Adding stake dilutes nobody but for that rounding. |
| WorthLaws.DepositRaisesValue | pallets/phala/src/stakepool.rs:1177-1194 | It adds to the others no more than its part too small for a share. |
| WorthLaws.ReleaseKeepsValue | pallets/phala/src/stakepool.rs:1207-1268 | Taking shares out takes nothing from the others but the rounding. |
| WorthLaws.ReleaseRaisesValue | pallets/phala/src/stakepool.rs:1207-1268 | It adds to the others no more than the released shares' worth that is not paid and the shares dropped as dust, but for about a pico and two units of the price. |
| WorthLaws.RoundingIsSmall | pallets/phala/src/utils/balance_convert.rs:18-20 | Below 2^62 shares the rounding of one operation comes to a pico at most. |
| PriceLaws.StuckNextHangs | pallets/phala/src/stakepool.rs:846-904 | A queue whose first round leaves stake past dust that buys no share never ends. |
| Tokenomic.VeCoversStake | pallets/phala/src/mining.rs:888-897 | `ve` is at least the stake, so it is positive for a positive stake. |
| Tokenomic.VeOfTrusted | pallets/phala/src/mining.rs:888-911 | For a worker of score one V starts at re times the stake and its rig's cost. |
| Tokenomic.VeIsBetween | pallets/phala/src/mining.rs:888-911 | For any other it starts no higher, and never below the stake and that cost. |
| Tokenomic.ScoreOfLevel | pallets/phala/src/mining.rs:922-931 | The score is four fifths at level 4, seven tenths at level 5, to the nearest bit, and one otherwise. |
| Tokenomic.MinimalStakeNondust | pallets/phala/src/mining.rs:880-885 | The minimal stake is past dust exactly from a product of k and the root on. |
| Tokenomic.RootIsUnique | pallets/phala/src/mining.rs:880-885 | The bounds of the square root determine it. |
| Scenes.DefaultQuotes | pallets/phala/src/mining.rs:880-911 | The quote of the runs is what the default parameters give for a performance of 64, whose root is 8. |
| VaultLaws.SaveKeepsBooks | pallets/phala/src/stakepool.rs:1234-1239 | A fair change of one staker leaves the books of all pools and accounts balanced. |
| VaultLaws.SaveKeepsSolvent | pallets/phala/src/stakepool.rs:1339-1375 | It leaves every pool's rewards covered. |
| VaultLaws.SaveKeepsCovered | pallets/phala/src/stakepool.rs:1105-1126 | It leaves every account's ledger covering its stakes. |
| VaultLaws.ShareAtMostTotal | pallets/phala/src/stakepool.rs:1234-1239 | A staker's shares never exceed the total. |
| CallLaws.ContributeKeeps | pallets/phala/src/stakepool.rs:486-546 | A contribution keeps the books and touches one pool only, whose queue is served from the front. |
| CallLaws.ContributeOwned | pallets/phala/src/stakepool.rs:486-546 | A contribution never panics, leaves every request owned, and hangs if and only if it is accepted and the queue of the pool with its stake hangs. |
| CallLaws.WithdrawKeeps | pallets/phala/src/stakepool.rs:557-577 | A withdrawal never panics or hangs, keeps the books and re-queues as stated. |
| CallLaws.WithdrawOwned | pallets/phala/src/stakepool.rs:773-834 | After a withdrawal all requests are owned if and only if it re-queued a remainder or left the caller shares for its pending request. |
| CallLaws.WithoutContents | pallets/phala/src/stakepool.rs:811-815 | `retain` drops the caller's requests and nothing else. |
| RewardLaws.ClaimKeeps | pallets/phala/src/stakepool.rs:446-478 | A claim never panics and keeps the books. |
| RewardLaws.NewRewardWithinReward | pallets/phala/src/stakepool.rs:711-732 | A new reward adds no more to what owner and stakers hold than it is worth. |
| RewardLaws.DistributionWithinReward | pallets/phala/src/utils/accumulator.rs:23-25 | Over all stakers a distribution adds at most the reward. |
| RewardLaws.OnRewardKeeps | pallets/phala/src/stakepool.rs:1042-1061 | A round of rewards never meets a missing pool and keeps the books. |
| RewardLaws.SharesNeverOverdraw | pallets/phala/src/stakepool.rs:1332-1336 | The stakers' shares at the share price are worth no more than the stake. |
| RewardLaws.PriceIsFair | pallets/phala/src/stakepool.rs:1332-1336 | All shares at the share price are worth no more than the stake. |
| RewardLaws.RewardsNeverOverdraw | pallets/phala/src/stakepool.rs:1339-1375 | Claims and payments never exceed what was received plus 2 pico a share change. |
| ReclaimLaws.ReclaimedBacked | pallets/phala/src/stakepool.rs:738-760 | A reclaim leaves the stake conserved if and only if nothing is slashed, the pool has shares, or the slash leaves no dust; a run is admissible under exactly this condition. |
| ReclaimLaws.SlashWithoutSharesBreaksBacking | pallets/phala/src/stakepool.rs:1271-1289 | Concrete case in which a slash of a pool without shares breaks conservation by 999 pico. |
| ReclaimLaws.HandleReclaimKeeps | pallets/phala/src/stakepool.rs:738-760 | A reclaim hands the stake back, serves the queue from the front and keeps the books. |
| ReclaimLaws.HandleReclaimOwned | pallets/phala/src/stakepool.rs:738-760 | On owned requests it hangs if and only if the queue with the stake taken back does, and otherwise succeeds with requests owned. |
| ReclaimLaws.LoweredAt | pallets/phala/src/stakepool.rs:687-699 | The first exceeding request, and only it, is lowered or removed. |
| ReclaimLaws.CreateKeeps | pallets/phala/src/stakepool.rs:267-292 | A new pool keeps the books. |
| QueueLaws.ServesInOrder | pallets/phala/src/stakepool.rs:837-904 | The remaining queue is a suffix of the old one with only its head reduced. |
| QueueLaws.OwnedQueueServed | pallets/phala/src/stakepool.rs:837-904 | On owned requests the loop never panics, and it fails to end exactly when it reaches a round whose free stake buys no share. |
| QueueLaws.StuckAtOnceHangs | pallets/phala/src/stakepool.rs:846-866 | With a request waiting, free stake past dust and no share to be had for it, the queue hangs: the guard a caller can check. |
| QueueLaws.HangingQueueIsDear | pallets/phala/src/stakepool.rs:846-866 | A queue hangs only if 1001 pico do not buy a share. |
| QueueLaws.VainRoundsRepeat | pallets/phala/src/stakepool.rs:846-904 | On any desk, owned or not: after a round without progress and one more that does not fail, every number of further rounds succeeds and changes nothing in the pool. |
| QueueLaws.ProgressUnlessStarved | pallets/phala/src/stakepool.rs:846-904 | A round makes the queue smaller exactly when the free stake buys a share. |
| QueueLaws.StarvedFrontRepeats | pallets/phala/src/stakepool.rs:846-904 | A round that buys no share repeats for ever. |
| QueueLaws.NeverStarved | pallets/phala/src/stakepool.rs:846-866 | If 1001 pico buy a share, no round is starved. |
| QueueLaws.FrontPanicsWhen | pallets/phala/src/stakepool.rs:875-880 | The `expect` of a round fires exactly when more is served than the requester owns. |
| QueueLaws.RoundMayServeDust | pallets/phala/src/stakepool.rs:866-871 | In one round: the debug assertion on served dust fails at price one with 1001 pico free, which serve 1000 shares. |
| QueueLaws.RoundServesNondust | pallets/phala/src/stakepool.rs:866-871 | The assertion holds of a round if and only if its request is no dust and the price is zero or its free stake buys shares past dust. |
| QueueLaws.PriceServesNondust | pallets/phala/src/stakepool.rs:866-871 | It holds for every free stake past dust exactly at the prices of at most 18446744072710550617 / 2^64, just below one. |
| QueueLaws.ServeQueueKeeps | pallets/phala/src/stakepool.rs:837-904 | Serving the queue keeps the books and leaves other pools alone. |
| QueueLaws.OwnedRoundSucceeds | pallets/phala/src/stakepool.rs:846-904 | A round on an owned request succeeds and leaves requests owned. |
| ExpiryLaws.HasExpiredMeans | pallets/phala/src/stakepool.rs:1383-1410 | True exactly when the price is positive and some request past the grace period cannot be paid after all in front of it. |
| ExpiryLaws.ExpiredBeyondMeans | pallets/phala/src/stakepool.rs:1398-1409 | The budget scan on an ordered queue agrees with that specification. |
| ExpiryLaws.TimeAddedKeeps | pallets/phala/src/stakepool.rs:932-946 | The list of times stays strictly increasing and gains the present time. |
| ExpiryLaws.PoolListedContents | pallets/phala/src/stakepool.rs:947-956 | The pool is listed under the present time and all else stays listed. |
| ExpiryLaws.RequeuedIndexed | pallets/phala/src/stakepool.rs:811-825 | A re-queued request is listed and the queue stays ordered by time. |
| ExpiryLaws.ShorterQueuesIndexed | pallets/phala/src/stakepool.rs:1391-1394 | Serving requests leaves the index valid without removing pools from it. |
| FinalizeLaws.FinalizeKeeps | pallets/phala/src/stakepool.rs:1002-1031 | A block's end never fails an `expect`; afterwards no listed time is past the grace period, every pool found expired has idle workers only, and so has every listed pool that still has an expired request. |
| FinalizeLaws.ForceWithdrawKeeps | pallets/phala/src/stakepool.rs:1010-1030 | The loop over the times deals with every pool listed under an expired one. |
| FinalizeLaws.ForcePoolsKeeps | pallets/phala/src/stakepool.rs:1016-1027 | The pools of one time are each checked or stopped. |
| FinalizeLaws.StopAllKeeps | pallets/phala/src/stakepool.rs:1019-1024 | Stopping a pool's workers leaves all of them idle, whatever errors are ignored. |
| FinalizeLaws.PoppedKeeps | pallets/phala/src/stakepool.rs:1014-1029 | Taking an expired time off the index keeps every younger request listed. |
| MinerLaws.StopEffects | pallets/phala/src/mining.rs:786-814 | Stopping succeeds exactly on bound miners at work and tells the pool what they will return; OnlineMiners never underflows. |
| MinerLaws.StopKeeps | pallets/phala/src/mining.rs:786-814 | Stopping keeps the invariant. |
| MinerLaws.StartKeeps | pallets/phala/src/stakepool.rs:585-614 | Starting a miner lends it free stake and keeps the invariant. |
| MinerLaws.StartEffects | pallets/phala/src/mining.rs:726-780 | Starting never panics and succeeds only on bound, ready miners without stake, with enough free stake. |
| MinerLaws.ReclaimEffects | pallets/phala/src/mining.rs:610-634 | Reclaiming succeeds exactly on miners that cooled down and returns the predicted stake and slash. |
| MinerLaws.ReclaimKeeps | pallets/phala/src/stakepool.rs:646-662 | Reclaiming keeps the invariant. |
| MinerLaws.ReleasingCoversReturn | pallets/phala/src/stakepool.rs:751-757 | A pool always expects at least what a reclaim returns, so its saturating reduction never saturates. |
| MinerLaws.StakeWithinPool | pallets/phala/src/mining.rs:622-634 | A cooling miner's stake is part of its pool's stakes, and what remains is no dust. |
| WorkerLaws.AddWorkerKeeps | pallets/phala/src/stakepool.rs:304-350 | Adding a worker keeps assignment, list and binding in step. |
| WorkerLaws.AddWorkerEffects | pallets/phala/src/mining.rs:647-692 | It never panics and succeeds only on an unbound worker whose old stake is settled. |
| WorkerLaws.UnbindEffects | pallets/phala/src/mining.rs:700-720 | Unbinding never panics: a miner at work is stopped first, then released. |
| WorkerLaws.UnbindKeeps | pallets/phala/src/stakepool.rs:962-973 | After unbinding the invariant holds, and miner and worker are free. |
| WorkerLaws.RemovedContents | pallets/phala/src/stakepool.rs:1378-1380 | `retain` removes the worker and nothing else. |
| MessageLaws.MessageKeeps | pallets/phala/src/mining.rs:523-587 | A gatekeeper message that settles no cooling miner never panics and keeps the invariant. |
| MessageLaws.SettlementKeepsPrediction | pallets/phala/src/mining.rs:56-70 | The predictions survive a settlement if and only if it meets no cooling miner or leaves its return unchanged. |
| MessageLaws.ReportsKeep | pallets/phala/src/mining.rs:533-575 | Reports change the state of miners at work only, and keep them at work. |
| Records.PoolRecord.AddStake | pallets/phala/src/stakepool.rs:1177-1194 | Changes pool and staker in place as Pool.AddStake says. |
| Records.PoolRecord.RemoveStake | pallets/phala/src/stakepool.rs:1207-1268 | Changes both records as Pool.RemoveStake says, or returns None and changes nothing. |
| Records.PoolRecord.Slash | pallets/phala/src/stakepool.rs:1271-1289 | Lowers the total stake as Pool.Slash says. |
| Records.PoolRecord.SettleSlash | pallets/phala/src/stakepool.rs:1316-1329 | Lowers the staker's locked stake to what the price leaves and returns the difference. |
| Records.PoolRecord.SettleUserPendingReward | pallets/phala/src/stakepool.rs:1339-1343 | Credits the pending reward as Pool.SettleReward says. |
| Records.PoolRecord.DistributeReward | pallets/phala/src/stakepool.rs:1351-1361 | Raises the accumulator as Pool.Distribute says. |
| Records.PoolRecord.TakeBack | pallets/phala/src/stakepool.rs:738-757 | Slashes, frees and releases as Vault.Reclaimed says. |
| Records.PoolRecord.RemoveWorker | pallets/phala/src/stakepool.rs:1378-1380 | The loop leaves the list without the worker. |
| Records.PoolRecord.RetainOthers | pallets/phala/src/stakepool.rs:813-815 | The loop leaves the queue without the user's requests. |
| Records.PoolRecord.LowerRequest | pallets/phala/src/stakepool.rs:687-699 | The loop finds and lowers the first exceeding request. |
| Records.PoolRecord.FindExpiredWithdrawal | pallets/phala/src/stakepool.rs:1383-1410 | The loop over the budget computes Vault.HasExpiredWithdrawal. |
| Ledger.Accounts.Accrue | pallets/phala/src/stakepool.rs:1105-1110 | Raises ledger and lock of one account by the amount, nobody else's. |
| Ledger.Accounts.Reduce | pallets/phala/src/stakepool.rs:1112-1122 | Lowers ledger and lock of one account, saturating, and slashes the dust. |
| Ledger.Accounts.Slash | pallets/phala/src/stakepool.rs:984-986 | Removes from one account some amount within what is asked and there. |
| StakePallet.StakePools.MaybeSettleSlash | pallets/phala/src/stakepool.rs:975-997 | Settles one staker's slash as Pool.SettleSlash says. |
| StakePallet.StakePools.ReleaseShares | pallets/phala/src/stakepool.rs:796-808 | Settles, removes and reduces as Pool.Release says. |
| StakePallet.StakePools.TryWithdraw | pallets/phala/src/stakepool.rs:773-834 | Serves, queues and lists as Pool.TryWithdraw and Vault.AddToIndex say. |
| StakePallet.StakePools.MaybeAddWithdrawQueue | pallets/phala/src/stakepool.rs:932-957 | Lists time and pool as Vault.TimeAdded and PoolListed say. |
| StakePallet.StakePools.ServeFrontRequest | pallets/phala/src/stakepool.rs:852-903 | Serves the head request as Pool.ServeFront says. |
| StakePallet.StakePools.ServeRound | pallets/phala/src/stakepool.rs:846-903 | One round of the loop is Vault.ServeOne, requests of unknown stakers dropped. |
| StakePallet.StakePools.TryProcessWithdrawQueue | pallets/phala/src/stakepool.rs:837-904 | The while loop computes Vault.ProcessQueue; where the loop never ends it answers so. |
| StakePallet.StakePools.Create | pallets/phala/src/stakepool.rs:267-292 | Inserts the empty pool under the next id. |
| StakePallet.StakePools.SetCap | pallets/phala/src/stakepool.rs:399-413 | Sets the cap or fails as Vault.SetCap says. |
| StakePallet.StakePools.SetPayoutPref | pallets/phala/src/stakepool.rs:420-439 | Sets the commission or fails as Vault.SetPayoutPref says. |
| StakePallet.StakePools.ClaimRewards | pallets/phala/src/stakepool.rs:446-478 | Pays and records as Vault.ClaimRewards says, all errors included. |
| StakePallet.StakePools.Contribute | pallets/phala/src/stakepool.rs:486-546 | Checks, settles, adds, locks and serves the queue as Vault.Contribute says, all errors included. |
| StakePallet.StakePools.Withdraw | pallets/phala/src/stakepool.rs:557-577 | Checks and withdraws as Vault.Withdraw says, all errors included. |
| StakePallet.StakePools.WithdrawShares | pallets/phala/src/stakepool.rs:557-577 | The part of Withdraw past the checks: storage, queue and index are those of Pool.TryWithdraw written back. |
| StakePallet.StakePools.ReconcileWithdrawQueue | pallets/phala/src/stakepool.rs:675-702 | Lowers the request as Vault.Reconcile says. |
| StakePallet.StakePools.HandlePoolNewReward | pallets/phala/src/stakepool.rs:711-732 | Splits commission and distribution as Vault.NewReward says. |
| StakePallet.StakePools.OnReward | pallets/phala/src/stakepool.rs:1042-1061 | The loop computes Vault.OnReward, early return included. |
| StakePallet.StakePools.OnStopped | pallets/phala/src/stakepool.rs:1090-1097 | Raises the releasing stake as Vault.OnStopped says. |
| StakePallet.StakePools.RemoveWorkerFromPool | pallets/phala/src/stakepool.rs:962-973 | Takes assignment and list entry away as Vault.RemoveWorkerFromPool says. |
| StakePallet.StakePools.HandleReclaim | pallets/phala/src/stakepool.rs:738-760 | Takes the stake back and serves the queue as Vault.HandleReclaim says. |
| MiningPallet.Miners.Bind | pallets/phala/src/mining.rs:647-692 | Binds both ways or fails as Mining.Bind says. |
| MiningPallet.Miners.StartMining | pallets/phala/src/mining.rs:726-780 | Starts the miner or fails as Mining.StartMining says. |
| MiningPallet.Miners.StopMiner | pallets/phala/src/mining.rs:786-805 | Cools the miner down and predicts its slash as Mining.StopMiner says. |
| MiningPallet.Miners.Reclaim | pallets/phala/src/mining.rs:622-634 | Readies the miner and computes its slash as Mining.ReclaimMiner says. |
| MiningPallet.Miners.Unbind | pallets/phala/src/mining.rs:712-713 | Removes both bindings. |
| MiningPallet.Miners.Report | pallets/phala/src/mining.rs:533-575 | The loop computes Mining.AllReported. |
| MiningPallet.Miners.Settle | pallets/phala/src/mining.rs:577-608 | The loop computes Mining.AllSettled. |
| Runtime.Node.AddWorker | pallets/phala/src/stakepool.rs:304-350 | Both pallets change as Chain.AddWorker says. |
| Runtime.Node.StopMining | pallets/phala/src/mining.rs:786-814 | Stop and callback change both pallets as Chain.StopMining says. |
| Runtime.Node.UnbindMiner | pallets/phala/src/mining.rs:700-720 | Stop, unbinding and cleanup as Chain.UnbindMiner says. |
| Runtime.Node.RemoveWorker | pallets/phala/src/stakepool.rs:359-381 | As Chain.RemoveWorker says. |
| Runtime.Node.Unbind | pallets/phala/src/mining.rs:344-353 | As Chain.Unbind says. |
| Runtime.Node.StartMining | pallets/phala/src/stakepool.rs:585-614 | As Chain.StartPoolMining says. |
| Runtime.Node.StopWorker | pallets/phala/src/stakepool.rs:622-642 | As Chain.StopPoolMining says. |
| Runtime.Node.ReclaimWorker | pallets/phala/src/stakepool.rs:646-662 | As Chain.ReclaimPoolWorker says. |
| Runtime.Node.OnGatekeeperMessage | pallets/phala/src/mining.rs:523-587 | Reports, settlements and rewards as Chain.GatekeeperMessage says. |
| Runtime.Node.StopAllWorkers | pallets/phala/src/stakepool.rs:1019-1024 | The loop ignores errors as Chain.StopAll says. |
| Runtime.Node.ForceOldest | pallets/phala/src/stakepool.rs:1012-1029 | One round of the loop over the times pops the oldest and deals with its pools as Chain.ForceWithdraw does. |
| Runtime.Node.ForceListed | pallets/phala/src/stakepool.rs:1016-1027 | The loop over one time's pools computes Chain.ForcePools. |
| Runtime.Node.OnFinalize | pallets/phala/src/stakepool.rs:1002-1031 | The loop over a copy of the times, written back at the end, computes Chain.Finalize. |
| Runtime.ForcePoolsRetimed | pallets/phala/src/stakepool.rs:1004-1031 | Stopping pools does not depend on the list of times that is still unwritten. |
| Delivery.DeliveredInOrder | pallets/phala/src/mq.rs:62-91 | After any run of sender, relayer and chain, the log of an off-chain sender is exactly the prefix, of length OffchainIngress, of what it enqueued, and every later message not dropped by a dummy channel is still queued. |
| Delivery.NothingLost | crates/phala-mq/src/send_queue.rs:53-82 | Without dummy channels every message ever enqueued is dispatched at its position or still queued. |
| Delivery.HeadIsAccepted | pallets/phala/src/mq.rs:62-91 | The next expected message is in the queue and is accepted exactly when its topic is valid and its signature checks. |
| Delivery.HoleBlocks | crates/phala-mq/src/send_queue.rs:60-82 | A sequence number used up by a dummy channel that the chain has not passed is never passed. |
| Delivery.StepKeeps | pallets/phala/src/mq.rs:62-91 | Every step, with arbitrary submissions, keeps both ends in agreement. |
| Delivery.HoldsKept | crates/phala-mq/src/send_queue.rs:123-129 | Purging with a sequence the chain has reached loses no unaccepted message. |
| Delivery.QueuedOnce | pallets/phala/src/mq.rs:149-152 | Queued pallet messages are dispatched once, in order, at the next block. |
| Delivery.OutboundOfBlock | pallets/phala/src/mq.rs:125-172 | Within a block the outbound messages are exactly those dispatched since it began that leave the chain, in order. |
| Delivery.RefusedWhy | pallets/phala/src/mq.rs:62-91 | Exactly when a submission is refused, with each error. |
| SendQueue.MessageSendQueue.EnqueueMessage | crates/phala-mq/src/send_queue.rs:53-82 | Signs with the channel's sequence and appends, or only counts in dummy mode. |
| SendQueue.MessageSendQueue.SetDummyMode | crates/phala-mq/src/send_queue.rs:84-88 | Sets the flag of one channel. |
| SendQueue.MessageSendQueue.MessagesOf | crates/phala-mq/src/send_queue.rs:106-112 | Returns the sender's queue, empty if unknown. |
| SendQueue.MessageSendQueue.Retain | crates/phala-mq/src/send_queue.rs:127-127 | The loop keeps exactly the messages from a sequence on. |
| SendQueue.MessageSendQueue.Purge | crates/phala-mq/src/send_queue.rs:123-129 | The loop purges every channel with its own sequence. |
| MqPallet.Pallet.SyncOffchainMessage | pallets/phala/src/mq.rs:62-91 | Accepts only a well-formed, signed message with the expected sequence; every refusal leaves the state. |
| MqPallet.Pallet.DispatchMessage | pallets/phala/src/mq.rs:125-134 | Logs the message and outputs it if its topic leaves the chain. |
| MqPallet.Pallet.QueueBoundMessage | pallets/phala/src/mq.rs:149-152 | Appends to the queue for the next block. |
| MqPallet.Pallet.OnInitialize | pallets/phala/src/mq.rs:161-172 | The loop dispatches the queued messages after clearing the output. |
| CheckSeq.TagOrderIsSound | pallets/phala/src/mq/check_seq.rs:70-128 | In any duplicate-free order that respects the tags, every transaction passes `pre_dispatch` when its turn comes. |
| CheckSeq.GateIsExact | pallets/phala/src/mq/check_seq.rs:70-95 | The gate lets a well-formed message through exactly if the chain would accept it, and tells stale from future ones. |
| CheckSeq.PoolAdmits | pallets/phala/src/mq/check_seq.rs:96-128 | The pool refuses exactly the stale messages, and requires the tag before of those past the expected one. |
| CheckSeq.ProvidesOwnTag | pallets/phala/src/mq/check_seq.rs:112-127 | A message provides its own tag and no other. |
| CheckSeq.StaysContiguous | pallets/phala/src/mq/check_seq.rs:112-127 | Along such an order exactly the sequences from the expected one up to the executed one have been provided. |
| CheckSeq.PoolOrderDelivers | pallets/phala/src/mq/check_seq.rs:70-128 | The chain then accepts every well-formed message and logs them in that order. |
| CheckSeq.GetMqSeq | crates/phala-node-rpc-ext/src/mq_seq.rs:52-85 | All sequences from the state's up to the result are provided by ready transactions; on ascending lists the result is the least that is not. |
| MergeOrder.MergesInOrder | crates/phala-mq/src/dispatcher.rs:182-217 | Repeated `select!` among arbitrary dispatches takes exactly the messages of the subscribed topics in dispatch order, none lost or repeated, and nothing only when none is left. |
| MergeOrder.SelectTakesNext | crates/phala-mq/src/dispatcher.rs:182-217 | One select takes the next message of that order. |
| MergeOrder.DispatchKeeps | crates/phala-mq/src/dispatcher.rs:73-91 | A dispatch extends that order and the one inbox on its topic. |
| MergeRefinement.DispatchTo | crates/phala-mq/src/dispatcher.rs:73-91 | Dispatch on the dispatcher object is the dispatch step of the merge, for the receivers that stand for its inboxes. |
| MergeRefinement.SelectFrom | crates/phala-mq/src/dispatcher.rs:182-217 | Select on the channel objects is the select step of the merge and returns what it takes. |
| MergeRefinement.SubscribeAll | crates/phala-mq/src/dispatcher.rs:54-63 | Subscribing to different topics gives receivers that stand for the empty inboxes. |
| MergeRefinement.Merge | crates/phala-mq/src/dispatcher.rs:73-217 | Any sequence of dispatches and selects on the objects is the run of the merge. |
| MergeRefinement.MergeTopics | crates/phala-mq/src/dispatcher.rs:54-217 | So on the objects: what the selects take is the beginning of what was dispatched on the topics, in order, and all of it once a select finds nothing. |
| Dispatcher.ChoiceIsLeast | crates/phala-mq/src/dispatcher.rs:186-200 | The choice is the first receiver with the least number, or the last one whose senders have gone. |
| Dispatcher.ChoiceMeans | crates/phala-mq/src/dispatcher.rs:182-217 | In what the receivers hold: nothing is chosen exactly if all are empty and have senders, one without senders if there is one, and else one that holds the least number. |
| Dispatcher.Select | crates/phala-mq/src/dispatcher.rs:182-217 | The loop peeks at all receivers and takes from the chosen one only. |
| Dispatcher.MessageDispatcher.Subscribe | crates/phala-mq/src/dispatcher.rs:54-63 | Adds a fresh, empty channel to the topic. |
| Dispatcher.MessageDispatcher.Dispatch | crates/phala-mq/src/dispatcher.rs:73-91 | Numbers the message, sends it to every live subscriber of its topic, lets the others go and counts. |
| Dispatcher.MessageDispatcher.SendAll | crates/phala-mq/src/dispatcher.rs:78-88 | The retain loop sends to every live channel once and keeps exactly those channels, in order. |
| Mpsc.Channel.Send | crates/phala-mq/src/simple_mpsc.rs:37-46 | Appends unless the receiver has gone. |
| Mpsc.Channel.TryNext | crates/phala-mq/src/simple_mpsc.rs:81-89 | Pops the head, or tells an empty channel from one without senders. |
| Mpsc.Channel.Clear | crates/phala-mq/src/simple_mpsc.rs:48-51 | Empties the channel and counts what it dropped. |
| Mpsc.Channel.CloneSender | crates/phala-mq/src/simple_mpsc.rs:54-59 | One more sender. |
| Mpsc.Channel.DropSender | crates/phala-mq/src/simple_mpsc.rs:61-69 | One sender less. |
| Mpsc.Channel.DropReceiver | crates/phala-mq/src/simple_mpsc.rs:113-117 | The receiver has gone. |
| Dispatcher.MessageDispatcher.ResetLocalIndex | crates/phala-mq/src/dispatcher.rs:93-95 | Numbering starts again. |
| Mpsc.Channel.PeekInd | crates/phala-mq/src/simple_mpsc.rs:102-110 | Tells the head's number, an empty channel and a channel without senders apart, taking nothing. |
| Migration.RemovePoolDust | pallets/phala/src/stakepool/migrations.rs:140-212 | Every staker loses its dust shares and dust stake and nothing else; every pool keeps its total and free stake if the total is past dust and else has neither, keeps its terms, owner, rewards, workers and releasing stake, and one request a user; share sums stay exact, accounts stay covered, and what the miners hold stays the rest of each pool's stake. |
| Migration.StrippedPoolIs | pallets/phala/src/stakepool/migrations.rs:180-209 | The same of one pool, with its shares less the dust. |
| Migration.StripBurnsDust | pallets/phala/src/stakepool/migrations.rs:161-168 | A staker's dust of stake is unlocked and slashed from its account, and no other account changes. |
| Migration.StakeStaysBacked | pallets/phala/src/stakepool/migrations.rs:184-190 | If a pool's stake was what is free and what its miners hold, it still is. |
| Migration.QueueIsClean | pallets/phala/src/stakepool/migrations.rs:190-205 | The queue keeps exactly each user's first nondust request, in the original order. |
| Migration.StrippedShares | pallets/phala/src/stakepool/migrations.rs:149-160 | Removing dust takes exactly the collected dust off the sum of the shares. |
| Migration.StripKeepsCovered | pallets/phala/src/stakepool/migrations.rs:161-168 | Removing stake dust keeps every account's ledger covering its stakes. |
| Migration.StripStakers | pallets/phala/src/stakepool/migrations.rs:147-175 | The first pass strips all stakers and collects the dust by pool. |
| Migration.StripPool | pallets/phala/src/stakepool/migrations.rs:180-209 | One pool: its dust shares, dust stake and unclean requests go. |
| Migration.StripPools | pallets/phala/src/stakepool/migrations.rs:180-209 | The second pass strips all pools. |
| Migration.RetainNondust | pallets/phala/src/stakepool/migrations.rs:190-192 | The loop keeps exactly the requests past dust, in order. |
| Migration.RetainFirst | pallets/phala/src/stakepool/migrations.rs:194-203 | The loop with its list of visited users keeps the first request of each user, in order. |
| Halving.HalvingsCount | pallets/phala/src/mining.rs:409-426 | From the start block, the first block puts a scheduled budget in place, and `count` blocks halve it exactly count / interval times. |
| Halving.NeverHalves | pallets/phala/src/mining.rs:409-426 | Without an interval or a budget a block's end only puts a scheduled budget in place. |
| Halving.BudgetBounds | pallets/phala/src/mining.rs:475-483 | After k halvings the budget's bits are never above initial * (3/4)^k and less than 4 units below. |
| Halving.Tokenomics.OnFinalize | pallets/phala/src/mining.rs:409-426 | Applies a scheduled update, then halves at the last block of an interval; with an interval set the subtraction underflows exactly before the start block. |
| Halving.Tokenomics.TriggerSubsidyHalving | pallets/phala/src/mining.rs:475-483 | Multiplies the budget by three quarters, or fails without parameters. |

## Left out

- Machine width in the steps themselves: the functions work on unbounded naturals, and saturating
  additions are additions. FixedPoint says exactly when the 128-bit operators agree, and MachineLaws that
  they do on pools below 2^62; the reward accumulator has no such bound, since it never falls while shares
  may come and go, so `MachineLaws.EveryRunFits` asks for the rewards of all shares together to be below 2^64.
- Underflows wrap in release builds and panic in debug builds; both are `Panic` here.
- What `Currency::slash` removes and what a `Permill` product comes to are parameters of every step,
  only bounded by what is asked, there and multiplied; transfers to the treasury are not modelled.
- The subsidy wallet: whether it has the funds is a parameter of a claim.
- Registry and benchmarks: a worker's operator and score are parameters; heartbeats and the benchmarks they
  update are not modelled.
- The quote of a start is a parameter of the step, bounded by its admissibility. Tokenomic gives the formulas
  that produce it; the square root is given by its bounds (`fixed_sqrt` is not part of this model), and a
  worker's confidence level is a parameter.
- Ledger and lock entries that hold zero are removed rather than stored; both read as zero.
- Sub-account hashes and pool tags are injective constructors; signatures are a verdict per message,
  and `Delivery` assumes that no signature is forged.
- Subscribers that send messages while one is dispatched: such messages have no off-chain origin and
  may come between any two steps instead.
- Events, weights, logging, serialization, attestation and randomness.
- Root-only test calls (`force_start_mining`, `force_stop_mining`, `force_heartbeat`), which bypass the pool.
- `cool_down_start <= now` is not tracked: a reclaim before that time is refused here.
- The preimages of sub-accounts kept from start to reclaim, which no modelled code reads.
- `MessageDispatcher::clear`, the receivers' `drain`, the typed receivers and `all_messages` views.
- Senders and receivers of a channel share one object; a dropped end is a call on it.
- The reward debts across the migration: it strips dust shares without resetting the debt, so reward theorems start after it.
- ServedLaws.StepIdles: states a weaker intent than the assertion it cites, on stake past dust beside requests; the assertion itself is AssertionLaws.FinalizeAssertsWhen.
- ServedLaws.EveryRunServes: likewise; along runs the assertion itself is AssertionLaws.EveryRunAsserts.
- PriceLaws.ContributeRespectsCap: is stated for one contribution and not over runs.
