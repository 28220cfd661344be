# Settlement corridor: the protocols that move money

A Dafny model of the parts of the settlement corridor where a mistake costs money: the payout
dispatcher (C5), the ledger it talks to (C1), the deposit watcher (C2) and the energy buffer (C4).
`dafny verify dfyconfig.toml` checks everything.

How it is built:

- **Concurrent protocols are state machines.** A run is any sequence of actions: it fixes the
  interleaving of callers, the crashes, and every answer of the database, S1, C1 and the chain. One
  SQL statement or one request is one step; a transaction keeps its row locks until it ends. The
  invariant is kept by every step, and the theorems are about every run.
- **The programs themselves are methods.** `Dispatcher`, `Orchestrator`, `Reconciler`, `Pool`,
  `Tracker`, `Watcher`, `Buffer`, `Store` and `BatchStore` are classes with the programs' loops,
  branches and in-place updates. Before each call out of the process a schedule lets the others act.
  `Dispatcher`, `Orchestrator`, `Reconciler` and `BatchStore` are proved to end exactly where the
  protocol's own thread ends under the same schedule (`Play`), and playing a schedule is a run
  (`PlayIsRun`), so what holds of every run holds of them. The others are proved against what the
  program promises.
- **A statement that is false of the code is kept false.** There is then a run or an input that
  breaks it, and a lemma that says exactly when it holds: a FAILED attempt that is on chain, a freeze
  that misses a broadcast, a second attempt of a frozen slot without an alert, a held order released
  after its conversion, a dispatch_state row nobody marks any more, a settlement retried with a new
  timestamp, a pending signature that is never resumed, a tolerance that wraps, agreed heights that
  fall, logs that repeat a position, two concurrent settlements of one batch.

| files | what they model |
|---|---|
| `Attempts`, `BroadcastProtocol`, `BroadcastSafety`, `BroadcastProgress`, `FailedTrust`, `BroadcastOutcomes`, `FreezeRace`, `Dispatcher` | one attempt: exactly-once broadcast |
| `Ledger`, `Lifecycle`, `LifecycleInvariant`, `LifecycleSafety`, `OrchestratorSafety`, `LifecycleRuns`, `ReconciliationSafety` | the life of an order against C1, and its invariant |
| `LifecycleTheorems`, `LedgerGrowth`, `Conservation`, `Books`, `SweepOrders`, `HeldRelease`, `MissedMarks`, `MissedMarkRuns`, `Stalled` | what follows for all runs |
| `LifecycleProgress`, `LeftAlone`, `Orchestrator`, `Reconciler` | what each program comes to, and the programs |
| `FinalizedQuorum`, `DepositHistory`, `FinalityTracker`, `DepositTruth`, `FinalDeposits`, `ScanCursors`, `LogAgreement` | the deposit watcher |
| `EnergyBuffer`, `EnergySafety`, `EnergyExpiry`, `EnergyOutcomes`, `EnergyReserve` | the energy buffer |
| `BatchProtocol`, `BatchSafety`, `BatchPayouts`, `BatchRuns`, `BatchOutcomes`, `Batches` | Sweep batches |
| `Slots` | slot choice |
| `Money`, `Base58` | decimal amounts and key text |

Two comments in the code promise what it does not do, and the model follows the code: a pending
signature is not resumed on the next tick, nor a rejected one followed by a new attempt
(dispatcher/internal/orchestrate/runloop.go:199-208), because only screened orders are dispatched and
this one is dispatching by then. `Stalled` proves it.

Assumptions, all of them visible in the code:

- SHA-256 is injective, a transaction is opaque bytes, hex text is the bytes it encodes.
- One orchestrator process at a time; any number of reconciliation passes and freeze handlers.
- C1 is modelled from its own source. Its other users make any legal move and post any balanced
  entry, except that they leave TRC20 liabilities to the dispatcher's entries and do not release a
  held order to screened once its conversion is posted. `HeldRelease` shows that this last one is
  needed, and exactly when.
- Only batches settle the orders of the Sweep queue. That callers are told what the chain did is
  assumed only where a theorem says so (`Truthful`).
- That one of the watcher's two log providers answers from the finalized chain is assumed only where
  a theorem says so (`OneHonest`), and only of the blocks the tracker reads again.

## Model

| member | source | states |
|---|---|---|
| `BroadcastSafety.OneTransactionPerAttempt` | dispatcher/internal/dispatch/broadcast.go:97-196 | in every run of any number of callers with crashes anywhere, two chain calls carry the same signed transaction if and only if they are for the same attempt row |
| `BroadcastSafety.AtMostOneMoreThanRollbacks` | dispatcher/internal/dispatch/broadcast.go:158-196 | in every run the chain accepts an attempt at most once more often than a transaction was rolled back after its chain call |
| `BroadcastSafety.NoCallAfterTerminal` | dispatcher/internal/dispatch/attempts.go:162-239 | once a row is FAILED, BROADCAST or CONFIRMED no continuation calls the chain for it again, and FAILED and CONFIRMED are never left |
| `BroadcastSafety.BroadcastIffCommitted` | dispatcher/internal/dispatch/attempts.go:228-239 | a row is BROADCAST or CONFIRMED if and only if one call for it was committed; that call was accepted and every other call for the row belongs to a rolled-back transaction |
| `FailedTrust.FailedTrustedIff` | dispatcher/internal/dispatch/broadcast.go:158-196 | whatever run led to the table, a FAILED row was never paid if and only if it stores no 65-byte signature: that is what whoever trusts FAILED has to check |
| `FailedTrust.TableReachableIff` | dispatcher/internal/dispatch/attempts.go:84-260 | the reachable tables are exactly those with unique hashes and attempt numbers whose rows have the known shapes |
| `BroadcastSafety.FailedYetOnChain` | dispatcher/internal/dispatch/broadcast.go:184-190 | such a run exists: the node accepts, the caller times out, a freeze fails the row; so FAILED alone does not mean never paid |
| `BroadcastSafety.RunForward` | dispatcher/internal/dispatch/attempts.go:84-260 | over any stretch of any run rows are never removed or re-identified, a stored signature never changes, statuses only move forward |
| `BroadcastSafety.StepKeeps` | dispatcher/internal/dispatch/broadcast.go:97-196 | every statement, every answer of S1 and the chain, and every crash keeps the invariant: unique rows, one row lock holder, calls backed by the stored signature over the row's own bytes |
| `BroadcastProgress.FreshBroadcastSends` | dispatcher/internal/dispatch/broadcast.go:97-118 | from any reachable state, a transfer not seen before that S1 signs and the node takes adds exactly one BROADCAST row and one accepted, committed call |
| `BroadcastProgress.ResumedBroadcastReusesSignature` | dispatcher/internal/dispatch/broadcast.go:123-130 | a retry of a transfer whose row is SIGNED reaches the chain with the signature already stored, without asking S1 again |
| `FreezeRace.FreezeMissesIff` | dispatcher/internal/dispatch/freeze.go:36-61 | in every run a freeze alerts only if it read BROADCAST and its slot was not retired by then, and ends in an error if it was; one that ends without alert or error leaves its row BROADCAST or CONFIRMED if and only if it read CONFIRMED, or read BUILT or SIGNED and its UPDATE met a row sent in the meantime |
| `FreezeRace.AlertIff` | dispatcher/internal/slots/slots.go:129-138 | a freeze of a BROADCAST attempt that nothing disturbs alerts if and only if nobody has retired the slot before |
| `FreezeRace.SecondAlertIsMissed` | dispatcher/internal/dispatch/freeze.go:50-54 | a run from the start with two transfers of one slot on their way: the freeze of the first alerts, that of the second ends in an error |
| `FreezeRace.FreezeMisses` | dispatcher/internal/dispatch/freeze.go:36-61 | a run from the start in which the transfer is sent between the freeze's read and its UPDATE: no alert, and the row is BROADCAST |
| `BroadcastOutcomes.FreshUnsigned` | dispatcher/internal/dispatch/broadcast.go:123-150 | from any reachable state, a transfer not seen before that S1 does not sign makes no call and leaves exactly one more row and every other as it was: BUILT if S1 puts it off (pending) or fails (an error), FAILED if S1 rejects it |
| `BroadcastOutcomes.RetriedUnsigned` | dispatcher/internal/dispatch/broadcast.go:123-150 | a retry of a BUILT transfer that S1 puts off again changes no row and says pending; one that S1 rejects fails exactly its row |
| `BroadcastOutcomes.TerminalIsReturned` | dispatcher/internal/dispatch/broadcast.go:97-118 | Broadcast of a transfer that is BROADCAST, CONFIRMED or FAILED returns its row as it stands and changes nothing |
| `BroadcastOutcomes.OvertakenIsReturned` | dispatcher/internal/dispatch/broadcast.go:123-176 | wherever else a call finds its row past SIGNED, in whatever run, it returns it |
| `BroadcastOutcomes.NumberTakenIsRefused` | dispatcher/internal/dispatch/attempts.go:84-118 | an attempt number the order has used for another transfer is an error that changes nothing |
| `BroadcastOutcomes.UnacknowledgedStaysSigned` | dispatcher/internal/dispatch/broadcast.go:184-190 | after a refusal or a timeout of the chain the row is SIGNED as before; the call is on record, accepted exactly if it timed out |
| `BroadcastOutcomes.ShortSignatureIsRefused` | dispatcher/internal/dispatch/broadcast.go:169-176 | nothing is sent without 65 bytes of signature |
| `BroadcastOutcomes.FreezeAbandons` | dispatcher/internal/dispatch/freeze.go:36-61 | a freeze of an attempt not sent yet fails it and retires its slot; if that was retired before, the attempt is FAILED and the caller hears an error |
| `BroadcastOutcomes.FreezeOfSettled` | dispatcher/internal/dispatch/freeze.go:36-60 | a freeze of an attempt that is over changes nothing |
| `BroadcastOutcomes.FailedOnlyBy` | dispatcher/internal/dispatch/attempts.go:162-176 | in every run a row is FAILED only after a thread heard S1 reject its signature, a freeze of it went through, or its failure was marked outright; a pending signature or a timeout never fails a row |
| `Dispatcher.Dispatcher.Broadcast` | dispatcher/internal/dispatch/broadcast.go:97-118 | the method, run under any schedule of other callers, ends in exactly the state and with exactly the turns left that the protocol's thread has; a returned row is past SIGNED and is the row of its own transfer; a rejected signature is returned only if S1 rejected in one of the turns used, a pending one only if S1 put it off in the last of them |
| `Dispatcher.Dispatcher.Create` | dispatcher/internal/dispatch/attempts.go:84-118 | insert or read back, leaving where the schedule leads unchanged; a clash on (order, attempt number) alone is an error |
| `Dispatcher.Dispatcher.EnsureSigned` | dispatcher/internal/dispatch/broadcast.go:123-154 | a row that is ready is SIGNED by somebody, or this call ends with the row, a pending or a rejected signature |
| `Dispatcher.Dispatcher.Store` | dispatcher/internal/dispatch/attempts.go:209-226 | the guarded UPDATE, or the row as the winner left it |
| `Dispatcher.Dispatcher.EnsureBroadcast` | dispatcher/internal/dispatch/broadcast.go:158-196 | lock, checks, chain call and UPDATE in one transaction; whatever fails rolls it back |
| `Dispatcher.Dispatcher.HandleMidFlightFreeze` | dispatcher/internal/dispatch/freeze.go:36-61 | the method does what the freeze thread does under the same schedule: read, UPDATE, retire the slot; it asks for an alert exactly when the thread ends in one |
| `Dispatcher.PlayIsRun` | dispatcher/internal/dispatch/broadcast.go:97-196 | every schedule of the methods is a run of the protocol, so the theorems about all runs hold of the methods |
| `Attempts.FindHash` | dispatcher/internal/dispatch/attempts.go:105-118 | the row that carries this hash, or the certainty that none does |
| `Attempts.LatestForOrder` | dispatcher/internal/dispatch/attempts.go:140-160 | a row of the order with the highest attempt number, or none if the order has no row |
| `Ledger.FirstPostWins` | ledger/internal/journal/post.go:52-95 | an idempotency key is worth one entry: after any sequence of requests what stands under a key is the first acceptable request with it, exactly once, and nothing stands there if there was none |
| `Ledger.RepeatIff` | ledger/internal/journal/post.go:186-205 | after any sequence of requests a further acceptable one under a used key is a replay if and only if it has the payload of the first acceptable one, a conflict otherwise |
| `Ledger.ReverseTwice` | ledger/internal/journal/reversal.go:56-185 | an entry is reversed at most once, a reversal never, and the pair cancels on every account |
| `Ledger.ConversionPosts` | dispatcher/internal/dispatch/dispatch.go:109-120 | what the conversion entry does to every account there is: amount_in on the customer's BEP20 liability and through the corridor, amount_out on the TRC20 liability, each fee on its own revenue account, nothing anywhere else |
| `Ledger.SettlementPosts` | dispatcher/internal/dispatch/finality.go:38-47 | what the settlement entry does to every account: amount_out from the slot it was sent from to the customer's TRC20 liability, nothing anywhere else |
| `Ledger.ConversionBalance` | dispatcher/internal/dispatch/dispatch.go:89-120 | the conversion entry balances per asset if and only if amount_in = amount_out + fee + network_fee, and C1 accepts it if and only if moreover none of the four is zero; it moves no TRC20 liability but the customer's |
| `Ledger.SettlementBalance` | dispatcher/internal/dispatch/finality.go:38-47 | the settlement entry always balances and clears exactly amount_out of the customer's TRC20 liability |
| `Ledger.NegatedSums` | ledger/internal/journal/reversal.go:56-185 | a reversal has the opposite sum in every asset and on every account |
| `ReconciliationSafety.StepKeeps` | dispatcher/internal/orchestrate/runloop.go:105-217 | every step of the orchestrator, of reconciliation passes, freeze handlers, C1's other users, and every crash or lost response keeps the lifecycle invariant |
| `LifecycleTheorems.NeverReversedAndSettled` | dispatcher/internal/ledgerclient/dispatchfailure.go:48-79 | in every run no conversion is both reversed and settled, none is settled under two attempts, and neither happens without the conversion |
| `LifecycleTheorems.LocalNeverAhead` | dispatcher/internal/dispatch/store.go:117-136 | at every crash point: a dispatch_state row implies the conversion entry, SETTLED the settlement entry and a settled order, HELD the reversal and a held or refunded order, a CONFIRMED attempt a SETTLED row, any attempt a dispatch_state row |
| `LifecycleTheorems.SettledAndHeldAbsorb` | dispatcher/internal/dispatch/store.go:69-82 | SETTLED and HELD are never left, and the slot and timestamp recorded on entering are never rewritten |
| `LifecycleTheorems.OneTransactionPerOrder` | dispatcher/internal/orchestrate/runloop.go:105-217 | in every run, restarts included, two chain calls carry the same signed transaction if and only if they are for the same order: at most one transaction per order reaches the chain |
| `LifecycleTheorems.SettledWasSent` | dispatcher/internal/dispatch/finality.go:71-116 | a settled order was really paid: one accepted, committed call, every other call for it rolled back |
| `LifecycleTheorems.ReversedSendsNothing` | dispatcher/internal/dispatch/reconcile.go:33-66 | a reversed order has no committed call: at most calls of rolled-back transactions |
| `LifecycleTheorems.EnteringSucceedsIff` | dispatcher/internal/dispatch/dispatch.go:158-208 | a request on a freshly read screened order succeeds if and only if C1 is not halted, the amounts add up and none is zero; an order quoted without a fee never leaves screened |
| `Conservation.EveryLedgerBalances` | ledger/internal/journal/post.go:52-100 | in every reachable ledger every asset's lines sum to zero |
| `Conservation.LiabilityIsWhatIsOwed` | dispatcher/internal/dispatch/dispatch.go:109-120 | in every run a customer's TRC20 liability is minus the sum of amount_out over that customer's orders converted but neither settled nor reversed |
| `Conservation.BalanceIsDue` | dispatcher/internal/dispatch/finality.go:42-47 | entry by entry, the balance is minus what the keys of the journal say is due |
| `Books.RevenueIsEarned` | dispatcher/internal/dispatch/dispatch.go:109-120 | in every run the dispatcher's entries book as fee revenue the sum of fee over the orders converted and not reversed, as network-fee revenue that of network_fee, and through either corridor account that of amount_in |
| `Books.DepositsAreUsed` | dispatcher/internal/dispatch/dispatch.go:109-120 | in every run they take from a customer's BEP20 liability the sum of amount_in over that customer's orders converted and not reversed |
| `Books.SlotsPaySettlements` | dispatcher/internal/dispatch/finality.go:38-47 | in every run they take from a slot's account the sum of amount_out over the settled orders whose transfer left that slot |
| `SweepOrders.SweepsAreLeftAlone` | dispatcher/internal/orchestrate/runloop.go:113-115 | in every run a Sweep order has no conversion, no dispatch_state row, no attempt and no chain call of the single-order path |
| `LifecycleProgress.DispatchAlone` | dispatcher/internal/orchestrate/runloop.go:105-187 | from every state the invariant allows, a dispatchOne nothing disturbs gets to the transfer if and only if the order is screened, is not Sweep, C1 is not halted, the amounts add up and none is zero; then exactly the conversion, the dispatch_state row and the transfer are new; halted it waits, and otherwise nothing has changed |
| `LeftAlone.PayoutAlone` | dispatcher/internal/orchestrate/runloop.go:105-217 | and with S1 and the node willing it ends with one BROADCAST attempt and one accepted, committed call more, everything else as it was |
| `LifecycleProgress.StaleEntering` | dispatcher/internal/dispatch/dispatch.go:171-206 | a request with a version out of date refetches once and asks again with the same slot and time; the second conflict gives up |
| `LifecycleProgress.CacheFollowsOutcome` | dispatcher/internal/orchestrate/runloop.go:197-216 | the transfer is kept for the same bytes to be sent again unless a row was returned or the signature rejected |
| `LifecycleProgress.ErrorsEndIt` | dispatcher/internal/orchestrate/runloop.go:105-268 | an error of a call that posts or writes ends dispatchOne or confirmOne where it is, whether the call took effect or not; one that did not has changed nothing, and no cached transfer is dropped |
| `LifecycleProgress.ConfirmAlone` | dispatcher/internal/orchestrate/runloop.go:238-268 | from every state the invariant allows, a confirmOne nothing disturbs of a dispatching order whose latest attempt is BROADCAST and final: settlement posted, order settled, row SETTLED, attempt CONFIRMED, and nothing else |
| `LifecycleProgress.StaleSettling` | dispatcher/internal/dispatch/finality.go:136-156 | a settlement with a version out of date refetches once and asks for the same again; the second conflict gives up |
| `LifecycleProgress.ConfirmWaits` | dispatcher/internal/dispatch/finality.go:150-157 | while C1 is halted confirmOne waits at its settlement and nothing is posted |
| `LifecycleProgress.NothingToConfirm` | dispatcher/internal/orchestrate/runloop.go:238-248 | of an order whose latest attempt is not BROADCAST it changes nothing |
| `LifecycleProgress.ConfirmedMeanwhile` | dispatcher/internal/dispatch/finality.go:71-90 | an attempt confirmed in the meantime leaves only its cached transfer to drop |
| `LifecycleProgress.ReconcileAlone` | dispatcher/internal/dispatch/reconcile.go:33-66 | from every state the invariant allows, a new pass nothing disturbs over a dispatching order whose latest attempt is FAILED ends closed: order held, conversion reversed, row HELD, whether or not the reversal was already posted, which is then posted no second time |
| `LifecycleProgress.StaleHoldRetries` | dispatcher/internal/ledgerclient/dispatchfailure.go:60-79 | after one version conflict the hold is asked for again and the order closed too; a second conflict gives up |
| `LifecycleProgress.NothingToReconcile` | dispatcher/internal/dispatch/reconcile.go:33-42 | a pass over an order whose latest attempt is not FAILED, or that C1 has moved on, changes nothing |
| `LifecycleProgress.HoldRefused` | dispatcher/internal/ledgerclient/dispatchfailure.go:60-79 | of an order that C1 has held, settled or refunded by then the hold is refused and the pass ends without a mark |
| `LifecycleProgress.ErrorsEndPass` | dispatcher/internal/dispatch/reconcile.go:60-65 | an error of a call that posts or writes ends the pass over its order, whether the call took effect or not; one that did not has changed nothing |
| `Stalled.NeverResumed` | dispatcher/internal/orchestrate/runloop.go:105-217 | from every state the invariant allows: once the orchestrator has let go of an order it converted without sending it, no continuation of other transfers makes a call for that attempt or adds another attempt of the order; the row stays as it is or is failed |
| `Stalled.PutOffIsLetGo` | dispatcher/internal/orchestrate/runloop.go:197-203 | a signature put off is such a moment |
| `Stalled.RejectedIsLetGo` | dispatcher/internal/orchestrate/runloop.go:204-208 | so is a rejected one: no further attempt of the order follows |
| `Stalled.PendingIsNeverSent` | dispatcher/internal/orchestrate/runloop.go:199-203 | a run from the start: S1 puts the signature off, and in every continuation of other transfers the order is never sent, though the comment there promises the next tick |
| `HeldRelease.ReleaseUnsafeIffConverted` | ledger/internal/orders/transitions.go:55-55 | the assumption, exactly: after a held order is released to screened there is a continuation that pays it while its conversion is reversed if and only if it had been converted |
| `HeldRelease.ReleasedIsPaid` | dispatcher/internal/orchestrate/runloop.go:117-129 | a screened order with a dispatch_state row is sent again without a second conversion, from any state, after any restart |
| `MissedMarks.MissedForever` | dispatcher/internal/dispatch/reconcile.go:49-58 | once a pass has died between C1's hold and MarkHeld, the row stays DISPATCHING in every continuation: later passes list it and skip it |
| `MissedMarks.MarkedIff` | dispatcher/internal/dispatch/reconcile.go:43-58 | of an order C1 has converted and holds or has refunded, with its row DISPATCHING: some continuation marks the row HELD if and only if a pass stands right before MarkHeld |
| `MissedMarkRuns.PassDies` | dispatcher/internal/dispatch/reconcile.go:33-66 | a run from the start that gets there: the signature is rejected, a pass reverses, holds and dies |
| `MissedMarkRuns.ConfirmAgainIff` | dispatcher/internal/orchestrate/runloop.go:238-268 | confirmOne once more on an order C1 has settled while its row is DISPATCHING gets to MarkSettled if and only if it asks with the payload, lines and timestamp, of the settlement C1 already has; it changes nothing in C1 either way |
| `MissedMarkRuns.RetryIsRefused` | dispatcher/internal/orchestrate/runloop.go:254-254 | a run from the start: paid, settled at one time, the response lost; the next confirmation takes a later time, is refused, and the row stays DISPATCHING |
| `Orchestrator.Orchestrator.DispatchOne` | dispatcher/internal/orchestrate/runloop.go:105-217 | the method, everybody else running in between, ends exactly where the lifecycle's orchestrator ends under the same schedule (where that is: DispatchAlone, PayoutAlone, StaleEntering and the theorems over every run) |
| `Orchestrator.Orchestrator.EnterDispatching` | dispatcher/internal/dispatch/dispatch.go:158-208 | the retry loop: one refetch after a version conflict, waiting while halted; it ends recorded or idle, on the schedule's own path, and goes on only with the conversion posted and the order dispatching |
| `Orchestrator.Orchestrator.TryEnter` | dispatcher/internal/dispatch/dispatch.go:171-198 | one request: it goes on to the dispatch_state row only with the conversion posted and the order dispatching, and asks again or waits only if nothing happened in C1 |
| `Orchestrator.Orchestrator.Record` | dispatcher/internal/dispatch/store.go:32-51 | the row is inserted once and an existing one kept; a transfer is built only with the row there |
| `Orchestrator.Orchestrator.Transfer` | dispatcher/internal/orchestrate/runloop.go:162-183 | the cached transfer, or a new one whose attempt number exceeds every one the order has had, by one if it has had any |
| `Orchestrator.Orchestrator.Broadcast` | dispatcher/internal/orchestrate/runloop.go:193-216 | the cache is dropped on a returned row or a rejected signature and kept otherwise |
| `Orchestrator.Orchestrator.ConfirmOne` | dispatcher/internal/orchestrate/runloop.go:238-268 | likewise for confirmation: latest attempt, finality, settlement, then the two local marks, in that order |
| `Orchestrator.Orchestrator.SettleOrder` | dispatcher/internal/dispatch/finality.go:126-163 | the settlement loop under the same rules; it goes on only with the order settled and the attempt's settlement posted |
| `Orchestrator.Orchestrator.MarkSettled` | dispatcher/internal/dispatch/store.go:117-136 | confirmation goes on only with the row SETTLED |
| `Orchestrator.PlayIsRun` | dispatcher/internal/orchestrate/runloop.go:105-268 | every schedule of these methods is a run of the lifecycle |
| `Reconciler.Reconciler.ReconcileOne` | dispatcher/internal/dispatch/reconcile.go:33-66 | the pass over one order does what the lifecycle's pass does; closed means the row is HELD, the conversion reversed and the order held, or refunded since; that it gets there is ReconcileAlone |
| `LeftAlone.ReconcileLeftAlone` | dispatcher/internal/dispatch/reconcile.go:33-66 | the method under a schedule of nobody else and Ok replies, on an order whose latest attempt is FAILED: it returns closed, in the world ReconcileAlone says |
| `Reconciler.Reconciler.ReportDispatchFailure` | dispatcher/internal/ledgerclient/dispatchfailure.go:48-79 | reverse, then hold, one retry after a version conflict; true only with the order held and its conversion reversed |
| `Reconciler.Reconciler.TryReverse` | dispatcher/internal/ledgerclient/dispatchfailure.go:54-58 | it goes on to the hold only while citing the entry that reverses the conversion it was asked to reverse, posted now or before; it adds one entry at most and moves no order |
| `Reconciler.Reconciler.MarkHeld` | dispatcher/internal/dispatch/store.go:78-82 | DISPATCHING to HELD, a repeat succeeds |
| `Reconciler.PlayIsRun` | dispatcher/internal/dispatch/reconcile.go:27-69 | every schedule of a pass is a run of the lifecycle |
| `FinalizedQuorum.Pool.LatestFinalized` | depositwatcher/internal/chain/finality.go:70-197 | whatever the order of providers and maps: agreement if and only if one hash at the reference height has at least minAgreement votes and strictly more than any other, a tie at the top is ambiguous, else no agreement; if agreed every provider that answered the agreed hash has its streak of failures ended and every other provider one failure more; without agreement everybody is charged if two answers differ, else only those that did not answer; who is down or out of tolerance is charged in every case, nobody is marked twice |
| `FinalizedQuorum.Pool.InTolerance` | depositwatcher/internal/chain/finality.go:82-107 | exactly the reports within the tolerance, with uint64 wrap-around, are kept; the reference is their lowest height; the excluded are marked failed |
| `FinalizedQuorum.Pool.Group` | depositwatcher/internal/chain/finality.go:109-126 | the groups hold exactly the voters of each hash; whoever does not answer is marked failed |
| `FinalizedQuorum.Pool.PickWinner` | depositwatcher/internal/chain/finality.go:128-150 | the strict winner or the tie, in any iteration order |
| `FinalizedQuorum.Pool.MarkVoters` | depositwatcher/internal/chain/finality.go:152-188 | those behind the agreed hash are credited, the other voters charged if there is one or if votes differ, and voters that agree but are too few left unmarked |
| `FinalizedQuorum.NearIff` | depositwatcher/internal/chain/finality.go:82-103 | a provider counts as near exactly if it is at most the tolerance behind the highest report, as long as its height and the tolerance fit together in a uint64; if not, the sum wraps and it is excluded although it is not behind |
| `FinalizedQuorum.HighestIsNearIff` | depositwatcher/internal/chain/finality.go:92-97 | so the highest report itself is kept if and only if its height plus the tolerance does not wrap |
| `FinalizedQuorum.AgreedIsHonest` | depositwatcher/internal/chain/finality.go:41-69 | with fewer than minAgreement liars an agreed block is on the honest chain and an honest provider has already finalized it |
| `FinalizedQuorum.SuccessesLieOnOneChain` | depositwatcher/internal/chain/finality.go:41-69 | any two successes, of whatever rounds, name blocks of one chain |
| `FinalizedQuorum.BoundIsTight` | depositwatcher/internal/chain/finality.go:128-150 | exactly minAgreement liars are enough for a false block |
| `FinalizedQuorum.HonestRoundAgrees` | depositwatcher/internal/chain/finality.go:88-126 | with honest answers near the top the round agrees on the honest block if and only if at least minAgreement providers are near the highest report; otherwise there is no agreement |
| `FinalizedQuorum.AgreedHeightFallsIff` | depositwatcher/internal/chain/finality.go:82-107 | of two rounds that agree, fewer than minAgreement liars in each and nobody's own height going back, the later names a lower block if and only if a provider that was down or out of tolerance in the first is back, near the top, and below that block; both blocks are on the honest chain |
| `FinalizedQuorum.AgreedHeightFalls` | depositwatcher/internal/chain/finality.go:82-107 | and it happens: two rounds of honest providers agree on block 10 and then on block 7 |
| `FinalityTracker.Tracker.CheckFinality` | depositwatcher/internal/finality/finality.go:326-372 | one tick, observations arriving during any call: without agreement nothing changes; with it every candidate pending at or below the height leaves pending or meets a failure that is retried, without failures and arrivals nothing at or below it is left, and every final deposit is found again, reported or could not be read |
| `FinalityTracker.Tracker.OnLogObserved` | depositwatcher/internal/finality/finality.go:281-304 | a known key or a zero value changes nothing, anything else becomes pending with one detection |
| `FinalityTracker.Tracker.Finalize` | depositwatcher/internal/finality/finality.go:413-453 | exactly the candidate leaves pending, unless the answer is to be retried |
| `FinalityTracker.Tracker.RecordOrphan` | depositwatcher/internal/finality/finality.go:468-476 | an orphaned deposit stays tracked until it is recorded |
| `FinalityTracker.Tracker.Promote` | depositwatcher/internal/finality/finality.go:338-368 | every candidate ready at the start is taken up, nothing else is touched |
| `FinalityTracker.Tracker.HandlePostFinalReorg` | depositwatcher/internal/finality/finality.go:527-551 | only a missing log is reported, and the deposit is forgotten only once the report is taken |
| `FinalityTracker.Tracker.CheckPostFinalReorgs` | depositwatcher/internal/finality/finality.go:486-514 | every remembered deposit is found again, reported, or could not be read |
| `FinalityTracker.Tracker.CountsAddUp` | depositwatcher/internal/finality/finality.go:556-569 | pending plus finalized plus dropped, refused, recorded and reversed candidates are exactly the detections |
| `FinalDeposits.ScanRange` | depositwatcher/internal/candidates/candidates.go:65-137 | a scan observes only logs both providers reported; if the providers answer alike and no call fails it goes through, and when it does every deposit it classified is tracked, whatever the order of the logs |
| `FinalDeposits.RunTick` | depositwatcher/internal/candidates/loop.go:75-123 | a tick goes through whenever the cursors, the scan and the save do and its round agrees on a height; then the scan's deposits are tracked and every candidate pending at or below the height has ended its turn or met a failure |
| `FinalDeposits.RunLoop` | depositwatcher/internal/candidates/loop.go:51-73 | tick after tick from a tracker that has agreed on nothing, whatever the providers answer: every OnFinal call is for a log that both providers reported in an earlier read of its height, at or below a height on which some tick's round agreed; every observation of the loop is a log both providers reported in a scan; every tick does what RunTick says |
| `FinalDeposits.FirstDeposit` | depositwatcher/internal/candidates/loop.go:51-123 | from a new pool and a new tracker, for any log: one tick finds the deposit in a finalized block and ends with its OnFinal call accepted; the run never asks whether the log is real, so two lying log providers suffice for a false deposit |
| `FinalDeposits.OnFinalIsFinal` | depositwatcher/internal/finality/finality.go:326-365 | with fewer than minAgreement liars in each round an honest provider has finalized a block at least as high as the deposit of any OnFinal call, and with one of the two log providers honest its log is on the chain at that height |
| `FinalDeposits.CheckDecides` | depositwatcher/internal/finality/finality.go:326-453 | with one of the two log providers honest and no failures, a finality check leaves every candidate tracked at or below its height final for good, C1 told, if its log is on the chain there, and otherwise dropped in silence |
| `DepositTruth.EventsAreTrue` | depositwatcher/internal/finality/finality.go:345-551 | with one of the two log providers honest, over every history: C1 is told only of logs that are on the chain, a candidate is dropped in silence only if its log is not, and no deposit is ever reported as reorganised |
| `DepositTruth.StaysFinal` | depositwatcher/internal/finality/finality.go:486-551 | with one of the two log providers honest what is final stays final |
| `DepositHistory.FinalAndReorgAlternate` | depositwatcher/internal/finality/finality.go:413-551 | for every key successful OnFinal and ReportReorg calls alternate strictly, OnFinal first, and the last one tells whether the deposit is final |
| `DepositHistory.FatesAddUp` | depositwatcher/internal/finality/finality.go:356-453 | every detection has exactly one fate |
| `DepositHistory.LeftStaysOut` | depositwatcher/internal/finality/finality.go:381-449 | what left pending stays out until it is detected again |
| `ScanCursors.Watcher.ProcessOneBlock` | depositwatcher/internal/chain/ingestion.go:139-194 | after height h the stored blocks are exactly those in [h-window+1, h] ever ingested, and the adjacent pairs whose parent disagrees are exactly those flagged; no uint64 underflow |
| `ScanCursors.Watcher.RunIngestionTick` | depositwatcher/internal/chain/ingestion.go:108-133 | block after block up to the cap, stopping at the first that fails or is not acknowledged, never skipping one |
| `ScanCursors.Watcher.RunTick` | depositwatcher/internal/candidates/loop.go:75-117 | ingestion committing blocks, statements failing or taking effect unheard: the candidate cursor never passes ingestion and moves only over the range just scanned: an unset one starts at the ingested height with nothing scanned, a set one moves by what it is behind or by ten, whichever is less |
| `ScanCursors.Watcher.ScanAndAdvance` | depositwatcher/internal/candidates/loop.go:88-117 | at most ten blocks a tick, contiguous with all before them, scanned before the cursor moves |
| `ScanCursors.TilesExactly` | depositwatcher/internal/candidates/loop.go:88-117 | the ranges the cursor moved over contain every block after its start exactly once and nothing else |
| `ScanCursors.Watcher.RunTicks` | depositwatcher/internal/candidates/loop.go:53-73 | any number of ticks with any failures while ingestion goes on: every good one takes ten blocks off the backlog found at the start or ends it, none takes more; if all are good a backlog of b is gone after exactly ceil(b / 10) |
| `LogAgreement.LogsAt` | depositwatcher/internal/chain/logs.go:30-68 | an answer is what both providers reported, up to order; without two different logs at one position there is an answer exactly when both answered and reported the same logs |
| `LogAgreement.LogsEqual` | depositwatcher/internal/chain/logs.go:76-88 | accepted responses are always the same logs in some order; unless a provider reports two different logs at one position, exactly those are accepted |
| `LogAgreement.SortLogs` | depositwatcher/internal/chain/logs.go:90-100 | in place, sorted and a rearrangement |
| `LogAgreement.SortedUnique` | depositwatcher/internal/chain/logs.go:90-100 | without two different logs at one position there is one way to sort |
| `LogAgreement.EverySortAgreesIff` | depositwatcher/internal/chain/logs.go:70-100 | for the same logs on both sides every two sorted copies are equal if and only if no two different logs share a position; otherwise the comparison depends on the sort |
| `Money.ParseDecimal` | depositwatcher/internal/money/money.go:78-134 | the loop and the branches compute the specification |
| `Money.ParsedIff` | depositwatcher/internal/money/money.go:69-122 | accepted are exactly the decimals with an optional sign and at most six places whose magnitude fits an int64, each with its exact value |
| `Money.UnitsAreExact` | depositwatcher/internal/money/money.go:113-121 | that value is the digits times 10^6, nothing rounded |
| `Money.FormatThenParse` | depositwatcher/internal/money/money.go:136-158 | parsing what was formatted gives the amount back for every int64 but the smallest, which is rejected |
| `Money.Format` | depositwatcher/internal/money/money.go:143-158 | at least one digit before the dot, six after it, the sign in front |
| `Money.OnChainFloor` | depositwatcher/internal/money/money.go:49-67 | the floor, less than one unit lost; refused if and only if the floor does not fit |
| `Money.OnChainMonotone` | depositwatcher/internal/money/money.go:49-67 | a larger transfer never converts to less |
| `Base58.Decode` | depositwatcher/internal/addresses/bip32.go:152-174 | the three loops compute the specification, or fail on a character outside the alphabet |
| `Base58.DecodeEncode` | depositwatcher/internal/addresses/bip32.go:148-174 | every byte string has a string that decodes to it |
| `Base58.EncodeDecode` | depositwatcher/internal/addresses/bip32.go:148-174 | no two strings decode to the same bytes |
| `Base58.AlphabetIs` | depositwatcher/internal/addresses/bip32.go:135-146 | the alphabet is digits, capitals, small letters in this order without 0, I, O and l |
| `Base58.DecodeKeepsValue` | depositwatcher/internal/addresses/bip32.go:148-174 | the number and the count of leading zeros are kept, '1' standing for a zero byte |
| `Base58.ConvertInverse` | depositwatcher/internal/addresses/bip32.go:152-174 | changing the base and back is the identity in both directions |
| `EnergySafety.NoRowTwice` | energybroker/internal/buffer/reserve.go:59-118 | once in an allocation a row never is in another, and an expired row stays expired, under any interleaving of Reserve and Reconcile |
| `EnergySafety.AllocationsCover` | energybroker/internal/buffer/reserve.go:94-108 | in every run an allocation's units are the sum of its rows and at least what was asked for |
| `EnergySafety.RowsAreAllocatedRightly` | energybroker/internal/buffer/reserve.go:71-107 | an available row is in no allocation, a reserved one is, and only in one for its own slot made before it expired |
| `EnergySafety.FailedReserveChangesNothing` | energybroker/internal/buffer/reserve.go:14-19 | before its commit a Reserve changes nothing; failed or dead it leaves no row, allocation or lock behind |
| `EnergySafety.ExhaustedIff` | energybroker/internal/buffer/reserve.go:80-92 | a turn gives up if and only if the matching rows no other transaction holds fall short and are all claimed by it |
| `EnergySafety.GrantsHold` | energybroker/internal/buffer/reserve.go:108-109 | what was granted is still there at any later time, units and rows |
| `EnergySafety.NoLockLeaks` | energybroker/internal/buffer/reserve.go:68-110 | when every transaction has ended no row is locked |
| `EnergySafety.StepKeeps` | energybroker/internal/buffer/verify.go:121-162 | Reconcile's reads, its unguarded UPDATE and every crash keep the invariant too |
| `EnergySafety.RunForward` | energybroker/internal/buffer/queries.go:169-180 | rows and allocations are never removed or rewritten; statuses only move forward |
| `EnergyExpiry.ExpiredOnlyIfShort` | energybroker/internal/buffer/verify.go:121-162 | in every run a row is EXPIRED only if a read of its delegation fell short of its units; a read that fails or finds enough never writes it off |
| `EnergyOutcomes.ReserveAlone` | energybroker/internal/buffer/reserve.go:59-118 | from every reachable state, whatever other transactions hold, a Reserve of which only its own turns are left: whenever it has ended, it was granted if and only if the matching rows nobody holds cover the request; then exactly a shortest run of the soonest to expire is marked and recorded with its exact sum, otherwise nothing has changed |
| `EnergyOutcomes.UnheldAre` | energybroker/internal/buffer/reserve.go:71-79 | which rows the claiming query can return: AVAILABLE, of the slot, not expired, held by nobody |
| `EnergyOutcomes.ReserveEnds` | energybroker/internal/buffer/reserve.go:67-110 | and its own turns do end it |
| `EnergyOutcomes.ReconcileAlone` | energybroker/internal/buffer/verify.go:121-162 | likewise a Reconcile: whenever it has ended, written off are exactly the rows about to expire whose delegation was read and fell short, none of them held by anybody |
| `EnergyOutcomes.MissingAre` | energybroker/internal/buffer/verify.go:121-152 | which rows these are: AVAILABLE or RESERVED, expiring by the horizon, read, and with less on chain than their units |
| `EnergyOutcomes.ReconcileEnds` | energybroker/internal/buffer/verify.go:121-162 | and its own turns end it, unless somebody holds a row it is to write off |
| `EnergyReserve.Buffer.Reconcile` | energybroker/internal/buffer/verify.go:121-162 | run alone: written off are exactly the AVAILABLE and RESERVED rows that expire by the horizon and whose delegation was read and fell short; nothing else changes |
| `EnergyReserve.Buffer.Reserve` | energybroker/internal/buffer/reserve.go:59-118 | run alone: success if and only if the matching rows cover the request, then exactly a shortest earliest-expiry run is marked and its exact sum recorded; otherwise nothing changes |
| `EnergyReserve.Buffer.Claim` | energybroker/internal/buffer/reserve.go:67-92 | the loop ends with such a run, or with every matching row |
| `EnergyReserve.Buffer.EarliestUnclaimed` | energybroker/internal/buffer/reserve.go:73-79 | one row, the earliest to expire of those left |
| `Slots.Store.SelectForDispatch` | dispatcher/internal/slots/select.go:51-117 | takes exactly the first eligible slot in the order, and only its time is set; an unreadable balance or no eligible slot changes nothing, a failing UPDATE fails the selection, an unheard one sets the time all the same; eligible is ACTIVE with the balance under the balance ceiling and the transfers under theirs |
| `Slots.SelectRepeatedly` | dispatcher/internal/slots/select.go:42-117 | any number of selections, some failing: those whose time is recorded take the slots the fairness theorems speak of, so a slot eligible at every one of them is taken once there are more than it had slots ahead of it |
| `Slots.ChosenInTurn` | dispatcher/internal/slots/select.go:94-109 | a slot that stays eligible is chosen once those ahead of it are used up, whatever happens to the others' eligibility |
| `Slots.ChosenWithinN` | dispatcher/internal/slots/select.go:42-50 | with n ACTIVE slots and an increasing clock it is chosen within n selections |
| `Slots.EveryoneOnce` | dispatcher/internal/slots/select.go:42-50 | if all stay eligible any n consecutive selections choose each exactly once |
| `BatchSafety.StepKeeps` | dispatcher/internal/dispatch/batch.go:79-174 | every statement of any number of CutBatch and HandlePartialSettlement callers, failed, unheard or followed by a crash, and every step of C1's other users keeps the invariant of the queue, the batches and the settlements |
| `BatchPayouts.PaidIffPointing` | dispatcher/internal/dispatch/batchstore.go:151-181 | in every run a row never requeued is paid by a batch if and only if it points at it |
| `BatchPayouts.BatchesPartition` | dispatcher/internal/dispatch/batchstore.go:145-181 | so without Requeue no row is in two committed batches; and every batch pays distinct rows, each its own amount to its own recipient |
| `BatchPayouts.SettledOnce` | dispatcher/internal/dispatch/batch.go:119-174 | in every run an order is settled at most once, with the lines of the batch its key names |
| `BatchPayouts.RequeueSafeIff` | dispatcher/internal/dispatch/batchstore.go:225-237 | of a row whose payment in batch b failed: requeueing it is safe, whatever the chain does with the other batches, if and only if the row is queued or still points at b; the statement does not check that |
| `BatchPayouts.SerialIsGuarded` | dispatcher/internal/dispatch/batch.go:136-174 | settling each batch by one caller at a time, Requeue only hits such rows |
| `BatchPayouts.PaidAtMostOnce` | dispatcher/internal/dispatch/batch.go:119-135 | in every run with true results in which Requeue only hits such rows, so in every run that settles each batch by one caller at a time, no order is successfully paid by two batches |
| `BatchPayouts.SettledNeverRebatched` | dispatcher/internal/dispatch/batch.go:119-135 | and a settled order was paid by the batch of its settlement and stays in it in every continuation |
| `BatchRuns.ConcurrentSettlementPaysTwice` | dispatcher/internal/dispatch/batchstore.go:225-237 | a run from the start of two callers settling one batch: both list the failed row, each requeues it with a cut after it, and two batches pay it |
| `BatchRuns.RerunIff` | dispatcher/internal/dispatch/batch.go:136-174 | settling a batch again once its rows are settled and marked ends well if and only if it carries the timestamp they were settled with, and changes nothing in C1, dispatch_state or the queue either way |
| `Batches.BatchStore.CutBatch` | dispatcher/internal/dispatch/batch.go:79-117 | the method ends where the protocol's caller ends under the same schedule; a cut batch pays exactly the oldest orders queued at the read, each its own amount, and an energy reservation that fails leaves the batch committed |
| `Batches.BatchStore.TryCreate` | dispatcher/internal/dispatch/batchstore.go:151-181 | the batch and all of its rows, or nothing, if any row was claimed elsewhere |
| `Batches.BatchStore.ListQueued` | dispatcher/internal/dispatch/batchstore.go:122-143 | the oldest queued rows up to the limit, oldest first |
| `Batches.BatchStore.Enqueue` | dispatcher/internal/dispatch/batchstore.go:90-105 | idempotent on the order |
| `Batches.BatchStore.TrySettle` | dispatcher/internal/dispatch/finality.go:126-163 | one settlement request of a batch: it goes on only with the settlement posted under the order's and the batch's key, and asks again only if nothing happened |
| `Batches.BatchStore.HandlePartialSettlement` | dispatcher/internal/dispatch/batch.go:136-174 | the method ends where the protocol's caller ends under the same schedule; if it ends well each row listed is settled in C1 and marked, or detached from the batch, as its result said, and both are counted |
| `BatchOutcomes.CutAlone` | dispatcher/internal/dispatch/batch.go:79-117 | a CutBatch nothing disturbs cuts the oldest queued orders if and only if maxSize of them are queued, or there is one and the oldest has waited at least maxWait; otherwise it answers not ready and changes nothing |
| `BatchOutcomes.MissingResult` | dispatcher/internal/dispatch/batch.go:136-150 | a row without a result stops the settlement with an error and changes nothing |
| `BatchOutcomes.FailedIsRequeued` | dispatcher/internal/dispatch/batch.go:136-174 | a row whose payment failed is queued again as of now, in no batch, counted once, and C1 hears nothing |
| `BatchOutcomes.SucceededIsSettled` | dispatcher/internal/dispatch/batch.go:136-174 | a row whose payment succeeded: its order is settled in C1 with the batch's slot and this time, its dispatch_state row SETTLED, the row counted once, nothing else changed |
| `BatchOutcomes.StaleSettlementRetries` | dispatcher/internal/dispatch/finality.go:136-156 | a batch's settlement with a version out of date refetches once and asks for the same again; the second conflict ends the call in an error |
| `BatchOutcomes.SettlementWaits` | dispatcher/internal/dispatch/finality.go:150-157 | while C1 is halted it waits |
| `BatchOutcomes.ErrorsEndCaller` | dispatcher/internal/dispatch/batch.go:79-174 | an error ends CutBatch or HandlePartialSettlement where it is; a call that did not take effect has changed nothing |
| `Batches.PlayIsRun` | dispatcher/internal/dispatch/batch.go:79-174 | every schedule of these methods is a run of the batch protocol |

## Left out

- C1: `amount` overflow, account existence and per-account checks, the halt cache's one second of staleness, and outcomes of a commit that are unknown even to C1.
- Dispatcher.Dispatcher.MarkRetired: a slot is retired or not; its other statuses and its retirement time are not modelled.
- Dispatcher.Dispatcher.Create: a row's id is its position, so the model does not capture ids skipped by rolled-back inserts.
- Orchestrator.Orchestrator.DispatchOne: slot selection and the energy reservation are one step that yields a slot and a timestamp, because neither touches C1 or the dispatcher's tables; EnsureAccount and the USD estimate for S1 are left out.
- Orchestrator.Orchestrator.Build: a thread name that is taken is no turn; naming threads is the model's, not the program's.
- Reconciler.Reconciler.ReconcileOne: the loops over ListDispatching and over pages of screened orders are any sequence of these calls, so their counters and cursors are not modelled.
- Broadcast of a whole batch (batch_broadcast.go): it does not deduplicate chain calls and adds no property beyond the single-order protocol.
- FinalizedQuorum.Pool.LatestFinalized: a provider is its position, not its name; the parallel calls are answers given up front, as nobody else can see their order; NewPool's defaults are not modelled.
- FinalityTracker.Tracker.CheckFinality: stale-pending alerts, the log-once flag of a reorganisation and the metrics are left out, because they change nothing that is tracked; contents do not survive a restart, and none is modelled.
- LogAgreement.SortLogs: the library's sort is outside this repository, so an in-place selection sort stands for it; EverySortAgreesIff says when another sort could tell differently.
- FinalDeposits.RunTick: the cursors' values are in ScanCursors, here a cursor statement only succeeds or fails; two logs with one key in one scan meet the same fate.
- FinalDeposits.ScanRange: how a log is parsed and its amount classified, and the record of a deposit on a retired address, are left out: each log comes with a verdict.
- ScanCursors.Watcher.RunTick: the finality check that closes a tick is FinalityTracker.Tracker.CheckFinality, which touches neither cursor (FinalDeposits.RunLoop follows it through any number of ticks) and whose error ends the tick after both are where they stay; the operator's override of both cursors is left out, because it breaks their order by design.
- EnergyReserve.Buffer.Reserve: the SQL query is a scan, and claimed ids are a set, so the order of RowIDs is not captured.
- EnergySafety.StepKeeps: nothing in the program sets SPENT, so no step does.
- Slots.Store.SelectForDispatch: the balances are read before the method rather than by parallel calls, and the head of the sorted list is found without sorting the rest.
- Batches.BatchStore.HandlePartialSettlement: EnsureAccount before a settlement is left out, because it posts nothing.
- Batches.BatchStore.CutBatch: building the multisend bytes is left out; that it can fail is a failing transaction, which changes nothing either.
- LogAgreement.LogsAt: the health marks it leaves on the two providers are not modelled, because nothing decides by them; nor is the query, whose block range and filter are the same for both.
- BroadcastProtocol: a statement or commit that takes effect unheard is a crash right after it; the caller's error return is not told apart from its death, and what it would then keep cached belongs to an order that is no longer screened.
- VerifyOnChain, Replenish, pricing, signing, screening, refunds, HTTP and gRPC clients, migrations and configuration: no hard property, or outside this repository.
- Fixed-width overflow of sums (int64 totals of units and amounts) outside Money and FinalizedQuorum.
