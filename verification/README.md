# Relay bookkeeping, verified

A Dafny 4.11 model of the parts of the relay that decide what is committed, in which order, and what
survives a crash, with proofs about whole runs. The network around them (RPC providers, signers,
bridges, settlers, the database engine) appears only as inputs: block heights and balances, final
transaction outcomes, answers of builders, and the order in which events happen to interleave.

`dafny verify dfyconfig.toml` checks everything.

## What is modelled

- **Interop bundles** (`Bundles`, `BundleService`, `BundleRuns`, `BundleGuarantees`, `BundleOutcomes`,
  `BundleRace`).
  Eighteen statuses, one handler per status, the driver loop, the rows each handler writes, and a
  journal of what the bundle did to shared state (locks, releases, queued batches). `BundleService`
  holds the handlers as methods over a task and a store and proves each equal to one step of the
  value-level protocol. Runs interleave handler steps with stops (crash or handler error) at any point,
  restarts from the row, and the refund monitor. `BundleRuns.Story` is an independent description of the
  journal as a function of the row alone; the central invariant says that the journal is always exactly
  that story, and the guarantees are read off it. `BundleRace` is the same bundle with any number of tasks.
- **Liquidity ledger** (`LiquidityLedger`, `LedgerStores`, `Solvency`). Locked totals, block-indexed
  unlocks, pruning, in the in-memory and in the SQL form. Memory prunes blocks `< until`, Postgres
  `<= until`; both are covered through one cut. `Solvency` runs the ledger against a model chain.
- **Everybody on one funder** (`SharedFunder`). The bundle protocol and the solvency model together: any number
  of bundles in any interleaving, with crashes, the rebalancer's bridge transfers and the signers' gas pulls,
  against one ledger and one chain.
- **Transaction queue and status subscriptions** (`TxQueues`, `StatusWatch`).
- **Fees and payments** (`Fees`).
- **Planners** (`SourceFunds`, `Precalls`, `Rebalance`).
- **History pages and sponsorship quotas** (`History`, `Sponsorship`).

Where the source updates things step by step the model does too (classes, loops with invariants) and each
such method is proved against a function about which the theorems are then stated. Hash-map iteration is
modelled as an arbitrary order.

## Assumptions

- Amounts are unbounded natural numbers: no 128- or 256-bit operation overflows. The rebalancer's signed
  256-bit deltas are integers, so a worst-case balance is below the largest 256-bit value.
- Every transaction has one final outcome, fixed for the run (`Fates`). A wait that fails instead (for
  example for a transaction reloaded from the stored queue, which has no subscription) is a stop.
- In `BundleRuns` one task runs per bundle; `BundleRace` drops this. A database transaction commits entirely
  or not at all.
- In `SharedFunder` the funder pays a transfer once, after its destination was queued and in the block its
  receipt names, and a bundle that releases by receipts does so when those blocks are mined. Its locks are
  checked at careful blocks (`Solvency.Careful`); what happens otherwise is under the conditions below. A bridge
  transfer reported as failed, and a gas pull given up for lost, do not land later, and the balance a pull is
  checked against is the one of its block.
- A broadcast receiver never lags behind its channel of 100 statuses.
- A bridge reports each transfer state once and in order.
- History rows of one owner have pairwise distinct timestamps.

## Where code and comments differ

The model follows the code in each case.

- `RefundsQueued` is documented as leading to `Done`; its handler always moves to `Failed`.
- `Init` is documented as leading to `SourceQueued`; it leads to `LiquidityLocked`.
- The queue's comment allows at most one pending or ready transaction per sender; after a restart there are
  as many as were recovered pending (`TxQueues.RecoveredExactly`).
- The quota's reported reset time is one second early: a usage still counts at that second.
- The transition table allows `SettlementsProcessing` and `RefundsQueued` to reach `Done`; no handler
  takes these transitions.

## Properties that hold only under a condition

- Locks are checked against a balance read earlier, which a prune may have overtaken. The requests accepted at
  a block all leave the funder solvent exactly when the releases pruned from that block on do not exceed the
  locks still counted there although owed no more, or when not even an empty request is accepted there
  (`Solvency.LockSafeExactly`); they all leave it able to pay exactly when later deposits make up the difference
  (`Solvency.LockPayableExactly`). A block not older than the prune bound is always safe. For every older one
  from block 1 on some run accepts a lock that cannot be paid without further deposits
  (`Solvency.StaleLockOvercommits`).
- Refunds are queued at most once exactly when no more tasks took the bundle up from a row at `RefundsReady`
  than were stopped there (`BundleRace.RefundedOnceExactly`). Starting the refund monitor before the resume loop reads
  the rows allows one too many (`BundleRace.RefundsTwice`).
- A sender has at most one transaction pending or ready from some state on, short of another recovery, exactly
  when it has at most one there (`TxQueues.OneInFlightExactly`): after a recovery, when at most one of its
  transactions was recovered (`TxQueues.RecoveredExactly`).
- Pruning is unobservable exactly while the pruned unlocks do not exceed the locks
  (`LiquidityLedger.PruneUnobservable`); the two backends accept the same requests under the same condition.
- The priority-fee subtraction is safe for every EIP-1559 and EIP-7702 transaction; for a legacy one that
  gets that far exactly when the recommendation is zero or reaches the gas price (`Fees.NoUnderflow`,
  `Fees.LegacyUnderflows`).
- A replacement raises the maximum fee exactly when there was room below the budget (`Fees.ReplacementRaises`),
  which is always so from 10 wei up; below it may stall (`Fees.TinyReplacementStalls`). Every replacement settles
  exactly from a budget of 10 wei up (`Fees.SettlesExactly`).
- A waiting call fails exactly for a transaction without a subscription whose final status is not stored
  when the call reads (`StatusWatch.ReadFailsExactlyWhenUntracked`, `StatusWatch.ReloadedWaiterFails`).
- Rebalances keep the destination's best case below its threshold, counted in raw units as the code does,
  exactly for pairs of decimals where the source has no more than the destination (`Rebalance.RawBestCaseExactly`);
  every other pair has a plan on a real snapshot that overshoots (`Rebalance.FineSourceOvershoots`). The bound in
  worth holds for all decimals.
- The initial shortfall bounds the number of rebalances exactly when none of them moves nothing
  (`Rebalance.RebalancingEndsExactly`), as with equal decimals, thresholds of ten units or positive bridge minima;
  where what is lacking is worth less than a source unit a rebalance of nothing can be planned for ever
  (`Rebalance.NothingMoves`).
- A planned credit is within one source unit of what is taken in the decimals the planner looked up by the mapped
  source-chain address. In the destination token's own decimals a draw that takes something is so exactly when that
  lookup returned them, and one that takes nothing exactly when its credit is worth less than one source unit there
  (`SourceFunds.TrueWorthExactly`); all draws of all plans are so exactly when the lookup is right
  (`SourceFunds.LookupExactly`), and every wrong lookup has a plan with a draw that is not
  (`SourceFunds.WrongLookupShows`).
- For one asset a plan draws on as few chains as any that could cover it when the candidates descend in what they
  can give (`SourceFunds.FewestChains`), as the sorting by balance makes them with a sponsored fee; escrow costs can
  make it draw on one more (`SourceFunds.FeesCostAChain`).
- `Sponsorship.SpendBounded` is about recorded spend. Gas of approved sends that failed on chain or could not be
  stored is not recorded; what is really spent is bounded exactly when no approved send that costs gas goes
  unrecorded (`Sponsorship.ActualBoundedExactly`).

## Model

| member | source | states |
|---|---|---|
| `Bundles.TransitionsClimb` | src/transactions/interop.rs:355-387 | every allowed transition moves up a ranking of the 18 statuses, and exactly `Done` and `Failed` allow none |
| `Bundles.EnteredFrom` | src/transactions/interop.rs:355-387 | which statuses each status is entered from |
| `Bundles.StepIsTransition` | src/transactions/interop.rs:508-921 | whatever the store holds, a handler that leaves the task running has taken an allowed transition |
| `BundleService.CollectReceipts` | src/transactions/interop.rs:1032-1062 | a failure is reported iff some transaction reverted, has no intent event, or one with an error; the receipts are the blocks of exactly the others |
| `BundleService.FailedIds` | src/transactions/interop.rs:1073-1111 | reports exactly the monitored transactions that did not confirm, none iff all confirmed |
| `BundleService.ConfirmedEscrows` | src/interop/refund/processor.rs:201-222 | the escrows of confirmed source transactions, none iff there is nothing to refund |
| `BundleService.PrepareLockInputs` | src/liquidity/tracker.rs:123-156 | one request per asset for the total of its transfers, with the balance and block read for it |
| `BundleService.PreparedLockBooks` | src/storage/memory.rs:1065-1068 | locking prepared inputs books the transfers' totals on the ledger |
| `BundleService.RecordUnlocks` | src/storage/pg.rs:1143-1153 | one unlock per transfer, at its receipt's block or block 0 |
| `BundleService.BundleStore.constructor` | src/transactions/interop.rs:416-423 | a sent bundle starts as one pending row with status Init |
| `BundleService.BundleStore.LockFor` | src/storage/pg.rs:1118-1132 | lock and status are committed together, or nothing is when the ledger refuses |
| `BundleService.BundleStore.UnlockFor` | src/storage/pg.rs:1135-1160 | all unlocks and the status are committed together |
| `BundleService.BundleStore.MoveToFinished` | src/storage/pg.rs:1003-1031 | moves the row with its last status, failing when there is none |
| `BundleService.BundleTask.AppendDestination` | src/transactions/interop.rs:134-148 | adds a destination transaction, and for each of its quoted payments in order one transfer of that amount on that chain; so the transfers stay exactly those of the destinations |
| `BundleService.PrepareBundle` | src/rpc/relay.rs:2548-2570 | the prepared transaction at the destination index becomes the destination and brings exactly its transfers, all others become sources in order |
| `BundleService.InteropService.UpdateBundleStatus` | src/transactions/interop.rs:487-503 | persists and takes an allowed transition, errors and changes nothing otherwise |
| `BundleService.InteropService.QueueAndSend` | src/transactions/interop.rs:1121-1173 | queues iff the transition is allowed and every transaction has a service; then stores the bundle with appended settlement-type transactions, queues the batch and leaves the task at its status, else changes nothing |
| `BundleService.InteropService.WatchPrerequisite` | src/transactions/interop.rs:968-1020 | the watch succeeds iff every transaction confirmed with an intent event free of error; success stays in memory, failure releases everything at block 0 with the status |
| `BundleService.InteropService.ScheduleRefunds` | src/interop/refund/processor.rs:96-143 | schedules refunds iff a confirmed source has an escrow, moves to Failed otherwise |
| `BundleService.InteropService.OnInit` | src/transactions/interop.rs:508-522 | locks iff the ledger accepts every asset's total, and changes nothing otherwise |
| `BundleService.InteropService.OnDestinationQueued` | src/transactions/interop.rs:650-661 | confirmed iff every destination confirmed with an intent event free of error; releases each transfer at its payment's block together with the outcome |
| `BundleService.InteropService.OnDestinationConfirmed` | src/transactions/interop.rs:691-728 | Done without sources, settlements queued otherwise |
| `BundleService.InteropService.OnSettlementsQueued` | src/transactions/interop.rs:798-824 | goes on iff all settlements confirmed |
| `BundleService.InteropService.OnSettlementsProcessing` | src/transactions/interop.rs:829-889 | remembers failed verifications and queues the receive transactions |
| `BundleService.InteropService.OnSettlementCompletionQueued` | src/transactions/interop.rs:894-921 | Done iff nothing failed to verify or to be received |
| `BundleService.InteropService.Dispatch` | src/transactions/interop.rs:1208-1249 | every arm of the driver takes the protocol's step, and moves the ledger by what it journals |
| `BundleService.InteropService.SendAndWatch` | src/transactions/interop.rs:1208-1249 | the loop terminates; what it leaves in the store is the protocol step repeated until the task ends, or until a batch has no service, or nothing changed when the lock was refused |
| `BundleRuns.AppendIsAssign` | src/transactions/interop.rs:718-719 | appending for the row and assigning in memory agree because the list is empty until its phase |
| `BundleRuns.SentInv` | src/transactions/interop.rs:416-423 | a sent bundle satisfies the invariant |
| `BundleRuns.StepKeepsInv` | src/transactions/interop.rs:508-921 | after every handler the row equals the task up to the two unpersisted successes, statuses mean what they say about outcomes, later lists are empty until their phase, and the journal is exactly the story of the row |
| `BundleRuns.RefundDueKeepsInv` | src/interop/refund/monitor.rs:113-134 | resuming for a refund keeps that invariant |
| `BundleRuns.EventKeepsInv` | src/transactions/interop.rs:1331-1352 | so do stops at any point and restarts from the row |
| `BundleRuns.ReachableRow` | src/transactions/interop.rs:1208-1249 | in every reachable state the journal is a function of the row, and the request is unchanged |
| `BundleGuarantees.LocksItsPayments` | src/transactions/interop.rs:134-148 | in every reachable state of a bundle built by appending its destinations, what was locked of an asset, and what was released, is the sum of the quoted payments of it over the destination transactions |
| `BundleGuarantees.LockedOnceReleasedOnce` | src/transactions/interop.rs:508-522 | over every run: locked once from LiquidityLocked on, released once from a failure or the destination outcome on, hence before any terminal status, never before the batch whose failure (anything but a confirmed intent without error) or outcome calls for it was queued, with equal per-asset totals |
| `BundleGuarantees.ReleasedAtPayment` | src/storage/pg.rs:1143-1153 | every transfer is released at the block its payment confirmed in without error, or at block 0 |
| `BundleGuarantees.QueuedOnceWhenWarranted` | src/transactions/interop.rs:1121-1173 | over every run each kind of batch is queued at most once, in order, and only on the outcome that warrants it: destinations after all sources, settlements after all destinations, refunds only if one failed |
| `BundleGuarantees.PaidOnSuccess` | src/transactions/interop.rs:968-1020 | in every reachable state a batch in the journal means the success of all before it: destinations are paid only if every source confirmed with an intent event free of error, settlements sent only if the destinations did too, refunds only if one of them did not |
| `BundleGuarantees.NeverSettlesAndRefunds` | src/transactions/interop.rs:626-773 | no run queues both settlements and refunds |
| `BundleGuarantees.NetsOut` | src/storage/memory.rs:1038-1074 | on any ledger the bundle counts as its transfers while locked and as nothing once released |
| `BundleGuarantees.DoneExactlyWhenSettled` | src/transactions/interop.rs:894-921 | a finished bundle is Done iff fee payer, sources and destinations confirmed without error and, with sources, settlements and receives confirmed and everything verified |
| `BundleOutcomes.RestartRejoins` | src/transactions/interop.rs:1331-1352 | a stop and a restart lead back to the very same state, at once or after watching one successful batch again |
| `BundleOutcomes.LaggingStep` | src/transactions/interop.rs:984-988 | where the row lags, handling it again gives the task's state and writes nothing |
| `BundleOutcomes.StepGoesOn` | src/transactions/interop.rs:508-921 | no handler fails or refuses its transition before the bundle waits for refunds or is over |
| `BundleOutcomes.StepEnds` | src/transactions/interop.rs:926-943 | a task ends only with the row at its own status, waiting for refunds or finished |
| `BundleOutcomes.EventClimbs` | src/transactions/interop.rs:355-387 | every event moves row and bundle up, except a stop, which costs at most one status |
| `BundleOutcomes.StatusChangesBounded` | src/transactions/interop.rs:355-387 | over any run a row changes status at most 9 times, a bundle at most 11 plus one per stop that hit it between a success and the next write |
| `BundleOutcomes.ForwardAdvances` | src/transactions/interop.rs:1331-1352 | in every unfinished state a step, a due refund or a restart is possible and brings the end nearer |
| `BundleOutcomes.CanFinish` | src/transactions/interop.rs:1208-1249 | from every reachable state the bundle can be brought to an end |
| `BundleOutcomes.CrashesDoNotMatter` | src/transactions/interop.rs:1331-1352 | however often it is stopped, a finished bundle has the status, transactions and journal given by one closed formula |
| `BundleRace.OwedOverRun` | src/interop/refund/monitor.rs:113-134 | with any number of tasks on one bundle, refund batches queued plus those standing to be queued change exactly by who takes the bundle up from a row at RefundsReady and who stops there |
| `BundleRace.RefundedOnceExactly` | src/transactions/interop.rs:1323-1352 | after the monitor resumed a bundle and any further run, the most refund batches a continuation queues is 1 plus tasks resumed from a row at RefundsReady, of whatever age, minus tasks stopped there; at most one iff no more were resumed than stopped |
| `BundleRace.OneTaskRefundsOnce` | src/transactions/interop.rs:1121-1173 | with one task per bundle refunds are queued at most once over every run |
| `BundleRace.RefundsTwice` | src/transactions/interop.rs:1323-1352 | a reachable bundle whose resume by both the monitor and the startup loop queues its refunds twice |
| `LiquidityLedger.PruneKeepsReads` | src/storage/memory.rs:558-576 | a prune changes no read at or after its bound, even with saturating subtraction |
| `LiquidityLedger.BelowKeep` | src/storage/pg.rs:1190-1222 | a prune removes exactly the unlocks below the cut on its chain |
| `LiquidityLedger.PruneRemoves` | src/storage/pg.rs:1190-1222 | memory removes the unlocks before the bound, Postgres those up to it, all of them and no others, and takes their sum off the locked totals of that chain |
| `LiquidityLedger.FreshCounts` | src/storage/memory.rs:1038-1068 | with nothing released all that is locked counts, for reads and for the lock test |
| `LiquidityLedger.ReleaseCounts` | src/storage/memory.rs:1038-1068 | a release lowers every read at its block or later, and acts on later lock tests as that much more balance |
| `LiquidityLedger.BackendsAgree` | src/storage/pg.rs:141-250 | the two lock tests agree on every request iff unlocks do not exceed locks |
| `LiquidityLedger.LockSplits` | src/storage/memory.rs:1050-1068 | locking several assets is locking one, then the rest |
| `LiquidityLedger.CanLockSplits` | src/storage/memory.rs:1050-1068 | and is accepted iff both are |
| `LiquidityLedger.PruneUnobservable` | src/storage/memory.rs:558-576 | pruned and unpruned ledger answer every later sequence of operations alike iff pruned unlocks do not exceed locks |
| `LiquidityLedger.SurplusShows` | src/storage/memory.rs:1038-1047 | otherwise one lock and one read tell them apart |
| `LiquidityLedger.PruningNeverObserved` | src/storage/pg.rs:1190-1222 | over a whole run, pruning at any points changes no answer |
| `LedgerStores.Drain` | src/storage/memory.rs:563-571 | removing entries one by one with saturation takes off their sum, floored at zero |
| `LedgerStores.AddLocks` | src/storage/memory.rs:1065-1068 | the update loop computes the ledger's lock |
| `LedgerStores.LockRows` | src/storage/pg.rs:141-250 | the row-by-row check and update locks all assets or none |
| `LedgerStores.CutAndDrain` | src/storage/memory.rs:558-576 | the prune loop cuts every pending map and drains every total |
| `LedgerStores.MemoryLedger.GetTotalLockedAt` | src/storage/memory.rs:1038-1047 | is the ledger's read |
| `LedgerStores.MemoryLedger.TryLockLiquidity` | src/storage/memory.rs:1050-1068 | locks iff every asset is accepted, all or nothing |
| `LedgerStores.MemoryLedger.UnlockLiquidity` | src/storage/memory.rs:1072-1074 | records one unlock |
| `LedgerStores.MemoryLedger.PruneUnlockedEntries` | src/storage/memory.rs:558-576 | is the ledger's prune with blocks below the bound |
| `LedgerStores.TakeOff` | src/storage/pg.rs:1202-1217 | the floored updates of the deleted rows take off their sum |
| `LedgerStores.SqlLedger.TryLockLiquidity` | src/storage/pg.rs:141-250 | locks iff every asset is accepted, all or nothing |
| `LedgerStores.SqlLedger.PruneUnlockedEntries` | src/storage/pg.rs:1190-1222 | is the ledger's prune with blocks up to the bound |
| `Solvency.AcceptedFits` | src/storage/memory.rs:1050-1068 | an accepted lock fits the deposits on top of everything still live |
| `Solvency.StepKeepsInv` | src/liquidity/tracker.rs:111-156 | deposits, blocks, locks, payments, releases and prunes keep ledger and chain in step |
| `Solvency.FunderStaysSolvent` | src/storage/memory.rs:1038-1074 | over every run of careful locks, the locks not yet paid never exceed the funder's balance at the last lock's block or any later one |
| `Solvency.RecentLocksStaySolvent` | src/storage/pg.rs:1190-1222 | in particular when no lock is checked at a block older than the prune bound |
| `Solvency.LockSafeExactly` | src/storage/memory.rs:1038-1068 | whatever is accepted at a block keeps the funder solvent iff the releases pruned from there on do not exceed the locks counted there although owed no more, or nothing is accepted |
| `Solvency.LockPayableExactly` | src/storage/memory.rs:1038-1068 | whatever is accepted leaves all locks payable now iff deposits arrived since make up the difference, or nothing is accepted |
| `Solvency.StaleLockOvercommits` | src/storage/memory.rs:558-576 | for every block from 1 on and every later prune bound beyond it, a run from the empty funder after which a lock is accepted that no later block can pay without further deposits |
| `SharedFunder.LockIsRun` | src/liquidity/tracker.rs:123-165 | locking a bundle's totals at once is a legal run of single locks, one per transfer, each accepted |
| `SharedFunder.ReleaseIsRun` | src/storage/pg.rs:1135-1160 | a bundle's release is a run of single releases at payment blocks |
| `SharedFunder.EventAdds` | src/transactions/interop.rs:508-921 | an event of a bundle adds to its journal nothing, its lock first, a batch, or its one release |
| `SharedFunder.BundlesShareFunder` | src/storage/memory.rs:1038-1074 | any number of bundles, bridge transfers and gas pulls, interleaved with each other, with payments, deposits and prunes, and crashing at will, drive the funder through a legal careful run, so it stays solvent |
| `SharedFunder.LedgerFollowsJournal` | src/storage/pg.rs:1118-1160 | in such a system the shared ledger moves by exactly what the bundles journal |
| `SharedFunder.LoansMoveLedger` | src/transactions/signer.rs:1109-1255 | a bridge transfer moves it by the rebalancer's lock and reports, a gas pull by one lock and one release |
| `TxQueues.TxQueue.constructor` | src/transactions/service.rs:523-525 | an empty queue with its cap |
| `TxQueues.TxQueue.CountQueuedFor` | src/transactions/service.rs:528-531 | ready plus blocked of a sender |
| `TxQueues.TxQueue.PushTransaction` | src/transactions/service.rs:534-558 | refuses exactly at the cap (`TxQueues.AcceptedExactly`), else readies or blocks |
| `TxQueues.TxQueue.PopReady` | src/transactions/service.rs:574-587 | yields the oldest ready transaction and accounts for it |
| `TxQueues.TxQueue.OnFinishedPending` | src/transactions/service.rs:591-607 | clears both pending maps and promotes the next blocked transaction |
| `TxQueues.TablesConsistent` | src/transactions/service.rs:489-521 | in every reachable state the counts are real, the pending maps inverse, the cap respected, blocked senders have something ahead, and pending plus ready is at most the larger of the recovered ones and one, or none if the cap is zero |
| `TxQueues.OneInFlightExactly` | src/transactions/service.rs:489-521 | from any reachable state a sender has at most one pending or ready transaction until the next recovery iff it has at most one now |
| `TxQueues.RecoveredExactly` | src/transactions/service.rs:489-521 | whatever list is recovered the bound is attained, and from then on a sender has at most one iff at most one of its transactions was recovered |
| `TxQueues.PopsInAcceptedOrder` | src/transactions/service.rs:574-587 | per sender, and for internal transactions, popped is a prefix of accepted |
| `TxQueues.AcceptedExactly` | src/transactions/service.rs:534-548 | in every reachable state a transaction is accepted iff fewer of its sender's than the cap are accepted and not yet popped, an internal one always; a refusal leaves no trace |
| `TxQueues.AcceptedPartition` | src/transactions/service.rs:533-607 | an accepted transaction is in exactly one of ready, blocked and popped; popped ones are pending iff not finished |
| `StatusWatch.StepKeepsInv` | src/transactions/service.rs:416-459 | submitted transactions stay ahead of subscriptions, stored finals are on their way or delivered, subscriptions live until then |
| `StatusWatch.WaitNeverFails` | src/transactions/service.rs:84-110 | a wait on a submitted or recovered transaction never errors and returns only the stored final status |
| `StatusWatch.ReadFailsExactlyWhenUntracked` | src/transactions/service.rs:94-109 | a wait errors iff it reads no final status of a transaction without a subscription |
| `StatusWatch.ReloadedWaiterFails` | src/transactions/service.rs:212-216 | a wait on a transaction reloaded from the stored queue can error although its final status is written later |
| `StatusWatch.InternalStepsEnd` | src/transactions/service.rs:407-459 | draining events and commands and waking waiters terminates |
| `StatusWatch.QuietReturned` | src/transactions/service.rs:84-110 | once nothing is left to drain, every wait on a final transaction has returned its status |
| `StatusWatch.NoLostFinalStatus` | src/transactions/service.rs:84-110 | under every interleaving a wait returns the stored final status after boundedly many owed steps |
| `StatusWatch.WaitForTx` | src/transactions/service.rs:103-107 | returns the stored status if it is final, else the first final status heard; errors iff there is neither |
| `StatusWatch.ReadAllIsFirstFinal` | src/transactions/service.rs:103-107 | receiving one status after the other returns the first final one in the buffer |
| `Fees.NoUnderflow` | src/transactions/fees.rs:118-126 | the fee subtraction cannot wrap, with the exact condition for a legacy transaction that gets to it |
| `Fees.LegacyUnderflows` | src/transactions/fees.rs:118-126 | a legacy transaction and a context for which it does wrap |
| `Fees.PrepareReplacement` | src/transactions/fees.rs:83-138 | for every transaction, computes the replacement or fails in the unsigned subtraction exactly where it underflows |
| `Fees.BestFees` | src/transactions/fees.rs:114-126 | the two fees bumped branch by branch, none iff the priority fee exceeds the recommendation it is subtracted from |
| `Fees.BumpsExactly` | src/transactions/fees.rs:65-79 | a bump is due iff the cap is below the base fee or the recommendation more than a tenth above the priority fee offered |
| `Fees.NewFeesExactly` | src/transactions/fees.rs:47-62 | first fees are a fifth over the base fee plus the recommendation, cut at the budget |
| `Fees.ReplacedExactly` | src/transactions/fees.rs:83-111 | when there is a replacement, when none, and which error otherwise, in terms of the old fees, the base fee and the budget |
| `Fees.ReplacementExactly` | src/transactions/fees.rs:110-138 | what it pays: a fifth over an overtaking base fee, the priority increase on top, at least a tenth over the old fees, cut at the budget and at the new cap |
| `Fees.NewFeesFit` | src/transactions/fees.rs:47-62 | first fees exist iff the budget covers the base fee, and then fit the budget and cover it |
| `Fees.ReplacementFits` | src/transactions/fees.rs:83-138 | any replacement fits the budget, covers the base fee, keeps priority within it and raises both fees by the minimum bump |
| `Fees.ReplacementRaises` | src/transactions/fees.rs:110-131 | the maximum fee rises iff there was room, which is so from 10 wei up |
| `Fees.TinyReplacementStalls` | src/transactions/fees.rs:110-131 | below 10 wei a replacement can keep the maximum fee |
| `Fees.ReplacementSettles` | src/transactions/fees.rs:65-79 | from a budget of 10 wei up a replacement, however it is sent, asks for no further one under the same context |
| `Fees.SettlesExactly` | src/transactions/fees.rs:65-138 | every replacement of every well-formed transaction settles iff the budget is at least 10 wei |
| `Fees.ChainsAreFinite` | src/transactions/fees.rs:83-138 | from any first send carrying the new fees, EIP-1559 or EIP-7702, replacements strictly climb towards the budget, which bounds their number |
| `Fees.PaymentMonotone` | src/transactions/transaction.rs:181-186 | the payment grows with the fee and never exceeds the signed maximum |
| `Fees.PaymentCovers` | src/transactions/transaction.rs:181-186 | it covers the extra payment and gas limit times fee, in token units at the ether price, with less than one unit of excess |
| `Fees.PaymentIsLeast` | src/transactions/transaction.rs:181-186 | for every quote it is the least amount that does, or the signed maximum |
| `Fees.OneDecimalMore` | src/transactions/transaction.rs:181-186 | a token with one decimal more is paid in ten times the units, to within the rounding |
| `Fees.PaymentsAlongChain` | src/transactions/transaction.rs:272-278 | along such a first send and its replacements payments climb, stay signed and keep covering |
| `Precalls.PickSequence` | src/rpc/relay.rs:1237-1252 | takes the maximal contiguous run from the nonce, removes exactly the stale calls it meets |
| `Precalls.SelectPrecalls` | src/rpc/relay.rs:3825-3851 | does so for every sequence key |
| `Precalls.KeyAndCounter` | src/rpc/relay.rs:1232-1239 | the sequence key is the nonce above its lower 64 bits, and an unseen key starts at counter zero |
| `Precalls.ReplayExactly` | src/rpc/relay.rs:1237-1252 | a call list replays iff each sequence's calls run on from its nonce, whatever the order between sequences |
| `Precalls.SelectionExecutes` | src/rpc/relay.rs:3825-3851 | the selection replays in any such order, and afterwards no considered call is executable |
| `SourceFunds.AdjustValue` | src/rpc/relay.rs:4261-4266 | a conversion loses less than one unit and never gains |
| `SourceFunds.AdjustBackFits` | src/rpc/relay.rs:4261-4266 | what was taken, converted back, fits what was available |
| `SourceFunds.Shortfall` | src/rpc/relay.rs:1562-1581 | of each requested asset what is missing on the destination remains, and nothing of any other |
| `SourceFunds.SourcesExactly` | src/rpc/relay.rs:1583-1618 | sources are the other chains that map the fee token and hold something mapped to a requested asset, with exactly those holdings |
| `SourceFunds.MaxTakeExactly` | src/rpc/relay.rs:1705-1745 | what a candidate can give is the largest amount worth no more than the first balance of the mapped asset, less an unsponsored escrow cost paid from it |
| `SourceFunds.TakeOne` | src/rpc/relay.rs:1705-1762 | takes as much as needed and available, nothing iff the chain has nothing to offer |
| `SourceFunds.Retain` | src/rpc/relay.rs:1705-1765 | taken plus left is what was left, asset by asset |
| `SourceFunds.DrawOn` | src/rpc/relay.rs:1703-1765 | so for all assets of a chain in any order |
| `SourceFunds.PlanFunds` | src/rpc/relay.rs:1562-1784 | finds a plan iff no request exceeds the existing balance plus what the candidates can give; each request is then made up exactly, one already covered and an asset nobody asked for get nothing; each candidate in order gives what it can until nothing is missing and none is visited after that, no chain repeats, amounts plus escrow cost fit, each credit is within one source unit in the looked-up decimals |
| `SourceFunds.TrueWorthExactly` | src/rpc/relay.rs:1718-1762 | in the destination token's own decimals that holds, for a draw that takes something, iff the lookup by the mapped address returned them, and for one that takes nothing iff its credit is worth less than one source unit |
| `SourceFunds.LookupExactly` | src/rpc/relay.rs:1718-1762 | it holds for every draw of every plan that may be returned iff the lookup returned the token's decimals |
| `SourceFunds.WrongLookupShows` | src/rpc/relay.rs:1718-1762 | for every wrong lookup a call whose every possible plan has a draw that breaks the bound |
| `SourceFunds.FewestChains` | src/rpc/relay.rs:1621-1660 | for one asset and candidates in descending order of what they can give, no set of candidates that covers the shortfall is smaller than the plan |
| `SourceFunds.FeesCostAChain` | src/rpc/relay.rs:1621-1660 | a call sorted by balance whose escrow costs make the plan use two chains where one would do |
| `SourceFunds.PlanWithinHoldings` | src/rpc/relay.rs:1583-1618 | no plan draws on the destination, and each draw fits a holding of the account |
| `SourceFunds.PlanDrawFits` | src/rpc/relay.rs:1730-1762 | under an injective mapping all draws of one asset on one chain plus escrow cost fit its balance |
| `SourceFunds.AddCredits` | src/rpc/relay.rs:2207-2214 | folds a source's credits into the transfers |
| `SourceFunds.FundTransfers` | src/rpc/relay.rs:2207-2225 | transfers are the plan's credits per asset, refused iff the funder cannot pay one |
| `Rebalance.PickDestination` | src/liquidity/rebalance.rs:229-234 | the first entry lowest below its threshold at best, if any |
| `Rebalance.PickSource` | src/liquidity/rebalance.rs:236-245 | the last entry highest above its threshold at worst, if any |
| `Rebalance.MinSupported` | src/liquidity/rebalance.rs:119-129 | the least amount any bridge supports on the route |
| `Rebalance.PlanFor` | src/liquidity/rebalance.rs:228-259 | a coin's plan, or none iff it offers none |
| `Rebalance.FindNextRebalance` | src/liquidity/rebalance.rs:206-263 | some coin's plan, or none iff no coin offers one |
| `Rebalance.OfferIsLargest` | src/liquidity/rebalance.rs:246-252 | an offered amount is the largest that keeps the source at its threshold and is worth no more than the destination lacks; with more than 18 source decimals the largest made up of spared whole units of 18 decimals |
| `Rebalance.ScaledExactly` | src/liquidity/rebalance.rs:213-222 | distances from the thresholds are compared with their sign in 18 decimals, rounded toward zero |
| `Rebalance.WorthwhileExactly` | src/liquidity/rebalance.rs:117-130 | an amount is worth moving iff it reaches a tenth of the source threshold and some bridge takes it on the route |
| `Rebalance.SumInbound` | src/liquidity/rebalance.rs:150-155 | the sum of transfers under way to an asset |
| `Rebalance.BalanceRanges` | src/liquidity/rebalance.rs:144-165 | worst case without locked amounts, best case with everything under way |
| `Rebalance.SourceStaysAbove` | src/liquidity/rebalance.rs:246-252 | the amount leaves the source's worst case at or above its threshold |
| `Rebalance.DestinationStaysBelow` | src/liquidity/rebalance.rs:246-252 | and is worth no more than the destination lacks |
| `Rebalance.PlanIsSafe` | src/liquidity/rebalance.rs:168-203 | every chosen plan keeps both thresholds, has a bridge and passes the lock test on the same snapshot |
| `Rebalance.RawBestCaseExactly` | src/liquidity/rebalance.rs:144-263 | counted raw, every plan offered on a snapshot keeps the destination's best case at or below its threshold iff the source has no more decimals than the destination |
| `Rebalance.FineSourceOvershoots` | src/liquidity/rebalance.rs:144-263 | for every finer source an offered plan on a snapshot that lifts the raw best case above the threshold |
| `Rebalance.EqualDecimalsMove` | src/liquidity/rebalance.rs:246-252 | with equal decimals the amount is positive |
| `Rebalance.ShortfallFalls` | src/liquidity/rebalance.rs:206-263 | a rebalance lowers the total shortfall by its amount or all the destination lacks, whichever is less: exactly by its amount, and by something, with equal decimals |
| `Rebalance.RebalancingEnds` | src/liquidity/rebalance.rs:289-296 | with fixed balances the number of rebalances that move something is bounded by the initial shortfall, and with equal decimals all of them do and it bounds all that is moved |
| `Rebalance.RebalancingEndsExactly` | src/liquidity/rebalance.rs:289-296 | the initial shortfall bounds the number of rebalances of every run iff no run has one that moves nothing |
| `Rebalance.FoundPositive` | src/liquidity/rebalance.rs:119-129 | which no plan does whose source has a threshold of ten units or whose route asks for a positive amount |
| `Rebalance.NothingMoves` | src/liquidity/rebalance.rs:246-257 | a state in which a rebalance of nothing is planned as often as one likes |
| `Rebalance.SomethingToRebalance` | src/liquidity/rebalance.rs:206-263 | for any decimals a concrete run with one rebalance, so the two results above are about something |
| `Rebalance.RebalanceService.constructor` | src/liquidity/rebalance.rs:266-280 | a restart recovers exactly the transfers under way |
| `Rebalance.RebalanceService.Start` | src/liquidity/rebalance.rs:168-203 | locks and starts on the first bridge that takes the amount, with exactly that amount between the two assets, else changes nothing |
| `Rebalance.RebalanceService.OnTransferState` | src/liquidity/rebalance.rs:303-328 | releases at the sending block or block 0, and the map stays equal to the stored transfers under way exactly unless a final state failed to be stored |
| `History.OrdersIsSort` | src/storage/pg.rs:1679-1683 | for distinct times ORDER BY has exactly one answer |
| `History.ListedExactly` | src/storage/pg.rs:1635-1675 | the history lists a pending bundle at its creation, a finished one at its end, and a transaction at its receipt unless its bundle is listed itself |
| `History.TakeInsert` | src/storage/pg.rs:1639-1643 | inserting cannot bring back rows a limit cut off |
| `History.TopUnion` | src/storage/pg.rs:1635-1658 | the first rows of a union are those of its limited branches |
| `History.PageIsSlice` | src/storage/pg.rs:1619-1705 | the query with limits pushed into every branch answers the slice of the whole sorted history, in both directions |
| `History.PagesPartitionHistory` | src/storage/pg.rs:1619-1705 | consecutive pages are a prefix of the sorted history, and all of it exactly once when as many rows as counted were asked for |
| `Sponsorship.QuotaIsEnforced` | src/sponsorship/mod.rs:99-156 | a call is sponsored iff the reported quota has a remainder, the breaker is not tripped and the guards pass, or everything is sponsored |
| `Sponsorship.SponsoredExactly` | src/sponsorship/mod.rs:99-156 | a call is sponsored iff everything is, or the guards pass, there is a subject, and the gas recorded in the window's hours is below the breaker on the chain and below the subject's own cap or else the common one |
| `Sponsorship.QuotaExactly` | src/sponsorship/mod.rs:162-203 | the reported cap, spend, remainder and breaker are those numbers |
| `Sponsorship.QuotaResets` | src/sponsorship/mod.rs:162-203 | the spend loses its oldest usage right after the reported reset time and not before |
| `Sponsorship.ApprovedBelowLimit` | src/sponsorship/mod.rs:130-153 | an approval found both the subject and the chain below their limits |
| `Sponsorship.EventKeepsInv` | src/storage/memory.rs:956-999 | what is recorded and what may still be recorded stays below the bound |
| `Sponsorship.SpendBounded` | src/storage/memory.rs:956-999 | over every run the recorded spend of a subject, or of a chain, in any window is what sends outside any approval recorded, or below that plus its limit plus k sends of at most w |
| `Sponsorship.SpendBoundedWithin` | src/storage/memory.rs:956-999 | so without such sends the recorded spend is nothing or below the limit plus k sends |
| `Sponsorship.ActualBoundedExactly` | src/transactions/signer.rs:878-935 | what is really spent on approved sends keeps that bound over every run iff none that costs gas goes unrecorded |

## Left out

- RPC providers, signers, settlers, bridges, flashblocks and the price oracle: inputs of the model.
- ABI encoding, signatures, Merkle proofs, JWT handling: opaque libraries.
- `BundleGuarantees.QueuedOnceWhenWarranted`: its runs have one task per bundle; `BundleRace` says exactly what more tasks do to refunds, other batches with two tasks are not modelled.
- `BundleService.InteropService.ScheduleRefunds`: does not model the refund timestamp, whose two range errors are stops before anything is written.
- The choice of missing refunds: the refund builder's answer is an input.
- `get_escrows`, call status codes, metrics and tracing: settled by reading one expression.
- The in-memory backend's bundle operations, which are not atomic with the ledger: the bundle store follows the SQL transactions.
- `SourceFunds.PlanFunds`: the destination decimals are an arbitrary lookup by the mapped source-chain address, as the code makes it; a missing entry skips the asset.
- `SourceFunds.PlanFunds`: sorting the candidates is a library call and not modelled, the result holds for any order; `SourceFunds.FewestChains` says what the order is for.
- `Precalls.SelectPrecalls`: the removed calls are returned as a set instead of being deleted one by one.
- `StatusWatch.NoLostFinalStatus`: says that owed steps are bounded, not that a scheduler runs them.
- `History.PageIsSlice`: JSON decoding of the returned rows and rows with equal timestamps are not modelled.
- `Sponsorship.SpendBounded`: the policy does not change during a run; the target guard's own test is an input.
- Allowlist, signer pausing, faucet, onramp, email and diagnostics: each is settled by reading one branch or loop.
