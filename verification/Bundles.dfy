/** Interop bundles: their data, their statuses, the rows they persist to, and one handler step. */
module Bundles {
  import opened Common
  import opened LiquidityLedger

  // ---------------------------------------------------------------- transactions and their fates

  datatype Payment = Payment(address: nat, amount: nat)

  /** `payments` are the fund transfers of the quoted intent, if they can be read;
      `escrows` are the escrows the transaction creates. */
  datatype Tx = Tx(id: nat, chain: nat, payments: Option<seq<Payment>>, escrows: seq<nat>)

  /** A final status. `block` is the receipt's block number, `failed` the error flag of its
      intent event; both may be absent. */
  datatype Fate = Confirmed(block: Option<nat>, failed: Option<bool>) | Reverted

  /** The final status of every transaction, by id. */
  type Fates = nat -> Fate

  predicate Executed(f: Fate) {
    f.Confirmed? && f.failed == Some(false)
  }

  predicate AllExecuted(txs: seq<Tx>, fates: Fates) {
    forall tx <- txs :: Executed(fates(tx.id))
  }

  predicate AllConfirmed(txs: seq<Tx>, fates: Fates) {
    forall tx <- txs :: fates(tx.id).Confirmed?
  }

  /** Some confirmed transaction made an escrow that can be refunded. */
  predicate AnyEscrow(txs: seq<Tx>, fates: Fates) {
    exists tx <- txs :: fates(tx.id).Confirmed? && tx.escrows != []
  }

  /** Receipts of the executed intents: transaction id to block number. */
  function Receipts(txs: seq<Tx>, fates: Fates): map<nat, Option<nat>> {
    if txs == [] then map[]
    else
      var rest, tx := Receipts(txs[..|txs| - 1], fates), txs[|txs| - 1];
      if Executed(fates(tx.id)) then rest[tx.id := fates(tx.id).block] else rest
  }

  // ---------------------------------------------------------------- bundles

  /** A payment the funder makes on a destination chain. */
  datatype Transfer = Transfer(asset: Asset, amount: nat, tx: nat)

  datatype Bundle = Bundle(sources: seq<Tx>, destinations: seq<Tx>, transfers: seq<Transfer>, refunds: seq<Tx>,
                           settlements: seq<Tx>, receives: seq<Tx>, unverified: seq<nat>, feePayer: Option<Tx>)

  const NEW := Bundle([], [], [], [], [], [], [], None)

  datatype Status =
    | Init | LiquidityLocked | FeePayerQueued | FeePayerCompleted | SourceQueued | SourceConfirmed
    | SourceFailures | DestinationQueued | DestinationFailures | DestinationConfirmed
    | SettlementsQueued | SettlementsProcessing | SettlementCompletionQueued
    | RefundsScheduled | RefundsReady | RefundsQueued | Done | Failed

  predicate CanTransition(from: Status, to: Status) {
    match from
    case Init => to == LiquidityLocked
    case LiquidityLocked => to == FeePayerQueued || to == SourceQueued
    case FeePayerQueued => to == FeePayerCompleted || to == Failed
    case FeePayerCompleted => to == SourceQueued
    case SourceQueued => to == SourceConfirmed || to == SourceFailures
    case SourceConfirmed => to == DestinationQueued
    case SourceFailures => to == RefundsScheduled || to == Failed
    case DestinationQueued => to == DestinationConfirmed || to == DestinationFailures
    case DestinationFailures => to == RefundsScheduled || to == Failed
    case DestinationConfirmed => to == SettlementsQueued || to == Done
    case SettlementsQueued => to == SettlementsProcessing || to == Failed
    case SettlementsProcessing => to == SettlementCompletionQueued || to == Done
    case SettlementCompletionQueued => to == Done || to == Failed
    case RefundsScheduled => to == RefundsReady
    case RefundsReady => to == RefundsQueued
    case RefundsQueued => to == Done || to == Failed
    case Done => false
    case Failed => false
  }

  datatype Batch =
    | FeePayer(tx: Tx) | Source(txs: seq<Tx>) | Destination(txs: seq<Tx>)
    | ExecuteSend(txs: seq<Tx>) | ExecuteReceive(txs: seq<Tx>) | Refund(txs: seq<Tx>)
  {
    function Transactions(): seq<Tx> {
      if FeePayer? then [tx] else txs
    }

    function NextStatus(): Status {
      match this
      case FeePayer(_) => FeePayerQueued
      case Source(_) => SourceQueued
      case Destination(_) => DestinationQueued
      case ExecuteSend(_) => SettlementsQueued
      case ExecuteReceive(_) => SettlementCompletionQueued
      case Refund(_) => RefundsQueued
    }

    predicate IsSettlement() {
      ExecuteSend? || ExecuteReceive? || Refund?
    }
  }

  /** Settlement-type transactions join the bundle when they are queued; the others are in it. */
  function Append(b: Bundle, batch: Batch): Bundle {
    match batch
    case ExecuteSend(txs) => b.(settlements := b.settlements + txs)
    case ExecuteReceive(txs) => b.(receives := b.receives + txs)
    case Refund(txs) => b.(refunds := b.refunds + txs)
    case _ => b
  }

  /** What the running task keeps: it assigns the new list rather than appending to the old. */
  function Assign(b: Bundle, batch: Batch): Bundle {
    match batch
    case ExecuteSend(txs) => b.(settlements := txs)
    case ExecuteReceive(txs) => b.(receives := txs)
    case Refund(txs) => b.(refunds := txs)
    case _ => b
  }

  function TransfersOf(tx: Tx): seq<Transfer> {
    if tx.payments.None? then []
    else seq(|tx.payments.value|, i requires 0 <= i < |tx.payments.value| =>
           Transfer(Asset(tx.chain, tx.payments.value[i].address), tx.payments.value[i].amount, tx.id))
  }

  function AllTransfers(txs: seq<Tx>): seq<Transfer> {
    if txs == [] then [] else AllTransfers(txs[..|txs| - 1]) + TransfersOf(txs[|txs| - 1])
  }

  function TransferAmount(a: Asset): Transfer -> nat {
    (t: Transfer) => if t.asset == a then t.amount else 0
  }

  function UnlockAmount(a: Asset): Unlock -> nat {
    (u: Unlock) => if u.asset == a then u.amount else 0
  }

  /** Per-asset totals to lock. */
  function Totals(transfers: seq<Transfer>): map<Asset, nat> {
    if transfers == [] then map[]
    else
      var rest, t := Totals(transfers[..|transfers| - 1]), transfers[|transfers| - 1];
      rest[t.asset := LockedTotal(rest, t.asset) + t.amount]
  }

  /** The release of one transfer: at its receipt's block, or at block 0 without one. */
  function UnlockOf(t: Transfer, receipts: map<nat, Option<nat>>): Unlock {
    Unlock(t.asset,
           if t.tx in receipts && receipts[t.tx].Some? then receipts[t.tx].value else 0,
           t.amount)
  }

  function Unlocks(transfers: seq<Transfer>, receipts: map<nat, Option<nat>>): seq<Unlock> {
    if transfers == [] then []
    else Unlocks(transfers[..|transfers| - 1], receipts) + [UnlockOf(transfers[|transfers| - 1], receipts)]
  }

  // ---------------------------------------------------------------- storage

  /** A bundle with its status, in memory or in a row. */
  datatype Live = Live(bundle: Bundle, status: Status)

  /** What the bundle did to shared state, in commit order. */
  datatype Entry =
    | Locked(totals: map<Asset, nat>)
    | Released(unlocks: seq<Unlock>)
    | Queued(batch: Batch)

  /** The bundle's rows: pending, finished, whether a refund is scheduled, and its journal. */
  datatype Store = Store(pending: Option<Live>, finished: Option<Live>, refundDue: bool, journal: seq<Entry>)
  {
    /** An update of a missing row does nothing. */
    function SetStatus(s: Status): Store {
      if pending.Some? then this.(pending := Some(pending.value.(status := s))) else this
    }

    function LockFor(b: Bundle, s: Status): Store {
      this.(journal := journal + [Locked(Totals(b.transfers))]).SetStatus(s)
    }

    function UnlockFor(b: Bundle, receipts: map<nat, Option<nat>>, s: Status): Store {
      this.(journal := journal + [Released(Unlocks(b.transfers, receipts))]).SetStatus(s)
    }

    function QueueBatch(b: Bundle, s: Status, batch: Batch): Store {
      this.(pending := Some(Live(b, s)), journal := journal + [Queued(batch)])
    }

    function ScheduleRefund(s: Status): Store {
      this.(refundDue := true).SetStatus(s)
    }

    function MarkRefundReady(s: Status): Store {
      this.(refundDue := false).SetStatus(s)
    }

    function Finish(): Store {
      if pending.Some? then this.(pending := None, finished := pending) else this
    }
  }

  /** A journal entry applied to the liquidity ledger. */
  function Book(l: Ledger, e: Entry): Ledger {
    match e
    case Locked(totals) =>
      l.(locked := l.locked + map a | a in totals :: LockedTotal(l.locked, a) + totals[a])
    case Released(unlocks) => l.(unlocks := l.unlocks + unlocks)
    case Queued(_) => l
  }

  function Replay(l: Ledger, journal: seq<Entry>): Ledger {
    if journal == [] then l else Book(Replay(l, journal[..|journal| - 1]), journal[|journal| - 1])
  }

  // ---------------------------------------------------------------- one handler step

  /** The store and the bundle's running task, if any. */
  datatype World = World(store: Store, task: Option<Live>)

  /** What the settler and the refund builder return when asked. */
  datatype Answers = Answers(settlements: seq<Tx>, unverified: seq<nat>, receives: seq<Tx>, refunds: seq<Tx>)

  /** An error ends the task and leaves the store alone. */
  function Abort(store: Store): World {
    World(store, None)
  }

  function Move(live: Live, store: Store, next: Status): World {
    if CanTransition(live.status, next) then World(store.SetStatus(next), Some(live.(status := next)))
    else Abort(store)
  }

  function Send(live: Live, store: Store, batch: Batch): World {
    var next := batch.NextStatus();
    if CanTransition(live.status, next) then
      World(store.QueueBatch(if batch.IsSettlement() then Append(live.bundle, batch) else live.bundle, next, batch),
            Some(Live(Assign(live.bundle, batch), next)))
    else Abort(store)
  }

  /** Success is kept in memory only; failure releases the lock and is persisted with it. */
  function Watch(live: Live, store: Store, txs: seq<Tx>, fates: Fates, success: Status, failure: Status): World {
    if AllExecuted(txs, fates) then World(store, Some(live.(status := success)))
    else World(store.UnlockFor(live.bundle, map[], failure), Some(live.(status := failure)))
  }

  function RefundOrFail(live: Live, store: Store, fates: Fates): World {
    if AnyEscrow(live.bundle.sources, fates) then
      World(store.ScheduleRefund(RefundsScheduled), Some(live.(status := RefundsScheduled)))
    else Move(live, store, Failed)
  }

  function Destined(live: Live, store: Store, fates: Fates): World {
    var b := live.bundle;
    var next := if AllExecuted(b.destinations, fates) then DestinationConfirmed else DestinationFailures;
    World(store.UnlockFor(b, Receipts(b.destinations, fates), next), Some(live.(status := next)))
  }

  function Verified(live: Live, answers: Answers): Live {
    if answers.unverified != [] then live.(bundle := live.bundle.(unverified := answers.unverified)) else live
  }

  /** The handler of the task's status. */
  function Handle(live: Live, store: Store, fates: Fates, answers: Answers): World {
    var b := live.bundle;
    match live.status
    case Init => World(store.LockFor(b, LiquidityLocked), Some(live.(status := LiquidityLocked)))
    case LiquidityLocked =>
      Send(live, store, if b.feePayer.Some? then FeePayer(b.feePayer.value) else Source(b.sources))
    case FeePayerQueued =>
      if b.feePayer.Some? then Watch(live, store, [b.feePayer.value], fates, FeePayerCompleted, Failed)
      else Abort(store)
    case FeePayerCompleted => Send(live, store, Source(b.sources))
    case SourceQueued => Watch(live, store, b.sources, fates, SourceConfirmed, SourceFailures)
    case SourceConfirmed => Send(live, store, Destination(b.destinations))
    case SourceFailures => RefundOrFail(live, store, fates)
    case DestinationQueued => Destined(live, store, fates)
    case DestinationFailures => RefundOrFail(live, store, fates)
    case DestinationConfirmed =>
      if b.sources == [] then Move(live, store, Done) else Send(live, store, ExecuteSend(answers.settlements))
    case SettlementsQueued =>
      Move(live, store, if AllConfirmed(b.settlements, fates) then SettlementsProcessing else Failed)
    case SettlementsProcessing => Send(Verified(live, answers), store, ExecuteReceive(answers.receives))
    case SettlementCompletionQueued =>
      Move(live, store, if b.unverified != [] || !AllConfirmed(b.receives, fates) then Failed else Done)
    case RefundsScheduled => Abort(store)
    case RefundsReady => Send(live, store, Refund(answers.refunds))
    case RefundsQueued => Move(live, store, Failed)
    case Done => Abort(store.Finish())
    case Failed => Abort(store.Finish())
  }

  /** The same table read backwards: where a status can be entered from. */
  function Predecessors(to: Status): set<Status> {
    match to
    case Init => {}
    case LiquidityLocked => {Init}
    case FeePayerQueued => {LiquidityLocked}
    case FeePayerCompleted => {FeePayerQueued}
    case SourceQueued => {LiquidityLocked, FeePayerCompleted}
    case SourceConfirmed => {SourceQueued}
    case SourceFailures => {SourceQueued}
    case DestinationQueued => {SourceConfirmed}
    case DestinationFailures => {DestinationQueued}
    case DestinationConfirmed => {DestinationQueued}
    case SettlementsQueued => {DestinationConfirmed}
    case SettlementsProcessing => {SettlementsQueued}
    case SettlementCompletionQueued => {SettlementsProcessing}
    case RefundsScheduled => {SourceFailures, DestinationFailures}
    case RefundsReady => {RefundsScheduled}
    case RefundsQueued => {RefundsReady}
    case Done => {DestinationConfirmed, SettlementsProcessing, SettlementCompletionQueued, RefundsQueued}
    case Failed =>
      {FeePayerQueued, SourceFailures, DestinationFailures, SettlementsQueued, SettlementCompletionQueued, RefundsQueued}
  }

  lemma EnteredFrom(from: Status, to: Status)
    ensures CanTransition(from, to) <==> from in Predecessors(to)
  {
  }

  /** Position on the longest path; every transition moves up. */
  function Rank(s: Status): nat {
    match s
    case Init => 0
    case LiquidityLocked => 1
    case FeePayerQueued => 2
    case FeePayerCompleted => 3
    case SourceQueued => 4
    case SourceConfirmed => 5
    case SourceFailures => 5
    case DestinationQueued => 6
    case DestinationFailures => 7
    case DestinationConfirmed => 7
    case SettlementsQueued => 8
    case RefundsScheduled => 8
    case SettlementsProcessing => 9
    case RefundsReady => 9
    case SettlementCompletionQueued => 10
    case RefundsQueued => 10
    case Done => 11
    case Failed => 11
  }

  /** Any two statuses joined by a transition are ordered, and only terminal ones are at the top. */
  lemma TransitionsClimb(from: Status, to: Status)
    ensures CanTransition(from, to) ==> Rank(from) < Rank(to) <= 11
    ensures Rank(from) == 11 <==> (forall next :: !CanTransition(from, next))
  {
    if Rank(from) < 11 {
      var next :=
        match from
        case Init => LiquidityLocked
        case LiquidityLocked => SourceQueued
        case FeePayerQueued => FeePayerCompleted
        case FeePayerCompleted => SourceQueued
        case SourceQueued => SourceConfirmed
        case SourceConfirmed => DestinationQueued
        case SourceFailures => Failed
        case DestinationQueued => DestinationConfirmed
        case DestinationFailures => Failed
        case DestinationConfirmed => Done
        case SettlementsQueued => Failed
        case RefundsScheduled => RefundsReady
        case SettlementsProcessing => Done
        case RefundsReady => RefundsQueued
        case SettlementCompletionQueued => Done
        case _ => Failed;
      assert CanTransition(from, next);
    }
  }

  /** A step of a task either ends it or takes an allowed transition, whatever the store holds. */
  lemma StepIsTransition(live: Live, store: Store, fates: Fates, answers: Answers)
    ensures var w := Handle(live, store, fates, answers);
            w.task.Some? ==> CanTransition(live.status, w.task.value.status)
  {
  }
}
