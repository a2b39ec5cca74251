/** Every run of a bundle, with crashes, handler errors and restarts at any point. */
module BundleRuns {
  import opened Common
  import opened LiquidityLedger
  import opened Bundles

  // ---------------------------------------------------------------- the protocol as a whole

  predicate FeeOk(b: Bundle, fates: Fates) {
    b.feePayer.Some? ==> Executed(fates(b.feePayer.value.id))
  }

  /** The fee payer, the sources and the destinations all executed. */
  predicate Delivered(b: Bundle, fates: Fates) {
    FeeOk(b, fates) && AllExecuted(b.sources, fates) && AllExecuted(b.destinations, fates)
  }

  /** Nothing left to settle, or everything settled, verified and received. */
  predicate Settled(b: Bundle, fates: Fates) {
    b.sources == []
    || (AllConfirmed(b.settlements, fates) && b.unverified == [] && AllConfirmed(b.receives, fates))
  }

  function NothingPaid(b: Bundle): Entry {
    Released(Unlocks(b.transfers, map[]))
  }

  function LockStory(b: Bundle): seq<Entry> {
    [Locked(Totals(b.transfers))]
  }

  function FeeStory(b: Bundle): seq<Entry> {
    LockStory(b) + if b.feePayer.Some? then [Queued(FeePayer(b.feePayer.value))] else []
  }

  function SourceStory(b: Bundle): seq<Entry> {
    FeeStory(b) + [Queued(Source(b.sources))]
  }

  function DestinationStory(b: Bundle): seq<Entry> {
    SourceStory(b) + [Queued(Destination(b.destinations))]
  }

  function OutcomeStory(b: Bundle, fates: Fates): seq<Entry> {
    DestinationStory(b) + [Released(Unlocks(b.transfers, Receipts(b.destinations, fates)))]
  }

  function SettleStory(b: Bundle, fates: Fates): seq<Entry> {
    OutcomeStory(b, fates) + [Queued(ExecuteSend(b.settlements))]
  }

  function ReceiveStory(b: Bundle, fates: Fates): seq<Entry> {
    SettleStory(b, fates) + [Queued(ExecuteReceive(b.receives))]
  }

  function UnwoundStory(b: Bundle, fates: Fates): seq<Entry> {
    if AllExecuted(b.sources, fates) then OutcomeStory(b, fates) else SourceStory(b) + [NothingPaid(b)]
  }

  /** Everything the bundle ever did to shared state by the time its row has status `s`. */
  function Story(b: Bundle, s: Status, fates: Fates): seq<Entry> {
    match s
    case Init => []
    case LiquidityLocked => LockStory(b)
    case FeePayerQueued => FeeStory(b)
    case FeePayerCompleted => FeeStory(b)
    case SourceQueued => SourceStory(b)
    case SourceConfirmed => SourceStory(b)
    case SourceFailures => SourceStory(b) + [NothingPaid(b)]
    case DestinationQueued => DestinationStory(b)
    case DestinationFailures => OutcomeStory(b, fates)
    case DestinationConfirmed => OutcomeStory(b, fates)
    case SettlementsQueued => SettleStory(b, fates)
    case SettlementsProcessing => SettleStory(b, fates)
    case SettlementCompletionQueued => ReceiveStory(b, fates)
    case RefundsScheduled => UnwoundStory(b, fates)
    case RefundsReady => UnwoundStory(b, fates)
    case RefundsQueued => UnwoundStory(b, fates) + [Queued(Refund(b.refunds))]
    case Done => if b.sources == [] then OutcomeStory(b, fates) else ReceiveStory(b, fates)
    case Failed =>
      if !FeeOk(b, fates) then FeeStory(b) + [NothingPaid(b)]
      else if !Delivered(b, fates) then
        UnwoundStory(b, fates) + if AnyEscrow(b.sources, fates) then [Queued(Refund(b.refunds))] else []
      else if !AllConfirmed(b.settlements, fates) then SettleStory(b, fates)
      else ReceiveStory(b, fates)
  }

  /** What status `s` says about the transactions' final outcomes. */
  predicate Means(b: Bundle, s: Status, fates: Fates) {
    match s
    case Init => true
    case LiquidityLocked => true
    case FeePayerQueued => b.feePayer.Some?
    case FeePayerCompleted => b.feePayer.Some? && FeeOk(b, fates)
    case SourceQueued => FeeOk(b, fates)
    case SourceConfirmed => FeeOk(b, fates) && AllExecuted(b.sources, fates)
    case SourceFailures => FeeOk(b, fates) && !AllExecuted(b.sources, fates)
    case DestinationQueued => FeeOk(b, fates) && AllExecuted(b.sources, fates)
    case DestinationFailures =>
      FeeOk(b, fates) && AllExecuted(b.sources, fates) && !AllExecuted(b.destinations, fates)
    case DestinationConfirmed => Delivered(b, fates)
    case SettlementsQueued => Delivered(b, fates) && b.sources != []
    case SettlementsProcessing => Delivered(b, fates) && b.sources != [] && AllConfirmed(b.settlements, fates)
    case SettlementCompletionQueued => Delivered(b, fates) && b.sources != [] && AllConfirmed(b.settlements, fates)
    case Done => Delivered(b, fates) && Settled(b, fates)
    case Failed => !Delivered(b, fates) || !Settled(b, fates)
    case _ => FeeOk(b, fates) && !Delivered(b, fates) && AnyEscrow(b.sources, fates)
  }

  /** Settlement, receive and refund data stay empty until their own phase. */
  predicate Clean(b: Bundle, s: Status, fates: Fates) {
    && (Rank(s) < 8 || !Delivered(b, fates) ==> b.settlements == [])
    && (Rank(s) < 10 || !Delivered(b, fates) || b.sources == [] ==> b.receives == [] && b.unverified == [])
    && (Rank(s) < 10 || Delivered(b, fates) ==> b.refunds == [])
  }

  /** The parts of a bundle that never change. */
  predicate SameRequest(b: Bundle, c: Bundle) {
    b.sources == c.sources && b.destinations == c.destinations && b.transfers == c.transfers && b.feePayer == c.feePayer
  }

  /** The row may lag the task by one watched success, and by nothing else. */
  predicate Lags(row: Status, task: Status) {
    || row == task
    || (row == FeePayerQueued && task == FeePayerCompleted)
    || (row == SourceQueued && task == SourceConfirmed)
  }

  predicate RowOk(row: Live, origin: Bundle, journal: seq<Entry>, fates: Fates) {
    && SameRequest(row.bundle, origin)
    && row.status != FeePayerCompleted && row.status != SourceConfirmed
    && Means(row.bundle, row.status, fates)
    && Clean(row.bundle, row.status, fates)
    && journal == Story(row.bundle, row.status, fates)
  }

  predicate TaskOk(row: Live, task: Live, fates: Fates) {
    task.bundle == row.bundle && Lags(row.status, task.status) && Means(task.bundle, task.status, fates)
  }

  predicate Inv(w: World, origin: Bundle, fates: Fates) {
    && (w.store.pending.Some? <==> w.store.finished.None?)
    && (w.store.pending.Some? ==>
          && RowOk(w.store.pending.value, origin, w.store.journal, fates)
          && (w.store.refundDue <==> w.store.pending.value.status == RefundsScheduled))
    && (w.store.finished.Some? ==>
          && RowOk(w.store.finished.value, origin, w.store.journal, fates)
          && Rank(w.store.finished.value.status) == 11
          && w.task.None?)
    && (w.task.Some? ==> TaskOk(w.store.pending.value, w.task.value, fates))
  }

  // ---------------------------------------------------------------- runs

  /** `Stop` is a crash or a handler error; `Restart` reloads the row unless a refund is waiting;
      `RefundDue` is the monitor resuming a scheduled refund. */
  datatype Event = Step(answers: Answers) | Stop | Restart | RefundDue

  predicate Enabled(w: World, e: Event) {
    match e
    case Step(_) => w.task.Some?
    case Stop => true
    case Restart => w.task.None? && w.store.pending.Some? && w.store.pending.value.status != RefundsScheduled
    case RefundDue => w.store.refundDue && w.store.pending.Some?
  }

  function Next(w: World, e: Event, fates: Fates): World
    requires Enabled(w, e)
  {
    match e
    case Step(answers) => Handle(w.task.value, w.store, fates, answers)
    case Stop => Abort(w.store)
    case Restart => w.(task := w.store.pending)
    case RefundDue => World(w.store.MarkRefundReady(RefundsReady), Some(w.store.pending.value.(status := RefundsReady)))
  }

  predicate Legal(w: World, es: seq<Event>, fates: Fates)
    decreases |es|
  {
    es == [] || (Enabled(w, es[0]) && Legal(Next(w, es[0], fates), es[1..], fates))
  }

  function Exec(w: World, es: seq<Event>, fates: Fates): World
    requires Legal(w, es, fates)
    decreases |es|
  {
    if es == [] then w else Exec(Next(w, es[0], fates), es[1..], fates)
  }

  /** A bundle as it is sent: nothing settled, received or refunded yet. */
  predicate IsNew(b: Bundle) {
    b.settlements == [] && b.receives == [] && b.refunds == [] && b.unverified == []
  }

  /** The bundle is stored with status Init and handed to the service. */
  function Sent(b: Bundle): World {
    World(Store(Some(Live(b, Init)), None, false, []), Some(Live(b, Init)))
  }

  lemma SentInv(b: Bundle, fates: Fates)
    requires IsNew(b)
    ensures Inv(Sent(b), b, fates)
  {
  }

  /** Appending to an empty list is assigning it, so row and task agree. */
  lemma AppendIsAssign(b: Bundle, batch: Batch)
    requires batch.ExecuteSend? ==> b.settlements == []
    requires batch.ExecuteReceive? ==> b.receives == []
    requires batch.Refund? ==> b.refunds == []
    ensures Append(b, batch) == Assign(b, batch)
  {
    assert [] + batch.Transactions() == batch.Transactions();
  }

  lemma InitKeepsInv(w: World, origin: Bundle, fates: Fates, answers: Answers)
    requires Inv(w, origin, fates) && w.task.Some? && w.task.value.status == Init
    ensures Inv(Handle(w.task.value, w.store, fates, answers), origin, fates)
  {
  }

  lemma LockedKeepsInv(w: World, origin: Bundle, fates: Fates, answers: Answers)
    requires Inv(w, origin, fates) && w.task.Some? && w.task.value.status == LiquidityLocked
    ensures Inv(Handle(w.task.value, w.store, fates, answers), origin, fates)
  {
  }

  lemma FeePayerKeepsInv(w: World, origin: Bundle, fates: Fates, answers: Answers)
    requires Inv(w, origin, fates) && w.task.Some? && w.task.value.status == FeePayerQueued
    ensures Inv(Handle(w.task.value, w.store, fates, answers), origin, fates)
  {
  }

  lemma FeePaidKeepsInv(w: World, origin: Bundle, fates: Fates, answers: Answers)
    requires Inv(w, origin, fates) && w.task.Some? && w.task.value.status == FeePayerCompleted
    ensures Inv(Handle(w.task.value, w.store, fates, answers), origin, fates)
  {
  }

  lemma SourceKeepsInv(w: World, origin: Bundle, fates: Fates, answers: Answers)
    requires Inv(w, origin, fates) && w.task.Some? && (w.task.value.status == SourceQueued || w.task.value.status == SourceConfirmed)
    ensures Inv(Handle(w.task.value, w.store, fates, answers), origin, fates)
  {
  }

  lemma DestinationKeepsInv(w: World, origin: Bundle, fates: Fates, answers: Answers)
    requires Inv(w, origin, fates) && w.task.Some? && w.task.value.status == DestinationQueued
    ensures Inv(Handle(w.task.value, w.store, fates, answers), origin, fates)
  {
  }

  lemma SourceFailuresKeepsInv(w: World, origin: Bundle, fates: Fates, answers: Answers)
    requires Inv(w, origin, fates) && w.task.Some? && w.task.value.status == SourceFailures
    ensures Inv(Handle(w.task.value, w.store, fates, answers), origin, fates)
  {
  }

  lemma DestinationFailuresKeepsInv(w: World, origin: Bundle, fates: Fates, answers: Answers)
    requires Inv(w, origin, fates) && w.task.Some? && w.task.value.status == DestinationFailures
    ensures Inv(Handle(w.task.value, w.store, fates, answers), origin, fates)
  {
  }

  lemma SettleKeepsInv(w: World, origin: Bundle, fates: Fates, answers: Answers)
    requires Inv(w, origin, fates) && w.task.Some? && w.task.value.status == DestinationConfirmed
    ensures Inv(Handle(w.task.value, w.store, fates, answers), origin, fates)
  {
    AppendIsAssign(w.task.value.bundle, ExecuteSend(answers.settlements));
  }

  lemma SettledKeepsInv(w: World, origin: Bundle, fates: Fates, answers: Answers)
    requires Inv(w, origin, fates) && w.task.Some? && w.task.value.status == SettlementsQueued
    ensures Inv(Handle(w.task.value, w.store, fates, answers), origin, fates)
  {
  }

  lemma ReceiveKeepsInv(w: World, origin: Bundle, fates: Fates, answers: Answers)
    requires Inv(w, origin, fates) && w.task.Some? && w.task.value.status == SettlementsProcessing
    ensures Inv(Handle(w.task.value, w.store, fates, answers), origin, fates)
  {
    AppendIsAssign(Verified(w.task.value, answers).bundle, ExecuteReceive(answers.receives));
  }

  lemma ReceivedKeepsInv(w: World, origin: Bundle, fates: Fates, answers: Answers)
    requires Inv(w, origin, fates) && w.task.Some? && w.task.value.status == SettlementCompletionQueued
    ensures Inv(Handle(w.task.value, w.store, fates, answers), origin, fates)
  {
  }

  lemma RefundKeepsInv(w: World, origin: Bundle, fates: Fates, answers: Answers)
    requires Inv(w, origin, fates) && w.task.Some? && w.task.value.status == RefundsReady
    ensures Inv(Handle(w.task.value, w.store, fates, answers), origin, fates)
  {
    AppendIsAssign(w.task.value.bundle, Refund(answers.refunds));
  }

  lemma RefundedKeepsInv(w: World, origin: Bundle, fates: Fates, answers: Answers)
    requires Inv(w, origin, fates) && w.task.Some? && (w.task.value.status == RefundsScheduled || w.task.value.status == RefundsQueued)
    ensures Inv(Handle(w.task.value, w.store, fates, answers), origin, fates)
  {
  }

  lemma FinishKeepsInv(w: World, origin: Bundle, fates: Fates, answers: Answers)
    requires Inv(w, origin, fates) && w.task.Some? && Rank(w.task.value.status) == 11
    ensures Inv(Handle(w.task.value, w.store, fates, answers), origin, fates)
  {
  }

  lemma StepKeepsInv(w: World, origin: Bundle, fates: Fates, answers: Answers)
    requires Inv(w, origin, fates) && w.task.Some?
    ensures Inv(Handle(w.task.value, w.store, fates, answers), origin, fates)
  {
    match w.task.value.status
    case Init => InitKeepsInv(w, origin, fates, answers);
    case LiquidityLocked => LockedKeepsInv(w, origin, fates, answers);
    case FeePayerQueued => FeePayerKeepsInv(w, origin, fates, answers);
    case FeePayerCompleted => FeePaidKeepsInv(w, origin, fates, answers);
    case SourceQueued => SourceKeepsInv(w, origin, fates, answers);
    case SourceConfirmed => SourceKeepsInv(w, origin, fates, answers);
    case SourceFailures => SourceFailuresKeepsInv(w, origin, fates, answers);
    case DestinationQueued => DestinationKeepsInv(w, origin, fates, answers);
    case DestinationFailures => DestinationFailuresKeepsInv(w, origin, fates, answers);
    case DestinationConfirmed => SettleKeepsInv(w, origin, fates, answers);
    case SettlementsQueued => SettledKeepsInv(w, origin, fates, answers);
    case SettlementsProcessing => ReceiveKeepsInv(w, origin, fates, answers);
    case SettlementCompletionQueued => ReceivedKeepsInv(w, origin, fates, answers);
    case RefundsScheduled => RefundedKeepsInv(w, origin, fates, answers);
    case RefundsReady => RefundKeepsInv(w, origin, fates, answers);
    case RefundsQueued => RefundedKeepsInv(w, origin, fates, answers);
    case Done => FinishKeepsInv(w, origin, fates, answers);
    case Failed => FinishKeepsInv(w, origin, fates, answers);
  }

  lemma RefundDueKeepsInv(w: World, origin: Bundle, fates: Fates)
    requires Inv(w, origin, fates) && Enabled(w, RefundDue)
    ensures Inv(Next(w, RefundDue, fates), origin, fates)
  {
  }

  lemma EventKeepsInv(w: World, origin: Bundle, e: Event, fates: Fates)
    requires Inv(w, origin, fates) && Enabled(w, e)
    ensures Inv(Next(w, e, fates), origin, fates)
  {
    match e
    case Step(answers) => StepKeepsInv(w, origin, fates, answers);
    case RefundDue => RefundDueKeepsInv(w, origin, fates);
    case _ =>
  }

  lemma {:induction false} ExecKeepsInv(w: World, origin: Bundle, es: seq<Event>, fates: Fates)
    requires Inv(w, origin, fates) && Legal(w, es, fates)
    ensures Inv(Exec(w, es, fates), origin, fates)
    decreases |es|
  {
    if es != [] {
      EventKeepsInv(w, origin, es[0], fates);
      ExecKeepsInv(Next(w, es[0], fates), origin, es[1..], fates);
    }
  }

  /** Every state a sent bundle can get to. */
  ghost predicate Reachable(w: World, origin: Bundle, fates: Fates) {
    IsNew(origin) && exists es :: Legal(Sent(origin), es, fates) && w == Exec(Sent(origin), es, fates)
  }

  lemma ReachableInv(w: World, origin: Bundle, fates: Fates)
    requires Reachable(w, origin, fates)
    ensures Inv(w, origin, fates)
  {
    var es :| Legal(Sent(origin), es, fates) && w == Exec(Sent(origin), es, fates);
    SentInv(origin, fates);
    ExecKeepsInv(Sent(origin), origin, es, fates);
  }

  /** The bundle's row, pending or finished. */
  function Row(w: World): Live
    requires w.store.pending.Some? || w.store.finished.Some?
  {
    if w.store.pending.Some? then w.store.pending.value else w.store.finished.value
  }

  /** What is known of the row in every reachable state. */
  lemma ReachableRow(w: World, origin: Bundle, fates: Fates)
    requires Reachable(w, origin, fates)
    ensures w.store.pending.Some? || w.store.finished.Some?
    ensures SameRequest(Row(w).bundle, origin)
    ensures Means(Row(w).bundle, Row(w).status, fates)
    ensures w.store.journal == Story(Row(w).bundle, Row(w).status, fates)
  {
    ReachableInv(w, origin, fates);
  }

  lemma SentReachable(b: Bundle, fates: Fates)
    requires IsNew(b)
    ensures Reachable(Sent(b), b, fates)
  {
    assert Legal(Sent(b), [], fates) && Exec(Sent(b), [], fates) == Sent(b);
  }

  lemma {:induction false} ExecOneMore(w: World, es: seq<Event>, e: Event, fates: Fates)
    requires Legal(w, es, fates) && Enabled(Exec(w, es, fates), e)
    ensures Legal(w, es + [e], fates) && Exec(w, es + [e], fates) == Next(Exec(w, es, fates), e, fates)
    decreases |es|
  {
    if es == [] {
      assert (es + [e])[1..] == [] && (es + [e])[0] == e;
      assert Exec(Next(w, e, fates), [], fates) == Next(w, e, fates);
    } else {
      ExecOneMore(Next(w, es[0], fates), es[1..], e, fates);
      assert (es + [e])[1..] == es[1..] + [e];
    }
  }

  lemma ReachableNext(w: World, origin: Bundle, e: Event, fates: Fates)
    requires Reachable(w, origin, fates) && Enabled(w, e)
    ensures Reachable(Next(w, e, fates), origin, fates)
  {
    var es :| Legal(Sent(origin), es, fates) && w == Exec(Sent(origin), es, fates);
    ExecOneMore(Sent(origin), es, e, fates);
  }
}
