/** What the bundle protocol guarantees in every reachable state, whatever crashed on the way. */
module BundleGuarantees {
  import opened Common
  import opened LiquidityLedger
  import opened Bundles
  import opened BundleRuns

  // ---------------------------------------------------------------- success, from the fates alone

  /** Every transaction is confirmed with an intent event that reports no error. */
  predicate Succeeded(txs: seq<Tx>, fates: Fates) {
    forall tx <- txs :: fates(tx.id).Confirmed? && fates(tx.id).failed == Some(false)
  }

  predicate FeePayerSucceeded(b: Bundle, fates: Fates) {
    b.feePayer.Some? ==> fates(b.feePayer.value.id).Confirmed? && fates(b.feePayer.value.id).failed == Some(false)
  }

  // ---------------------------------------------------------------- locked once, released once

  /** From here on the liquidity was given back. */
  predicate GivenBack(s: Status) {
    Rank(s) >= 7 || s == SourceFailures
  }

  lemma {:induction false} TotalsSum(transfers: seq<Transfer>, a: Asset)
    ensures LockedTotal(Totals(transfers), a) == Sum(transfers, TransferAmount(a))
  {
    if transfers != [] {
      TotalsSum(transfers[..|transfers| - 1], a);
    }
  }

  lemma {:induction false} UnlocksSum(transfers: seq<Transfer>, receipts: map<nat, Option<nat>>, a: Asset)
    ensures Sum(Unlocks(transfers, receipts), UnlockAmount(a)) == Sum(transfers, TransferAmount(a))
  {
    if transfers != [] {
      var init := transfers[..|transfers| - 1];
      UnlocksSum(init, receipts, a);
      assert Unlocks(transfers, receipts)[..|Unlocks(init, receipts)|] == Unlocks(init, receipts);
    }
  }

  /** What a transaction pays of an asset, from its quoted payments. */
  function AmountTo(address: nat): Payment -> nat {
    (p: Payment) => if p.address == address then p.amount else 0
  }

  ghost function PaymentsTo(a: Asset): Tx -> nat {
    (tx: Tx) => if tx.chain == a.chain && tx.payments.Some? then Sum(tx.payments.value, AmountTo(a.address)) else 0
  }

  lemma {:induction false} TransfersPay(tx: Tx, n: nat, a: Asset)
    requires tx.payments.Some? && n <= |tx.payments.value|
    ensures Sum(TransfersOf(tx)[..n], TransferAmount(a))
         == if tx.chain == a.chain then Sum(tx.payments.value[..n], AmountTo(a.address)) else 0
  {
    if n > 0 {
      TransfersPay(tx, n - 1, a);
      assert TransfersOf(tx)[..n][..n - 1] == TransfersOf(tx)[..n - 1];
      assert tx.payments.value[..n][..n - 1] == tx.payments.value[..n - 1];
    }
  }

  lemma TransactionPays(tx: Tx, a: Asset)
    ensures Sum(TransfersOf(tx), TransferAmount(a)) == PaymentsTo(a)(tx)
  {
    if tx.payments.Some? {
      TransfersPay(tx, |tx.payments.value|, a);
      assert TransfersOf(tx)[..|tx.payments.value|] == TransfersOf(tx);
      assert tx.payments.value[..|tx.payments.value|] == tx.payments.value;
    }
  }

  /** What is locked of an asset is what the destination transactions pay of it. */
  lemma {:induction false} LocksEveryPayment(txs: seq<Tx>, a: Asset)
    ensures LockedTotal(Totals(AllTransfers(txs)), a) == Sum(txs, PaymentsTo(a))
  {
    TotalsSum(AllTransfers(txs), a);
    if txs != [] {
      var init, last := txs[..|txs| - 1], txs[|txs| - 1];
      LocksEveryPayment(init, a);
      TotalsSum(AllTransfers(init), a);
      SumAppend(AllTransfers(init), TransfersOf(last), TransferAmount(a));
      TransactionPays(last, a);
    }
  }

  /** The journal holds one lock, first, and at most one release. */
  predicate OneLockOneRelease(journal: seq<Entry>, s: Status) {
    && (forall i | 0 <= i < |journal| :: journal[i].Locked? <==> i == 0)
    && (journal == [] <==> s == Init)
    && (GivenBack(s) <==> exists i | 0 <= i < |journal| :: journal[i].Released?)
    && (forall i, k | 0 <= i < k < |journal| :: !(journal[i].Released? && journal[k].Released?))
  }

  /** A release comes after the batch whose outcome calls for it was queued: the fee payer that
      failed, else the sources of which one failed, else the destinations. */
  predicate ReleaseHasCause(journal: seq<Entry>, b: Bundle, fates: Fates) {
    forall i | 0 <= i < |journal| && journal[i].Released? ::
      if !FeePayerSucceeded(b, fates) then Queued(FeePayer(b.feePayer.value)) in journal[..i]
      else if !Succeeded(b.sources, fates) then Queued(Source(b.sources)) in journal[..i]
      else Queued(Destination(b.destinations)) in journal[..i]
  }

  /** What precedes the release, and what is released. */
  function BeforeRelease(b: Bundle, fates: Fates): seq<Entry> {
    if !FeeOk(b, fates) then FeeStory(b)
    else if !AllExecuted(b.sources, fates) then SourceStory(b)
    else DestinationStory(b)
  }

  function PaidReceipts(b: Bundle, fates: Fates): map<nat, Option<nat>> {
    if FeeOk(b, fates) && AllExecuted(b.sources, fates) then Receipts(b.destinations, fates) else map[]
  }

  lemma StoryRelease(b: Bundle, s: Status, fates: Fates)
    requires Means(b, s, fates)
    ensures var story, k := Story(b, s, fates), |BeforeRelease(b, fates)|;
            if GivenBack(s) then
              && k < |story| && story[..k] == BeforeRelease(b, fates)
              && story[k] == Released(Unlocks(b.transfers, PaidReceipts(b, fates)))
              && forall i | k < i < |story| :: story[i].Queued?
            else
              forall i | 0 < i < |story| :: story[i].Queued?
  {
  }

  lemma StoryLocksOnce(b: Bundle, s: Status, fates: Fates)
    requires Means(b, s, fates)
    ensures OneLockOneRelease(Story(b, s, fates), s)
  {
    StoryRelease(b, s, fates);
    var story, before := Story(b, s, fates), BeforeRelease(b, fates);
    assert forall i | 0 < i < |before| :: before[i].Queued?;
    if GivenBack(s) {
      assert story[|before|].Released?;
      forall i | 0 < i < |story| && i != |before| ensures story[i].Queued? {
        if i < |before| {
          assert story[i] == story[..|before|][i];
        }
      }
    }
  }

  lemma StoryReleaseHasCause(b: Bundle, s: Status, fates: Fates)
    requires Means(b, s, fates)
    ensures ReleaseHasCause(Story(b, s, fates), b, fates)
  {
    StoryRelease(b, s, fates);
    StoryLocksOnce(b, s, fates);
    var story, before := Story(b, s, fates), BeforeRelease(b, fates);
    forall i | 0 <= i < |story| && story[i].Released?
      ensures i == |before| && story[..i] == before
    {
    }
    assert before[|before| - 1] in before;
  }

  /** Lock and release cover the bundle's transfers asset by asset. */
  ghost predicate SameTotals(journal: seq<Entry>, b: Bundle) {
    forall i, a | 0 <= i < |journal| ::
      && (journal[i].Locked? ==> LockedTotal(journal[i].totals, a) == Sum(b.transfers, TransferAmount(a)))
      && (journal[i].Released? ==> Sum(journal[i].unlocks, UnlockAmount(a)) == Sum(b.transfers, TransferAmount(a)))
  }

  lemma StoryTotals(b: Bundle, s: Status, fates: Fates)
    requires Means(b, s, fates)
    ensures SameTotals(Story(b, s, fates), b)
  {
    var story := Story(b, s, fates);
    StoryRelease(b, s, fates);
    StoryLocksOnce(b, s, fates);
    forall i, a | 0 <= i < |story|
      ensures story[i].Locked? ==> LockedTotal(story[i].totals, a) == Sum(b.transfers, TransferAmount(a))
      ensures story[i].Released? ==> Sum(story[i].unlocks, UnlockAmount(a)) == Sum(b.transfers, TransferAmount(a))
    {
      TotalsSum(b.transfers, a);
      UnlocksSum(b.transfers, PaidReceipts(b, fates), a);
    }
  }

  /** In every reachable state the transfers were locked once from LiquidityLocked on, and released
      once from the failure or the destination outcome on, with the same total for every asset. */
  lemma LockedOnceReleasedOnce(w: World, b: Bundle, fates: Fates)
    requires Reachable(w, b, fates)
    ensures w.store.pending.Some? || w.store.finished.Some?
    ensures OneLockOneRelease(w.store.journal, Row(w).status)
    ensures ReleaseHasCause(w.store.journal, b, fates)
    ensures SameTotals(w.store.journal, b)
  {
    ReachableRow(w, b, fates);
    var row := Row(w);
    StoryLocksOnce(row.bundle, row.status, fates);
    StoryReleaseHasCause(row.bundle, row.status, fates);
    StoryTotals(row.bundle, row.status, fates);
  }

  /** For a bundle whose transfers are those of its destinations, what is locked and released of an
      asset is what the destinations pay of it. */
  lemma LocksItsPayments(w: World, b: Bundle, fates: Fates, k: nat, a: Asset)
    requires Reachable(w, b, fates) && b.transfers == AllTransfers(b.destinations) && k < |w.store.journal|
    ensures w.store.journal[k].Locked? ==> LockedTotal(w.store.journal[k].totals, a) == Sum(b.destinations, PaymentsTo(a))
    ensures w.store.journal[k].Released? ==>
              Sum(w.store.journal[k].unlocks, UnlockAmount(a)) == Sum(b.destinations, PaymentsTo(a))
  {
    LockedOnceReleasedOnce(w, b, fates);
    LocksEveryPayment(b.destinations, a);
    TotalsSum(b.transfers, a);
  }

  // ---------------------------------------------------------------- batches wait for success

  /** `batch` was queued only on the success of everything it depends on, or a refund on some failure
      with something confirmed to refund. */
  predicate QueuedOnSuccess(batch: Batch, b: Bundle, fates: Fates) {
    match batch
    case FeePayer(_) => true
    case Source(_) => FeePayerSucceeded(b, fates)
    case Destination(_) => FeePayerSucceeded(b, fates) && Succeeded(b.sources, fates)
    case ExecuteSend(_) => FeePayerSucceeded(b, fates) && Succeeded(b.sources, fates) && Succeeded(b.destinations, fates)
    case ExecuteReceive(_) => FeePayerSucceeded(b, fates) && Succeeded(b.sources, fates) && Succeeded(b.destinations, fates)
    case Refund(_) =>
      && FeePayerSucceeded(b, fates) && !(Succeeded(b.sources, fates) && Succeeded(b.destinations, fates))
      && exists tx <- b.sources :: fates(tx.id).Confirmed? && tx.escrows != []
  }

  /** In particular destinations are paid only if every source is confirmed without an error. */
  lemma PaidOnSuccess(w: World, b: Bundle, fates: Fates, batch: Batch)
    requires Reachable(w, b, fates) && Queued(batch) in w.store.journal
    ensures QueuedOnSuccess(batch, b, fates)
  {
    QueuedOnceWhenWarranted(w, b, fates);
    ReachableRow(w, b, fates);
    var i :| 0 <= i < |w.store.journal| && w.store.journal[i] == Queued(batch);
    assert Warranted(w.store.journal[i].batch, Row(w).bundle, fates);
  }

  // ---------------------------------------------------------------- the block a release takes effect

  lemma {:induction false} ReceiptsAre(txs: seq<Tx>, fates: Fates, id: nat)
    ensures id in Receipts(txs, fates) <==> (exists tx <- txs :: tx.id == id) && Executed(fates(id))
    ensures id in Receipts(txs, fates) ==> Receipts(txs, fates)[id] == fates(id).block
  {
    if txs != [] {
      ReceiptsAre(txs[..|txs| - 1], fates, id);
      assert txs == txs[..|txs| - 1] + [txs[|txs| - 1]];
    }
  }

  lemma {:induction false} UnlocksAt(transfers: seq<Transfer>, receipts: map<nat, Option<nat>>)
    ensures |Unlocks(transfers, receipts)| == |transfers|
    ensures forall i | 0 <= i < |transfers| :: Unlocks(transfers, receipts)[i] == UnlockOf(transfers[i], receipts)
  {
    if transfers != [] {
      UnlocksAt(transfers[..|transfers| - 1], receipts);
    }
  }

  /** `u` gives back transfer `t`: after block 0 only if its payment executed, and then at its block. */
  predicate ReleasesPayment(u: Unlock, t: Transfer, b: Bundle, fates: Fates) {
    var paid := (exists tx <- b.destinations :: tx.id == t.tx) && fates(t.tx).Confirmed? && fates(t.tx).failed == Some(false);
    && u.asset == t.asset && u.amount == t.amount
    && (u.block > 0 ==> paid && fates(t.tx).block == Some(u.block))
    && (paid && fates(t.tx).block.Some? && FeePayerSucceeded(b, fates) && Succeeded(b.sources, fates)
        ==> u.block == fates(t.tx).block.value)
  }

  lemma PaidUnlocks(b: Bundle, fates: Fates, i: nat)
    requires i < |b.transfers|
    ensures |Unlocks(b.transfers, PaidReceipts(b, fates))| == |b.transfers|
    ensures ReleasesPayment(Unlocks(b.transfers, PaidReceipts(b, fates))[i], b.transfers[i], b, fates)
  {
    UnlocksAt(b.transfers, PaidReceipts(b, fates));
    ReceiptsAre(b.destinations, fates, b.transfers[i].tx);
  }

  /** Every transfer is released at the block its payment executed in, or at block 0 if it was not paid. */
  lemma ReleasedAtPayment(w: World, b: Bundle, fates: Fates, k: nat, i: nat)
    requires Reachable(w, b, fates)
    requires k < |w.store.journal| && w.store.journal[k].Released?
    requires i < |b.transfers|
    ensures |w.store.journal[k].unlocks| == |b.transfers|
    ensures ReleasesPayment(w.store.journal[k].unlocks[i], b.transfers[i], b, fates)
  {
    ReachableRow(w, b, fates);
    var row := Row(w);
    StoryRelease(row.bundle, row.status, fates);
    StoryLocksOnce(row.bundle, row.status, fates);
    PaidUnlocks(row.bundle, fates, i);
  }

  // ---------------------------------------------------------------- what was queued, and when

  /** What the presence of a queued batch proves. */
  predicate Warranted(batch: Batch, b: Bundle, fates: Fates) {
    match batch
    case FeePayer(tx) => b.feePayer == Some(tx)
    case Source(txs) => txs == b.sources && FeeOk(b, fates)
    case Destination(txs) => txs == b.destinations && FeeOk(b, fates) && AllExecuted(b.sources, fates)
    case ExecuteSend(txs) => txs == b.settlements && b.sources != [] && Delivered(b, fates)
    case ExecuteReceive(txs) => txs == b.receives && Delivered(b, fates) && AllConfirmed(b.settlements, fates)
    case Refund(txs) => txs == b.refunds && FeeOk(b, fates) && !Delivered(b, fates) && AnyEscrow(b.sources, fates)
  }

  predicate QueuesWarranted(journal: seq<Entry>, b: Bundle, fates: Fates) {
    && (forall i | 0 <= i < |journal| && journal[i].Queued? :: Warranted(journal[i].batch, b, fates))
    && forall i, k | 0 <= i < k < |journal| && journal[i].Queued? && journal[k].Queued? ::
         Rank(journal[i].batch.NextStatus()) < Rank(journal[k].batch.NextStatus())
  }

  predicate QueuesUpTo(journal: seq<Entry>, rank: nat, b: Bundle, fates: Fates) {
    && QueuesWarranted(journal, b, fates)
    && forall i | 0 <= i < |journal| && journal[i].Queued? :: Rank(journal[i].batch.NextStatus()) <= rank
  }

  lemma QueuesPush(journal: seq<Entry>, e: Entry, low: nat, high: nat, b: Bundle, fates: Fates)
    requires QueuesUpTo(journal, low, b, fates) && low <= high
    requires e.Queued? ==> Warranted(e.batch, b, fates) && low < Rank(e.batch.NextStatus()) <= high
    ensures QueuesUpTo(journal + [e], high, b, fates)
  {
  }

  lemma OutcomeQueues(b: Bundle, fates: Fates)
    ensures QueuesUpTo(FeeStory(b), 2, b, fates)
    ensures FeeOk(b, fates) ==> QueuesUpTo(SourceStory(b), 4, b, fates)
    ensures FeeOk(b, fates) && AllExecuted(b.sources, fates) ==>
              && QueuesUpTo(DestinationStory(b), 6, b, fates)
              && QueuesUpTo(OutcomeStory(b, fates), 6, b, fates)
  {
    if FeeOk(b, fates) {
      QueuesPush(FeeStory(b), Queued(Source(b.sources)), 2, 4, b, fates);
      if AllExecuted(b.sources, fates) {
        QueuesPush(SourceStory(b), Queued(Destination(b.destinations)), 4, 6, b, fates);
        QueuesPush(DestinationStory(b), Released(Unlocks(b.transfers, Receipts(b.destinations, fates))), 6, 6, b, fates);
      }
    }
  }

  lemma SettleQueues(b: Bundle, fates: Fates)
    requires Delivered(b, fates) && b.sources != []
    ensures QueuesUpTo(SettleStory(b, fates), 8, b, fates)
    ensures AllConfirmed(b.settlements, fates) ==> QueuesUpTo(ReceiveStory(b, fates), 10, b, fates)
  {
    OutcomeQueues(b, fates);
    QueuesPush(OutcomeStory(b, fates), Queued(ExecuteSend(b.settlements)), 6, 8, b, fates);
    if AllConfirmed(b.settlements, fates) {
      QueuesPush(SettleStory(b, fates), Queued(ExecuteReceive(b.receives)), 8, 10, b, fates);
    }
  }

  lemma UnwoundQueues(b: Bundle, fates: Fates)
    requires FeeOk(b, fates) && !Delivered(b, fates)
    ensures QueuesUpTo(UnwoundStory(b, fates), 6, b, fates)
    ensures AnyEscrow(b.sources, fates) ==>
              QueuesUpTo(UnwoundStory(b, fates) + [Queued(Refund(b.refunds))], 10, b, fates)
  {
    OutcomeQueues(b, fates);
    QueuesPush(SourceStory(b), NothingPaid(b), 4, 6, b, fates);
    if AnyEscrow(b.sources, fates) {
      QueuesPush(UnwoundStory(b, fates), Queued(Refund(b.refunds)), 6, 10, b, fates);
    }
  }

  lemma StoryQueues(b: Bundle, s: Status, fates: Fates)
    requires Means(b, s, fates)
    ensures QueuesWarranted(Story(b, s, fates), b, fates)
  {
    OutcomeQueues(b, fates);
    QueuesPush(FeeStory(b), NothingPaid(b), 2, 2, b, fates);
    if Delivered(b, fates) && b.sources != [] {
      SettleQueues(b, fates);
    }
    if FeeOk(b, fates) && !Delivered(b, fates) {
      UnwoundQueues(b, fates);
      assert UnwoundStory(b, fates) + [] == UnwoundStory(b, fates);
    }
  }

  /** Each batch is queued at most once and only on the outcome that warrants it: destinations after
      every source executed, settlements after every destination, refunds only when one of them did not. */
  lemma QueuedOnceWhenWarranted(w: World, b: Bundle, fates: Fates)
    requires Reachable(w, b, fates)
    ensures w.store.pending.Some? || w.store.finished.Some?
    ensures QueuesWarranted(w.store.journal, Row(w).bundle, fates)
  {
    ReachableRow(w, b, fates);
    StoryQueues(Row(w).bundle, Row(w).status, fates);
  }

  /** No run both settles and refunds. */
  lemma NeverSettlesAndRefunds(w: World, b: Bundle, fates: Fates, sent: seq<Tx>, refunds: seq<Tx>)
    requires Reachable(w, b, fates)
    ensures !(Queued(ExecuteSend(sent)) in w.store.journal && Queued(Refund(refunds)) in w.store.journal)
  {
    QueuedOnceWhenWarranted(w, b, fates);
    ReachableRow(w, b, fates);
  }

  // ---------------------------------------------------------------- the ledger nets out

  /** What a reader at block `at` counts as locked, before saturating at zero. */
  function Position(l: Ledger, a: Asset, at: nat): int {
    LockedTotal(l.locked, a) - Below(l.unlocks, a, at + 1)
  }

  lemma {:induction false} ReplayQueued(l: Ledger, journal: seq<Entry>, k: nat)
    requires k <= |journal| && forall i | k <= i < |journal| :: journal[i].Queued?
    ensures Replay(l, journal) == Replay(l, journal[..k])
  {
    if k == |journal| {
      assert journal[..k] == journal;
    } else {
      var init := journal[..|journal| - 1];
      ReplayQueued(l, init, k);
      assert init[..k] == journal[..k];
    }
  }

  lemma {:induction false} BelowAppend(us: seq<Unlock>, more: seq<Unlock>, a: Asset, c: nat)
    requires forall u <- more :: u.block < c
    ensures Below(us + more, a, c) == Below(us, a, c) + Sum(more, UnlockAmount(a))
  {
    if more == [] {
      assert us + more == us;
    } else {
      var init := more[..|more| - 1];
      assert forall u <- init :: u in more;
      BelowAppend(us, init, a, c);
      assert (us + more)[..|us + more| - 1] == us + init;
      assert more[|more| - 1] in more;
    }
  }

  /** A lock followed by queued batches adds the transfers to the position ... */
  lemma LockBooked(l: Ledger, journal: seq<Entry>, b: Bundle, a: Asset, at: nat)
    requires |journal| > 0 && journal[0] == Locked(Totals(b.transfers))
    requires forall i | 0 < i < |journal| :: journal[i].Queued?
    ensures Position(Replay(l, journal), a, at) == Position(l, a, at) + Sum(b.transfers, TransferAmount(a))
  {
    ReplayQueued(l, journal, 1);
    TotalsSum(b.transfers, a);
    assert journal[..1][..0] == [];
    assert Replay(l, journal[..1]) == Book(l, journal[0]);
  }

  /** ... and the release takes them off again. */
  lemma ReleaseBooked(l: Ledger, journal: seq<Entry>, k: nat, b: Bundle, receipts: map<nat, Option<nat>>, a: Asset, at: nat)
    requires 0 < k < |journal| && journal[0] == Locked(Totals(b.transfers))
    requires journal[k] == Released(Unlocks(b.transfers, receipts))
    requires forall i | 0 < i < |journal| && i != k :: journal[i].Queued?
    requires forall u <- Unlocks(b.transfers, receipts) :: u.block <= at
    ensures Position(Replay(l, journal), a, at) == Position(l, a, at)
  {
    ReplayQueued(l, journal, k + 1);
    assert journal[..k + 1][..k] == journal[..k];
    LockBooked(l, journal[..k], b, a, at);
    BelowAppend(Replay(l, journal[..k]).unlocks, Unlocks(b.transfers, receipts), a, at + 1);
    UnlocksSum(b.transfers, receipts, a);
  }

  lemma StoryNetsOut(b: Bundle, s: Status, fates: Fates, journal: seq<Entry>, l: Ledger, a: Asset, at: nat)
    requires Means(b, s, fates) && journal == Story(b, s, fates)
    requires forall e <- journal | e.Released? :: forall u <- e.unlocks :: u.block <= at
    ensures Position(Replay(l, journal), a, at)
         == Position(l, a, at) + if s == Init || GivenBack(s) then 0 else Sum(b.transfers, TransferAmount(a))
  {
    StoryRelease(b, s, fates);
    StoryLocksOnce(b, s, fates);
    StoryTotalsFirst(b, s, fates);
    if GivenBack(s) {
      var k := |BeforeRelease(b, fates)|;
      assert journal[k] in journal;
      ReleaseBooked(l, journal, k, b, PaidReceipts(b, fates), a, at);
    } else if s != Init {
      LockBooked(l, journal, b, a, at);
    }
  }

  lemma StoryTotalsFirst(b: Bundle, s: Status, fates: Fates)
    ensures s != Init ==> |Story(b, s, fates)| > 0 && Story(b, s, fates)[0] == Locked(Totals(b.transfers))
  {
  }

  /** On any ledger, what the bundle did counts as its transfers while they are locked, and as
      nothing at all once they were given back, for readers past the payments' blocks. */
  lemma NetsOut(w: World, b: Bundle, fates: Fates, l: Ledger, a: Asset, at: nat)
    requires Reachable(w, b, fates)
    requires forall e <- w.store.journal | e.Released? :: forall u <- e.unlocks :: u.block <= at
    ensures w.store.pending.Some? || w.store.finished.Some?
    ensures Position(Replay(l, w.store.journal), a, at)
         == Position(l, a, at)
            + if Row(w).status == Init || GivenBack(Row(w).status) then 0 else Sum(b.transfers, TransferAmount(a))
  {
    ReachableRow(w, b, fates);
    StoryNetsOut(Row(w).bundle, Row(w).status, fates, w.store.journal, l, a, at);
  }

  // ---------------------------------------------------------------- what Done means

  /** A finished bundle is Done exactly when everything was delivered and settled, Failed otherwise. */
  lemma DoneExactlyWhenSettled(w: World, b: Bundle, fates: Fates)
    requires Reachable(w, b, fates) && w.store.finished.Some?
    ensures var Live(last, status) := w.store.finished.value;
            && SameRequest(last, b)
            && status == (if && FeePayerSucceeded(b, fates) && Succeeded(b.sources, fates) && Succeeded(b.destinations, fates)
                             && (b.sources != [] ==>
                                   && (forall tx <- last.settlements :: fates(tx.id).Confirmed?)
                                   && last.unverified == []
                                   && forall tx <- last.receives :: fates(tx.id).Confirmed?)
                          then Done else Failed)
  {
    ReachableInv(w, b, fates);
  }
}
