/** The service's handlers over a running task and the store, each proved to take the step of `Bundles`. */
module BundleService {
  import opened Common
  import opened LiquidityLedger
  import opened Bundles

  // ---------------------------------------------------------------- loops over transactions and transfers

  lemma ReceiptsPush(init: seq<Tx>, tx: Tx, fates: Fates)
    ensures Receipts(init + [tx], fates)
         == if Executed(fates(tx.id)) then Receipts(init, fates)[tx.id := fates(tx.id).block] else Receipts(init, fates)
    ensures AllExecuted(init + [tx], fates) <==> AllExecuted(init, fates) && Executed(fates(tx.id))
  {
    assert (init + [tx])[..|init|] == init;
    assert forall t <- init :: t in init + [tx];
  }

  /** Receipts of the executed transactions, and whether any failed. */
  method CollectReceipts(txs: seq<Tx>, fates: Fates) returns (receipts: map<nat, Option<nat>>, anyFailed: bool)
    ensures receipts == Receipts(txs, fates)
    ensures anyFailed <==> !AllExecuted(txs, fates)
    ensures anyFailed <==> exists tx <- txs :: fates(tx.id).Reverted? || fates(tx.id).failed != Some(false)
    ensures forall id :: id in receipts
              <==> (exists tx <- txs :: tx.id == id) && fates(id).Confirmed? && fates(id).failed == Some(false)
    ensures forall id <- receipts :: receipts[id] == fates(id).block
  {
    receipts, anyFailed := map[], false;
    for i := 0 to |txs|
      invariant receipts == Receipts(txs[..i], fates)
      invariant anyFailed <==> !AllExecuted(txs[..i], fates)
      invariant forall id :: id in receipts
                  <==> (exists tx <- txs[..i] :: tx.id == id) && fates(id).Confirmed? && fates(id).failed == Some(false)
      invariant forall id <- receipts :: receipts[id] == fates(id).block
    {
      assert txs[..i + 1] == txs[..i] + [txs[i]];
      ReceiptsPush(txs[..i], txs[i], fates);
      var fate := fates(txs[i].id);
      if fate.Confirmed? && fate.failed == Some(false) {
        receipts := receipts[txs[i].id := fate.block];
      } else {
        anyFailed := true;
      }
    }
    assert txs[..|txs|] == txs;
  }

  /** Ids of the transactions that did not confirm, in order. */
  method FailedIds(txs: seq<Tx>, fates: Fates) returns (ids: seq<nat>)
    ensures ids == [] <==> AllConfirmed(txs, fates)
    ensures forall id :: id in ids <==> !fates(id).Confirmed? && exists tx <- txs :: tx.id == id
  {
    ids := [];
    for i := 0 to |txs|
      invariant ids == [] <==> AllConfirmed(txs[..i], fates)
      invariant forall id :: id in ids <==> !fates(id).Confirmed? && exists tx <- txs[..i] :: tx.id == id
    {
      assert txs[..i + 1] == txs[..i] + [txs[i]];
      if fates(txs[i].id).Reverted? {
        ids := ids + [txs[i].id];
      }
    }
    assert txs[..|txs|] == txs;
  }

  /** Escrows of the confirmed source transactions. */
  method ConfirmedEscrows(txs: seq<Tx>, fates: Fates) returns (escrows: seq<nat>)
    ensures escrows != [] <==> AnyEscrow(txs, fates)
    ensures forall e :: e in escrows <==> exists tx <- txs :: fates(tx.id).Confirmed? && e in tx.escrows
  {
    escrows := [];
    for i := 0 to |txs|
      invariant escrows != [] <==> AnyEscrow(txs[..i], fates)
      invariant forall e :: e in escrows <==> exists tx <- txs[..i] :: fates(tx.id).Confirmed? && e in tx.escrows
    {
      assert txs[..i + 1] == txs[..i] + [txs[i]];
      if fates(txs[i].id).Confirmed? {
        escrows := escrows + txs[i].escrows;
      }
    }
    assert txs[..|txs|] == txs;
  }

  /** What the chain reports for an asset of the funder. */
  datatype Reading = Reading(balance: nat, block: nat)

  /** Deduplicates the transfers by asset, then attaches the balance each request is checked against. */
  method PrepareLockInputs(transfers: seq<Transfer>, chain: Asset -> Reading) returns (inputs: map<Asset, LockInput>)
    ensures inputs == map a | a in Totals(transfers) :: LockInput(chain(a).balance, chain(a).block, Totals(transfers)[a])
  {
    var totals: map<Asset, nat> := map[];
    for i := 0 to |transfers|
      invariant totals == Totals(transfers[..i])
    {
      assert transfers[..i + 1][..i] == transfers[..i];
      var t := transfers[i];
      totals := totals[t.asset := LockedTotal(totals, t.asset) + t.amount];
    }
    assert transfers[..|transfers|] == transfers;
    inputs := map a | a in totals :: LockInput(chain(a).balance, chain(a).block, totals[a]);
  }

  /** Locking the prepared inputs books the transfers' totals. */
  lemma PreparedLockBooks(l: Ledger, totals: map<Asset, nat>, inputs: map<Asset, LockInput>)
    requires inputs.Keys == totals.Keys && forall a <- totals :: inputs[a].amount == totals[a]
    ensures Lock(l, inputs) == Book(l, Locked(totals))
  {
    assert (map a | a in inputs :: LockedTotal(l.locked, a) + inputs[a].amount)
        == (map a | a in totals :: LockedTotal(l.locked, a) + totals[a]);
  }

  method RecordUnlocks(start: Ledger, transfers: seq<Transfer>, receipts: map<nat, Option<nat>>) returns (l: Ledger)
    ensures l == Book(start, Released(Unlocks(transfers, receipts)))
  {
    l := start;
    for i := 0 to |transfers|
      invariant l == Book(start, Released(Unlocks(transfers[..i], receipts)))
    {
      assert transfers[..i + 1][..i] == transfers[..i];
      var t := transfers[i];
      var block := 0;
      if t.tx in receipts && receipts[t.tx].Some? {
        block := receipts[t.tx].value;
      }
      l := Release(l, Unlock(t.asset, block, t.amount));
      assert start.unlocks + Unlocks(transfers[..i + 1], receipts)
          == start.unlocks + Unlocks(transfers[..i], receipts) + [UnlockOf(t, receipts)];
    }
    assert transfers[..|transfers|] == transfers;
  }

  // ---------------------------------------------------------------- the store

  /** The bundle's rows and the shared ledger. Every method is one database transaction; `journal`
      records the ones that touch shared state. */
  class BundleStore {
    const backend: Backend
    var pending: Option<Live>
    var finished: Option<Live>
    var refundDue: bool
    var ledger: Ledger
    ghost var journal: seq<Entry>

    ghost function Snapshot(): Store
      reads this
    {
      Store(pending, finished, refundDue, journal)
    }

    constructor (backend: Backend, ledger: Ledger, bundle: Bundle)
      ensures this.backend == backend && this.ledger == ledger
      ensures Snapshot() == Store(Some(Live(bundle, Init)), None, false, [])
    {
      this.backend, this.ledger := backend, ledger;
      pending, finished, refundDue, journal := Some(Live(bundle, Init)), None, false, [];
    }

    method SetStatus(s: Status)
      modifies this`pending
      ensures Snapshot() == old(Snapshot()).SetStatus(s)
    {
      if pending.Some? {
        pending := Some(Live(pending.value.bundle, s));
      }
    }

    method LockFor(b: Bundle, inputs: map<Asset, LockInput>, s: Status) returns (ok: bool)
      requires inputs.Keys == Totals(b.transfers).Keys
      requires forall a <- inputs :: inputs[a].amount == Totals(b.transfers)[a]
      modifies this
      ensures ok <==> CanLock(backend, old(ledger), inputs)
      ensures ok ==> Snapshot() == old(Snapshot()).LockFor(b, s)
      ensures ok ==> ledger == Book(old(ledger), Locked(Totals(b.transfers)))
      ensures !ok ==> Snapshot() == old(Snapshot()) && ledger == old(ledger)
    {
      ok := forall a <- inputs.Keys :: Accepts(backend, ledger, a, inputs[a]);
      if ok {
        PreparedLockBooks(ledger, Totals(b.transfers), inputs);
        ledger := Lock(ledger, inputs);
        journal := journal + [Locked(Totals(b.transfers))];
        SetStatus(s);
      }
    }

    method UnlockFor(b: Bundle, receipts: map<nat, Option<nat>>, s: Status)
      modifies this
      ensures Snapshot() == old(Snapshot()).UnlockFor(b, receipts, s)
      ensures ledger == Book(old(ledger), Released(Unlocks(b.transfers, receipts)))
    {
      ledger := RecordUnlocks(ledger, b.transfers, receipts);
      journal := journal + [Released(Unlocks(b.transfers, receipts))];
      SetStatus(s);
    }

    method UpdateAndQueue(b: Bundle, s: Status, batch: Batch)
      modifies this`pending, this`journal
      ensures Snapshot() == old(Snapshot()).QueueBatch(b, s, batch)
    {
      pending := Some(Live(b, s));
      journal := journal + [Queued(batch)];
    }

    method StorePendingRefund(s: Status)
      modifies this`pending, this`refundDue
      ensures Snapshot() == old(Snapshot()).ScheduleRefund(s)
    {
      refundDue := true;
      SetStatus(s);
    }

    method MarkRefundReady(s: Status)
      modifies this`pending, this`refundDue
      ensures Snapshot() == old(Snapshot()).MarkRefundReady(s)
    {
      refundDue := false;
      SetStatus(s);
    }

    /** Fails if the bundle has no pending row. */
    method MoveToFinished() returns (ok: bool)
      modifies this`pending, this`finished
      ensures ok <==> old(pending).Some?
      ensures Snapshot() == old(Snapshot()).Finish()
    {
      ok := pending.Some?;
      if ok {
        pending, finished := None, pending;
      }
    }
  }

  /** A bundle and its status in a running task. */
  class BundleTask {
    var bundle: Bundle
    var status: Status

    ghost function Snapshot(): Live
      reads this
    {
      Live(bundle, status)
    }

    constructor (bundle: Bundle, status: Status)
      ensures Snapshot() == Live(bundle, status)
    {
      this.bundle, this.status := bundle, status;
    }

    method AppendSource(tx: Tx)
      modifies this`bundle
      ensures bundle == old(bundle).(sources := old(bundle).sources + [tx])
    {
      bundle := bundle.(sources := bundle.sources + [tx]);
    }

    /** Also lists the transaction's fund transfers. */
    method AppendDestination(tx: Tx)
      modifies this`bundle
      ensures bundle == old(bundle).(destinations := old(bundle).destinations + [tx],
                                     transfers := old(bundle).transfers + TransfersOf(tx))
      ensures tx.payments.None? ==> bundle.transfers == old(bundle).transfers
      ensures tx.payments.Some? ==>
                var before, payments := old(bundle).transfers, tx.payments.value;
                && |bundle.transfers| == |before| + |payments| && bundle.transfers[..|before|] == before
                && forall i | 0 <= i < |payments| ::
                     bundle.transfers[|before| + i] == Transfer(Asset(tx.chain, payments[i].address), payments[i].amount, tx.id)
      ensures old(bundle).transfers == AllTransfers(old(bundle).destinations)
              ==> bundle.transfers == AllTransfers(bundle.destinations)
    {
      ghost var before := bundle.transfers;
      if tx.payments.Some? {
        var payments := tx.payments.value;
        for i := 0 to |payments|
          invariant bundle == old(bundle).(transfers := before + TransfersOf(tx)[..i])
        {
          bundle := bundle.(transfers :=
            bundle.transfers + [Transfer(Asset(tx.chain, payments[i].address), payments[i].amount, tx.id)]);
          assert TransfersOf(tx)[..i + 1] == TransfersOf(tx)[..i] + [TransfersOf(tx)[i]];
        }
        assert TransfersOf(tx)[..|payments|] == TransfersOf(tx);
      }
      bundle := bundle.(destinations := bundle.destinations + [tx]);
      assert bundle.destinations[..|bundle.destinations| - 1] == old(bundle).destinations;
    }
  }

  function Others(txs: seq<Tx>, dst: nat): seq<Tx> {
    if dst < |txs| then txs[..dst] + txs[dst + 1..] else txs
  }

  function Chosen(txs: seq<Tx>, dst: nat): seq<Tx> {
    if dst < |txs| then [txs[dst]] else []
  }

  lemma OneMore(txs: seq<Tx>, i: nat, dst: nat)
    requires i < |txs|
    ensures Others(txs[..i + 1], dst) == if i == dst then Others(txs[..i], dst) else Others(txs[..i], dst) + [txs[i]]
    ensures Chosen(txs[..i + 1], dst) == if i == dst then Chosen(txs[..i], dst) + [txs[i]] else Chosen(txs[..i], dst)
  {
    assert txs[..i + 1] == txs[..i] + [txs[i]];
  }

  /** Sorts prepared transactions into a new bundle: the one at `dst` is the destination and brings the
      transfers, the others are sources in order. */
  method PrepareBundle(txs: seq<Tx>, dst: nat, feePayer: Option<Tx>) returns (t: BundleTask)
    ensures fresh(t) && t.status == Init
    ensures t.bundle.destinations == if dst < |txs| then [txs[dst]] else []
    ensures t.bundle.sources == if dst < |txs| then txs[..dst] + txs[dst + 1..] else txs
    ensures t.bundle.transfers == AllTransfers(t.bundle.destinations)
    ensures t.bundle.feePayer == feePayer
    ensures t.bundle.settlements == [] && t.bundle.receives == [] && t.bundle.refunds == [] && t.bundle.unverified == []
  {
    t := new BundleTask(NEW, Init);
    for i := 0 to |txs|
      invariant fresh(t) && t.status == Init
      invariant t.bundle == NEW.(sources := Others(txs[..i], dst), destinations := Chosen(txs[..i], dst),
                                 transfers := AllTransfers(Chosen(txs[..i], dst)))
    {
      OneMore(txs, i, dst);
      if i == dst {
        t.AppendDestination(txs[i]);
      } else {
        t.AppendSource(txs[i]);
      }
    }
    assert txs[..|txs|] == txs;
    t.bundle := t.bundle.(feePayer := feePayer);
  }

  // ---------------------------------------------------------------- the handlers

  /** The transactions the handler of the task's status is about to send. */
  function NextBatch(live: Live, answers: Answers): seq<Tx> {
    var b := live.bundle;
    match live.status
    case LiquidityLocked => if b.feePayer.Some? then [b.feePayer.value] else b.sources
    case FeePayerCompleted => b.sources
    case SourceConfirmed => b.destinations
    case DestinationConfirmed => if b.sources == [] then [] else answers.settlements
    case SettlementsProcessing => answers.receives
    case RefundsReady => answers.refunds
    case _ => []
  }

  predicate Servable(live: Live, answers: Answers, services: set<nat>) {
    forall tx <- NextBatch(live, answers) :: tx.chain in services
  }

  /** The handler took its step, ending the task (`!ok`) or leaving it at its next status; or it has no
      service for a transaction and changed nothing in the store. */
  ghost predicate Took(before: Live, was: Store, ok: bool, after: Live, now: Store, fates: Fates, answers: Answers,
                       services: set<nat>) {
    if Servable(before, answers, services) then Handle(before, was, fates, answers) == World(now, if ok then Some(after) else None)
    else !ok && now == was
  }

  /** The ledger moved by exactly what was added to the journal. */
  ghost predicate Booked(before: Ledger, was: seq<Entry>, after: Ledger, now: seq<Entry>) {
    was <= now && after == Replay(before, now[|was|..])
  }

  lemma BookedOne(l: Ledger, was: seq<Entry>, e: Entry)
    ensures Booked(l, was, Book(l, e), was + [e])
  {
    assert (was + [e])[|was|..] == [e];
    assert [e][..0] == [];
  }

  lemma {:induction false} ReplayConcat(l: Ledger, j: seq<Entry>, k: seq<Entry>)
    ensures Replay(l, j + k) == Replay(Replay(l, j), k)
  {
    if k == [] {
      assert j + k == j;
    } else {
      assert (j + k)[..|j + k| - 1] == j + k[..|k| - 1];
      ReplayConcat(l, j, k[..|k| - 1]);
    }
  }

  lemma BookedThen(a: Ledger, j: seq<Entry>, b: Ledger, k: seq<Entry>, c: Ledger, m: seq<Entry>)
    requires Booked(a, j, b, k) && Booked(b, k, c, m)
    ensures Booked(a, j, c, m)
  {
    assert m[|j|..] == k[|j|..] + m[|k|..];
    ReplayConcat(a, k[|j|..], m[|k|..]);
  }

  /** `n` steps of a task, or as many as it lives. */
  ghost function Iterate(w: World, n: nat, fates: Fates, answers: Answers): World {
    if n == 0 then w
    else
      var mid := Iterate(w, n - 1, fates, answers);
      if mid.task.None? then mid else Handle(mid.task.value, mid.store, fates, answers)
  }

  /** How a drive ends: with its task, at a refused lock, or at a batch without a service. */
  datatype End = Completed | LockRefused | Unserved

  class InteropService {
    const store: BundleStore
    const fates: Fates
    const answers: Answers
    const chain: Asset -> Reading
    const services: set<nat>

    constructor (store: BundleStore, fates: Fates, answers: Answers, chain: Asset -> Reading, services: set<nat>)
      ensures this.store == store && this.fates == fates && this.answers == answers
      ensures this.chain == chain && this.services == services
    {
      this.store, this.fates, this.answers, this.chain, this.services := store, fates, answers, chain, services;
    }

    method UpdateBundleStatus(t: BundleTask, next: Status) returns (ok: bool)
      modifies store`pending, t`status
      ensures World(store.Snapshot(), if ok then Some(t.Snapshot()) else None)
           == Move(old(t.Snapshot()), old(store.Snapshot()), next)
    {
      ok := CanTransition(t.status, next);
      if ok {
        store.SetStatus(next);
        t.status := next;
      }
    }

    method QueueAndSend(t: BundleTask, batch: Batch) returns (ok: bool)
      modifies store, t
      ensures ok <==> CanTransition(old(t.status), batch.NextStatus())
                      && forall tx <- batch.Transactions() :: tx.chain in services
      ensures ok ==> World(store.Snapshot(), Some(t.Snapshot())) == Send(old(t.Snapshot()), old(store.Snapshot()), batch)
      ensures !ok ==> t.Snapshot() == old(t.Snapshot()) && store.Snapshot() == old(store.Snapshot())
      ensures Booked(old(store.ledger), old(store.journal), store.ledger, store.journal)
    {
      var next := batch.NextStatus();
      ok := CanTransition(t.status, next) && forall tx <- batch.Transactions() :: tx.chain in services;
      if ok {
        var toStore := if batch.IsSettlement() then Append(t.bundle, batch) else t.bundle;
        BookedOne(store.ledger, store.journal, Queued(batch));
        store.UpdateAndQueue(toStore, next, batch);
        t.bundle := Assign(t.bundle, batch);
        t.status := next;
      }
    }

    method WatchPrerequisite(t: BundleTask, txs: seq<Tx>, success: Status, failure: Status)
      modifies store, t`status
      ensures World(store.Snapshot(), Some(t.Snapshot()))
           == Watch(old(t.Snapshot()), old(store.Snapshot()), txs, fates, success, failure)
      ensures t.status == if (forall tx <- txs :: fates(tx.id).Confirmed? && fates(tx.id).failed == Some(false))
                          then success else failure
      ensures Booked(old(store.ledger), old(store.journal), store.ledger, store.journal)
    {
      var _, anyFailed := CollectReceipts(txs, fates);
      if anyFailed {
        BookedOne(store.ledger, store.journal, Released(Unlocks(t.bundle.transfers, map[])));
        store.UnlockFor(t.bundle, map[], failure);
        t.status := failure;
      } else {
        t.status := success;
      }
    }

    method ScheduleRefunds(t: BundleTask) returns (ok: bool)
      modifies store`pending, store`refundDue, t`status
      ensures World(store.Snapshot(), if ok then Some(t.Snapshot()) else None)
           == RefundOrFail(old(t.Snapshot()), old(store.Snapshot()), fates)
    {
      var escrows := ConfirmedEscrows(t.bundle.sources, fates);
      if escrows != [] {
        store.StorePendingRefund(RefundsScheduled);
        t.status := RefundsScheduled;
        ok := true;
      } else {
        ok := UpdateBundleStatus(t, Failed);
      }
    }

    /** `ok` is the ledger's verdict; a refused lock leaves everything as it was. */
    method OnInit(t: BundleTask) returns (ok: bool)
      requires t.status == Init
      modifies store, t`status
      ensures ok ==> Took(old(t.Snapshot()), old(store.Snapshot()), ok, t.Snapshot(), store.Snapshot(), fates, answers, services)
      ensures ok <==> forall a <- Totals(old(t.bundle).transfers) ::
                        Accepts(store.backend, old(store.ledger), a,
                                LockInput(chain(a).balance, chain(a).block, Totals(old(t.bundle).transfers)[a]))
      ensures !ok ==> t.Snapshot() == old(t.Snapshot()) && store.Snapshot() == old(store.Snapshot())
      ensures Booked(old(store.ledger), old(store.journal), store.ledger, store.journal)
    {
      var inputs := PrepareLockInputs(t.bundle.transfers, chain);
      BookedOne(store.ledger, store.journal, Locked(Totals(t.bundle.transfers)));
      ok := store.LockFor(t.bundle, inputs, LiquidityLocked);
      if ok {
        t.status := LiquidityLocked;
      }
    }

    method OnDestinationQueued(t: BundleTask)
      requires t.status == DestinationQueued
      modifies store, t`status
      ensures Took(old(t.Snapshot()), old(store.Snapshot()), true, t.Snapshot(), store.Snapshot(), fates, answers, services)
      ensures t.status == if (forall tx <- t.bundle.destinations :: fates(tx.id).Confirmed? && fates(tx.id).failed == Some(false))
                          then DestinationConfirmed else DestinationFailures
      ensures Booked(old(store.ledger), old(store.journal), store.ledger, store.journal)
    {
      var receipts, anyFailed := CollectReceipts(t.bundle.destinations, fates);
      var next := if anyFailed then DestinationFailures else DestinationConfirmed;
      BookedOne(store.ledger, store.journal, Released(Unlocks(t.bundle.transfers, receipts)));
      store.UnlockFor(t.bundle, receipts, next);
      t.status := next;
    }

    method OnDestinationConfirmed(t: BundleTask) returns (ok: bool)
      requires t.status == DestinationConfirmed
      modifies store, t
      ensures Took(old(t.Snapshot()), old(store.Snapshot()), ok, t.Snapshot(), store.Snapshot(), fates, answers, services)
      ensures Booked(old(store.ledger), old(store.journal), store.ledger, store.journal)
    {
      if t.bundle.sources == [] {
        ok := UpdateBundleStatus(t, Done);
      } else {
        ok := QueueAndSend(t, ExecuteSend(answers.settlements));
      }
    }

    method OnSettlementsQueued(t: BundleTask) returns (ok: bool)
      requires t.status == SettlementsQueued
      modifies store`pending, t`status
      ensures Took(old(t.Snapshot()), old(store.Snapshot()), ok, t.Snapshot(), store.Snapshot(), fates, answers, services)
    {
      var failed := FailedIds(t.bundle.settlements, fates);
      ok := UpdateBundleStatus(t, if failed != [] then Failed else SettlementsProcessing);
    }

    /** Failed verifications are remembered; delivery goes on with the rest. */
    method OnSettlementsProcessing(t: BundleTask) returns (ok: bool)
      requires t.status == SettlementsProcessing
      modifies store, t
      ensures Took(old(t.Snapshot()), old(store.Snapshot()), ok, t.Snapshot(), store.Snapshot(), fates, answers, services)
      ensures Booked(old(store.ledger), old(store.journal), store.ledger, store.journal)
    {
      if answers.unverified != [] {
        t.bundle := t.bundle.(unverified := answers.unverified);
      }
      ok := QueueAndSend(t, ExecuteReceive(answers.receives));
    }

    method OnSettlementCompletionQueued(t: BundleTask) returns (ok: bool)
      requires t.status == SettlementCompletionQueued
      modifies store`pending, t`status
      ensures Took(old(t.Snapshot()), old(store.Snapshot()), ok, t.Snapshot(), store.Snapshot(), fates, answers, services)
    {
      var failed := FailedIds(t.bundle.receives, fates);
      ok := UpdateBundleStatus(t, if t.bundle.unverified != [] || failed != [] then Failed else Done);
    }

    /** The arm of the driver loop for the task's status, other than Init. */
    method Dispatch(t: BundleTask) returns (ok: bool)
      requires t.status != Init
      modifies store, t
      ensures Took(old(t.Snapshot()), old(store.Snapshot()), ok, t.Snapshot(), store.Snapshot(), fates, answers, services)
      ensures Booked(old(store.ledger), old(store.journal), store.ledger, store.journal)
    {
      ok := true;
      match t.status {
        case Init =>
        case LiquidityLocked =>
          ok := QueueAndSend(t, if t.bundle.feePayer.Some? then FeePayer(t.bundle.feePayer.value)
                                else Source(t.bundle.sources));
        case FeePayerQueued =>
          if t.bundle.feePayer.Some? {
            WatchPrerequisite(t, [t.bundle.feePayer.value], FeePayerCompleted, Failed);
          } else {
            ok := false;
          }
        case FeePayerCompleted => ok := QueueAndSend(t, Source(t.bundle.sources));
        case SourceQueued => WatchPrerequisite(t, t.bundle.sources, SourceConfirmed, SourceFailures);
        case SourceConfirmed => ok := QueueAndSend(t, Destination(t.bundle.destinations));
        case SourceFailures => ok := ScheduleRefunds(t);
        case DestinationQueued => OnDestinationQueued(t);
        case DestinationFailures => ok := ScheduleRefunds(t);
        case DestinationConfirmed => ok := OnDestinationConfirmed(t);
        case SettlementsQueued => ok := OnSettlementsQueued(t);
        case SettlementsProcessing => ok := OnSettlementsProcessing(t);
        case SettlementCompletionQueued => ok := OnSettlementCompletionQueued(t);
        case RefundsScheduled => ok := false;
        case RefundsReady => ok := QueueAndSend(t, Refund(answers.refunds));
        case RefundsQueued => ok := UpdateBundleStatus(t, Failed);
        case Done => var _ := store.MoveToFinished(); ok := false;
        case Failed => var _ := store.MoveToFinished(); ok := false;
      }
    }

    /** The task runs, `n` turns of the protocol after `start`. */
    ghost predicate After(start: World, n: nat, t: BundleTask)
      reads this, store, t
    {
      Iterate(start, n, fates, answers) == World(store.Snapshot(), Some(t.Snapshot()))
    }

    /** One turn of the driver loop, `n` turns after `start`. */
    method Turn(t: BundleTask, ghost start: World, ghost first: Ledger, ghost n: nat) returns (ok: bool, served: bool)
      requires t.status != Init && After(start, n, t)
      requires Booked(first, start.store.journal, store.ledger, store.journal)
      modifies store, t
      ensures ok ==> served
      ensures ok ==> t.status != Init && Rank(old(t.status)) < Rank(t.status) <= 11
      ensures ok ==> After(start, n + 1, t)
      ensures !ok && served ==> Iterate(start, n + 1, fates, answers) == World(store.Snapshot(), None)
      ensures !served ==> store.Snapshot() == old(store.Snapshot()) && !Servable(old(t.Snapshot()), answers, services)
      ensures Booked(first, start.store.journal, store.ledger, store.journal)
    {
      ghost var before, was := store.ledger, store.journal;
      var live := Live(t.bundle, t.status);
      StepIsTransition(live, store.Snapshot(), fates, answers);
      served := Servable(live, answers, services);
      ok := Dispatch(t);
      TransitionsClimb(live.status, t.status);
      BookedThen(first, start.store.journal, before, was, store.ledger, store.journal);
    }

    /** A new bundle locks before anything else, `n` turns in all. */
    method LockFirst(t: BundleTask) returns (ok: bool, ghost n: nat)
      modifies store, t
      ensures ok ==> t.status != Init
      ensures ok ==> After(World(old(store.Snapshot()), Some(old(t.Snapshot()))), n, t)
      ensures !ok ==> old(t.status) == Init && t.Snapshot() == old(t.Snapshot()) && store.Snapshot() == old(store.Snapshot())
      ensures Booked(old(store.ledger), old(store.journal), store.ledger, store.journal)
    {
      ok, n := true, 0;
      if t.status == Init {
        ok := OnInit(t);
        n := 1;
      }
    }

    /** The driver loop: runs handlers until the bundle is finished or waits for its refunds, the lock
        is refused, or a batch has no service. */
    method SendAndWatch(t: BundleTask) returns (end: End, ghost n: nat)
      modifies store, t
      ensures var w := Iterate(World(old(store.Snapshot()), Some(old(t.Snapshot()))), n, fates, answers);
              && store.Snapshot() == w.store
              && (end.Completed? <==> w.task.None?)
              && (end.LockRefused? ==> n == 0 && old(t.status) == Init)
              && (end.Unserved? ==> !Servable(w.task.value, answers, services))
      ensures Booked(old(store.ledger), old(store.journal), store.ledger, store.journal)
    {
      ghost var start, first := World(store.Snapshot(), Some(t.Snapshot())), store.ledger;
      var locked;
      locked, n := LockFirst(t);
      if !locked {
        return LockRefused, 0;
      }
      var ok, served := true, true;
      while ok
        invariant ok ==> served && t.status != Init && After(start, n, t)
        invariant !ok && served ==> Iterate(start, n, fates, answers) == World(store.Snapshot(), None)
        invariant !served ==> store.Snapshot() == Iterate(start, n, fates, answers).store
        invariant !served ==> Iterate(start, n, fates, answers).task.Some?
                              && !Servable(Iterate(start, n, fates, answers).task.value, answers, services)
        invariant Booked(first, start.store.journal, store.ledger, store.journal)
        decreases ok, 12 - Rank(t.status)
      {
        ok, served := Turn(t, start, first, n);
        n := if served then n + 1 else n;
      }
      end := if served then Completed else Unserved;
    }
  }
}
