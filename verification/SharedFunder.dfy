/** Everybody who locks liquidity on one funder: any number of bundles, the rebalancer's bridge transfers
    and the signers' gas pulls, together with the ledger on one model chain. */
module SharedFunder {
  import opened Common
  import opened LiquidityLedger
  import opened Bundles
  import opened BundleGuarantees
  import Runs = BundleRuns
  import Funder = Solvency
  import Bridging = Rebalance

  /** A bundle with its task and row; its holds start at index `first` once it locked. */
  datatype Slot = Slot(origin: Bundle, world: World, first: nat)

  /** What is locked outside of bundles: a bridge transfer with its state as reported, or a signer's pull of
      native gas. */
  datatype Loan =
    | OfBridge(transfer: Bridging.Transfer, state: Bridging.State)
    | OfPull(chain: nat, amount: nat, closed: bool)

  /** A loan and its single hold. */
  datatype Move = Move(loan: Loan, hold: nat)

  datatype System = System(funder: Funder.World, slots: seq<Slot>, moves: seq<Move>)

  /** `OfBundle` is any event of one bundle, its lock checked at `blocks`; `Paid` is the payment of one of
      its transfers landing in the next block. `Borrow` locks for a loan, `Leave` is its payment landing,
      `Report` its next state, its lock given back at `at` if that ends it. `Chain` is everything else
      that happens on chain. */
  datatype Happening =
    | OfBundle(i: nat, step: Runs.Event, blocks: map<Asset, nat>)
    | Paid(i: nat, j: nat)
    | Borrow(loan: Loan, block: nat)
    | Leave(m: nat)
    | Report(m: nat, next: Loan, at: nat)
    | Chain(event: Funder.Event)

  /** The address of a chain's native token. */
  const NATIVE := 0

  function AssetOf(loan: Loan): Asset {
    match loan
    case OfBridge(t, _) => t.from
    case OfPull(chain, _, _) => Asset(chain, NATIVE)
  }

  function AmountOf(loan: Loan): nat {
    match loan
    case OfBridge(t, _) => t.amount
    case OfPull(_, amount, _) => amount
  }

  /** Its lock was given back. */
  predicate Closed(loan: Loan) {
    match loan
    case OfBridge(_, state) => !state.Pending?
    case OfPull(_, _, closed) => closed
  }

  // ---------------------------------------------------------------- a whole bundle on the ledger

  function HoldOf(t: Transfer): Funder.Hold {
    Funder.Hold(t.asset, t.amount, None, None)
  }

  function BlockOf(blocks: map<Asset, nat>, a: Asset): nat {
    if a in blocks then blocks[a] else 0
  }

  ghost function Spendable(w: Funder.World, a: Asset, c: nat): nat {
    if Funder.Balance(w, a, c) < 0 then 0 else Funder.Balance(w, a, c)
  }

  ghost function RequestFor(w: Funder.World, blocks: map<Asset, nat>, a: Asset, amount: nat): LockInput {
    LockInput(Spendable(w, a, BlockOf(blocks, a) + 1), BlockOf(blocks, a), amount)
  }

  /** The prepared lock request for a bundle's totals. */
  ghost function Requests(w: Funder.World, totals: map<Asset, nat>, blocks: map<Asset, nat>): map<Asset, LockInput> {
    map a | a in totals :: RequestFor(w, blocks, a, totals[a])
  }

  function Since(since: map<Asset, nat>, transfers: seq<Transfer>, blocks: map<Asset, nat>): map<Asset, nat> {
    if transfers == [] then since
    else
      var t := transfers[|transfers| - 1];
      Since(since, transfers[..|transfers| - 1], blocks)[t.asset := BlockOf(blocks, t.asset)]
  }

  function HoldsOf(transfers: seq<Transfer>): seq<Funder.Hold> {
    if transfers == [] then [] else HoldsOf(transfers[..|transfers| - 1]) + [HoldOf(transfers[|transfers| - 1])]
  }

  function LockAll(w: Funder.World, transfers: seq<Transfer>, blocks: map<Asset, nat>): Funder.World {
    w.(ledger := Book(w.ledger, Locked(Totals(transfers))), holds := w.holds + HoldsOf(transfers),
       since := Since(w.since, transfers, blocks))
  }

  ghost predicate Lockable(b: Backend, w: Funder.World, transfers: seq<Transfer>, blocks: map<Asset, nat>) {
    && CanLock(b, w.ledger, Requests(w, Totals(transfers), blocks))
    && forall t <- transfers ::
         BlockOf(blocks, t.asset) <= Cut(w.heads, t.asset.chain) && Funder.Careful(w, t.asset, BlockOf(blocks, t.asset))
  }

  /** New holds change neither balances nor what was pruned, released or paid. */
  lemma {:induction false} HoldsOfSums(transfers: seq<Transfer>, a: Asset, c: nat)
    ensures var hs := HoldsOf(transfers);
            && Sum(hs, Funder.PaidAmounts(a, c)) == 0 && Sum(hs, Funder.ReleasedFromAmounts(a, c)) == 0
            && Sum(hs, Funder.LingeringAmounts(a, c)) == 0
  {
    if transfers != [] {
      HoldsOfSums(transfers[..|transfers| - 1], a, c);
      assert HoldsOf(transfers)[..|transfers| - 1] == HoldsOf(transfers[..|transfers| - 1]) by {
        HoldsOfLength(transfers[..|transfers| - 1]);
      }
    }
  }

  lemma {:induction false} HoldsOfLength(transfers: seq<Transfer>)
    ensures |HoldsOf(transfers)| == |transfers|
    ensures forall j | 0 <= j < |transfers| :: HoldsOf(transfers)[j] == HoldOf(transfers[j])
  {
    if transfers != [] {
      HoldsOfLength(transfers[..|transfers| - 1]);
    }
  }

  lemma LockAllFrame(w: Funder.World, transfers: seq<Transfer>, blocks: map<Asset, nat>, a: Asset, c: nat)
    ensures var w' := LockAll(w, transfers, blocks);
            && Funder.Balance(w', a, c) == Funder.Balance(w, a, c)
            && Funder.PrunedFrom(w', a, c) == Funder.PrunedFrom(w, a, c)
            && Funder.Lingering(w', a, c) == Funder.Lingering(w, a, c)
  {
    HoldsOfSums(transfers, a, c);
    SumAppend(w.holds, HoldsOf(transfers), Funder.PaidAmounts(a, c));
    SumAppend(w.holds, HoldsOf(transfers), Funder.ReleasedFromAmounts(a, c));
    SumAppend(w.holds, HoldsOf(transfers), Funder.LingeringAmounts(a, c));
  }

  lemma BookedTotal(l: Ledger, totals: map<Asset, nat>, a: Asset)
    ensures LockedTotal(Book(l, Locked(totals)).locked, a) == LockedTotal(l.locked, a) + LockedTotal(totals, a)
  {
  }

  /** Locking one more transfer after the others. */
  lemma BookOneMore(l: Ledger, init: map<Asset, nat>, totals: map<Asset, nat>, t: Transfer, input: LockInput)
    requires input.amount == t.amount && totals == init[t.asset := LockedTotal(init, t.asset) + t.amount]
    ensures Lock(Book(l, Locked(init)), map[t.asset := input]) == Book(l, Locked(totals))
  {
    var one, all := Lock(Book(l, Locked(init)), map[t.asset := input]), Book(l, Locked(totals));
    forall a | a in one.locked || a in all.locked ensures a in one.locked && a in all.locked && one.locked[a] == all.locked[a] {
      BookedTotal(l, init, a);
      BookedTotal(l, totals, a);
      LockTotal(Book(l, Locked(init)), map[t.asset := input], a);
    }
    assert one.locked == all.locked;
  }

  /** What all transfers together may lock, the first of them may, and then the last. */
  lemma AcceptsInTurn(b: Backend, l: Ledger, a: Asset, before: nat, amount: nat, balance: nat, block: nat, mid: Ledger)
    requires Accepts(b, l, a, LockInput(balance, block, before + amount))
    requires mid.unlocks == l.unlocks && LockedTotal(mid.locked, a) == LockedTotal(l.locked, a) + before
    ensures Accepts(b, l, a, LockInput(balance, block, before)) && Accepts(b, mid, a, LockInput(balance, block, amount))
  {
  }

  lemma RequestAccepted(b: Backend, w: Funder.World, totals: map<Asset, nat>, blocks: map<Asset, nat>, a: Asset)
    requires CanLock(b, w.ledger, Requests(w, totals, blocks)) && a in totals
    ensures Accepts(b, w.ledger, a, RequestFor(w, blocks, a, totals[a]))
  {
    assert Requests(w, totals, blocks)[a] == RequestFor(w, blocks, a, totals[a]);
  }

  lemma AcceptsLess(b: Backend, l: Ledger, a: Asset, input: LockInput, amount: nat)
    requires Accepts(b, l, a, input) && amount <= input.amount
    ensures Accepts(b, l, a, input.(amount := amount))
  {
  }

  /** What is accepted in full is accepted for less. */
  lemma FewerAccepted(b: Backend, w: Funder.World, less: map<Asset, nat>, totals: map<Asset, nat>, blocks: map<Asset, nat>)
    requires CanLock(b, w.ledger, Requests(w, totals, blocks))
    requires forall a <- less :: a in totals && less[a] <= totals[a]
    ensures CanLock(b, w.ledger, Requests(w, less, blocks))
  {
    forall a | a in Requests(w, less, blocks) ensures Accepts(b, w.ledger, a, Requests(w, less, blocks)[a]) {
      RequestAccepted(b, w, totals, blocks, a);
      AcceptsLess(b, w.ledger, a, RequestFor(w, blocks, a, totals[a]), less[a]);
    }
  }

  lemma LockableInit(b: Backend, w: Funder.World, init: seq<Transfer>, t: Transfer, blocks: map<Asset, nat>)
    requires Lockable(b, w, init + [t], blocks)
    ensures Lockable(b, w, init, blocks)
  {
    TotalsPush(init, t);
    FewerAccepted(b, w, Totals(init), Totals(init + [t]), blocks);
    assert forall u <- init :: u in init + [t];
  }

  lemma LastAccepted(b: Backend, w: Funder.World, init: seq<Transfer>, t: Transfer, blocks: map<Asset, nat>)
    requires CanLock(b, w.ledger, Requests(w, Totals(init + [t]), blocks))
    ensures Accepts(b, w.ledger, t.asset, RequestFor(w, blocks, t.asset, LockedTotal(Totals(init), t.asset) + t.amount))
  {
    TotalsPush(init, t);
    RequestAccepted(b, w, Totals(init + [t]), blocks, t.asset);
  }

  lemma LastRequest(w: Funder.World, init: seq<Transfer>, t: Transfer, blocks: map<Asset, nat>)
    ensures Funder.Request(LockAll(w, init, blocks), t.asset, BlockOf(blocks, t.asset), [t.amount])
         == map[t.asset := RequestFor(w, blocks, t.asset, t.amount)]
  {
    LockAllFrame(w, init, blocks, t.asset, BlockOf(blocks, t.asset) + 1);
    Funder.SumOfOne(t.amount);
  }

  lemma LockableLast(b: Backend, w: Funder.World, init: seq<Transfer>, t: Transfer, blocks: map<Asset, nat>)
    requires CanLock(b, w.ledger, Requests(w, Totals(init + [t]), blocks))
    ensures var mid := LockAll(w, init, blocks);
            CanLock(b, mid.ledger, Funder.Request(mid, t.asset, BlockOf(blocks, t.asset), [t.amount]))
  {
    var mid, input := LockAll(w, init, blocks), RequestFor(w, blocks, t.asset, t.amount);
    LastAccepted(b, w, init, t, blocks);
    LastRequest(w, init, t, blocks);
    BookedTotal(w.ledger, Totals(init), t.asset);
    AcceptsInTurn(b, w.ledger, t.asset, LockedTotal(Totals(init), t.asset), t.amount, input.balance, input.block, mid.ledger);
  }

  lemma NoTransfers(w: Funder.World, blocks: map<Asset, nat>)
    ensures LockAll(w, [], blocks) == w
  {
    assert Book(w.ledger, Locked(map[])).locked == w.ledger.locked;
  }

  lemma LockStep(b: Backend, w: Funder.World, init: seq<Transfer>, t: Transfer, blocks: map<Asset, nat>)
    requires Lockable(b, w, init + [t], blocks)
    ensures Funder.Leads(b, LockAll(w, init, blocks), LockAll(w, init + [t], blocks))
  {
    var mid, block := LockAll(w, init, blocks), BlockOf(blocks, t.asset);
    assert t in init + [t];
    LockableLast(b, w, init, t, blocks);
    LockAllFrame(w, init, blocks, t.asset, block + 1);
    Funder.LeadsBy(b, mid, Funder.Event.Lock(t.asset, block, [t.amount]));
    LastLock(w, init, t, blocks);
  }

  /** A bundle's lock is a run of single locks of the funder, one per transfer. */
  lemma {:induction false} LockIsRun(b: Backend, w: Funder.World, transfers: seq<Transfer>, blocks: map<Asset, nat>)
    requires Lockable(b, w, transfers, blocks)
    ensures Funder.Leads(b, w, LockAll(w, transfers, blocks))
  {
    if transfers == [] {
      NoTransfers(w, blocks);
      Funder.LeadsNowhere(b, w);
    } else {
      var init, t := transfers[..|transfers| - 1], transfers[|transfers| - 1];
      assert transfers == init + [t];
      LockableInit(b, w, init, t, blocks);
      LockIsRun(b, w, init, blocks);
      LockStep(b, w, init, t, blocks);
      Funder.LeadsOn(b, w, LockAll(w, init, blocks), LockAll(w, transfers, blocks));
    }
  }

  lemma TotalsPush(init: seq<Transfer>, t: Transfer)
    ensures Totals(init + [t]) == Totals(init)[t.asset := LockedTotal(Totals(init), t.asset) + t.amount]
  {
    assert (init + [t])[..|init + [t]| - 1] == init;
  }

  lemma LastLockLedger(l: Ledger, init: seq<Transfer>, t: Transfer, input: LockInput)
    requires input.amount == t.amount
    ensures Lock(Book(l, Locked(Totals(init))), map[t.asset := input]) == Book(l, Locked(Totals(init + [t])))
  {
    TotalsPush(init, t);
    BookOneMore(l, Totals(init), Totals(init + [t]), t, input);
  }

  lemma RequestOne(w: Funder.World, a: Asset, block: nat, amount: nat) returns (input: LockInput)
    ensures Funder.Request(w, a, block, [amount]) == map[a := input] && input.amount == amount
  {
    Funder.SumOfOne(amount);
    input := Funder.Request(w, a, block, [amount])[a];
  }

  lemma LastLockHolds(w: Funder.World, init: seq<Transfer>, t: Transfer, blocks: map<Asset, nat>)
    ensures w.holds + HoldsOf(init) + Funder.NewHolds(t.asset, [t.amount]) == w.holds + HoldsOf(init + [t])
    ensures Since(w.since, init, blocks)[t.asset := BlockOf(blocks, t.asset)] == Since(w.since, init + [t], blocks)
  {
    var all := init + [t];
    assert all[..|all| - 1] == init;
    assert Funder.NewHolds(t.asset, [t.amount]) == [HoldOf(t)];
    assert HoldsOf(all) == HoldsOf(init) + [HoldOf(t)];
  }

  lemma LastLock(w: Funder.World, init: seq<Transfer>, t: Transfer, blocks: map<Asset, nat>)
    ensures Funder.AfterLock(LockAll(w, init, blocks), t.asset, BlockOf(blocks, t.asset), [t.amount])
         == LockAll(w, init + [t], blocks)
  {
    var input := RequestOne(LockAll(w, init, blocks), t.asset, BlockOf(blocks, t.asset), t.amount);
    LastLockLedger(w.ledger, init, t, input);
    LastLockHolds(w, init, t, blocks);
  }

  // ---------------------------------------------------------------- a whole release on the ledger

  /** The first `k` unlocks of a release recorded, and their holds given back. */
  function Given(w: Funder.World, first: nat, unlocks: seq<Unlock>, k: nat): Funder.World
    requires k <= |unlocks|
  {
    w.(ledger := w.ledger.(unlocks := w.ledger.unlocks + unlocks[..k]),
       holds := seq(|w.holds|, i requires 0 <= i < |w.holds| =>
                  if first <= i < first + k then w.holds[i].(released := Some(unlocks[i - first].block)) else w.holds[i]))
  }

  function PaidBlock(h: Funder.Hold): nat {
    if h.paid.Some? then h.paid.value else 0
  }

  /** `u` is due for hold `h`: not released, and unlocked at its payment's mined block or at block 0. */
  predicate Due(heads: map<nat, nat>, h: Funder.Hold, u: Unlock) {
    && u == Unlock(h.asset, PaidBlock(h), h.amount) && h.released.None?
    && (h.paid.Some? ==> h.paid.value <= Cut(heads, h.asset.chain))
  }

  predicate Givable(w: Funder.World, first: nat, unlocks: seq<Unlock>) {
    && first + |unlocks| <= |w.holds|
    && forall j | 0 <= j < |unlocks| :: Due(w.heads, w.holds[first + j], unlocks[j])
  }

  /** A bundle's release is a run of single releases of the funder. */
  lemma {:induction false} ReleaseIsRun(b: Backend, w: Funder.World, first: nat, unlocks: seq<Unlock>, k: nat)
    requires Givable(w, first, unlocks) && k <= |unlocks|
    ensures Funder.Leads(b, w, Given(w, first, unlocks, k))
  {
    if k == 0 {
      assert Given(w, first, unlocks, 0) == w;
      Funder.LeadsNowhere(b, w);
    } else {
      var mid := Given(w, first, unlocks, k - 1);
      ReleaseIsRun(b, w, first, unlocks, k - 1);
      assert Due(w.heads, w.holds[first + (k - 1)], unlocks[k - 1]);
      Funder.LeadsBy(b, mid, Funder.GiveBack(first + k - 1, unlocks[k - 1].block));
      NextGiven(b, w, first, unlocks, k);
      Funder.LeadsOn(b, w, mid, Given(w, first, unlocks, k));
    }
  }

  lemma NextGiven(b: Backend, w: Funder.World, first: nat, unlocks: seq<Unlock>, k: nat)
    requires Givable(w, first, unlocks) && 0 < k <= |unlocks|
    requires Funder.Enabled(Given(w, first, unlocks, k - 1), Funder.GiveBack(first + k - 1, unlocks[k - 1].block))
    ensures Funder.Next(b, Given(w, first, unlocks, k - 1), Funder.GiveBack(first + k - 1, unlocks[k - 1].block)) == Given(w, first, unlocks, k)
  {
    assert unlocks[..k] == unlocks[..k - 1] + [unlocks[k - 1]];
    var next := Funder.Next(b, Given(w, first, unlocks, k - 1), Funder.GiveBack(first + k - 1, unlocks[k - 1].block));
    assert next.ledger.unlocks == Given(w, first, unlocks, k).ledger.unlocks;
    assert next.holds == Given(w, first, unlocks, k).holds;
  }

  // ---------------------------------------------------------------- what a bundle event writes

  predicate HasReleased(journal: seq<Entry>) {
    exists e <- journal :: e.Released?
  }

  /** A bundle event adds nothing, its lock, its release, or a queued batch to its journal. */
  ghost predicate Adds(w: World, next: World, b: Bundle, fates: Fates) {
    var before, after := w.store.journal, next.store.journal;
    || after == before
    || (before == [] && after == [Locked(Totals(b.transfers))])
    || (exists batch :: before != [] && after == before + [Queued(batch)])
    || (before != [] && !HasReleased(before) && after == before + [Released(Unlocks(b.transfers, PaidReceipts(b, fates)))])
  }

  lemma EarlyStepAdds(w: World, b: Bundle, answers: Answers, fates: Fates)
    requires Runs.Inv(w, b, fates) && w.task.Some? && Rank(w.task.value.status) <= 3
    ensures Adds(w, Handle(w.task.value, w.store, fates, answers), b, fates)
  {
  }

  lemma MiddleStepAdds(w: World, b: Bundle, answers: Answers, fates: Fates)
    requires Runs.Inv(w, b, fates) && w.task.Some? && 4 <= Rank(w.task.value.status) <= 6
    ensures Adds(w, Handle(w.task.value, w.store, fates, answers), b, fates)
  {
  }

  lemma LateStepAdds(w: World, b: Bundle, answers: Answers, fates: Fates)
    requires Runs.Inv(w, b, fates) && w.task.Some? && Rank(w.task.value.status) >= 7
    ensures Adds(w, Handle(w.task.value, w.store, fates, answers), b, fates)
  {
  }

  lemma EventAdds(w: World, b: Bundle, e: Runs.Event, fates: Fates)
    requires Runs.Inv(w, b, fates) && Runs.Enabled(w, e)
    ensures Adds(w, Runs.Next(w, e, fates), b, fates)
  {
    if e.Step? {
      var rank := Rank(w.task.value.status);
      if rank <= 3 {
        EarlyStepAdds(w, b, e.answers, fates);
      } else if rank <= 6 {
        MiddleStepAdds(w, b, e.answers, fates);
      } else {
        LateStepAdds(w, b, e.answers, fates);
      }
    }
  }

  // ---------------------------------------------------------------- the system

  ghost predicate Locks(w: World, next: World) {
    w.store.journal == [] && next.store.journal != []
  }

  ghost predicate Releases(w: World, next: World) {
    !HasReleased(w.store.journal) && HasReleased(next.store.journal)
  }

  function LastUnlocks(journal: seq<Entry>): seq<Unlock> {
    if journal != [] && journal[|journal| - 1].Released? then journal[|journal| - 1].unlocks else []
  }

  /** The payments a bundle's release waited for are mined. */
  ghost predicate Mined(funder: Funder.World, s: Slot, fates: Fates) {
    var transfers := s.origin.transfers;
    && s.first + |transfers| <= |funder.holds|
    && forall j | 0 <= j < |transfers| && transfers[j].tx in PaidReceipts(s.origin, fates) ::
         var h := funder.holds[s.first + j];
         h.paid.Some? && h.paid.value <= Cut(funder.heads, h.asset.chain)
  }

  /** A bundle locks only what the ledger accepts at careful blocks, and releases only after the payments
      it waited for are mined; a payment is made once its destination was queued, at its receipt's block. */
  ghost predicate Allowed(b: Backend, sys: System, fates: Fates, h: Happening) {
    match h
    case OfBundle(i, step, blocks) =>
      && i < |sys.slots| && Runs.Enabled(sys.slots[i].world, step)
      && var s, next := sys.slots[i], Runs.Next(sys.slots[i].world, step, fates);
         && (Locks(s.world, next) ==> Lockable(b, sys.funder, s.origin.transfers, blocks))
         && (Releases(s.world, next) ==> Mined(sys.funder, s, fates))
    case Paid(i, j) =>
      && i < |sys.slots|
      && var s := sys.slots[i];
         && j < |s.origin.transfers| && s.first + j < |sys.funder.holds|
         && var t := s.origin.transfers[j];
            && Queued(Destination(s.origin.destinations)) in s.world.store.journal
            && sys.funder.holds[s.first + j].paid.None?
            && t.tx in Receipts(s.origin.destinations, fates)
            && Receipts(s.origin.destinations, fates)[t.tx] == Some(Cut(sys.funder.heads, t.asset.chain) + 1)
    case Borrow(loan, block) =>
      var a := AssetOf(loan);
      && !Closed(loan) && block <= Cut(sys.funder.heads, a.chain) && Funder.Careful(sys.funder, a, block)
      && CanLock(b, sys.funder.ledger, Funder.Request(sys.funder, a, block, [AmountOf(loan)]))
    case Leave(m) =>
      && m < |sys.moves| && !Closed(sys.moves[m].loan)
      && sys.moves[m].hold < |sys.funder.holds| && sys.funder.holds[sys.moves[m].hold].paid.None?
    case Report(m, next, at) =>
      && m < |sys.moves| && sys.moves[m].hold < |sys.funder.holds|
      && Reports(sys.moves[m].loan, next, at, sys.funder.holds[sys.moves[m].hold], sys.funder.heads)
    case Chain(e) => e.Fund? || e.Mine? || e.PruneChain?
  }

  /** A bridge reports in order: sent means that the payment is mined at that block, failed that there is
      none. A pull ends at its payment's block, or at any block if it never landed. */
  predicate Reports(loan: Loan, next: Loan, at: nat, h: Funder.Hold, heads: map<nat, nat>) {
    var mined := h.paid == Some(at) && at <= Cut(heads, AssetOf(loan).chain);
    match loan
    case OfBridge(t, state) =>
      && next.OfBridge? && next.transfer == t && Bridging.Follows(state, next.state)
      && (next.state.Sent? ==> next.state.block == at && mined)
      && (next.state.OutboundFailed? ==> at == 0 && h.paid.None?)
    case OfPull(chain, amount, closed) => !closed && next == OfPull(chain, amount, true) && (h.paid.Some? ==> mined)
  }

  function GivenBack(w: Funder.World, k: nat, at: nat): Funder.World
    requires k < |w.holds|
  {
    var h := w.holds[k];
    w.(ledger := Release(w.ledger, Unlock(h.asset, at, h.amount)), holds := w.holds[k := h.(released := Some(at))])
  }

  /** Hold `k` paid in the next block of its chain. */
  function PaidNow(w: Funder.World, k: nat): Funder.World
    requires k < |w.holds|
  {
    w.(holds := w.holds[k := w.holds[k].(paid := Some(Cut(w.heads, w.holds[k].asset.chain) + 1))])
  }

  ghost function FunderNext(sys: System, s: Slot, next: World, blocks: map<Asset, nat>): Funder.World {
    if Locks(s.world, next) then LockAll(sys.funder, s.origin.transfers, blocks)
    else if Releases(s.world, next) then
      var unlocks := LastUnlocks(next.store.journal);
      Given(sys.funder, s.first, unlocks, |unlocks|)
    else sys.funder
  }

  ghost function Then(b: Backend, sys: System, fates: Fates, h: Happening): System
    requires Allowed(b, sys, fates, h)
  {
    match h
    case OfBundle(i, step, blocks) =>
      var s, next := sys.slots[i], Runs.Next(sys.slots[i].world, step, fates);
      sys.(funder := FunderNext(sys, s, next, blocks),
           slots := sys.slots[i := s.(world := next, first := if Locks(s.world, next) then |sys.funder.holds| else s.first)])
    case Paid(i, j) => sys.(funder := PaidNow(sys.funder, sys.slots[i].first + j))
    case Borrow(loan, block) =>
      sys.(funder := Funder.AfterLock(sys.funder, AssetOf(loan), block, [AmountOf(loan)]),
           moves := sys.moves + [Move(loan, |sys.funder.holds|)])
    case Leave(m) => sys.(funder := PaidNow(sys.funder, sys.moves[m].hold))
    case Report(m, next, at) =>
      var move := sys.moves[m];
      sys.(funder := if Closed(next) && !Closed(move.loan) then GivenBack(sys.funder, move.hold, at) else sys.funder,
           moves := sys.moves[m := move.(loan := next)])
    case Chain(e) => sys.(funder := Funder.Next(b, sys.funder, e))
  }

  // ---------------------------------------------------------------- what the system keeps

  /** Hold `h` of the funder is transfer `t` of the bundle: given back with it, and paid with it. */
  ghost predicate HoldOk(h: Funder.Hold, t: Transfer, origin: Bundle, journal: seq<Entry>, fates: Fates) {
    && h.asset == t.asset && h.amount == t.amount && (h.released.Some? <==> HasReleased(journal))
    && (h.paid.Some? ==> t.tx in PaidReceipts(origin, fates) && PaidReceipts(origin, fates)[t.tx] == h.paid)
    && (h.released.Some? && t.tx in PaidReceipts(origin, fates) ==> h.paid.Some?)
  }

  ghost predicate HoldsOk(holds: seq<Funder.Hold>, first: nat, origin: Bundle, journal: seq<Entry>, fates: Fates) {
    && first + |origin.transfers| <= |holds|
    && forall j | 0 <= j < |origin.transfers| :: HoldOk(holds[first + j], origin.transfers[j], origin, journal, fates)
  }

  ghost predicate SlotOk(holds: seq<Funder.Hold>, s: Slot, fates: Fates) {
    && Runs.Inv(s.world, s.origin, fates)
    && (s.world.store.journal != [] ==> HoldsOk(holds, s.first, s.origin, s.world.store.journal, fates))
  }

  /** Two bundles that locked have separate holds. */
  predicate Apart(s: Slot, t: Slot) {
    s.world.store.journal != [] && t.world.store.journal != [] ==>
      s.first + |s.origin.transfers| <= t.first || t.first + |t.origin.transfers| <= s.first
  }

  /** The loan's hold is its own, and given back with it. */
  predicate MoveOk(holds: seq<Funder.Hold>, m: Move) {
    && m.hold < |holds| && holds[m.hold].asset == AssetOf(m.loan) && holds[m.hold].amount == AmountOf(m.loan)
    && (holds[m.hold].released.Some? <==> Closed(m.loan))
  }

  predicate Clear(s: Slot, k: nat) {
    s.world.store.journal != [] ==> k < s.first || k >= s.first + |s.origin.transfers|
  }

  ghost predicate MovesOk(holds: seq<Funder.Hold>, slots: seq<Slot>, moves: seq<Move>) {
    && (forall m <- moves :: MoveOk(holds, m))
    && (forall s <- slots, m <- moves :: Clear(s, m.hold))
    && forall i, k | 0 <= i < k < |moves| :: moves[i].hold != moves[k].hold
  }

  ghost predicate SystemInv(b: Backend, sys: System, fates: Fates) {
    && Funder.Leads(b, Funder.EMPTY, sys.funder)
    && (forall s <- sys.slots :: SlotOk(sys.funder.holds, s, fates))
    && (forall i, k | 0 <= i < k < |sys.slots| :: Apart(sys.slots[i], sys.slots[k]))
    && MovesOk(sys.funder.holds, sys.slots, sys.moves)
  }

  lemma LockFits(holds: seq<Funder.Hold>, origin: Bundle, journal: seq<Entry>, fates: Fates)
    requires journal == [Locked(Totals(origin.transfers))]
    ensures HoldsOk(holds + HoldsOf(origin.transfers), |holds|, origin, journal, fates)
  {
    HoldsOfLength(origin.transfers);
  }

  lemma ReleaseIsGivable(funder: Funder.World, s: Slot, fates: Fates)
    requires HoldsOk(funder.holds, s.first, s.origin, s.world.store.journal, fates)
    requires !HasReleased(s.world.store.journal) && Mined(funder, s, fates)
    ensures Givable(funder, s.first, Unlocks(s.origin.transfers, PaidReceipts(s.origin, fates)))
  {
    var unlocks := Unlocks(s.origin.transfers, PaidReceipts(s.origin, fates));
    UnlocksAt(s.origin.transfers, PaidReceipts(s.origin, fates));
    forall j | 0 <= j < |unlocks| ensures Due(funder.heads, funder.holds[s.first + j], unlocks[j]) {
      var t, h := s.origin.transfers[j], funder.holds[s.first + j];
      assert HoldOk(h, t, s.origin, s.world.store.journal, fates);
      assert unlocks[j] == UnlockOf(t, PaidReceipts(s.origin, fates));
    }
  }

  lemma GivenAt(w: Funder.World, first: nat, unlocks: seq<Unlock>, j: nat)
    requires j < |unlocks| && first + j < |w.holds|
    ensures Given(w, first, unlocks, |unlocks|).holds[first + j] == w.holds[first + j].(released := Some(unlocks[j].block))
  {
  }

  lemma HoldReleased(h: Funder.Hold, t: Transfer, origin: Bundle, journal: seq<Entry>, next: seq<Entry>, fates: Fates, block: nat)
    requires HoldOk(h, t, origin, journal, fates) && HasReleased(next)
    requires t.tx in PaidReceipts(origin, fates) ==> h.paid.Some?
    ensures HoldOk(h.(released := Some(block)), t, origin, next, fates)
  {
  }

  lemma ReleaseFits(funder: Funder.World, s: Slot, next: seq<Entry>, fates: Fates)
    requires HoldsOk(funder.holds, s.first, s.origin, s.world.store.journal, fates) && Mined(funder, s, fates)
    requires next == s.world.store.journal + [Released(Unlocks(s.origin.transfers, PaidReceipts(s.origin, fates)))]
    ensures var unlocks := Unlocks(s.origin.transfers, PaidReceipts(s.origin, fates));
            && LastUnlocks(next) == unlocks && HasReleased(next)
            && HoldsOk(Given(funder, s.first, unlocks, |unlocks|).holds, s.first, s.origin, next, fates)
  {
    var unlocks := Unlocks(s.origin.transfers, PaidReceipts(s.origin, fates));
    UnlocksAt(s.origin.transfers, PaidReceipts(s.origin, fates));
    assert Released(unlocks) in next;
    forall j | 0 <= j < |s.origin.transfers|
      ensures HoldOk(Given(funder, s.first, unlocks, |unlocks|).holds[s.first + j], s.origin.transfers[j], s.origin, next, fates)
    {
      GivenAt(funder, s.first, unlocks, j);
      HoldReleased(funder.holds[s.first + j], s.origin.transfers[j], s.origin, s.world.store.journal, next, fates, unlocks[j].block);
    }
  }

  lemma RangeKept(holds: seq<Funder.Hold>, after: seq<Funder.Hold>, first: nat, origin: Bundle, journal: seq<Entry>, fates: Fates)
    requires HoldsOk(holds, first, origin, journal, fates) && |holds| <= |after|
    requires forall k | first <= k < first + |origin.transfers| && k < |holds| :: after[k] == holds[k]
    ensures HoldsOk(after, first, origin, journal, fates)
  {
    forall j | 0 <= j < |origin.transfers| ensures HoldOk(after[first + j], origin.transfers[j], origin, journal, fates) {
      assert HoldOk(holds[first + j], origin.transfers[j], origin, journal, fates);
      assert after[first + j] == holds[first + j];
    }
  }

  /** A bundle that did not take part keeps its holds. */
  lemma OthersKept(holds: seq<Funder.Hold>, after: seq<Funder.Hold>, s: Slot, fates: Fates)
    requires SlotOk(holds, s, fates) && |holds| <= |after|
    requires s.world.store.journal != [] ==>
               forall k | s.first <= k < s.first + |s.origin.transfers| && k < |holds| :: after[k] == holds[k]
    ensures SlotOk(after, s, fates)
  {
    if s.world.store.journal != [] {
      RangeKept(holds, after, s.first, s.origin, s.world.store.journal, fates);
    }
  }

  lemma QueuedMeansOk(w: World, origin: Bundle, fates: Fates)
    requires Runs.Inv(w, origin, fates) && Queued(Destination(origin.destinations)) in w.store.journal
    ensures PaidReceipts(origin, fates) == Receipts(origin.destinations, fates)
  {
    var row := Runs.Row(w);
    StoryQueues(row.bundle, row.status, fates);
    var i :| 0 <= i < |w.store.journal| && w.store.journal[i] == Queued(Destination(origin.destinations));
    assert Warranted(w.store.journal[i].batch, row.bundle, fates);
  }

  lemma QueueAddsNoRelease(journal: seq<Entry>, batch: Batch)
    ensures HasReleased(journal + [Queued(batch)]) == HasReleased(journal)
  {
    if HasReleased(journal) {
      var e :| e in journal && e.Released?;
      assert e in journal + [Queued(batch)];
    }
  }

  /** What a bundle event makes of the bundle's own holds. */
  lemma OwnHoldsKept(b: Backend, sys: System, fates: Fates, h: Happening)
    requires SystemInv(b, sys, fates) && Allowed(b, sys, fates, h) && h.OfBundle?
    ensures SlotOk(Then(b, sys, fates, h).funder.holds, Then(b, sys, fates, h).slots[h.i], fates)
    ensures Funder.Leads(b, sys.funder, Then(b, sys, fates, h).funder)
  {
    var s := sys.slots[h.i];
    var next := Runs.Next(s.world, h.step, fates);
    var before, after := s.world.store.journal, next.store.journal;
    assert SlotOk(sys.funder.holds, s, fates);
    EventAdds(s.world, s.origin, h.step, fates);
    Runs.EventKeepsInv(s.world, s.origin, h.step, fates);
    if before == [] && after != [] {
      LockIsRun(b, sys.funder, s.origin.transfers, h.blocks);
      LockFits(sys.funder.holds, s.origin, after, fates);
    } else if after == before {
      Funder.LeadsNowhere(b, sys.funder);
    } else if batch :| after == before + [Queued(batch)] {
      QueueAddsNoRelease(before, batch);
      Funder.LeadsNowhere(b, sys.funder);
      QueuedHoldsKept(sys.funder.holds, s, after, fates);
    } else {
      var unlocks := Unlocks(s.origin.transfers, PaidReceipts(s.origin, fates));
      assert Released(unlocks) in after;
      ReleaseIsGivable(sys.funder, s, fates);
      ReleaseFits(sys.funder, s, after, fates);
      ReleaseIsRun(b, sys.funder, s.first, unlocks, |unlocks|);
    }
  }

  lemma QueuedHoldsKept(holds: seq<Funder.Hold>, s: Slot, after: seq<Entry>, fates: Fates)
    requires HoldsOk(holds, s.first, s.origin, s.world.store.journal, fates)
    requires HasReleased(after) == HasReleased(s.world.store.journal)
    ensures HoldsOk(holds, s.first, s.origin, after, fates)
  {
    forall j | 0 <= j < |s.origin.transfers|
      ensures HoldOk(holds[s.first + j], s.origin.transfers[j], s.origin, after, fates)
    {
      assert HoldOk(holds[s.first + j], s.origin.transfers[j], s.origin, s.world.store.journal, fates);
    }
  }

  /** Outside the bundle's own range, a bundle event leaves the holds there are. */
  lemma HoldsOutside(b: Backend, sys: System, fates: Fates, h: Happening)
    requires SystemInv(b, sys, fates) && Allowed(b, sys, fates, h) && h.OfBundle?
    ensures var s, holds, after := sys.slots[h.i], sys.funder.holds, Then(b, sys, fates, h).funder.holds;
            && |holds| <= |after|
            && forall k | 0 <= k < |holds| ::
                 s.world.store.journal == [] || k < s.first || k >= s.first + |s.origin.transfers| ==> after[k] == holds[k]
  {
    var s := sys.slots[h.i];
    assert SlotOk(sys.funder.holds, s, fates);
    EventAdds(s.world, s.origin, h.step, fates);
    UnlocksAt(s.origin.transfers, PaidReceipts(s.origin, fates));
  }

  /** What a bundle did to its own holds leaves every loan's alone. */
  lemma MovesBeside(holds: seq<Funder.Hold>, after: seq<Funder.Hold>, slots: seq<Slot>, moves: seq<Move>, i: nat, s: Slot)
    requires MovesOk(holds, slots, moves) && i < |slots| && |holds| <= |after|
    requires forall k | 0 <= k < |holds| && Clear(slots[i], k) :: after[k] == holds[k]
    requires s.first >= |holds|
             || (s.first == slots[i].first && s.origin == slots[i].origin && slots[i].world.store.journal != [])
             || s.world.store.journal == []
    ensures MovesOk(after, slots[i := s], moves)
  {
    forall m <- moves ensures MoveOk(after, m) && Clear(s, m.hold) {
      assert MoveOk(holds, m) && slots[i] in slots && Clear(slots[i], m.hold);
    }
    forall t <- slots[i := s], m <- moves ensures Clear(t, m.hold) {
      if t != s {
        assert t in slots;
      }
    }
  }

  lemma BundleEventKeepsMoves(b: Backend, sys: System, fates: Fates, h: Happening)
    requires SystemInv(b, sys, fates) && Allowed(b, sys, fates, h) && h.OfBundle?
    ensures MovesOk(Then(b, sys, fates, h).funder.holds, Then(b, sys, fates, h).slots, sys.moves)
  {
    HoldsOutside(b, sys, fates, h);
    SlotHolds(b, sys, fates, h.i);
    EventAdds(sys.slots[h.i].world, sys.slots[h.i].origin, h.step, fates);
    MovesBeside(sys.funder.holds, Then(b, sys, fates, h).funder.holds, sys.slots, sys.moves, h.i, Then(b, sys, fates, h).slots[h.i]);
  }

  lemma BundleEventKeeps(b: Backend, sys: System, fates: Fates, h: Happening)
    requires SystemInv(b, sys, fates) && Allowed(b, sys, fates, h) && h.OfBundle?
    ensures SystemInv(b, Then(b, sys, fates, h), fates)
  {
    var after := Then(b, sys, fates, h);
    BundleEventKeepsMoves(b, sys, fates, h);
    OwnHoldsKept(b, sys, fates, h);
    HoldsOutside(b, sys, fates, h);
    Funder.LeadsOn(b, Funder.EMPTY, sys.funder, after.funder);
    forall k | 0 <= k < |sys.slots| && k != h.i
      ensures SlotOk(after.funder.holds, after.slots[k], fates)
      ensures Apart(after.slots[h.i], after.slots[k])
    {
      OtherSlot(b, sys, fates, h.i, k);
      assert SlotOk(sys.funder.holds, sys.slots[h.i], fates);
      OthersKept(sys.funder.holds, after.funder.holds, sys.slots[k], fates);
    }
  }

  lemma QueuedSlot(holds: seq<Funder.Hold>, s: Slot, fates: Fates)
    requires SlotOk(holds, s, fates) && Queued(Destination(s.origin.destinations)) in s.world.store.journal
    ensures HoldsOk(holds, s.first, s.origin, s.world.store.journal, fates)
    ensures PaidReceipts(s.origin, fates) == Receipts(s.origin.destinations, fates)
  {
    QueuedMeansOk(s.world, s.origin, fates);
  }

  /** The payment of the bundle's transfer `j` may land now: it is what its receipt says. */
  ghost predicate Payable(w: Funder.World, first: nat, origin: Bundle, fates: Fates, j: nat) {
    && j < |origin.transfers| && first + j < |w.holds| && w.holds[first + j].paid.None?
    && var t, receipts := origin.transfers[j], PaidReceipts(origin, fates);
       t.tx in receipts && receipts[t.tx] == Some(Cut(w.heads, t.asset.chain) + 1)
  }

  lemma PaymentDue(b: Backend, sys: System, fates: Fates, h: Happening)
    requires Allowed(b, sys, fates, h) && h.Paid? && SlotOk(sys.funder.holds, sys.slots[h.i], fates)
    ensures var s := sys.slots[h.i];
            && Payable(sys.funder, s.first, s.origin, fates, h.j)
            && HoldsOk(sys.funder.holds, s.first, s.origin, s.world.store.journal, fates)
  {
    QueuedSlot(sys.funder.holds, sys.slots[h.i], fates);
  }

  lemma SlotHolds(b: Backend, sys: System, fates: Fates, i: nat)
    requires SystemInv(b, sys, fates) && i < |sys.slots|
    ensures var s := sys.slots[i];
            && Runs.Inv(s.world, s.origin, fates)
            && (s.world.store.journal != [] ==>
                  HoldsOk(sys.funder.holds, s.first, s.origin, s.world.store.journal, fates))
  {
    assert SlotOk(sys.funder.holds, sys.slots[i], fates);
  }

  lemma PaidHoldsKept(holds: seq<Funder.Hold>, first: nat, origin: Bundle, journal: seq<Entry>, fates: Fates, j: nat, block: nat)
    requires HoldsOk(holds, first, origin, journal, fates) && j < |origin.transfers|
    requires var t := origin.transfers[j];
             t.tx in PaidReceipts(origin, fates) && PaidReceipts(origin, fates)[t.tx] == Some(block)
    ensures HoldsOk(holds[first + j := holds[first + j].(paid := Some(block))], first, origin, journal, fates)
  {
    var after := holds[first + j := holds[first + j].(paid := Some(block))];
    forall i | 0 <= i < |origin.transfers| ensures HoldOk(after[first + i], origin.transfers[i], origin, journal, fates) {
      assert HoldOk(holds[first + i], origin.transfers[i], origin, journal, fates);
    }
  }

  lemma OtherSlot(b: Backend, sys: System, fates: Fates, i: nat, k: nat)
    requires SystemInv(b, sys, fates) && i < |sys.slots| && k < |sys.slots| && i != k
    ensures SlotOk(sys.funder.holds, sys.slots[k], fates) && Apart(sys.slots[i], sys.slots[k])
  {
    if i < k {
      assert Apart(sys.slots[i], sys.slots[k]);
    } else {
      assert Apart(sys.slots[k], sys.slots[i]);
    }
  }

  /** A payment is a step of the funder, and the bundle still accounts for its holds. */
  lemma PaymentLands(b: Backend, w: Funder.World, first: nat, origin: Bundle, journal: seq<Entry>, fates: Fates, j: nat)
    requires Payable(w, first, origin, fates, j) && HoldsOk(w.holds, first, origin, journal, fates)
    ensures Funder.Leads(b, w, PaidNow(w, first + j)) && HoldsOk(PaidNow(w, first + j).holds, first, origin, journal, fates)
  {
    assert HoldOk(w.holds[first + j], origin.transfers[j], origin, journal, fates);
    Funder.LeadsBy(b, w, Funder.Pay(first + j));
    PaidHoldsKept(w.holds, first, origin, journal, fates, j, Cut(w.heads, origin.transfers[j].asset.chain) + 1);
  }

  /** The bundle whose payment landed still accounts for its holds. */
  lemma PaymentOnOwn(b: Backend, w: Funder.World, s: Slot, fates: Fates, j: nat)
    requires SlotOk(w.holds, s, fates) && Payable(w, s.first, s.origin, fates, j)
    requires HoldsOk(w.holds, s.first, s.origin, s.world.store.journal, fates)
    ensures Funder.Leads(b, w, PaidNow(w, s.first + j)) && SlotOk(PaidNow(w, s.first + j).holds, s, fates)
  {
    PaymentLands(b, w, s.first, s.origin, s.world.store.journal, fates, j);
  }

  /** A change to the holds of one bundle that it accounts for itself leaves the others alone. */
  lemma SlotsKept(holds: seq<Funder.Hold>, after: seq<Funder.Hold>, slots: seq<Slot>, fates: Fates, i: nat)
    requires i < |slots| && slots[i].world.store.journal != [] && SlotOk(after, slots[i], fates) && |after| == |holds|
    requires forall k | 0 <= k < |slots| && k != i :: SlotOk(holds, slots[k], fates) && Apart(slots[i], slots[k])
    requires var s := slots[i];
             forall k | 0 <= k < |holds| && (k < s.first || k >= s.first + |s.origin.transfers|) :: after[k] == holds[k]
    ensures forall s <- slots :: SlotOk(after, s, fates)
  {
    forall k | 0 <= k < |slots| ensures SlotOk(after, slots[k], fates) {
      if k != i {
        assert Apart(slots[i], slots[k]);
        OthersKept(holds, after, slots[k], fates);
      }
    }
  }

  lemma PaymentKeepsSlots(b: Backend, sys: System, fates: Fates, i: nat, j: nat)
    requires i < |sys.slots| && sys.slots[i].world.store.journal != []
    requires (forall s <- sys.slots :: SlotOk(sys.funder.holds, s, fates))
             && forall m, n | 0 <= m < n < |sys.slots| :: Apart(sys.slots[m], sys.slots[n])
    requires Payable(sys.funder, sys.slots[i].first, sys.slots[i].origin, fates, j)
    ensures var after := PaidNow(sys.funder, sys.slots[i].first + j);
            Funder.Leads(b, sys.funder, after) && forall s <- sys.slots :: SlotOk(after.holds, s, fates)
  {
    var after := PaidNow(sys.funder, sys.slots[i].first + j);
    assert SlotOk(sys.funder.holds, sys.slots[i], fates);
    PaymentOnOwn(b, sys.funder, sys.slots[i], fates, j);
    forall k | 0 <= k < |sys.slots| && k != i
      ensures SlotOk(sys.funder.holds, sys.slots[k], fates) && Apart(sys.slots[i], sys.slots[k])
    {
      assert k < i ==> Apart(sys.slots[k], sys.slots[i]);
    }
    SlotsKept(sys.funder.holds, after.holds, sys.slots, fates, i);
  }

  lemma PaymentKeepsInv(b: Backend, sys: System, fates: Fates, i: nat, j: nat)
    requires SystemInv(b, sys, fates) && i < |sys.slots| && sys.slots[i].world.store.journal != []
    requires Payable(sys.funder, sys.slots[i].first, sys.slots[i].origin, fates, j)
    ensures SystemInv(b, sys.(funder := PaidNow(sys.funder, sys.slots[i].first + j)), fates)
  {
    PaymentKeepsSlots(b, sys, fates, i, j);
    MovesBeside(sys.funder.holds, PaidNow(sys.funder, sys.slots[i].first + j).holds, sys.slots, sys.moves, i, sys.slots[i]);
    assert sys.slots[i := sys.slots[i]] == sys.slots;
    Funder.LeadsOn(b, Funder.EMPTY, sys.funder, PaidNow(sys.funder, sys.slots[i].first + j));
  }

  lemma PaymentPayable(b: Backend, sys: System, fates: Fates, i: nat, j: nat)
    requires Allowed(b, sys, fates, Paid(i, j)) && SystemInv(b, sys, fates)
    ensures sys.slots[i].world.store.journal != [] && Payable(sys.funder, sys.slots[i].first, sys.slots[i].origin, fates, j)
  {
    assert SlotOk(sys.funder.holds, sys.slots[i], fates);
    PaymentDue(b, sys, fates, Paid(i, j));
  }

  lemma AfterPayment(b: Backend, sys: System, fates: Fates, i: nat, j: nat)
    requires Allowed(b, sys, fates, Paid(i, j))
    ensures Then(b, sys, fates, Paid(i, j)) == sys.(funder := PaidNow(sys.funder, sys.slots[i].first + j))
  {
  }

  lemma PaymentKeeps(b: Backend, sys: System, fates: Fates, i: nat, j: nat)
    requires SystemInv(b, sys, fates) && Allowed(b, sys, fates, Paid(i, j))
    ensures SystemInv(b, Then(b, sys, fates, Paid(i, j)), fates)
  {
    AfterPayment(b, sys, fates, i, j);
    PaymentPayable(b, sys, fates, i, j);
    PaymentKeepsInv(b, sys, fates, i, j);
  }

  // ---------------------------------------------------------------- loans

  /** A change to one hold that is no bundle's leaves all bundles alone. */
  lemma SlotsBeside(holds: seq<Funder.Hold>, after: seq<Funder.Hold>, slots: seq<Slot>, fates: Fates, k: nat)
    requires |holds| <= |after| && forall i | 0 <= i < |holds| && i != k :: after[i] == holds[i]
    requires forall s <- slots :: SlotOk(holds, s, fates) && (k < |holds| ==> Clear(s, k))
    ensures forall s <- slots :: SlotOk(after, s, fates)
  {
    forall s <- slots ensures SlotOk(after, s, fates) {
      OthersKept(holds, after, s, fates);
    }
  }

  lemma BorrowKeepsMoves(holds: seq<Funder.Hold>, slots: seq<Slot>, moves: seq<Move>, fates: Fates, loan: Loan)
    requires MovesOk(holds, slots, moves) && !Closed(loan) && forall s <- slots :: SlotOk(holds, s, fates)
    ensures MovesOk(holds + [Funder.Hold(AssetOf(loan), AmountOf(loan), None, None)], slots, moves + [Move(loan, |holds|)])
  {
    var after, grown := holds + [Funder.Hold(AssetOf(loan), AmountOf(loan), None, None)], moves + [Move(loan, |holds|)];
    forall m <- grown ensures MoveOk(after, m) {
      assert m in moves ==> MoveOk(holds, m);
    }
    forall s <- slots, m <- grown ensures Clear(s, m.hold) {
      assert SlotOk(holds, s, fates);
    }
    forall i, k | 0 <= i < k < |grown| ensures grown[i].hold != grown[k].hold {
      assert grown[i] in moves && MoveOk(holds, grown[i]);
    }
  }

  /** A change to one loan's hold that matches the loan's new state leaves the other loans alone. */
  lemma MoveChanges(holds: seq<Funder.Hold>, after: seq<Funder.Hold>, slots: seq<Slot>, moves: seq<Move>, m: nat, next: Loan)
    requires MovesOk(holds, slots, moves) && m < |moves| && |after| == |holds|
    requires forall k | 0 <= k < |holds| && k != moves[m].hold :: after[k] == holds[k]
    requires MoveOk(after, moves[m].(loan := next))
    ensures MovesOk(after, slots, moves[m := moves[m].(loan := next)])
  {
    var changed := moves[m := moves[m].(loan := next)];
    forall i | 0 <= i < |changed| ensures MoveOk(after, changed[i]) && forall s <- slots :: Clear(s, changed[i].hold) {
      assert moves[i] in moves && MoveOk(holds, moves[i]);
    }
    forall i, k | 0 <= i < k < |changed| ensures changed[i].hold != changed[k].hold {
      assert moves[i].hold != moves[k].hold;
    }
  }

  lemma BorrowKeeps(b: Backend, sys: System, fates: Fates, loan: Loan, block: nat)
    requires SystemInv(b, sys, fates) && Allowed(b, sys, fates, Borrow(loan, block))
    ensures SystemInv(b, Then(b, sys, fates, Borrow(loan, block)), fates)
  {
    var a, w := AssetOf(loan), sys.funder;
    var after := Funder.AfterLock(w, a, block, [AmountOf(loan)]);
    Funder.LeadsBy(b, w, Funder.Event.Lock(a, block, [AmountOf(loan)]));
    Funder.LeadsOn(b, Funder.EMPTY, w, after);
    assert Funder.NewHolds(a, [AmountOf(loan)]) == [Funder.Hold(a, AmountOf(loan), None, None)];
    SlotsBeside(w.holds, after.holds, sys.slots, fates, |w.holds|);
    BorrowKeepsMoves(w.holds, sys.slots, sys.moves, fates, loan);
  }

  lemma MoveHold(b: Backend, sys: System, fates: Fates, m: nat)
    requires SystemInv(b, sys, fates) && m < |sys.moves|
    ensures MoveOk(sys.funder.holds, sys.moves[m])
    ensures forall s <- sys.slots :: SlotOk(sys.funder.holds, s, fates) && Clear(s, sys.moves[m].hold)
  {
    assert sys.moves[m] in sys.moves;
  }

  lemma LeaveKeeps(b: Backend, sys: System, fates: Fates, m: nat)
    requires SystemInv(b, sys, fates) && Allowed(b, sys, fates, Leave(m))
    ensures SystemInv(b, Then(b, sys, fates, Leave(m)), fates)
  {
    var w, move := sys.funder, sys.moves[m];
    var after := PaidNow(w, move.hold);
    MoveHold(b, sys, fates, m);
    Funder.LeadsBy(b, w, Funder.Pay(move.hold));
    Funder.LeadsOn(b, Funder.EMPTY, w, after);
    SlotsBeside(w.holds, after.holds, sys.slots, fates, move.hold);
    MoveChanges(w.holds, after.holds, sys.slots, sys.moves, m, move.loan);
    assert sys.moves[m := move.(loan := move.loan)] == sys.moves;
  }

  lemma ReportKeeps(b: Backend, sys: System, fates: Fates, m: nat, next: Loan, at: nat)
    requires SystemInv(b, sys, fates) && Allowed(b, sys, fates, Report(m, next, at))
    ensures SystemInv(b, Then(b, sys, fates, Report(m, next, at)), fates)
  {
    var w, move := sys.funder, sys.moves[m];
    MoveHold(b, sys, fates, m);
    var after := if Closed(next) && !Closed(move.loan) then GivenBack(w, move.hold, at) else w;
    if Closed(next) && !Closed(move.loan) {
      Funder.LeadsBy(b, w, Funder.GiveBack(move.hold, at));
    } else {
      Funder.LeadsNowhere(b, w);
    }
    Funder.LeadsOn(b, Funder.EMPTY, w, after);
    SlotsBeside(w.holds, after.holds, sys.slots, fates, move.hold);
    MoveChanges(w.holds, after.holds, sys.slots, sys.moves, m, next);
  }

  lemma BorrowLocks(w: Funder.World, loan: Loan, block: nat)
    ensures Funder.AfterLock(w, AssetOf(loan), block, [AmountOf(loan)]).ledger
         == Lock(w.ledger, map[AssetOf(loan) := RequestFor(w, map[AssetOf(loan) := block], AssetOf(loan), AmountOf(loan))])
  {
    Funder.SumOfOne(AmountOf(loan));
  }

  /** What the owner of a loan does to the ledger when it comes to its next state. */
  function OwnerReports(l: Ledger, next: Loan, at: nat): Ledger {
    match next
    case OfBridge(t, state) => Bridging.Reported(l, t, state)
    case OfPull(chain, amount, _) => Release(l, Unlock(Asset(chain, NATIVE), at, amount))
  }

  lemma ReportReleases(w: Funder.World, move: Move, next: Loan, at: nat)
    requires MoveOk(w.holds, move) && Reports(move.loan, next, at, w.holds[move.hold], w.heads)
    ensures OwnerReports(w.ledger, next, at)
         == (if Closed(next) && !Closed(move.loan) then GivenBack(w, move.hold, at) else w).ledger
  {
  }

  /** A loan moves the shared ledger exactly as its owner does: the rebalancer locks a bridge transfer and
      reports its states, a signer locks a pull and releases it once. */
  lemma LoansMoveLedger(b: Backend, sys: System, fates: Fates, h: Happening)
    requires SystemInv(b, sys, fates) && Allowed(b, sys, fates, h) && (h.Borrow? || h.Report?)
    ensures var w, after := sys.funder, Then(b, sys, fates, h).funder;
            match h
            case Borrow(loan, block) =>
              after.ledger == Lock(w.ledger, map[AssetOf(loan) := RequestFor(w, map[AssetOf(loan) := block], AssetOf(loan), AmountOf(loan))])
            case Report(m, next, at) => after.ledger == OwnerReports(w.ledger, next, at)
            case _ => true
  {
    if h.Borrow? {
      BorrowLocks(sys.funder, h.loan, h.block);
    } else {
      MoveHold(b, sys, fates, h.m);
      ReportReleases(sys.funder, sys.moves[h.m], h.next, h.at);
    }
  }

  lemma ChainKeeps(b: Backend, sys: System, fates: Fates, h: Happening)
    requires SystemInv(b, sys, fates) && Allowed(b, sys, fates, h) && h.Chain?
    ensures SystemInv(b, Then(b, sys, fates, h), fates)
  {
    Funder.LeadsBy(b, sys.funder, h.event);
    Funder.LeadsOn(b, Funder.EMPTY, sys.funder, Then(b, sys, fates, h).funder);
  }

  // ---------------------------------------------------------------- runs of the system

  ghost predicate Legal(b: Backend, sys: System, fates: Fates, hs: seq<Happening>)
    decreases |hs|
  {
    hs == [] || (Allowed(b, sys, fates, hs[0]) && Legal(b, Then(b, sys, fates, hs[0]), fates, hs[1..]))
  }

  ghost function Exec(b: Backend, sys: System, fates: Fates, hs: seq<Happening>): System
    requires Legal(b, sys, fates, hs)
    decreases |hs|
  {
    if hs == [] then sys else Exec(b, Then(b, sys, fates, hs[0]), fates, hs[1..])
  }

  lemma {:induction false} ExecKeeps(b: Backend, sys: System, fates: Fates, hs: seq<Happening>)
    requires SystemInv(b, sys, fates) && Legal(b, sys, fates, hs)
    ensures SystemInv(b, Exec(b, sys, fates, hs), fates)
    decreases |hs|
  {
    if hs != [] {
      match hs[0] {
        case OfBundle(_, _, _) => BundleEventKeeps(b, sys, fates, hs[0]);
        case Paid(i, j) => PaymentKeeps(b, sys, fates, i, j);
        case Borrow(loan, block) => BorrowKeeps(b, sys, fates, loan, block);
        case Leave(m) => LeaveKeeps(b, sys, fates, m);
        case Report(m, next, at) => ReportKeeps(b, sys, fates, m, next, at);
        case Chain(_) => ChainKeeps(b, sys, fates, hs[0]);
      }
      ExecKeeps(b, Then(b, sys, fates, hs[0]), fates, hs[1..]);
    }
  }

  /** Every bundle sent, nothing on chain yet. */
  function Begin(bundles: seq<Bundle>): System {
    System(Funder.EMPTY, seq(|bundles|, i requires 0 <= i < |bundles| => Slot(bundles[i], Runs.Sent(bundles[i]), 0)), [])
  }

  /** Whatever any number of bundles, bridge transfers and gas pulls do, in any interleaving and with any
      crashes, is a legal and careful run of the funder, which therefore stays solvent. */
  lemma BundlesShareFunder(b: Backend, bundles: seq<Bundle>, fates: Fates, hs: seq<Happening>, a: Asset)
    requires (forall bundle <- bundles :: Runs.IsNew(bundle)) && Legal(b, Begin(bundles), fates, hs)
    ensures var funder := Exec(b, Begin(bundles), fates, hs).funder;
            Funder.Leads(b, Funder.EMPTY, funder) && Funder.Solvent(funder, a)
  {
    Funder.LeadsNowhere(b, Funder.EMPTY);
    forall i | 0 <= i < |bundles| ensures SlotOk([], Begin(bundles).slots[i], fates) {
      assert bundles[i] in bundles;
      Runs.SentInv(bundles[i], fates);
    }
    ExecKeeps(b, Begin(bundles), fates, hs);
    var funder := Exec(b, Begin(bundles), fates, hs).funder;
    var es :| Funder.Legal(b, Funder.EMPTY, es) && Funder.CarefulRun(b, Funder.EMPTY, es)
              && Funder.Exec(b, Funder.EMPTY, es) == funder;
    Funder.FunderStaysSolvent(b, es, a);
  }

  lemma ReplayOne(l: Ledger, before: seq<Entry>, e: Entry)
    ensures before <= before + [e] && Replay(l, (before + [e])[|before|..]) == Book(l, e)
  {
    assert (before + [e])[|before|..] == [e] && [e][..0] == [];
  }

  lemma ReplayNone(l: Ledger, journal: seq<Entry>)
    ensures Replay(l, journal[|journal|..]) == l
  {
    assert journal[|journal|..] == [];
  }

  lemma LockNextBooks(sys: System, s: Slot, next: World, blocks: map<Asset, nat>)
    requires s.world.store.journal == [] && next.store.journal == [Locked(Totals(s.origin.transfers))]
    ensures FunderNext(sys, s, next, blocks).ledger == Replay(sys.funder.ledger, next.store.journal)
  {
    ReplayOne(sys.funder.ledger, [], Locked(Totals(s.origin.transfers)));
    assert [] + next.store.journal == next.store.journal[|s.world.store.journal|..] == next.store.journal;
  }

  lemma ReleaseNextBooks(sys: System, s: Slot, next: World, blocks: map<Asset, nat>, unlocks: seq<Unlock>)
    requires s.world.store.journal != [] && !HasReleased(s.world.store.journal)
    requires next.store.journal == s.world.store.journal + [Released(unlocks)]
    ensures FunderNext(sys, s, next, blocks).ledger == Book(sys.funder.ledger, Released(unlocks))
  {
    assert Released(unlocks) in next.store.journal;
    assert unlocks[..|unlocks|] == unlocks;
  }

  /** What one event writes to the funder's ledger is what it adds to the journal. */
  lemma FunderNextBooks(sys: System, s: Slot, next: World, blocks: map<Asset, nat>, fates: Fates)
    requires Adds(s.world, next, s.origin, fates)
    ensures var before, after := s.world.store.journal, next.store.journal;
            before <= after && FunderNext(sys, s, next, blocks).ledger == Replay(sys.funder.ledger, after[|before|..])
  {
    var before, after := s.world.store.journal, next.store.journal;
    if after == before {
      ReplayNone(sys.funder.ledger, before);
    } else if before == [] {
      LockNextBooks(sys, s, next, blocks);
      assert after[0..] == after;
    } else if batch :| after == before + [Queued(batch)] {
      QueueAddsNoRelease(before, batch);
      ReplayOne(sys.funder.ledger, before, Queued(batch));
    } else {
      var unlocks := Unlocks(s.origin.transfers, PaidReceipts(s.origin, fates));
      ReleaseNextBooks(sys, s, next, blocks, unlocks);
      ReplayOne(sys.funder.ledger, before, Released(unlocks));
    }
  }

  /** The shared ledger moves by exactly what the bundles journal. */
  lemma LedgerFollowsJournal(b: Backend, sys: System, fates: Fates, h: Happening)
    requires SystemInv(b, sys, fates) && Allowed(b, sys, fates, h) && h.OfBundle?
    ensures var before, after := sys.slots[h.i].world.store.journal, Then(b, sys, fates, h).slots[h.i].world.store.journal;
            before <= after && Then(b, sys, fates, h).funder.ledger == Replay(sys.funder.ledger, after[|before|..])
  {
    var s := sys.slots[h.i];
    SlotHolds(b, sys, fates, h.i);
    EventAdds(s.world, s.origin, h.step, fates);
    FunderNextBooks(sys, s, Runs.Next(s.world, h.step, fates), h.blocks, fates);
  }
}
