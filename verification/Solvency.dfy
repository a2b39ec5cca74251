/** The funder against its own ledger: deposits, locked payments, releases and prunes in any order. */
module Solvency {
  import opened Common
  import opened LiquidityLedger

  /** One locked payment: when it left the funder on chain, and the block its lock was given back at. */
  datatype Hold = Hold(asset: Asset, amount: nat, paid: Option<nat>, released: Option<nat>)

  datatype Deposit = Deposit(asset: Asset, block: nat, amount: nat)

  /** `heads` is the last mined block, `cuts` the prune bound in force (both per chain);
      `since` is the block whose balance the last successful lock of an asset was checked against. */
  datatype World = World(ledger: Ledger, holds: seq<Hold>, deposits: seq<Deposit>, heads: map<nat, nat>,
                         cuts: map<nat, nat>, since: map<Asset, nat>)

  const EMPTY := World(Ledger(map[], []), [], [], map[], map[], map[])

  datatype Event =
    | Fund(asset: Asset, amount: nat)
    | Mine(chain: nat)
    | Lock(asset: Asset, block: nat, parts: seq<nat>)
    | Pay(hold: nat)
    | GiveBack(hold: nat, at: nat)
    | PruneChain(chain: nat, until: nat)

  function Amounts(a: Asset): Hold -> nat {
    (h: Hold) => if h.asset == a then h.amount else 0
  }

  /** Holds that were paid or still may be. */
  function LiveAmounts(a: Asset): Hold -> nat {
    (h: Hold) => if h.asset == a && (h.paid.Some? || h.released.None?) then h.amount else 0
  }

  function PaidAmounts(a: Asset, c: nat): Hold -> nat {
    (h: Hold) => if h.asset == a && h.paid.Some? && h.paid.value < c then h.amount else 0
  }

  function UnpaidAmounts(a: Asset, c: nat): Hold -> nat {
    (h: Hold) => if h.asset == a && (if h.paid.Some? then h.paid.value >= c else h.released.None?) then h.amount else 0
  }

  function ReleaseBlock(h: Hold): nat {
    if h.released.Some? then h.released.value else 0
  }

  /** A payment is given back at its block or later. */
  predicate InOrder(h: Hold) {
    h.paid.Some? && h.released.Some? ==> h.paid.value <= h.released.value
  }

  function ReleasedAmounts(a: Asset, c: nat): Hold -> nat {
    (h: Hold) => if h.asset == a && h.released.Some? && h.released.value < c then h.amount else 0
  }

  function DepositAmounts(a: Asset, c: nat): Deposit -> nat {
    (d: Deposit) => if d.asset == a && d.block < c then d.amount else 0
  }

  /** The funder's on-chain balance after all blocks below `c`. */
  ghost function Balance(w: World, a: Asset, c: nat): int {
    Sum(w.deposits, DepositAmounts(a, c)) - Sum(w.holds, PaidAmounts(a, c))
  }

  /** Locked payments not yet paid out on chain below `c`. */
  ghost function Unpaid(w: World, a: Asset, c: nat): nat {
    Sum(w.holds, UnpaidAmounts(a, c))
  }

  function SumOf(parts: seq<nat>): nat {
    if parts == [] then 0 else SumOf(parts[..|parts| - 1]) + parts[|parts| - 1]
  }

  function NewHolds(a: Asset, parts: seq<nat>): seq<Hold> {
    seq(|parts|, i requires 0 <= i < |parts| => Hold(a, parts[i], None, None))
  }

  ghost function Request(w: World, a: Asset, block: nat, parts: seq<nat>): map<Asset, LockInput> {
    var balance := Balance(w, a, block + 1);
    map[a := LockInput(if balance < 0 then 0 else balance, block, SumOf(parts))]
  }

  /** Balances are read at mined blocks; a hold is paid at most once, never after it was given back,
      and given back only after its payment is mined, at the payment's block or a later one. */
  predicate Enabled(w: World, e: Event) {
    match e
    case Lock(a, block, _) => block <= Cut(w.heads, a.chain)
    case Pay(i) => i < |w.holds| && w.holds[i].paid.None? && w.holds[i].released.None?
    case GiveBack(i, at) =>
      && i < |w.holds| && w.holds[i].released.None?
      && (w.holds[i].paid.Some? ==> w.holds[i].paid.value <= Min(at, Cut(w.heads, w.holds[i].asset.chain)))
    case _ => true
  }

  ghost function AfterLock(w: World, a: Asset, block: nat, parts: seq<nat>): World {
    w.(ledger := LiquidityLedger.Lock(w.ledger, Request(w, a, block, parts)),
       holds := w.holds + NewHolds(a, parts), since := w.since[a := block])
  }

  /** Transfers land in the block after the last mined one. */
  ghost function Next(b: Backend, w: World, e: Event): World
    requires Enabled(w, e)
  {
    match e
    case Fund(a, amount) =>
      w.(deposits := w.deposits + [Deposit(a, Cut(w.heads, a.chain) + 1, amount)])
    case Mine(chain) => w.(heads := w.heads[chain := Cut(w.heads, chain) + 1])
    case Lock(a, block, parts) =>
      if CanLock(b, w.ledger, Request(w, a, block, parts)) then AfterLock(w, a, block, parts) else w
    case Pay(i) =>
      w.(holds := w.holds[i := w.holds[i].(paid := Some(Cut(w.heads, w.holds[i].asset.chain) + 1))])
    case GiveBack(i, at) =>
      var h := w.holds[i];
      w.(ledger := Release(w.ledger, Unlock(h.asset, at, h.amount)),
         holds := w.holds[i := h.(released := Some(at))])
    case PruneChain(chain, until) =>
      var cut := PruneCut(b, until);
      w.(ledger := Prune(w.ledger, chain, cut), cuts := w.cuts[chain := Max(Cut(w.cuts, chain), cut)])
  }

  ghost predicate Legal(b: Backend, w: World, es: seq<Event>)
    decreases |es|
  {
    es == [] || (Enabled(w, es[0]) && Legal(b, Next(b, w, es[0]), es[1..]))
  }

  ghost function Exec(b: Backend, w: World, es: seq<Event>): World
    requires Legal(b, w, es)
    decreases |es|
  {
    if es == [] then w else Exec(b, Next(b, w, es[0]), es[1..])
  }

  // ---------------------------------------------------------------- the invariant

  /** Locked totals and unlocks are the holds, less what pruning removed from both. */
  ghost predicate Booked(w: World, a: Asset) {
    var all := Sum(w.holds, Amounts(a));
    && (forall h <- w.holds :: InOrder(h))
    && LockedTotal(w.ledger.locked, a) <= all
    && forall c | c >= Cut(w.cuts, a.chain) ::
         Below(w.ledger.unlocks, a, c) + (all - LockedTotal(w.ledger.locked, a))
         == Sum(w.holds, ReleasedAmounts(a, c))
  }

  ghost predicate Covered(w: World, a: Asset) {
    && (a in w.since ==>
          && w.since[a] <= Cut(w.heads, a.chain)
          && Sum(w.holds, LiveAmounts(a)) <= Sum(w.deposits, DepositAmounts(a, w.since[a] + 1)))
    && (a !in w.since ==> forall h <- w.holds :: h.asset != a)
    && (forall c :: Balance(w, a, c) >= 0)
  }

  ghost predicate Inv(w: World) {
    && (forall a :: Booked(w, a))
    && (forall a :: Covered(w, a))
    && (forall h <- w.holds :: h.paid.Some? ==> h.paid.value <= Cut(w.heads, h.asset.chain) + 1)
  }

  function ReleasedFromAmounts(a: Asset, c: nat): Hold -> nat {
    (h: Hold) => if h.asset == a && h.released.Some? && h.released.value >= c then h.amount else 0
  }

  function RecordedFromAmounts(a: Asset, c: nat): Unlock -> nat {
    (u: Unlock) => if u.asset == a && u.block >= c then u.amount else 0
  }

  /** Owed no more below `c`, yet not given back there. */
  function LingeringAmounts(a: Asset, c: nat): Hold -> nat {
    (h: Hold) =>
      if h.asset == a && (if h.paid.Some? then h.paid.value < c else h.released.Some?)
         && (h.released.Some? ==> h.released.value >= c)
      then h.amount else 0
  }

  /** Releases at block `c` or later that pruning already took out of the ledger. */
  ghost function PrunedFrom(w: World, a: Asset, c: nat): int {
    Sum(w.holds, ReleasedFromAmounts(a, c)) - Sum(w.ledger.unlocks, RecordedFromAmounts(a, c))
  }

  /** Locks that a reader at `c` still counts although they are owed no more: paid below `c` or given up,
      and not given back below `c`. */
  ghost function Lingering(w: World, a: Asset, c: nat): nat {
    Sum(w.holds, LingeringAmounts(a, c))
  }

  /** What a lock checked at `block` counts twice is made up for by what it does not count at all. */
  ghost predicate Careful(w: World, a: Asset, block: nat) {
    PrunedFrom(w, a, block + 1) <= Lingering(w, a, block + 1)
  }

  lemma {:induction false} DepositsGrow(ds: seq<Deposit>, a: Asset, c: nat, d: nat)
    requires c <= d
    ensures Sum(ds, DepositAmounts(a, c)) <= Sum(ds, DepositAmounts(a, d))
  {
    SumZero(ds, (x: Deposit) => 0);
    SumPointwise(ds, DepositAmounts(a, c), (x: Deposit) => 0, DepositAmounts(a, d));
  }

  /** What is live is either paid below `c` or unpaid there. */
  lemma LiveSplits(hs: seq<Hold>, a: Asset, c: nat)
    ensures Sum(hs, PaidAmounts(a, c)) + Sum(hs, UnpaidAmounts(a, c)) == Sum(hs, LiveAmounts(a))
  {
    SumPointwise(hs, PaidAmounts(a, c), UnpaidAmounts(a, c), LiveAmounts(a));
  }

  /** Recorded releases and still unpaid holds never overlap. */
  lemma ReleasedOrUnpaid(hs: seq<Hold>, a: Asset, c: nat)
    requires forall h <- hs :: InOrder(h)
    ensures Sum(hs, ReleasedAmounts(a, c)) + Sum(hs, UnpaidAmounts(a, c)) <= Sum(hs, Amounts(a))
  {
    SumPointwise(hs, ReleasedAmounts(a, c), UnpaidAmounts(a, c), Amounts(a));
  }

  lemma {:induction false} NewHoldSums(a: Asset, parts: seq<nat>, x: Asset, c: nat)
    ensures var added, amount := NewHolds(a, parts), if x == a then SumOf(parts) else 0;
            && Sum(added, Amounts(x)) == Sum(added, LiveAmounts(x)) == Sum(added, UnpaidAmounts(x, c)) == amount
            && Sum(added, ReleasedAmounts(x, c)) == Sum(added, PaidAmounts(x, c)) == 0
  {
    if parts != [] {
      NewHoldSums(a, parts[..|parts| - 1], x, c);
      assert NewHolds(a, parts)[..|parts| - 1] == NewHolds(a, parts[..|parts| - 1]);
    }
  }

  lemma AddHolds(w: World, a: Asset, parts: seq<nat>, x: Asset, c: nat)
    ensures var hs, amount := w.holds + NewHolds(a, parts), if x == a then SumOf(parts) else 0;
            && Sum(hs, Amounts(x)) == Sum(w.holds, Amounts(x)) + amount
            && Sum(hs, LiveAmounts(x)) == Sum(w.holds, LiveAmounts(x)) + amount
            && Sum(hs, ReleasedAmounts(x, c)) == Sum(w.holds, ReleasedAmounts(x, c))
            && Sum(hs, PaidAmounts(x, c)) == Sum(w.holds, PaidAmounts(x, c))
  {
    NewHoldSums(a, parts, x, c);
    SumAppend(w.holds, NewHolds(a, parts), Amounts(x));
    SumAppend(w.holds, NewHolds(a, parts), LiveAmounts(x));
    SumAppend(w.holds, NewHolds(a, parts), ReleasedAmounts(x, c));
    SumAppend(w.holds, NewHolds(a, parts), PaidAmounts(x, c));
  }

  /** Each hold was released below `c`, is unpaid there, or is owed no more and not released. */
  lemma {:induction false} HoldsSplit(hs: seq<Hold>, a: Asset, c: nat)
    requires forall h <- hs :: InOrder(h)
    ensures Sum(hs, Amounts(a))
         == Sum(hs, ReleasedAmounts(a, c)) + Sum(hs, UnpaidAmounts(a, c)) + Sum(hs, LingeringAmounts(a, c))
  {
    if hs != [] {
      assert hs[|hs| - 1] in hs;
      HoldsSplit(hs[..|hs| - 1], a, c);
    }
  }

  lemma {:induction false} ReleasesSplit(hs: seq<Hold>, a: Asset, c: nat, d: nat)
    requires c <= d && forall h <- hs :: ReleaseBlock(h) < d
    ensures Sum(hs, ReleasedAmounts(a, c)) + Sum(hs, ReleasedFromAmounts(a, c)) == Sum(hs, ReleasedAmounts(a, d))
  {
    if hs != [] {
      assert hs[|hs| - 1] in hs;
      ReleasesSplit(hs[..|hs| - 1], a, c, d);
    }
  }

  lemma {:induction false} RecordsSplit(us: seq<Unlock>, a: Asset, c: nat, d: nat)
    requires c <= d && forall u <- us :: u.block < d
    ensures Below(us, a, c) + Sum(us, RecordedFromAmounts(a, c)) == Below(us, a, d)
  {
    if us != [] {
      assert us[|us| - 1] in us;
      RecordsSplit(us[..|us| - 1], a, c, d);
    }
  }

  lemma {:induction false} BeyondHolds(hs: seq<Hold>, least: nat) returns (d: nat)
    ensures d >= least && forall h <- hs :: ReleaseBlock(h) < d
  {
    if hs == [] {
      d := least;
    } else {
      d := BeyondHolds(hs[..|hs| - 1], Max(least, ReleaseBlock(hs[|hs| - 1]) + 1));
      assert hs == hs[..|hs| - 1] + [hs[|hs| - 1]];
    }
  }

  lemma {:induction false} BeyondUnlocks(us: seq<Unlock>, least: nat) returns (d: nat)
    ensures d >= least && forall u <- us :: u.block < d
  {
    if us == [] {
      d := least;
    } else {
      d := BeyondUnlocks(us[..|us| - 1], Max(least, us[|us| - 1].block + 1));
      assert us == us[..|us| - 1] + [us[|us| - 1]];
    }
  }

  /** What the ledger counts as locked at `c`: the unpaid holds and the lingering ones, short of
      what was pruned too early for this reader. */
  lemma CountedLocks(w: World, a: Asset, c: nat)
    requires Booked(w, a)
    ensures LockedTotal(w.ledger.locked, a) - Below(w.ledger.unlocks, a, c)
         == Unpaid(w, a, c) + Lingering(w, a, c) - PrunedFrom(w, a, c)
  {
    var d := BeyondHolds(w.holds, Max(c, Cut(w.cuts, a.chain)));
    d := BeyondUnlocks(w.ledger.unlocks, d);
    HoldsSplit(w.holds, a, c);
    ReleasesSplit(w.holds, a, c, d);
    RecordsSplit(w.ledger.unlocks, a, c, d);
  }

  /** At or after the prune bound nothing was pruned too early. */
  lemma RecentIsCareful(w: World, a: Asset, block: nat)
    requires Booked(w, a) && block + 1 >= Cut(w.cuts, a.chain)
    ensures PrunedFrom(w, a, block + 1) == 0 && Careful(w, a, block)
  {
    CountedLocks(w, a, block + 1);
    HoldsSplit(w.holds, a, block + 1);
  }

  /** Both lock tests measure the request against the balance less the counted locks. */
  lemma AcceptedExactly(b: Backend, w: World, a: Asset, block: nat, parts: seq<nat>)
    requires Booked(w, a) && Covered(w, a)
    ensures CanLock(b, w.ledger, Request(w, a, block, parts)) <==>
              SumOf(parts) + Unpaid(w, a, block + 1) + Lingering(w, a, block + 1) - PrunedFrom(w, a, block + 1)
              <= Balance(w, a, block + 1)
  {
    var request := Request(w, a, block, parts);
    assert Balance(w, a, block + 1) >= 0;
    assert CanLock(b, w.ledger, request) <==> Accepts(b, w.ledger, a, request[a]);
    CountedLocks(w, a, block + 1);
    BookedPrunes(w, a, block + 1);
  }

  /** A careful accepted lock fits the balance on top of everything live. */
  lemma AcceptedFits(b: Backend, w: World, a: Asset, block: nat, parts: seq<nat>)
    requires Booked(w, a) && Covered(w, a) && Careful(w, a, block)
    requires CanLock(b, w.ledger, Request(w, a, block, parts))
    ensures Sum(w.holds, LiveAmounts(a)) + SumOf(parts) <= Sum(w.deposits, DepositAmounts(a, block + 1))
  {
    AcceptedExactly(b, w, a, block, parts);
    LiveSplits(w.holds, a, block + 1);
  }

  lemma LockKeepsBooked(w: World, a: Asset, block: nat, parts: seq<nat>, x: Asset)
    requires Booked(w, x)
    ensures Booked(AfterLock(w, a, block, parts), x)
  {
    var w' := AfterLock(w, a, block, parts);
    LockTotal(w.ledger, Request(w, a, block, parts), x);
    AddHolds(w, a, parts, x, 0);
    forall c ensures Sum(w'.holds, ReleasedAmounts(x, c)) == Sum(w.holds, ReleasedAmounts(x, c)) {
      AddHolds(w, a, parts, x, c);
    }
  }

  lemma LockKeepsSince(w: World, a: Asset, block: nat, parts: seq<nat>, x: Asset)
    requires Covered(w, x) && block <= Cut(w.heads, a.chain)
    requires Sum(w.holds, LiveAmounts(a)) + SumOf(parts) <= Sum(w.deposits, DepositAmounts(a, block + 1))
    ensures var holds, since := w.holds + NewHolds(a, parts), w.since[a := block];
            && (x in since ==>
                  && since[x] <= Cut(w.heads, x.chain)
                  && Sum(holds, LiveAmounts(x)) <= Sum(w.deposits, DepositAmounts(x, since[x] + 1)))
            && (x !in since ==> forall h <- holds :: h.asset != x)
  {
    AddHolds(w, a, parts, x, 0);
  }

  lemma LockKeepsCovered(b: Backend, w: World, a: Asset, block: nat, parts: seq<nat>, x: Asset)
    requires Booked(w, a) && Covered(w, a) && Covered(w, x) && block <= Cut(w.heads, a.chain) && Careful(w, a, block)
    requires CanLock(b, w.ledger, Request(w, a, block, parts))
    ensures Covered(AfterLock(w, a, block, parts), x)
  {
    AcceptedFits(b, w, a, block, parts);
    LockKeepsSince(w, a, block, parts, x);
    LockKeepsBalance(b, w, a, block, parts, x);
  }

  lemma LockKeepsBalance(b: Backend, w: World, a: Asset, block: nat, parts: seq<nat>, x: Asset)
    requires forall c :: Balance(w, x, c) >= 0
    ensures forall c :: Balance(AfterLock(w, a, block, parts), x, c) >= 0
  {
    forall c ensures Balance(AfterLock(w, a, block, parts), x, c) >= 0 {
      AddHolds(w, a, parts, x, c);
      assert Balance(w, x, c) >= 0;
    }
  }

  lemma LockKeepsInv(b: Backend, w: World, a: Asset, block: nat, parts: seq<nat>)
    requires Inv(w) && Enabled(w, Lock(a, block, parts)) && Careful(w, a, block)
    ensures Inv(Next(b, w, Lock(a, block, parts)))
  {
    if CanLock(b, w.ledger, Request(w, a, block, parts)) {
      var w' := AfterLock(w, a, block, parts);
      assert Booked(w, a) && Covered(w, a);
      forall x ensures Booked(w', x) && Covered(w', x) {
        assert Booked(w, x) && Covered(w, x);
        LockKeepsBooked(w, a, block, parts, x);
        LockKeepsCovered(b, w, a, block, parts, x);
      }
    }
  }

  lemma PayKeepsBooked(b: Backend, w: World, i: nat, x: Asset)
    requires Booked(w, x) && Enabled(w, Pay(i))
    ensures Booked(Next(b, w, Pay(i)), x)
  {
    var w' := Next(b, w, Pay(i));
    SumUpdate(w.holds, i, w'.holds[i], Amounts(x));
    forall c ensures Sum(w'.holds, ReleasedAmounts(x, c)) == Sum(w.holds, ReleasedAmounts(x, c)) {
      SumUpdate(w.holds, i, w'.holds[i], ReleasedAmounts(x, c));
    }
  }

  lemma PayKeepsCovered(b: Backend, w: World, i: nat, x: Asset)
    requires Covered(w, x) && Enabled(w, Pay(i))
    ensures Covered(Next(b, w, Pay(i)), x)
  {
    var w' := Next(b, w, Pay(i));
    var h, h' := w.holds[i], w'.holds[i];
    assert h in w.holds;
    SumUpdate(w.holds, i, h', LiveAmounts(x));
    forall c ensures Balance(w', x, c) >= 0 {
      assert Balance(w, x, c) >= 0;
      SumUpdate(w.holds, i, h', PaidAmounts(x, c));
      if x == h.asset && h'.paid.value < c {
        LiveSplits(w'.holds, x, c);
        DepositsGrow(w.deposits, x, w.since[x] + 1, c);
      }
    }
  }

  lemma PayKeepsInv(b: Backend, w: World, i: nat)
    requires Inv(w) && Enabled(w, Pay(i))
    ensures Inv(Next(b, w, Pay(i)))
  {
    assert w.holds[i] in w.holds;
    forall x ensures Booked(Next(b, w, Pay(i)), x) && Covered(Next(b, w, Pay(i)), x) {
      assert Booked(w, x) && Covered(w, x);
      PayKeepsBooked(b, w, i, x);
      PayKeepsCovered(b, w, i, x);
    }
  }

  lemma GiveBackKeepsBooked(b: Backend, w: World, i: nat, at: nat, x: Asset)
    requires Booked(w, x) && Enabled(w, GiveBack(i, at))
    ensures Booked(Next(b, w, GiveBack(i, at)), x)
  {
    var w' := Next(b, w, GiveBack(i, at));
    var h' := w'.holds[i];
    SumUpdate(w.holds, i, h', Amounts(x));
    forall c | c >= Cut(w.cuts, x.chain)
      ensures Below(w'.ledger.unlocks, x, c) + (Sum(w'.holds, Amounts(x)) - LockedTotal(w'.ledger.locked, x))
           == Sum(w'.holds, ReleasedAmounts(x, c))
    {
      SumUpdate(w.holds, i, h', ReleasedAmounts(x, c));
    }
  }

  lemma GiveBackKeepsCovered(b: Backend, w: World, i: nat, at: nat, x: Asset)
    requires Covered(w, x) && Enabled(w, GiveBack(i, at))
    ensures Covered(Next(b, w, GiveBack(i, at)), x)
  {
    var w' := Next(b, w, GiveBack(i, at));
    assert w.holds[i] in w.holds;
    SumUpdate(w.holds, i, w'.holds[i], LiveAmounts(x));
    forall c ensures Balance(w', x, c) >= 0 {
      assert Balance(w, x, c) >= 0;
      SumUpdate(w.holds, i, w'.holds[i], PaidAmounts(x, c));
    }
  }

  lemma GiveBackKeepsInv(b: Backend, w: World, i: nat, at: nat)
    requires Inv(w) && Enabled(w, GiveBack(i, at))
    ensures Inv(Next(b, w, GiveBack(i, at)))
  {
    assert w.holds[i] in w.holds;
    forall x ensures Booked(Next(b, w, GiveBack(i, at)), x) && Covered(Next(b, w, GiveBack(i, at)), x) {
      assert Booked(w, x) && Covered(w, x);
      GiveBackKeepsBooked(b, w, i, at, x);
      GiveBackKeepsCovered(b, w, i, at, x);
    }
  }

  /** While releases come from holds, unlocks never exceed locks, so nothing saturates. */
  lemma BookedPrunes(w: World, a: Asset, cut: nat)
    requires Booked(w, a)
    ensures Below(w.ledger.unlocks, a, cut) <= LockedTotal(w.ledger.locked, a)
  {
    var c := Max(cut, Cut(w.cuts, a.chain));
    BelowMonotone(w.ledger.unlocks, a, cut, c);
    ReleasedOrUnpaid(w.holds, a, c);
  }

  lemma PruneKeepsBooked(b: Backend, w: World, chain: nat, until: nat, x: Asset)
    requires Booked(w, x)
    ensures Booked(Next(b, w, PruneChain(chain, until)), x)
  {
    var w', cut := Next(b, w, PruneChain(chain, until)), PruneCut(b, until);
    BookedPrunes(w, x, cut);
    PrunedTotal(w.ledger, chain, cut, x);
    forall c | c >= Cut(w'.cuts, x.chain)
      ensures Below(w'.ledger.unlocks, x, c) + (Sum(w'.holds, Amounts(x)) - LockedTotal(w'.ledger.locked, x))
           == Sum(w'.holds, ReleasedAmounts(x, c))
    {
      BelowKeep(w.ledger.unlocks, chain, cut, x, c);
      if x.chain == chain {
        BelowMonotone(w.ledger.unlocks, x, cut, c);
      }
    }
  }

  lemma PruneKeepsInv(b: Backend, w: World, chain: nat, until: nat)
    requires Inv(w)
    ensures Inv(Next(b, w, PruneChain(chain, until)))
  {
    var w' := Next(b, w, PruneChain(chain, until));
    forall x ensures Booked(w', x) && Covered(w', x) {
      assert Booked(w, x) && Covered(w, x);
      PruneKeepsBooked(b, w, chain, until, x);
      forall c ensures Balance(w', x, c) == Balance(w, x, c) {}
    }
  }

  lemma ChainKeepsInv(b: Backend, w: World, e: Event)
    requires Inv(w) && (e.Fund? || e.Mine?)
    ensures Inv(Next(b, w, e))
  {
    var w' := Next(b, w, e);
    forall x ensures Booked(w', x) {
      assert Booked(w, x);
    }
    forall x, c ensures Sum(w'.deposits, DepositAmounts(x, c)) >= Sum(w.deposits, DepositAmounts(x, c)) {
      SumAppend(w.deposits, w'.deposits[|w.deposits|..], DepositAmounts(x, c));
      assert w'.deposits == w.deposits + w'.deposits[|w.deposits|..];
    }
    forall x ensures Covered(w', x) {
      assert Covered(w, x);
      forall c ensures Balance(w', x, c) >= 0 {
        assert Balance(w, x, c) >= 0;
      }
    }
  }

  lemma StepKeepsInv(b: Backend, w: World, e: Event)
    requires Inv(w) && Enabled(w, e) && (e.Lock? ==> Careful(w, e.asset, e.block))
    ensures Inv(Next(b, w, e))
  {
    match e {
      case Lock(a, block, parts) => LockKeepsInv(b, w, a, block, parts);
      case Pay(i) => PayKeepsInv(b, w, i);
      case GiveBack(i, at) => GiveBackKeepsInv(b, w, i, at);
      case PruneChain(chain, until) => PruneKeepsInv(b, w, chain, until);
      case _ => ChainKeepsInv(b, w, e);
    }
  }

  /** Every lock of the run is careful when it is made. */
  ghost predicate CarefulRun(b: Backend, w: World, es: seq<Event>)
    requires Legal(b, w, es)
    decreases |es|
  {
    es == []
    || ((es[0].Lock? ==> Careful(w, es[0].asset, es[0].block)) && CarefulRun(b, Next(b, w, es[0]), es[1..]))
  }

  lemma {:induction false} RunKeepsInv(b: Backend, w: World, es: seq<Event>)
    requires Inv(w) && Legal(b, w, es) && CarefulRun(b, w, es)
    ensures Inv(Exec(b, w, es))
    decreases |es|
  {
    if es != [] {
      StepKeepsInv(b, w, es[0]);
      RunKeepsInv(b, Next(b, w, es[0]), es[1..]);
    }
  }

  /** Some careful run leads from `w` to `end`. */
  ghost predicate Leads(b: Backend, w: World, end: World) {
    exists es :: Legal(b, w, es) && CarefulRun(b, w, es) && Exec(b, w, es) == end
  }

  lemma LeadsNowhere(b: Backend, w: World)
    ensures Leads(b, w, w)
  {
    assert Legal(b, w, []) && CarefulRun(b, w, []) && Exec(b, w, []) == w;
  }

  lemma LeadsBy(b: Backend, w: World, e: Event)
    requires Enabled(w, e) && (e.Lock? ==> Careful(w, e.asset, e.block))
    ensures Leads(b, w, Next(b, w, e))
  {
    ReachesOne(b, w, e);
    assert [e][1..] == [];
    assert CarefulRun(b, w, [e]);
  }

  lemma {:induction false} CarefulAppend(b: Backend, w: World, es: seq<Event>, fs: seq<Event>)
    requires Legal(b, w, es) && CarefulRun(b, w, es)
    requires Legal(b, Exec(b, w, es), fs) && CarefulRun(b, Exec(b, w, es), fs)
    ensures Legal(b, w, es + fs) && CarefulRun(b, w, es + fs) && Exec(b, w, es + fs) == Exec(b, Exec(b, w, es), fs)
    decreases |es|
  {
    if es == [] {
      assert es + fs == fs;
    } else {
      CarefulAppend(b, Next(b, w, es[0]), es[1..], fs);
      assert (es + fs)[1..] == es[1..] + fs;
    }
  }

  lemma LeadsOn(b: Backend, w: World, mid: World, end: World)
    requires Leads(b, w, mid) && Leads(b, mid, end)
    ensures Leads(b, w, end)
  {
    var es :| Legal(b, w, es) && CarefulRun(b, w, es) && Exec(b, w, es) == mid;
    var fs :| Legal(b, mid, fs) && CarefulRun(b, mid, fs) && Exec(b, mid, fs) == end;
    CarefulAppend(b, w, es, fs);
  }

  /** Every lock of the run is checked at a block that is not older than the prune bound in force. */
  ghost predicate RecentRun(b: Backend, w: World, es: seq<Event>)
    requires Legal(b, w, es)
    decreases |es|
  {
    es == []
    || ((es[0].Lock? ==> es[0].block + 1 >= Cut(w.cuts, es[0].asset.chain)) && RecentRun(b, Next(b, w, es[0]), es[1..]))
  }

  lemma {:induction false} RecentRunIsCareful(b: Backend, w: World, es: seq<Event>)
    requires Inv(w) && Legal(b, w, es) && RecentRun(b, w, es)
    ensures CarefulRun(b, w, es)
    decreases |es|
  {
    if es != [] {
      if es[0].Lock? {
        assert Booked(w, es[0].asset);
        RecentIsCareful(w, es[0].asset, es[0].block);
      }
      StepKeepsInv(b, w, es[0]);
      RecentRunIsCareful(b, Next(b, w, es[0]), es[1..]);
    }
  }

  /** At the block of the last successful lock of `a` and at every later one, the locks not yet
      paid out on chain fit the balance. */
  ghost predicate Solvent(w: World, a: Asset) {
    forall c | a in w.since && c > w.since[a] :: Unpaid(w, a, c) <= Balance(w, a, c)
  }

  lemma InvSolvent(w: World, a: Asset)
    requires Covered(w, a)
    ensures Solvent(w, a)
  {
    forall c | a in w.since && c > w.since[a] ensures Unpaid(w, a, c) <= Balance(w, a, c) {
      LiveSplits(w.holds, a, c);
      DepositsGrow(w.deposits, a, w.since[a] + 1, c);
    }
  }

  lemma EmptyInv()
    ensures Inv(EMPTY)
  {
    forall x ensures Booked(EMPTY, x) {}
    forall x ensures Covered(EMPTY, x) {}
  }

  /** No interleaving of deposits, careful locks, payments, releases and prunes overcommits the funder. */
  lemma FunderStaysSolvent(b: Backend, es: seq<Event>, a: Asset)
    requires Legal(b, EMPTY, es) && CarefulRun(b, EMPTY, es)
    ensures Solvent(Exec(b, EMPTY, es), a)
  {
    EmptyInv();
    RunKeepsInv(b, EMPTY, es);
    var w := Exec(b, EMPTY, es);
    assert Covered(w, a);
    InvSolvent(w, a);
  }

  /** In particular when no lock is checked at a block older than the prune bound. */
  lemma RecentLocksStaySolvent(b: Backend, es: seq<Event>, a: Asset)
    requires Legal(b, EMPTY, es) && RecentRun(b, EMPTY, es)
    ensures Solvent(Exec(b, EMPTY, es), a)
  {
    EmptyInv();
    RecentRunIsCareful(b, EMPTY, es);
    FunderStaysSolvent(b, es, a);
  }

  // ---------------------------------------------------------------- exactly which locks are safe

  lemma AfterLockSums(w: World, a: Asset, block: nat, parts: seq<nat>, c: nat)
    requires c > 0
    ensures Unpaid(AfterLock(w, a, block, parts), a, c) == Unpaid(w, a, c) + SumOf(parts)
    ensures Balance(AfterLock(w, a, block, parts), a, c) == Balance(w, a, c)
  {
    AddHolds(w, a, parts, a, c);
    LiveSplits(w.holds, a, c);
    LiveSplits(w.holds + NewHolds(a, parts), a, c);
  }

  /** From one block to a later one, what is left over the unpaid locks grows by the deposits. */
  lemma SlackGrows(w: World, a: Asset, c: nat, d: nat)
    requires c <= d
    ensures Balance(w, a, d) - Unpaid(w, a, d)
         == Balance(w, a, c) - Unpaid(w, a, c) + Arrived(w, a, c, d)
  {
    LiveSplits(w.holds, a, c);
    LiveSplits(w.holds, a, d);
    DepositsGrow(w.deposits, a, c, d);
  }

  /** Deposits from block `c` up to block `d`. */
  ghost function Arrived(w: World, a: Asset, c: nat, d: nat): nat
    requires c <= d
  {
    DepositsGrow(w.deposits, a, c, d);
    Sum(w.deposits, DepositAmounts(a, d)) - Sum(w.deposits, DepositAmounts(a, c))
  }

  lemma SolventAfterLock(w: World, a: Asset, block: nat, parts: seq<nat>)
    ensures Solvent(AfterLock(w, a, block, parts), a)
       <==> Unpaid(w, a, block + 1) + SumOf(parts) <= Balance(w, a, block + 1)
  {
    var w' := AfterLock(w, a, block, parts);
    AfterLockSums(w, a, block, parts, block + 1);
    forall c | c > block ensures Unpaid(w', a, c) - Balance(w', a, c) <= Unpaid(w', a, block + 1) - Balance(w', a, block + 1) {
      SlackGrows(w', a, block + 1, c);
    }
  }

  /** All outstanding locks can be paid from what is on chain now. */
  ghost predicate Payable(w: World, a: Asset) {
    var c := Cut(w.heads, a.chain) + 1;
    Unpaid(w, a, c) <= Balance(w, a, c)
  }

  /** The largest request the lock tests accept at a block. */
  ghost function Room(w: World, a: Asset, block: nat): int {
    var c := block + 1;
    Balance(w, a, c) - Unpaid(w, a, c) - Lingering(w, a, c) + PrunedFrom(w, a, c)
  }

  lemma RoomExactly(b: Backend, w: World, a: Asset, block: nat, parts: seq<nat>)
    requires Booked(w, a) && Covered(w, a)
    ensures CanLock(b, w.ledger, Request(w, a, block, parts)) <==> SumOf(parts) <= Room(w, a, block)
  {
    AcceptedExactly(b, w, a, block, parts);
  }

  lemma SumOfOne(n: nat)
    ensures SumOf([n]) == n
  {
    assert [n][..0] == [];
  }

  /** Every request that is accepted at a block, recent or not, leaves the funder solvent exactly when
      the releases pruned from that block on do not exceed the locks a reader there still counts although
      owed no more, or not even an empty request is accepted. */
  lemma LockSafeExactly(b: Backend, w: World, a: Asset, block: nat)
    requires Inv(w)
    ensures (forall parts | CanLock(b, w.ledger, Request(w, a, block, parts)) :: Solvent(AfterLock(w, a, block, parts), a))
       <==> Careful(w, a, block) || !CanLock(b, w.ledger, Request(w, a, block, []))
  {
    assert Booked(w, a) && Covered(w, a);
    forall parts
      ensures CanLock(b, w.ledger, Request(w, a, block, parts)) <==> SumOf(parts) <= Room(w, a, block)
      ensures Solvent(AfterLock(w, a, block, parts), a)
         <==> Unpaid(w, a, block + 1) + SumOf(parts) <= Balance(w, a, block + 1)
    {
      RoomExactly(b, w, a, block, parts);
      SolventAfterLock(w, a, block, parts);
    }
    if !Careful(w, a, block) && Room(w, a, block) >= 0 {
      SumOfOne(Room(w, a, block));
      assert CanLock(b, w.ledger, Request(w, a, block, [Room(w, a, block)]));
    }
  }

  lemma LockPays(b: Backend, w: World, a: Asset, block: nat, parts: seq<nat>)
    requires Booked(w, a) && Covered(w, a)
    ensures CanLock(b, w.ledger, Request(w, a, block, parts)) <==> SumOf(parts) <= Room(w, a, block)
    ensures var c := Cut(w.heads, a.chain) + 1;
            Payable(AfterLock(w, a, block, parts), a) <==> Unpaid(w, a, c) + SumOf(parts) <= Balance(w, a, c)
  {
    RoomExactly(b, w, a, block, parts);
    AfterLockSums(w, a, block, parts, Cut(w.heads, a.chain) + 1);
  }

  /** The deposits since `block` make up for what its lock tests count too little. */
  ghost predicate DepositsMakeUp(w: World, a: Asset, block: nat)
    requires block <= Cut(w.heads, a.chain)
  {
    PrunedFrom(w, a, block + 1) <= Lingering(w, a, block + 1) + Arrived(w, a, block + 1, Cut(w.heads, a.chain) + 1)
  }

  /** That is, the largest accepted request can be paid. */
  lemma RoomMadeUp(w: World, a: Asset, block: nat)
    requires block <= Cut(w.heads, a.chain)
    ensures var c := Cut(w.heads, a.chain) + 1;
            DepositsMakeUp(w, a, block) <==> Unpaid(w, a, c) + Room(w, a, block) <= Balance(w, a, c)
  {
    SlackGrows(w, a, block + 1, Cut(w.heads, a.chain) + 1);
  }

  lemma RoomUnpaid(b: Backend, w: World, a: Asset, block: nat) returns (parts: seq<nat>)
    requires Booked(w, a) && Covered(w, a) && block <= Cut(w.heads, a.chain)
    requires !DepositsMakeUp(w, a, block) && CanLock(b, w.ledger, Request(w, a, block, []))
    ensures CanLock(b, w.ledger, Request(w, a, block, parts)) && !Payable(AfterLock(w, a, block, parts), a)
  {
    LockPays(b, w, a, block, []);
    parts := [Room(w, a, block)];
    SumOfOne(Room(w, a, block));
    RoomMadeUp(w, a, block);
    LockPays(b, w, a, block, parts);
  }

  /** It leaves all locks payable from what is on chain now exactly when deposits that arrived since
      make up for the difference. */
  lemma LockPayableExactly(b: Backend, w: World, a: Asset, block: nat)
    requires Inv(w) && block <= Cut(w.heads, a.chain)
    ensures (forall parts | CanLock(b, w.ledger, Request(w, a, block, parts)) :: Payable(AfterLock(w, a, block, parts), a))
       <==> DepositsMakeUp(w, a, block) || !CanLock(b, w.ledger, Request(w, a, block, []))
  {
    assert Booked(w, a) && Covered(w, a);
    if DepositsMakeUp(w, a, block) || !CanLock(b, w.ledger, Request(w, a, block, [])) {
      forall parts | CanLock(b, w.ledger, Request(w, a, block, parts)) ensures Payable(AfterLock(w, a, block, parts), a) {
        LockPays(b, w, a, block, []);
        LockPays(b, w, a, block, parts);
        RoomMadeUp(w, a, block);
      }
    } else {
      var parts := RoomUnpaid(b, w, a, block);
    }
  }

  // ---------------------------------------------------------------- a stale lock that overcommits

  const GOLD := Asset(1, 0)

  function Mines(n: nat): seq<Event> {
    if n == 0 then [] else [Mine(GOLD.chain)] + Mines(n - 1)
  }

  lemma {:induction false} ExecAppend(b: Backend, w: World, es: seq<Event>, fs: seq<Event>)
    requires Legal(b, w, es) && Legal(b, Exec(b, w, es), fs)
    ensures Legal(b, w, es + fs) && Exec(b, w, es + fs) == Exec(b, Exec(b, w, es), fs)
    decreases |es|
  {
    if es == [] {
      assert es + fs == fs;
    } else {
      ExecAppend(b, Next(b, w, es[0]), es[1..], fs);
      assert (es + fs)[1..] == es[1..] + fs;
    }
  }

  /** The run `es` leads from `w` to `end`. */
  ghost predicate Reaches(b: Backend, w: World, es: seq<Event>, end: World) {
    Legal(b, w, es) && Exec(b, w, es) == end
  }

  lemma ReachesOne(b: Backend, w: World, e: Event)
    requires Enabled(w, e)
    ensures Reaches(b, w, [e], Next(b, w, e))
  {
    assert [e][1..] == [];
    assert Legal(b, Next(b, w, e), []);
  }

  lemma ReachesStep(b: Backend, w: World, es: seq<Event>, mid: World, e: Event, end: World)
    requires Reaches(b, w, es, mid) && Enabled(mid, e) && Next(b, mid, e) == end
    ensures Reaches(b, w, es + [e], end)
  {
    ReachesOne(b, mid, e);
    ExecAppend(b, w, es, [e]);
  }

  lemma {:induction false} ReachesMined(b: Backend, w: World, n: nat)
    requires n > 0
    ensures Reaches(b, w, Mines(n), w.(heads := w.heads[GOLD.chain := Cut(w.heads, GOLD.chain) + n]))
    decreases n
  {
    var next := Next(b, w, Mine(GOLD.chain));
    assert Mines(n) == [Mine(GOLD.chain)] + Mines(n - 1);
    ReachesOne(b, w, Mine(GOLD.chain));
    if n == 1 {
      assert Mines(n) == [Mine(GOLD.chain)];
    } else {
      ReachesMined(b, next, n - 1);
      ExecAppend(b, w, [Mine(GOLD.chain)], Mines(n - 1));
      assert next.heads[GOLD.chain := Cut(next.heads, GOLD.chain) + (n - 1)]
          == w.heads[GOLD.chain := Cut(w.heads, GOLD.chain) + n];
    }
  }

  /** Ten units arrived at block 1, were locked at `block`, paid in the next one and given back, and
      everything below `cut` was pruned. */
  function PaidOut(block: nat, cut: nat): World {
    World(Ledger(map[GOLD := 0], []), [Hold(GOLD, 10, Some(block + 1), Some(block + 1))], [Deposit(GOLD, 1, 10)],
          map[1 := block + 1], map[1 := cut], map[GOLD := block])
  }

  lemma SumOnly<T>(s: seq<T>, f: T -> nat)
    requires |s| == 1
    ensures Sum(s, f) == f(s[0])
  {
    assert s == [s[0]];
    SumOne(s[0], f);
  }

  /** Ten units on chain at `head`, one hold of them, and what the ledger says. */
  function Tens(ledger: Ledger, holds: seq<Hold>, head: nat, since: map<Asset, nat>): World {
    World(ledger, holds, [Deposit(GOLD, 1, 10)], map[1 := head], map[], since)
  }

  lemma LocksTen(b: Backend, block: nat)
    requires block > 0
    ensures var w := Tens(Ledger(map[], []), [], block, map[]);
            Enabled(w, Lock(GOLD, block, [10]))
            && Next(b, w, Lock(GOLD, block, [10]))
               == Tens(Ledger(map[GOLD := 10], []), [Hold(GOLD, 10, None, None)], block, map[GOLD := block])
  {
    var w := Tens(Ledger(map[], []), [], block, map[]);
    SumOfOne(10);
    SumOnly(w.deposits, DepositAmounts(GOLD, block + 1));
    assert Balance(w, GOLD, block + 1) == 10;
    assert CanLock(b, w.ledger, Request(w, GOLD, block, [10]));
    assert NewHolds(GOLD, [10]) == [Hold(GOLD, 10, None, None)];
  }

  lemma PaysTen(b: Backend, block: nat)
    ensures var since, l := map[GOLD := block], Ledger(map[GOLD := 10], []);
            var w := Tens(l, [Hold(GOLD, 10, None, None)], block, since);
            var paid := Tens(l, [Hold(GOLD, 10, Some(block + 1), None)], block, since);
            var mined := Tens(l, [Hold(GOLD, 10, Some(block + 1), None)], block + 1, since);
            && Enabled(w, Pay(0)) && Next(b, w, Pay(0)) == paid
            && Enabled(paid, Mine(1)) && Next(b, paid, Mine(1)) == mined
  {
  }

  lemma GivesBackTen(b: Backend, block: nat)
    ensures var w := Tens(Ledger(map[GOLD := 10], []), [Hold(GOLD, 10, Some(block + 1), None)], block + 1, map[GOLD := block]);
            Enabled(w, GiveBack(0, block + 1))
            && Next(b, w, GiveBack(0, block + 1))
               == Tens(Ledger(map[GOLD := 10], [Unlock(GOLD, block + 1, 10)]), [Hold(GOLD, 10, Some(block + 1), Some(block + 1))],
                       block + 1, map[GOLD := block])
  {
  }

  lemma PrunesTen(b: Backend, block: nat, cut: nat)
    requires block + 1 < cut
    ensures var w := Tens(Ledger(map[GOLD := 10], [Unlock(GOLD, block + 1, 10)]), [Hold(GOLD, 10, Some(block + 1), Some(block + 1))],
                          block + 1, map[GOLD := block]);
            Next(b, w, PruneChain(1, if b == Memory then cut else cut - 1)) == PaidOut(block, cut)
  {
    var us := [Unlock(GOLD, block + 1, 10)];
    assert us[..0] == [];
    assert Below(us, GOLD, cut) == 10;
    assert Keep(us, 1, cut) == [];
  }

  lemma FundedReached(b: Backend, block: nat) returns (es: seq<Event>)
    requires block > 0
    ensures Reaches(b, EMPTY, es, Tens(Ledger(map[], []), [], block, map[]))
  {
    ReachesOne(b, EMPTY, Fund(GOLD, 10));
    var funded := EMPTY.(deposits := [Deposit(GOLD, 1, 10)]);
    assert Next(b, EMPTY, Fund(GOLD, 10)) == funded;
    ReachesMined(b, funded, block);
    ExecAppend(b, EMPTY, [Fund(GOLD, 10)], Mines(block));
    es := [Fund(GOLD, 10)] + Mines(block);
  }

  /** Such a state is reached. */
  lemma PaidOutReached(b: Backend, block: nat, cut: nat) returns (es: seq<Event>)
    requires 0 < block && block + 1 < cut
    ensures Reaches(b, EMPTY, es, PaidOut(block, cut))
  {
    var since, l := map[GOLD := block], Ledger(map[GOLD := 10], []);
    es := FundedReached(b, block);
    LocksTen(b, block);
    PaysTen(b, block);
    GivesBackTen(b, block);
    PrunesTen(b, block, cut);
    var locked := Tens(l, [Hold(GOLD, 10, None, None)], block, since);
    var paid := Tens(l, [Hold(GOLD, 10, Some(block + 1), None)], block, since);
    var mined := Tens(l, [Hold(GOLD, 10, Some(block + 1), None)], block + 1, since);
    var given := Tens(Ledger(map[GOLD := 10], [Unlock(GOLD, block + 1, 10)]), [Hold(GOLD, 10, Some(block + 1), Some(block + 1))],
                      block + 1, since);
    ReachesStep(b, EMPTY, es, Tens(Ledger(map[], []), [], block, map[]), Lock(GOLD, block, [10]), locked);
    es := es + [Lock(GOLD, block, [10])];
    ReachesStep(b, EMPTY, es, locked, Pay(0), paid);
    es := es + [Pay(0)];
    ReachesStep(b, EMPTY, es, paid, Mine(1), mined);
    es := es + [Mine(1)];
    ReachesStep(b, EMPTY, es, mined, GiveBack(0, block + 1), given);
    es := es + [GiveBack(0, block + 1)];
    var prune := PruneChain(1, if b == Memory then cut else cut - 1);
    ReachesStep(b, EMPTY, es, given, prune, PaidOut(block, cut));
    es := es + [prune];
  }

  /** For every block but the first and every later prune bound, a reachable state accepts a lock checked
      at that block that can never be paid. */
  lemma StaleLockOvercommits(b: Backend, block: nat, cut: nat) returns (es: seq<Event>)
    requires 0 < block && block + 1 < cut
    ensures Legal(b, EMPTY, es)
    ensures var w := Exec(b, EMPTY, es);
            && Cut(w.cuts, 1) == cut && Enabled(w, Lock(GOLD, block, [10])) && !Careful(w, GOLD, block)
            && CanLock(b, w.ledger, Request(w, GOLD, block, [10]))
            && forall c | c > Cut(w.heads, 1) ::
                 Unpaid(AfterLock(w, GOLD, block, [10]), GOLD, c) > Balance(AfterLock(w, GOLD, block, [10]), GOLD, c)
  {
    es := PaidOutReached(b, block, cut);
    var w := PaidOut(block, cut);
    SumOfOne(10);
    PaidOutSums(block, cut, block + 1);
    assert Accepts(b, w.ledger, GOLD, LockInput(10, block, 10));
    forall c | c > Cut(w.heads, 1)
      ensures Unpaid(AfterLock(w, GOLD, block, [10]), GOLD, c) > Balance(AfterLock(w, GOLD, block, [10]), GOLD, c)
    {
      AfterLockSums(w, GOLD, block, [10], c);
      PaidOutSums(block, cut, c);
    }
  }

  lemma PaidOutSums(block: nat, cut: nat, c: nat)
    requires c > block > 0
    ensures var w := PaidOut(block, cut);
            && Balance(w, GOLD, c) == (if c == block + 1 then 10 else 0)
            && PrunedFrom(w, GOLD, block + 1) == 10 && Lingering(w, GOLD, c) == 0
  {
    var w := PaidOut(block, cut);
    SumOnly(w.holds, PaidAmounts(GOLD, c));
    SumOnly(w.deposits, DepositAmounts(GOLD, c));
    SumOnly(w.holds, ReleasedFromAmounts(GOLD, block + 1));
    SumOnly(w.holds, LingeringAmounts(GOLD, c));
  }
}
