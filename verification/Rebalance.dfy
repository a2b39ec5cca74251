/** Moving the funder's liquidity between chains. */
module Rebalance {
  import opened Common
  import opened LiquidityLedger

  const SCALE: nat := 1_000_000_000_000_000_000

  const U256_MAX: nat := 0xFFFF_FFFF_FFFF_FFFF_FFFF_FFFF_FFFF_FFFF_FFFF_FFFF_FFFF_FFFF_FFFF_FFFF_FFFF_FFFF

  /** A tracked asset; `uid` names the coin it is on its chain. */
  datatype Token = Token(uid: nat, id: Asset, decimals: nat, threshold: nat)

  datatype Transfer = Transfer(bridge: nat, from: Asset, to: Asset, amount: nat)

  /** The least and the most the funder may turn out to hold. */
  datatype Entry = Entry(token: Token, low: nat, high: nat)

  /** A bridge and the minimal amounts of the routes it supports. */
  datatype Bridge = Bridge(id: nat, routes: map<(Asset, Asset), nat>)

  /** An entry with its distances from the threshold, at worst and at best, scaled to 18 decimals. */
  datatype Delta = Delta(entry: Entry, low: int, high: int)

  datatype Plan = Plan(from: Entry, to: Entry, amount: nat)

  // ---------------------------------------------------------------- scaled deltas

  /** Rescales a magnitude from `units` per token to `scale` per token, rounding down. */
  function Rescale(magnitude: nat, scale: nat, units: nat): nat
    requires units > 0
  {
    Down(Up(magnitude, scale), units)
  }

  /** Signed division truncates toward zero, so it acts on the magnitude. */
  function Scaled(delta: int, decimals: nat): int {
    if delta >= 0 then Rescale(delta, SCALE, Pow10(decimals)) else 0 - Rescale(-delta, SCALE, Pow10(decimals))
  }

  function DeltaOf(e: Entry): Delta {
    Delta(e, Scaled(e.low - e.token.threshold, e.token.decimals), Scaled(e.high - e.token.threshold, e.token.decimals))
  }

  /** The amount to move, in source units. */
  function Amount(from: Delta, to: Delta): nat
    requires to.high < 0 < from.low
  {
    Rescale(Min(-to.high, from.low), Pow10(from.entry.token.decimals), SCALE)
  }

  function Group(entries: seq<Entry>, uid: nat): seq<Delta> {
    if entries == [] then []
    else Group(entries[..|entries| - 1], uid)
         + if entries[|entries| - 1].token.uid == uid then [DeltaOf(entries[|entries| - 1])] else []
  }

  /** The first entry furthest below its threshold even at its best. */
  predicate IsDestination(group: seq<Delta>, d: nat) {
    && d < |group| && group[d].high < 0
    && (forall i | 0 <= i < d :: group[i].high > group[d].high)
    && (forall i | d <= i < |group| :: group[i].high >= group[d].high)
  }

  /** The last entry furthest above its threshold even at its worst. */
  predicate IsSource(group: seq<Delta>, s: nat) {
    && s < |group| && group[s].low > 0
    && (forall i | 0 <= i <= s :: group[i].low <= group[s].low)
    && (forall i | s < i < |group| :: group[i].low < group[s].low)
  }

  method PickDestination(group: seq<Delta>) returns (d: Option<nat>)
    ensures d.Some? ==> IsDestination(group, d.value)
    ensures d.None? ==> forall e <- group :: e.high >= 0
  {
    d := None;
    for i := 0 to |group|
      invariant d.Some? ==> IsDestination(group[..i], d.value)
      invariant d.None? ==> forall e <- group[..i] :: e.high >= 0
    {
      assert group[..i + 1] == group[..i] + [group[i]];
      if group[i].high < 0 && (d.None? || group[i].high < group[d.value].high) {
        d := Some(i);
      }
    }
    assert group[..|group|] == group;
  }

  method PickSource(group: seq<Delta>) returns (s: Option<nat>)
    ensures s.Some? ==> IsSource(group, s.value)
    ensures s.None? ==> forall e <- group :: e.low <= 0
  {
    s := None;
    for i := 0 to |group|
      invariant s.Some? ==> IsSource(group[..i], s.value)
      invariant s.None? ==> forall e <- group[..i] :: e.low <= 0
    {
      assert group[..i + 1] == group[..i] + [group[i]];
      if group[i].low > 0 && (s.None? || group[i].low >= group[s.value].low) {
        s := Some(i);
      }
    }
    assert group[..|group|] == group;
  }

  // ---------------------------------------------------------------- bridges

  predicate Supports(b: Bridge, from: Asset, to: Asset, amount: nat) {
    (from, to) in b.routes && b.routes[(from, to)] <= amount
  }

  predicate SomeSupports(bridges: seq<Bridge>, from: Asset, to: Asset, amount: nat) {
    exists b <- bridges :: Supports(b, from, to, amount)
  }

  /** The smallest amount some bridge supports, or the largest representable one. */
  method MinSupported(bridges: seq<Bridge>, from: Asset, to: Asset) returns (least: nat)
    ensures forall b <- bridges | (from, to) in b.routes :: least <= b.routes[(from, to)]
    ensures least >= U256_MAX || SomeSupports(bridges, from, to, least)
  {
    least := U256_MAX;
    for i := 0 to |bridges|
      invariant forall j | 0 <= j < i && (from, to) in bridges[j].routes :: least <= bridges[j].routes[(from, to)]
      invariant least >= U256_MAX || SomeSupports(bridges, from, to, least)
    {
      if (from, to) in bridges[i].routes && bridges[i].routes[(from, to)] < least {
        least := bridges[i].routes[(from, to)];
        assert Supports(bridges[i], from, to, least);
      }
    }
  }

  /** The plan is worth making: it reaches a tenth of the source's threshold and some bridge takes it. */
  predicate Worthwhile(bridges: seq<Bridge>, p: Plan) {
    && p.amount >= p.from.token.threshold / 10
    && SomeSupports(bridges, p.from.token.id, p.to.token.id, p.amount)
  }

  ghost predicate Offers(entries: seq<Entry>, bridges: seq<Bridge>, uid: nat, p: Plan) {
    var group := Group(entries, uid);
    exists d: nat, s: nat ::
      && IsDestination(group, d) && IsSource(group, s)
      && p == Plan(group[s].entry, group[d].entry, Amount(group[s], group[d])) && Worthwhile(bridges, p)
  }

  /** What one coin offers; destination and source are unique, so there is at most one plan. */
  method PlanFor(entries: seq<Entry>, bridges: seq<Bridge>, uid: nat) returns (plan: Option<Plan>)
    requires forall e <- entries :: e.low < U256_MAX
    ensures plan.Some? ==> Offers(entries, bridges, uid, plan.value)
    ensures plan.None? ==> forall p :: !Offers(entries, bridges, uid, p)
  {
    var group := Group(entries, uid);
    var d := PickDestination(group);
    if d.None? {
      return None;
    }
    var s := PickSource(group);
    if s.None? {
      return None;
    }
    var from, to := group[s.value], group[d.value];
    var p := Plan(from.entry, to.entry, Amount(from, to));
    var least := MinSupported(bridges, from.entry.token.id, to.entry.token.id);
    GroupOf(entries, uid, from);
    SourceStaysAbove(from.entry, to);
    Unique(group, d.value, s.value);
    assert p.amount >= least <==> SomeSupports(bridges, from.entry.token.id, to.entry.token.id, p.amount);
    if p.amount >= Max(from.entry.token.threshold / 10, least) {
      return Some(p);
    }
    return None;
  }

  lemma Unique(group: seq<Delta>, d: nat, s: nat)
    ensures IsDestination(group, d) ==> forall i: nat :: IsDestination(group, i) ==> i == d
    ensures IsSource(group, s) ==> forall i: nat :: IsSource(group, i) ==> i == s
  {
  }

  /** Visits the coins in whatever order the hash map yields them. */
  method FindNextRebalance(entries: seq<Entry>, bridges: seq<Bridge>) returns (plan: Option<Plan>)
    requires forall e <- entries :: e.low < U256_MAX
    ensures plan.Some? ==> exists uid :: Offers(entries, bridges, uid, plan.value)
    ensures plan.None? ==> forall uid, p :: !Offers(entries, bridges, uid, p)
  {
    var uids := set e <- entries :: e.token.uid;
    var todo := uids;
    while todo != {}
      invariant todo <= uids
      invariant forall uid, p | uid in uids - todo :: !Offers(entries, bridges, uid, p)
      decreases todo
    {
      var uid :| uid in todo;
      plan := PlanFor(entries, bridges, uid);
      if plan.Some? {
        return;
      }
      todo := todo - {uid};
    }
    forall uid, p | uid !in uids ensures !Offers(entries, bridges, uid, p) {
      NoGroup(entries, uid);
    }
    plan := None;
  }

  lemma {:induction false} GroupOf(entries: seq<Entry>, uid: nat, d: Delta)
    ensures d in Group(entries, uid) <==> d.entry in entries && d.entry.token.uid == uid && d == DeltaOf(d.entry)
  {
    if entries != [] {
      GroupOf(entries[..|entries| - 1], uid, d);
      assert entries == entries[..|entries| - 1] + [entries[|entries| - 1]];
    }
  }

  lemma NoGroup(entries: seq<Entry>, uid: nat)
    requires forall e <- entries :: e.token.uid != uid
    ensures Group(entries, uid) == []
  {
    if Group(entries, uid) != [] {
      GroupOf(entries, uid, Group(entries, uid)[0]);
    }
  }

  // ---------------------------------------------------------------- what a plan leaves behind

  lemma Commute(a: nat, b: nat, c: nat)
    ensures Up(Up(a, b), c) == Up(Up(a, c), b)
  {
  }

  /** In worth, rescaling down and back never exceeds the magnitude it started from. */
  lemma RescaleWorth(magnitude: nat, scaled: nat, scale: nat, units: nat, target: nat)
    requires scale > 0 && units > 0 && scaled <= Rescale(magnitude, scale, units)
    ensures Up(Rescale(scaled, target, scale), units) <= Up(magnitude, target)
  {
    var amount, full := Rescale(scaled, target, scale), Rescale(magnitude, scale, units);
    DownBounds(Up(scaled, target), scale);
    DownBounds(Up(magnitude, scale), units);
    MulMono(scaled, full, units);
    MulMono(Up(amount, scale), Up(scaled, target), units);
    MulMono(Up(scaled, units), Up(magnitude, scale), target);
    Commute(amount, scale, units);
    Commute(scaled, target, units);
    Commute(magnitude, scale, target);
    Cancel(Up(amount, units), Up(magnitude, target), scale);
  }

  lemma Signs(delta: int, decimals: nat)
    ensures Scaled(delta, decimals) > 0 ==> delta > 0
    ensures Scaled(delta, decimals) < 0 ==> delta < 0
    ensures delta > 0 ==> Scaled(delta, decimals) == Rescale(delta, SCALE, Pow10(decimals))
    ensures delta < 0 ==> Scaled(delta, decimals) == 0 - Rescale(-delta, SCALE, Pow10(decimals))
  {
  }

  /** The source keeps its threshold even at its worst. */
  lemma SourceStaysAbove(from: Entry, to: Delta)
    requires to.high < 0 < DeltaOf(from).low
    ensures from.token.threshold < from.low
    ensures Amount(DeltaOf(from), to) + from.token.threshold <= from.low
  {
    var surplus := from.low - from.token.threshold;
    var units := Pow10(from.token.decimals);
    Signs(surplus, from.token.decimals);
    RescaleWorth(surplus, Min(-to.high, DeltaOf(from).low), SCALE, units, units);
    Cancel(Amount(DeltaOf(from), to), surplus, units);
  }

  /** What arrives is worth no more than the destination lacks at its best. */
  lemma DestinationStaysBelow(from: Delta, to: Entry)
    requires DeltaOf(to).high < 0 < from.low
    ensures to.high < to.token.threshold
    ensures Up(Amount(from, DeltaOf(to)), Pow10(to.token.decimals))
         <= Up(to.token.threshold - to.high, Pow10(from.entry.token.decimals))
  {
    var lack := to.token.threshold - to.high;
    Signs(-lack, to.token.decimals);
    RescaleWorth(lack, Min(-DeltaOf(to).high, from.low), SCALE, Pow10(to.token.decimals),
                 Pow10(from.entry.token.decimals));
  }

  // ---------------------------------------------------------------- balance ranges

  /** What the chain reports for an asset of the funder. */
  datatype Reading = Reading(balance: nat, block: nat)

  function InboundTo(a: Asset): Transfer -> nat {
    (t: Transfer) => if t.to == a then t.amount else 0
  }

  ghost function Inbound(transfers: map<nat, Transfer>, a: Asset): nat {
    SumValues(transfers, InboundTo(a))
  }

  /** Worst case: every lock still to be paid. Best case: every transfer under way arrives. */
  ghost function EntryOf(t: Token, chain: Asset -> Reading, l: Ledger, transfers: map<nat, Transfer>): Entry {
    var at := chain(t.id);
    Entry(t, Monus(at.balance, LockedAt(l, t.id, at.block)), at.balance + Inbound(transfers, t.id))
  }

  ghost predicate Snapshot(entries: seq<Entry>, tokens: seq<Token>, chain: Asset -> Reading, l: Ledger,
                           transfers: map<nat, Transfer>) {
    && |entries| == |tokens|
    && forall i | 0 <= i < |tokens| :: entries[i] == EntryOf(tokens[i], chain, l, transfers)
  }

  method SumInbound(transfers: map<nat, Transfer>, a: Asset) returns (sum: nat)
    ensures sum == Inbound(transfers, a)
  {
    sum := 0;
    var rest := transfers;
    while rest.Keys != {}
      invariant sum + Inbound(rest, a) == Inbound(transfers, a)
      decreases rest.Keys
    {
      var id :| id in rest.Keys;
      SumValuesRemove(rest, id, InboundTo(a));
      if rest[id].to == a {
        sum := sum + rest[id].amount;
      }
      rest := rest - {id};
    }
    assert rest == map[];
  }

  method BalanceRanges(tokens: seq<Token>, chain: Asset -> Reading, l: Ledger, transfers: map<nat, Transfer>)
    returns (entries: seq<Entry>)
    ensures Snapshot(entries, tokens, chain, l, transfers)
  {
    entries := [];
    for i := 0 to |tokens|
      invariant |entries| == i
      invariant forall j | 0 <= j < i :: entries[j] == EntryOf(tokens[j], chain, l, transfers)
    {
      var at := chain(tokens[i].id);
      var inbound := SumInbound(transfers, tokens[i].id);
      entries := entries + [Entry(tokens[i], Monus(at.balance, LockedAt(l, tokens[i].id, at.block)), at.balance + inbound)];
    }
  }

  lemma OfferParts(entries: seq<Entry>, bridges: seq<Bridge>, uid: nat, p: Plan)
    requires Offers(entries, bridges, uid, p)
    ensures p.from in entries && p.to in entries && p.from.token.uid == uid == p.to.token.uid
    ensures DeltaOf(p.to).high < 0 < DeltaOf(p.from).low && p.amount == Amount(DeltaOf(p.from), DeltaOf(p.to))
    ensures Worthwhile(bridges, p)
  {
    var group := Group(entries, uid);
    var d: nat, s: nat :| IsDestination(group, d) && IsSource(group, s)
      && p == Plan(group[s].entry, group[d].entry, Amount(group[s], group[d])) && Worthwhile(bridges, p);
    GroupOf(entries, uid, group[d]);
    GroupOf(entries, uid, group[s]);
  }

  lemma WorstCaseFits(l: Ledger, a: Asset, at: Reading, amount: nat, b: Backend)
    requires 0 < Monus(at.balance, LockedAt(l, a, at.block)) && amount <= Monus(at.balance, LockedAt(l, a, at.block))
    ensures Accepts(b, l, a, LockInput(at.balance, at.block, amount))
  {
  }

  /** The plan's effect on both ends: the source keeps its threshold, and what is moved is worth no
      more than the destination lacks. */
  ghost predicate KeepsThresholds(p: Plan) {
    && p.from.token.threshold < p.from.low && p.amount + p.from.token.threshold <= p.from.low
    && p.to.high < p.to.token.threshold
    && Up(p.amount, Pow10(p.to.token.decimals))
       <= Up(p.to.token.threshold - p.to.high, Pow10(p.from.token.decimals))
  }

  lemma AmountBounds(from: Delta, to: Delta)
    requires from == DeltaOf(from.entry) && to == DeltaOf(to.entry) && to.high < 0 < from.low
    ensures KeepsThresholds(Plan(from.entry, to.entry, Amount(from, to)))
  {
    SourceStaysAbove(from.entry, to);
    DestinationStaysBelow(from, to.entry);
  }

  lemma OfferBounds(entries: seq<Entry>, bridges: seq<Bridge>, uid: nat, p: Plan)
    requires Offers(entries, bridges, uid, p)
    ensures KeepsThresholds(p)
  {
    var from, to := OfferDeltas(entries, bridges, uid, p);
    AmountBounds(from, to);
  }

  lemma OfferDeltas(entries: seq<Entry>, bridges: seq<Bridge>, uid: nat, p: Plan) returns (from: Delta, to: Delta)
    requires Offers(entries, bridges, uid, p)
    ensures from == DeltaOf(from.entry) && to == DeltaOf(to.entry) && to.high < 0 < from.low
    ensures p == Plan(from.entry, to.entry, Amount(from, to))
  {
    OfferParts(entries, bridges, uid, p);
    from, to := DeltaOf(p.from), DeltaOf(p.to);
  }

  /** A chosen plan leaves the source above its threshold even if every lock is paid, does not lift
      the destination above its threshold in worth even if everything under way arrives, is taken by
      some bridge, and passes the lock test of either backend on the same snapshot. */
  lemma PlanIsSafe(entries: seq<Entry>, tokens: seq<Token>, chain: Asset -> Reading, l: Ledger,
                   transfers: map<nat, Transfer>, bridges: seq<Bridge>, uid: nat, p: Plan, b: Backend)
    requires Snapshot(entries, tokens, chain, l, transfers) && Offers(entries, bridges, uid, p)
    ensures KeepsThresholds(p)
    ensures SomeSupports(bridges, p.from.token.id, p.to.token.id, p.amount)
    ensures var at := chain(p.from.token.id);
            Accepts(b, l, p.from.token.id, LockInput(at.balance, at.block, p.amount))
  {
    OfferParts(entries, bridges, uid, p);
    OfferBounds(entries, bridges, uid, p);
    WorstCaseFits(l, p.from.token.id, chain(p.from.token.id), p.amount, b);
  }

  // ---------------------------------------------------------------- a plan is as large as it may be

  /** `s` units of 18 decimals are worth no more than the source can spare and the destination lacks. */
  predicate Spares(p: Plan, s: nat) {
    && p.from.token.threshold <= p.from.low && p.to.high <= p.to.token.threshold
    && Up(s, Pow10(p.from.token.decimals)) <= Up(p.from.low - p.from.token.threshold, Pow10(18))
    && Up(s, Pow10(p.to.token.decimals)) <= Up(p.to.token.threshold - p.to.high, Pow10(18))
  }

  lemma DownExactly(amount: nat, least: nat, factor: nat)
    requires factor > 0
    ensures least <= Down(amount, factor) <==> Up(least, factor) <= amount
  {
    DownBounds(amount, factor);
    if Up(least, factor) <= amount {
      DownAtLeast(amount, least, factor);
    } else if least <= Down(amount, factor) {
      MulMono(least, Down(amount, factor), factor);
    }
  }

  lemma SparesExactly(from: Entry, to: Entry, amount: nat, s: nat)
    requires DeltaOf(to).high < 0 < DeltaOf(from).low
    ensures Spares(Plan(from, to, amount), s) <==> s <= Min(-DeltaOf(to).high, DeltaOf(from).low)
  {
    var surplus, lack := from.low - from.token.threshold, to.token.threshold - to.high;
    Signs(surplus, from.token.decimals);
    Signs(-lack, to.token.decimals);
    ScaleIsPower();
    DownExactly(Up(surplus, SCALE), s, Pow10(from.token.decimals));
    DownExactly(Up(lack, SCALE), s, Pow10(to.token.decimals));
  }

  /** The amount is the largest that so many units make up. */
  lemma AmountIsLargest(from: Entry, to: Entry, a: nat)
    requires DeltaOf(to).high < 0 < DeltaOf(from).low
    ensures var p := Plan(from, to, Amount(DeltaOf(from), DeltaOf(to)));
            a <= p.amount
            <==> exists s: nat :: Spares(p, s) && Up(a, Pow10(18)) <= Up(s, Pow10(p.from.token.decimals))
  {
    var p := Plan(from, to, Amount(DeltaOf(from), DeltaOf(to)));
    var most := Min(-DeltaOf(to).high, DeltaOf(from).low);
    ScaleIsPower();
    DownExactly(Up(most, Pow10(from.token.decimals)), a, SCALE);
    SparesExactly(from, to, p.amount, most);
    if s: nat :| Spares(p, s) && Up(a, Pow10(18)) <= Up(s, Pow10(p.from.token.decimals)) {
      SparesExactly(from, to, p.amount, s);
      MulMono(s, most, Pow10(from.token.decimals));
    }
  }

  lemma UnitsOf(a: nat, spare: nat, lack: nat, f: nat, t: nat)
    requires f <= 18 && a <= spare && Up(a, Pow10(t)) <= Up(lack, Pow10(f))
    ensures var s := Up(a, Pow10(18 - f));
            Up(s, Pow10(f)) == Up(a, Pow10(18)) <= Up(spare, Pow10(18)) && Up(s, Pow10(t)) <= Up(lack, Pow10(18))
  {
    Pow10Adds(18 - f, f);
    var s := Up(a, Pow10(18 - f));
    assert Up(s, Pow10(f)) == Up(a, Pow10(18)) by {
      Nest(a, Pow10(18 - f), Pow10(f));
    }
    MulMono(a, spare, Pow10(18));
    MulMono(Up(a, Pow10(t)), Up(lack, Pow10(f)), Pow10(18 - f));
    Commute(a, Pow10(18 - f), Pow10(t));
    Commute(lack, Pow10(f), Pow10(18 - f));
    Nest(lack, Pow10(18 - f), Pow10(f));
  }

  lemma Nest(a: nat, b: nat, c: nat)
    ensures Up(Up(a, b), c) == Up(a, Up(b, c))
  {
    assert a * b * c == a * (b * c);
  }

  /** `a` leaves the source its threshold at worst, and is worth no more than the destination lacks at best. */
  predicate Allows(p: Plan, a: nat) {
    && a + p.from.token.threshold <= p.from.low && p.to.high <= p.to.token.threshold
    && Up(a, Pow10(p.to.token.decimals)) <= Up(p.to.token.threshold - p.to.high, Pow10(p.from.token.decimals))
  }

  lemma AllowedIsSpared(p: Plan, a: nat)
    requires p.from.token.decimals <= 18 && Allows(p, a)
    ensures exists s: nat :: Spares(p, s) && Up(a, Pow10(18)) <= Up(s, Pow10(p.from.token.decimals))
  {
    var s := Up(a, Pow10(18 - p.from.token.decimals));
    UnitsOf(a, p.from.low - p.from.token.threshold, p.to.token.threshold - p.to.high, p.from.token.decimals, p.to.token.decimals);
    assert Spares(p, s) && Up(a, Pow10(18)) <= Up(s, Pow10(p.from.token.decimals));
  }

  lemma LessIsAllowed(p: Plan, a: nat)
    requires KeepsThresholds(p) && a <= p.amount
    ensures Allows(p, a)
  {
    MulMono(a, p.amount, Pow10(p.to.token.decimals));
  }

  lemma OfferedAmount(entries: seq<Entry>, bridges: seq<Bridge>, uid: nat, p: Plan, a: nat)
    requires Offers(entries, bridges, uid, p)
    ensures KeepsThresholds(p)
    ensures a <= p.amount <==> exists s: nat :: Spares(p, s) && Up(a, Pow10(18)) <= Up(s, Pow10(p.from.token.decimals))
  {
    OfferBounds(entries, bridges, uid, p);
    var from, to := OfferDeltas(entries, bridges, uid, p);
    AmountIsLargest(p.from, p.to, a);
  }

  /** An offered plan is as large as it may be. With at most 18 source decimals its amount is the largest
      allowed; with more, the largest that spared whole units of 18 decimals make up. */
  lemma OfferIsLargest(entries: seq<Entry>, bridges: seq<Bridge>, uid: nat, p: Plan, a: nat)
    requires Offers(entries, bridges, uid, p)
    ensures a <= p.amount <==> exists s: nat :: Spares(p, s) && Up(a, Pow10(18)) <= Up(s, Pow10(p.from.token.decimals))
    ensures p.from.token.decimals <= 18 ==> (a <= p.amount <==> Allows(p, a))
  {
    OfferedAmount(entries, bridges, uid, p, a);
    if a <= p.amount {
      LessIsAllowed(p, a);
    } else if p.from.token.decimals <= 18 && Allows(p, a) {
      AllowedIsSpared(p, a);
    }
  }

  /** The distance from the threshold that coins are compared by: with its sign, in units of 18 decimals,
      rounded toward zero. */
  lemma ScaledExactly(delta: int, decimals: nat)
    ensures Scaled(delta, decimals) >= 0 ==> delta < 0 ==> Scaled(delta, decimals) == 0
    ensures delta >= 0 ==>
              0 <= Scaled(delta, decimals)
              && Scaled(delta, decimals) * Pow10(decimals) <= delta * Pow10(18) < (Scaled(delta, decimals) + 1) * Pow10(decimals)
    ensures Scaled(-delta, decimals) == -Scaled(delta, decimals)
  {
    ScaleIsPower();
    if delta >= 0 {
      DownBounds(Up(delta, SCALE), Pow10(decimals));
    }
  }

  /** A plan is made when it reaches a tenth of the source's threshold, rounded down, and some bridge
      takes that much on the route. */
  lemma WorthwhileExactly(bridges: seq<Bridge>, p: Plan)
    ensures Worthwhile(bridges, p)
       <==> && 10 * p.amount + 10 > p.from.token.threshold
            && exists b <- bridges ::
                 var route := (p.from.token.id, p.to.token.id);
                 route in b.routes && b.routes[route] <= p.amount
  {
    if Worthwhile(bridges, p) {
      var b :| b in bridges && Supports(b, p.from.token.id, p.to.token.id, p.amount);
    } else if b :| b in bridges && (p.from.token.id, p.to.token.id) in b.routes
                   && b.routes[(p.from.token.id, p.to.token.id)] <= p.amount {
      assert Supports(b, p.from.token.id, p.to.token.id, p.amount);
    }
  }

  // ---------------------------------------------------------------- repeated rebalancing

  /** Without a source finer than its destination, even the raw amount stays below the threshold. */
  lemma CoarseSourceStaysBelow(from: Entry, to: Entry)
    requires DeltaOf(to).high < 0 < DeltaOf(from).low && from.token.decimals <= to.token.decimals
    ensures to.high + Amount(DeltaOf(from), DeltaOf(to)) <= to.token.threshold
  {
    DestinationStaysBelow(DeltaOf(from), to);
    Pow10Grows(from.token.decimals, to.token.decimals);
    WorthToAmount(Amount(DeltaOf(from), DeltaOf(to)), to.token.threshold - to.high, Pow10(from.token.decimals),
                  Pow10(to.token.decimals));
  }

  lemma {:induction false} Pow10Grows(m: nat, n: nat)
    requires m <= n
    ensures Pow10(m) <= Pow10(n)
  {
    if m < n {
      Pow10Grows(m, n - 1);
    }
  }

  lemma WorthToAmount(amount: nat, lack: nat, coarse: nat, fine: nat)
    requires 0 < coarse <= fine && Up(amount, fine) <= Up(lack, coarse)
    ensures amount <= lack
  {
    MulMono(coarse, fine, lack);
    Cancel(amount, lack, fine);
  }

  /** With equal decimals something is always moved. */
  lemma EqualDecimalsMove(from: Entry, to: Entry)
    requires DeltaOf(to).high < 0 < DeltaOf(from).low && from.token.decimals == to.token.decimals
    ensures Amount(DeltaOf(from), DeltaOf(to)) > 0
  {
    var lack, surplus := to.token.threshold - to.high, from.low - from.token.threshold;
    Signs(-lack, to.token.decimals);
    Signs(surplus, from.token.decimals);
    RescaledMoves(lack, from.token.decimals);
    RescaledMoves(surplus, from.token.decimals);
  }

  lemma ScaleIsPower()
    ensures SCALE == Pow10(18)
  {
    assert Pow10(6) == 1_000_000;
    Pow10Adds(6, 6);
    Pow10Adds(12, 6);
  }

  lemma FineUnitsMove(magnitude: nat, scale: nat, units: nat, factor: nat)
    requires units > 0 && scale > 0 && magnitude > 0 && scale == Up(factor, units)
    ensures Rescale(Rescale(magnitude, scale, units), units, scale) > 0
  {
    var scaled := Rescale(magnitude, scale, units);
    MulMono(1, magnitude, scale);
    DownAtLeast(Up(magnitude, scale), factor, units);
    MulMono(factor, scaled, units);
    DownAtLeast(Up(scaled, units), 1, scale);
  }

  lemma CoarseUnitsMove(scaled: nat, scale: nat, units: nat)
    requires 0 < scale <= units && scaled > 0
    ensures Rescale(scaled, units, scale) > 0
  {
    MulMono(1, scaled, units);
    DownAtLeast(Up(scaled, units), 1, scale);
  }

  lemma RescaledMoves(magnitude: nat, decimals: nat)
    requires Rescale(magnitude, SCALE, Pow10(decimals)) > 0 && magnitude > 0
    ensures Rescale(Rescale(magnitude, SCALE, Pow10(decimals)), Pow10(decimals), SCALE) > 0
  {
    ScaleIsPower();
    if decimals <= 18 {
      Pow10Adds(18 - decimals, decimals);
      FineUnitsMove(magnitude, SCALE, Pow10(decimals), Pow10(18 - decimals));
    } else {
      Pow10Grows(18, decimals);
      CoarseUnitsMove(Rescale(magnitude, SCALE, Pow10(decimals)), SCALE, Pow10(decimals));
    }
  }

  datatype Launch = Launch(id: nat, bridge: nat, plan: Plan)

  function TransferOf(s: Launch): Transfer {
    Transfer(s.bridge, s.plan.from.token.id, s.plan.to.token.id, s.plan.amount)
  }

  /** How far an asset stays below its threshold even if everything under way arrives. */
  ghost function Shortfall(chain: Asset -> Reading, transfers: map<nat, Transfer>): Token -> nat {
    (t: Token) => Monus(t.threshold, chain(t.id).balance + Inbound(transfers, t.id))
  }

  ghost function TotalShortfall(tokens: seq<Token>, chain: Asset -> Reading, transfers: map<nat, Transfer>): nat {
    Sum(tokens, Shortfall(chain, transfers))
  }

  predicate DistinctTokens(tokens: seq<Token>) {
    forall i, j | 0 <= i < j < |tokens| :: tokens[i].id != tokens[j].id
  }

  predicate EqualDecimals(tokens: seq<Token>) {
    forall t <- tokens, u <- tokens :: t.uid == u.uid ==> t.decimals == u.decimals
  }

  ghost predicate FoundOn(step: Launch, tokens: seq<Token>, bridges: seq<Bridge>, chain: Asset -> Reading,
                          transfers: map<nat, Transfer>, l: Ledger, entries: seq<Entry>, uid: nat) {
    Snapshot(entries, tokens, chain, l, transfers) && Offers(entries, bridges, uid, step.plan)
  }

  /** `step` is a plan found on a snapshot taken against some ledger. */
  ghost predicate Found(step: Launch, tokens: seq<Token>, bridges: seq<Bridge>, chain: Asset -> Reading,
                        transfers: map<nat, Transfer>) {
    && step.id !in transfers
    && exists l: Ledger, entries, uid :: FoundOn(step, tokens, bridges, chain, transfers, l, entries, uid)
  }

  /** Rebalances one after another while balances on chain stay what they are. */
  ghost predicate Run(steps: seq<Launch>, tokens: seq<Token>, bridges: seq<Bridge>, chain: Asset -> Reading,
                      transfers: map<nat, Transfer>)
    decreases |steps|
  {
    steps == []
    || (Found(steps[0], tokens, bridges, chain, transfers)
        && Run(steps[1..], tokens, bridges, chain, transfers[steps[0].id := TransferOf(steps[0])]))
  }

  lemma InboundInsert(transfers: map<nat, Transfer>, id: nat, t: Transfer, a: Asset)
    requires id !in transfers
    ensures Inbound(transfers[id := t], a) == Inbound(transfers, a) + if t.to == a then t.amount else 0
  {
    SumValuesRemove(transfers[id := t], id, InboundTo(a));
    assert transfers[id := t] - {id} == transfers;
  }

  lemma TokenOf(entries: seq<Entry>, tokens: seq<Token>, chain: Asset -> Reading, l: Ledger,
                transfers: map<nat, Transfer>, e: Entry) returns (i: nat)
    requires Snapshot(entries, tokens, chain, l, transfers) && e in entries
    ensures i < |tokens| && tokens[i] == e.token
    ensures e.high == chain(e.token.id).balance + Inbound(transfers, e.token.id)
  {
    i :| 0 <= i < |entries| && entries[i] == e;
  }

  lemma OfferLacks(entries: seq<Entry>, bridges: seq<Bridge>, uid: nat, p: Plan)
    requires Offers(entries, bridges, uid, p)
    ensures p.to in entries && p.to.high < p.to.token.threshold
  {
    OfferParts(entries, bridges, uid, p);
    OfferBounds(entries, bridges, uid, p);
  }

  /** The destination of a found plan, and that it lacks something. */
  lemma FoundDestination(step: Launch, tokens: seq<Token>, bridges: seq<Bridge>, chain: Asset -> Reading,
                         transfers: map<nat, Transfer>) returns (d: nat)
    requires Found(step, tokens, bridges, chain, transfers)
    ensures d < |tokens| && tokens[d] == step.plan.to.token && Shortfall(chain, transfers)(tokens[d]) > 0
  {
    var l: Ledger, entries, uid :| FoundOn(step, tokens, bridges, chain, transfers, l, entries, uid);
    OfferLacks(entries, bridges, uid, step.plan);
    d := LackingToken(step.plan.to, entries, tokens, chain, l, transfers);
  }

  lemma LackingToken(e: Entry, entries: seq<Entry>, tokens: seq<Token>, chain: Asset -> Reading, l: Ledger,
                     transfers: map<nat, Transfer>) returns (d: nat)
    requires Snapshot(entries, tokens, chain, l, transfers) && e in entries && e.high < e.token.threshold
    ensures d < |tokens| && tokens[d] == e.token && Shortfall(chain, transfers)(tokens[d]) > 0
  {
    d := TokenOf(entries, tokens, chain, l, transfers, e);
  }

  /** A chosen plan between equal decimals moves something and stays below the threshold. */
  lemma EqualDecimalsOffer(entries: seq<Entry>, bridges: seq<Bridge>, uid: nat, p: Plan)
    requires Offers(entries, bridges, uid, p)
    ensures p.from in entries && p.to in entries && p.from.token.uid == p.to.token.uid
    ensures p.from.token.decimals == p.to.token.decimals ==>
              0 < p.amount && p.to.high + p.amount <= p.to.token.threshold
  {
    OfferParts(entries, bridges, uid, p);
    if p.from.token.decimals == p.to.token.decimals {
      CoarseSourceStaysBelow(p.from, p.to);
      EqualDecimalsMove(p.from, p.to);
    }
  }

  lemma DestinationLacks(p: Plan, entries: seq<Entry>, tokens: seq<Token>, chain: Asset -> Reading, l: Ledger,
                         transfers: map<nat, Transfer>) returns (d: nat)
    requires EqualDecimals(tokens) && Snapshot(entries, tokens, chain, l, transfers)
    requires p.from in entries && p.to in entries && p.from.token.uid == p.to.token.uid
    requires p.from.token.decimals == p.to.token.decimals ==>
               0 < p.amount && p.to.high + p.amount <= p.to.token.threshold
    ensures d < |tokens| && tokens[d] == p.to.token
    ensures 0 < p.amount <= Shortfall(chain, transfers)(tokens[d])
  {
    var s := TokenOf(entries, tokens, chain, l, transfers, p.from);
    d := TokenOf(entries, tokens, chain, l, transfers, p.to);
    SameDecimals(tokens, s, d);
  }

  lemma SameDecimals(tokens: seq<Token>, i: nat, j: nat)
    requires EqualDecimals(tokens) && i < |tokens| && j < |tokens| && tokens[i].uid == tokens[j].uid
    ensures tokens[i].decimals == tokens[j].decimals
  {
    assert tokens[i] in tokens && tokens[j] in tokens;
  }

  /** Between equal decimals it lacks at least the amount, and that is not nothing. */
  lemma FoundMoves(step: Launch, tokens: seq<Token>, bridges: seq<Bridge>, chain: Asset -> Reading,
                   transfers: map<nat, Transfer>)
    requires Found(step, tokens, bridges, chain, transfers) && EqualDecimals(tokens)
    ensures 0 < step.plan.amount <= Shortfall(chain, transfers)(step.plan.to.token)
  {
    var l: Ledger, entries, uid :| FoundOn(step, tokens, bridges, chain, transfers, l, entries, uid);
    EqualDecimalsOffer(entries, bridges, uid, step.plan);
    var d := DestinationLacks(step.plan, entries, tokens, chain, l, transfers);
  }

  /** A found plan moves something wherever its source's threshold is at least ten units, or the route's
      bridges all ask for something. */
  lemma FoundPositive(step: Launch, tokens: seq<Token>, bridges: seq<Bridge>, chain: Asset -> Reading,
                      transfers: map<nat, Transfer>)
    requires Found(step, tokens, bridges, chain, transfers)
    requires var route := (step.plan.from.token.id, step.plan.to.token.id);
             step.plan.from.token.threshold >= 10 || forall b <- bridges | route in b.routes :: b.routes[route] > 0
    ensures step.plan.amount > 0
  {
    var l: Ledger, entries, uid :| FoundOn(step, tokens, bridges, chain, transfers, l, entries, uid);
    OfferParts(entries, bridges, uid, step.plan);
  }

  lemma ShortfallAfter(chain: Asset -> Reading, transfers: map<nat, Transfer>, id: nat, t: Transfer, token: Token)
    requires id !in transfers
    ensures Shortfall(chain, transfers[id := t])(token)
         == Monus(Shortfall(chain, transfers)(token), if t.to == token.id then t.amount else 0)
  {
    InboundInsert(transfers, id, t, token.id);
  }

  /** A rebalance takes its amount, or all that the destination lacks, off the total shortfall: exactly the
      amount, and at least one unit, with equal decimals. */
  lemma ShortfallFalls(step: Launch, tokens: seq<Token>, bridges: seq<Bridge>, chain: Asset -> Reading,
                       transfers: map<nat, Transfer>)
    requires Found(step, tokens, bridges, chain, transfers)
    ensures var before := TotalShortfall(tokens, chain, transfers);
            var after := TotalShortfall(tokens, chain, transfers[step.id := TransferOf(step)]);
            var lack := Shortfall(chain, transfers)(step.plan.to.token);
            && lack > 0 && after + Min(step.plan.amount, lack) <= before
            && (DistinctTokens(tokens) && EqualDecimals(tokens) ==>
                  step.plan.amount > 0 && after + step.plan.amount == before)
  {
    var d := FoundDestination(step, tokens, bridges, chain, transfers);
    var now, before := Shortfall(chain, transfers[step.id := TransferOf(step)]), Shortfall(chain, transfers);
    forall i | 0 <= i < |tokens|
      ensures now(tokens[i]) == Monus(before(tokens[i]), if step.plan.to.token.id == tokens[i].id then step.plan.amount else 0)
    {
      ShortfallAfter(chain, transfers, step.id, TransferOf(step), tokens[i]);
    }
    SumFalls(tokens, now, before, d, Min(step.plan.amount, before(tokens[d])));
    if DistinctTokens(tokens) && EqualDecimals(tokens) {
      FoundMoves(step, tokens, bridges, chain, transfers);
      SumDrops(tokens, now, before, d, step.plan.amount);
    }
  }

  lemma {:induction false} SumFalls<T>(s: seq<T>, f: T -> nat, g: T -> nat, d: nat, amount: nat)
    requires d < |s| && f(s[d]) + amount <= g(s[d]) && forall i | 0 <= i < |s| :: f(s[i]) <= g(s[i])
    ensures Sum(s, f) + amount <= Sum(s, g)
  {
    var init := s[..|s| - 1];
    if d < |s| - 1 {
      SumFalls(init, f, g, d, amount);
    } else if init != [] {
      SumFalls(init, f, g, 0, 0);
    }
  }

  lemma {:induction false} SumDrops<T>(s: seq<T>, f: T -> nat, g: T -> nat, d: nat, amount: nat)
    requires d < |s| && forall i | 0 <= i < |s| :: f(s[i]) + (if i == d then amount else 0) == g(s[i])
    ensures Sum(s, f) + amount == Sum(s, g)
  {
    var init := s[..|s| - 1];
    if d == |s| - 1 {
      SumSame(init, f, g);
    } else {
      SumDrops(init, f, g, d, amount);
    }
  }

  lemma {:induction false} SumSame<T>(s: seq<T>, f: T -> nat, g: T -> nat)
    requires forall i | 0 <= i < |s| :: f(s[i]) == g(s[i])
    ensures Sum(s, f) == Sum(s, g)
  {
    if s != [] {
      SumSame(s[..|s| - 1], f, g);
    }
  }

  function Moved(steps: seq<Launch>): nat
    decreases |steps|
  {
    if steps == [] then 0 else steps[0].plan.amount + Moved(steps[1..])
  }

  predicate AllMove(steps: seq<Launch>) {
    forall step <- steps :: step.plan.amount > 0
  }

  /** With balances fixed, the number of rebalances that move something is bounded by the shortfall there
      was at the start; with equal decimals they all do, and it bounds all that is ever moved. */
  lemma {:induction false} RebalancingEnds(steps: seq<Launch>, tokens: seq<Token>, bridges: seq<Bridge>,
                                           chain: Asset -> Reading, transfers: map<nat, Transfer>)
    requires Run(steps, tokens, bridges, chain, transfers)
    ensures AllMove(steps) ==> |steps| <= TotalShortfall(tokens, chain, transfers)
    ensures DistinctTokens(tokens) && EqualDecimals(tokens) ==>
              AllMove(steps) && |steps| <= Moved(steps) <= TotalShortfall(tokens, chain, transfers)
    decreases |steps|
  {
    if steps != [] {
      assert steps == [steps[0]] + steps[1..];
      ShortfallFalls(steps[0], tokens, bridges, chain, transfers);
      RebalancingEnds(steps[1..], tokens, bridges, chain, transfers[steps[0].id := TransferOf(steps[0])]);
    }
  }

  // ---------------------------------------------------------------- rebalances that move nothing

  lemma {:induction false} FreshKey<V>(m: map<nat, V>) returns (id: nat)
    ensures forall k <- m :: k < id
    decreases m.Keys
  {
    if m == map[] {
      id := 0;
    } else {
      var k := AnyKey(m);
      var least := FreshKey(m - {k});
      id := Max(least, k + 1);
      forall x <- m ensures x < id {
        assert x == k || x in m - {k};
      }
    }
  }

  /** After a rebalance that moved nothing the same plan is found again. */
  lemma FoundAgain(step: Launch, again: Launch, tokens: seq<Token>, bridges: seq<Bridge>, chain: Asset -> Reading,
                   transfers: map<nat, Transfer>)
    requires Found(step, tokens, bridges, chain, transfers) && step.plan.amount == 0
    requires again.plan == step.plan && again.id !in transfers && again.id != step.id
    ensures Found(again, tokens, bridges, chain, transfers[step.id := TransferOf(step)])
  {
    var l: Ledger, entries, uid :| FoundOn(step, tokens, bridges, chain, transfers, l, entries, uid);
    var after := transfers[step.id := TransferOf(step)];
    forall i | 0 <= i < |tokens| ensures entries[i] == EntryOf(tokens[i], chain, l, after) {
      InboundInsert(transfers, step.id, TransferOf(step), tokens[i].id);
    }
    assert FoundOn(again, tokens, bridges, chain, after, l, entries, uid);
  }

  lemma {:induction false} RepeatsNothing(n: nat, step: Launch, tokens: seq<Token>, bridges: seq<Bridge>,
                                          chain: Asset -> Reading, transfers: map<nat, Transfer>) returns (steps: seq<Launch>)
    requires Found(step, tokens, bridges, chain, transfers) && step.plan.amount == 0
    ensures |steps| == n && Run(steps, tokens, bridges, chain, transfers)
    decreases n
  {
    steps := [];
    if n > 0 {
      var after := transfers[step.id := TransferOf(step)];
      var id := FreshKey(after);
      assert step.id in after && forall k <- transfers :: k in after;
      var again := step.(id := id);
      FoundAgain(step, again, tokens, bridges, chain, transfers);
      var rest := RepeatsNothing(n - 1, again, tokens, bridges, chain, after);
      RunFrom(step, rest, tokens, bridges, chain, transfers);
      steps := [step] + rest;
    }
  }

  lemma RunFrom(step: Launch, rest: seq<Launch>, tokens: seq<Token>, bridges: seq<Bridge>, chain: Asset -> Reading,
                transfers: map<nat, Transfer>)
    requires Found(step, tokens, bridges, chain, transfers)
    requires Run(rest, tokens, bridges, chain, transfers[step.id := TransferOf(step)])
    ensures Run([step] + rest, tokens, bridges, chain, transfers)
  {
    assert ([step] + rest)[1..] == rest;
  }

  /** Any run with a step that moves nothing can be replaced by one as long as wanted. */
  ghost predicate CanRunOn(n: nat, tokens: seq<Token>, bridges: seq<Bridge>, chain: Asset -> Reading,
                           transfers: map<nat, Transfer>) {
    exists steps :: |steps| >= n && Run(steps, tokens, bridges, chain, transfers)
  }

  lemma RunsOnAfter(n: nat, first: Launch, tokens: seq<Token>, bridges: seq<Bridge>, chain: Asset -> Reading,
                    transfers: map<nat, Transfer>)
    requires Found(first, tokens, bridges, chain, transfers)
    requires CanRunOn(n, tokens, bridges, chain, transfers[first.id := TransferOf(first)])
    ensures CanRunOn(n, tokens, bridges, chain, transfers)
  {
    var rest :| |rest| >= n && Run(rest, tokens, bridges, chain, transfers[first.id := TransferOf(first)]);
    RunFrom(first, rest, tokens, bridges, chain, transfers);
    var longer := [first] + rest;
    assert |longer| >= n && Run(longer, tokens, bridges, chain, transfers);
  }

  lemma RunsOnNow(n: nat, first: Launch, tokens: seq<Token>, bridges: seq<Bridge>, chain: Asset -> Reading,
                  transfers: map<nat, Transfer>)
    requires Found(first, tokens, bridges, chain, transfers) && first.plan.amount == 0
    ensures CanRunOn(n, tokens, bridges, chain, transfers)
  {
    var same := RepeatsNothing(n, first, tokens, bridges, chain, transfers);
  }

  lemma {:induction false} RunsOn(n: nat, steps: seq<Launch>, tokens: seq<Token>, bridges: seq<Bridge>,
                                  chain: Asset -> Reading, transfers: map<nat, Transfer>)
    requires Run(steps, tokens, bridges, chain, transfers) && !AllMove(steps)
    ensures CanRunOn(n, tokens, bridges, chain, transfers)
    decreases |steps|
  {
    var first, rest := steps[0], steps[1..];
    if first.plan.amount == 0 {
      RunsOnNow(n, first, tokens, bridges, chain, transfers);
    } else {
      assert steps == [first] + rest;
      RunsOn(n, rest, tokens, bridges, chain, transfers[first.id := TransferOf(first)]);
      RunsOnAfter(n, first, tokens, bridges, chain, transfers);
    }
  }

  /** The shortfall bounds the number of rebalances exactly when none of them moves nothing. */
  lemma RebalancingEndsExactly(tokens: seq<Token>, bridges: seq<Bridge>, chain: Asset -> Reading,
                               transfers: map<nat, Transfer>)
    ensures (forall steps | Run(steps, tokens, bridges, chain, transfers) :: |steps| <= TotalShortfall(tokens, chain, transfers))
       <==> (forall steps | Run(steps, tokens, bridges, chain, transfers) :: AllMove(steps))
  {
    forall steps | Run(steps, tokens, bridges, chain, transfers)
      ensures AllMove(steps) ==> |steps| <= TotalShortfall(tokens, chain, transfers)
    {
      RebalancingEnds(steps, tokens, bridges, chain, transfers);
    }
    if steps: seq<Launch> :| Run(steps, tokens, bridges, chain, transfers) && !AllMove(steps) {
      RunsOn(TotalShortfall(tokens, chain, transfers) + 1, steps, tokens, bridges, chain, transfers);
    }
  }

  /** A token's worth above its threshold on one chain, a token's worth missing on another. */
  function Rich(decimals: nat): Entry {
    Entry(Token(0, Asset(1, 1), decimals, Pow10(decimals)), 2 * Pow10(decimals), 2 * Pow10(decimals))
  }

  function Poor(decimals: nat): Entry {
    Entry(Token(0, Asset(2, 2), decimals, Pow10(decimals)), 0, 0)
  }

  const ROUTE := Bridge(5, map[(Asset(1, 1), Asset(2, 2)) := 1])

  lemma RescaleUnit(units: nat, scale: nat)
    requires units > 0
    ensures Rescale(units, scale, units) == scale
  {
    DownAtLeast(Up(units, scale), scale, units);
    DownBounds(Up(units, scale), units);
    Cancel(Down(Up(units, scale), units), scale, units);
  }

  lemma SampleDeltas(f: nat, t: nat)
    ensures DeltaOf(Rich(f)).low == SCALE && DeltaOf(Poor(t)).high == 0 - SCALE
    ensures DeltaOf(Poor(t)).low < DeltaOf(Rich(f)).low && DeltaOf(Poor(t)).high < DeltaOf(Rich(f)).high
    ensures Amount(DeltaOf(Rich(f)), DeltaOf(Poor(t))) == Pow10(f)
  {
    RescaleUnit(Pow10(f), SCALE);
    RescaleUnit(Pow10(t), SCALE);
    RescaleUnit(SCALE, Pow10(f));
  }

  lemma SampleEnds(group: seq<Delta>, rich: Delta, poor: Delta)
    requires group == [rich, poor] && rich.low > 0 && poor.high < 0 && poor.low < rich.low && poor.high < rich.high
    ensures IsDestination(group, 1) && IsSource(group, 0)
  {
  }

  lemma SampleGroup(rich: Entry, poor: Entry)
    requires rich.token.uid == 0 == poor.token.uid
    ensures Group([rich, poor], 0) == [DeltaOf(rich), DeltaOf(poor)]
  {
    var entries := [rich, poor];
    assert entries[..1] == [rich] && entries[..1][..0] == [];
    assert Group(entries[..1], 0) == [DeltaOf(rich)];
  }

  lemma SampleOffer(f: nat, t: nat)
    ensures Offers([Rich(f), Poor(t)], [ROUTE], 0, Plan(Rich(f), Poor(t), Pow10(f)))
  {
    var rich, poor := DeltaOf(Rich(f)), DeltaOf(Poor(t));
    SampleDeltas(f, t);
    SampleGroup(Rich(f), Poor(t));
    SampleEnds([rich, poor], rich, poor);
    assert Supports([ROUTE][0], Asset(1, 1), Asset(2, 2), Pow10(f));
    SampleOffered([Rich(f), Poor(t)], [ROUTE], Group([Rich(f), Poor(t)], 0), rich, poor);
  }

  lemma SampleOffered(entries: seq<Entry>, bridges: seq<Bridge>, group: seq<Delta>, rich: Delta, poor: Delta)
    requires group == Group(entries, 0) == [rich, poor] && IsDestination(group, 1) && IsSource(group, 0)
    requires Worthwhile(bridges, Plan(rich.entry, poor.entry, Amount(rich, poor)))
    ensures Offers(entries, bridges, 0, Plan(rich.entry, poor.entry, Amount(rich, poor)))
  {
    assert group[0] == rich && group[1] == poor;
  }

  function SampleChain(decimals: nat): Asset -> Reading {
    (a: Asset) => Reading(if a == Asset(1, 1) then 2 * Pow10(decimals) else 0, 0)
  }

  lemma SampleSnapshot(f: nat, t: nat)
    ensures Snapshot([Rich(f), Poor(t)], [Rich(f).token, Poor(t).token], SampleChain(f), Ledger(map[], []), map[])
  {
  }

  /** One unit too many where units are coarse, one too few where they are fine: what is lacking is worth
      less than the source's unit. */
  const COARSE := Entry(Token(0, Asset(1, 1), 0, 0), 1, 1)
  const FINE := Entry(Token(0, Asset(2, 2), 18, 1), 0, 0)
  const FREE_ROUTE := Bridge(5, map[(Asset(1, 1), Asset(2, 2)) := 0])

  lemma DustDeltas()
    ensures DeltaOf(COARSE).low == DeltaOf(COARSE).high == SCALE && DeltaOf(FINE).low == DeltaOf(FINE).high == -1
    ensures Amount(DeltaOf(COARSE), DeltaOf(FINE)) == 0
  {
    ScaleIsPower();
    RescaleUnit(1, SCALE);
    assert Rescale(1, SCALE, Pow10(18)) == 1;
    assert Rescale(1, 1, SCALE) == 0;
  }

  function DustChain(): Asset -> Reading {
    (a: Asset) => Reading(if a == Asset(1, 1) then 1 else 0, 0)
  }

  /** A rebalance of nothing is planned there, and planned again as often as one likes. */
  lemma NothingMoves(n: nat) returns (steps: seq<Launch>)
    ensures |steps| == n && Run(steps, [COARSE.token, FINE.token], [FREE_ROUTE], DustChain(), map[])
  {
    var chain := DustChain();
    var step := Launch(7, 5, Plan(COARSE, FINE, 0));
    DustOffer();
    assert Snapshot([COARSE, FINE], [COARSE.token, FINE.token], chain, Ledger(map[], []), map[]);
    assert FoundOn(step, [COARSE.token, FINE.token], [FREE_ROUTE], chain, map[], Ledger(map[], []), [COARSE, FINE], 0);
    steps := RepeatsNothing(n, step, [COARSE.token, FINE.token], [FREE_ROUTE], chain, map[]);
  }

  lemma DustOffer()
    ensures Offers([COARSE, FINE], [FREE_ROUTE], 0, Plan(COARSE, FINE, 0))
  {
    var rich, poor := DeltaOf(COARSE), DeltaOf(FINE);
    DustDeltas();
    SampleGroup(COARSE, FINE);
    SampleEnds([rich, poor], rich, poor);
    assert Supports([FREE_ROUTE][0], Asset(1, 1), Asset(2, 2), 0);
    SampleOffered([COARSE, FINE], [FREE_ROUTE], Group([COARSE, FINE], 0), rich, poor);
  }

  /** A state that calls for a rebalance. */
  lemma SomethingToRebalance(decimals: nat) returns (tokens: seq<Token>, step: Launch)
    ensures DistinctTokens(tokens) && EqualDecimals(tokens)
    ensures Run([step], tokens, [ROUTE], SampleChain(decimals), map[]) && step.plan.amount == Pow10(decimals)
  {
    tokens := [Rich(decimals).token, Poor(decimals).token];
    step := Launch(7, 5, Plan(Rich(decimals), Poor(decimals), Pow10(decimals)));
    SampleSnapshot(decimals, decimals);
    SampleOffer(decimals, decimals);
    assert FoundOn(step, tokens, [ROUTE], SampleChain(decimals), map[], Ledger(map[], []), [Rich(decimals), Poor(decimals)], 0);
    assert [step][1..] == [];
  }

  // ---------------------------------------------------------------- the raw best case

  /** `p` is what the planner chooses in some state. */
  ghost predicate Arises(p: Plan) {
    exists tokens, bridges, chain: Asset -> Reading, l: Ledger, transfers, entries, uid ::
      Snapshot(entries, tokens, chain, l, transfers) && Offers(entries, bridges, uid, p)
  }

  /** Counted in raw units, the destination's best case still fits its threshold once the amount is
      under way, whatever plan arises between these decimals: exactly when the source has no more
      decimals than the destination. */
  lemma RawBestCaseExactly(f: nat, t: nat)
    ensures (forall p | Arises(p) && p.from.token.decimals == f && p.to.token.decimals == t ::
               p.to.high + p.amount <= p.to.token.threshold)
       <==> f <= t
  {
    if f <= t {
      forall p | Arises(p) && p.from.token.decimals == f && p.to.token.decimals == t
        ensures p.to.high + p.amount <= p.to.token.threshold
      {
        var tokens, bridges, chain: Asset -> Reading, l: Ledger, transfers, entries, uid :|
          Snapshot(entries, tokens, chain, l, transfers) && Offers(entries, bridges, uid, p);
        CoarseOffer(entries, bridges, uid, p);
      }
    } else {
      FineSourceOvershoots(f, t);
    }
  }

  lemma CoarseOffer(entries: seq<Entry>, bridges: seq<Bridge>, uid: nat, p: Plan)
    requires Offers(entries, bridges, uid, p) && p.from.token.decimals <= p.to.token.decimals
    ensures p.to.high + p.amount <= p.to.token.threshold
  {
    OfferParts(entries, bridges, uid, p);
    CoarseSourceStaysBelow(p.from, p.to);
  }

  lemma {:induction false} Pow10Strict(m: nat, n: nat)
    requires m < n
    ensures Pow10(m) < Pow10(n)
  {
    if m < n - 1 {
      Pow10Strict(m, n - 1);
    }
  }

  /** For every finer source a state arises in which one token's worth overshoots. */
  lemma FineSourceOvershoots(f: nat, t: nat)
    requires f > t
    ensures var p := Plan(Rich(f), Poor(t), Pow10(f));
            Arises(p) && p.to.high + p.amount > p.to.token.threshold
  {
    SampleSnapshot(f, t);
    SampleOffer(f, t);
    Pow10Strict(t, f);
  }

  // ---------------------------------------------------------------- the service

  /** Progress of a transfer as its bridge reports it. */
  datatype State = Pending | Sent(block: nat) | OutboundFailed | Completed | InboundFailed

  predicate UnderWay(s: State) {
    s.Pending? || s.Sent?
  }

  /** Bridges report each state once: sent or failed first, then arrived or lost. */
  predicate Follows(before: State, after: State) {
    match before
    case Pending => after.Pending? || after.Sent? || after.OutboundFailed?
    case Sent(_) => after.Completed? || after.InboundFailed?
    case _ => false
  }

  /** What the report of a state does to the ledger: the lock is given back when the transfer was sent, at
      the block it was sent in, or could not be, at block 0. */
  function Reported(l: Ledger, t: Transfer, state: State): Ledger {
    match state
    case Sent(block) => Release(l, Unlock(t.from, block, t.amount))
    case OutboundFailed => Release(l, Unlock(t.from, 0, t.amount))
    case _ => l
  }

  class RebalanceService {
    const bridges: seq<Bridge>
    const backend: Backend
    var transfers: map<nat, Transfer>
    var stored: map<nat, (Transfer, State)>
    var ledger: Ledger

    /** The transfers in progress are the stored ones that are under way. */
    ghost predicate Valid()
      reads this
    {
      transfers == map id | id in stored && UnderWay(stored[id].1) :: stored[id].0
    }

    /** A restart finds the stored transfers that are under way. */
    constructor (bridges: seq<Bridge>, backend: Backend, stored: map<nat, (Transfer, State)>, ledger: Ledger)
      ensures Valid() && this.stored == stored && this.ledger == ledger
      ensures this.bridges == bridges && this.backend == backend
      ensures transfers == map id | id in stored && (stored[id].1.Pending? || stored[id].1.Sent?) :: stored[id].0
    {
      this.bridges, this.backend, this.stored, this.ledger := bridges, backend, stored, ledger;
      transfers := map id | id in stored && UnderWay(stored[id].1) :: stored[id].0;
    }

    /** Locks the amount and starts the transfer on the first bridge that takes it. */
    method Start(p: Plan, id: nat, at: Reading) returns (ok: bool)
      requires Valid() && id !in stored
      modifies this
      ensures Valid()
      ensures var from, input := p.from.token.id, LockInput(at.balance, at.block, p.amount);
              && (ok <==> SomeSupports(bridges, from, p.to.token.id, p.amount)
                          && Accepts(backend, old(ledger), from, input))
              && (ok ==> && ledger == Lock(old(ledger), map[from := input])
                         && exists i | 0 <= i < |bridges| ::
                              && Supports(bridges[i], from, p.to.token.id, p.amount)
                              && (forall j | 0 <= j < i :: !Supports(bridges[j], from, p.to.token.id, p.amount))
                              && transfers == old(transfers)[id := Transfer(bridges[i].id, from, p.to.token.id, p.amount)]
                              && stored == old(stored)[id := (transfers[id], Pending)])
              && (!ok ==> ledger == old(ledger) && transfers == old(transfers) && stored == old(stored))
    {
      var from, to := p.from.token.id, p.to.token.id;
      var i := 0;
      while i < |bridges| && !Supports(bridges[i], from, to, p.amount)
        invariant 0 <= i <= |bridges|
        invariant forall j | 0 <= j < i :: !Supports(bridges[j], from, to, p.amount)
      {
        i := i + 1;
      }
      if i == |bridges| {
        return false;
      }
      var input := LockInput(at.balance, at.block, p.amount);
      ok := Accepts(backend, ledger, from, input);
      if ok {
        ledger := Lock(ledger, map[from := input]);
        var t := TransferOf(Launch(id, bridges[i].id, p));
        stored := stored[id := (t, Pending)];
        transfers := transfers[id := t];
      }
    }

    /** The lock of a transfer is released when it is sent, at the block it was sent in, or at block
        0 when it could not be sent; a transfer that ended is no longer counted. Storage errors are
        ignored (`!saved`): the transfers in progress then stop matching the stored ones exactly when
        the transfer ended, until a restart reads them again. */
    method OnTransferState(id: nat, state: State, saved: bool)
      requires Valid() && id in stored && Follows(stored[id].1, state)
      modifies this
      ensures Valid() <==> saved || UnderWay(state)
      ensures stored == if saved then old(stored)[id := (old(stored)[id].0, state)] else old(stored)
      ensures ledger == if saved then Reported(old(ledger), stored[id].0, state) else old(ledger)
      ensures ledger.locked == old(ledger).locked
      ensures var t := stored[id].0;
              ledger.unlocks == old(ledger).unlocks
                                + if saved && state.Sent? then [Unlock(t.from, state.block, t.amount)]
                                  else if saved && state.OutboundFailed? then [Unlock(t.from, 0, t.amount)]
                                  else []
      ensures transfers == if state.Pending? || state.Sent? then old(transfers) else old(transfers) - {id}
    {
      var t := stored[id].0;
      assert id in transfers;
      if saved {
        match state {
          case Sent(block) => ledger := Release(ledger, Unlock(t.from, block, t.amount));
          case OutboundFailed => ledger := Release(ledger, Unlock(t.from, 0, t.amount));
          case _ =>
        }
        stored := stored[id := (t, state)];
      }
      if !UnderWay(state) {
        transfers := transfers - {id};
      }
    }
  }
}
