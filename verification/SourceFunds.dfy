/** Sourcing the destination's missing funds from balances on other chains. */
module SourceFunds {
  import opened Common

  /** Rescales an amount between token decimals, rounding down. */
  function Adjust(amount: nat, from: nat, to: nat): nat {
    if from > to then Down(amount, Pow10(from - to)) else Up(amount, Pow10(to - from))
  }

  lemma DownUp(amount: nat, take: nat, factor: nat)
    requires factor > 0
    ensures take <= Down(amount, factor) ==> Up(take, factor) <= amount
    ensures take <= Up(amount, factor) ==> Down(take, factor) <= amount
  {
    var q := amount / factor;
    if take <= q {
      MulMono(take, q, factor);
    }
    if take <= amount * factor && take / factor > amount {
      MulMono(amount + 1, take / factor, factor);
    }
  }

  /** What was taken, converted back, fits what was available. */
  lemma AdjustBackFits(available: nat, take: nat, src: nat, dst: nat)
    requires take <= Adjust(available, src, dst)
    ensures Adjust(take, dst, src) <= available
  {
    if src > dst {
      DownUp(available, take, Pow10(src - dst));
    } else {
      DownUp(available, take, Pow10(dst - src));
    }
  }

  lemma ScaleUp(amount: nat, f: nat, p: nat)
    requires f > 0 && p > 0
    ensures var q := Down(amount, f); q * (p * f) <= amount * p < (q + 1) * (p * f)
  {
    var q, rest := amount / f, amount % f;
    assert amount * p == q * (p * f) + rest * p by {
      assert amount == q * f + rest;
    }
    assert rest * p < f * p;
  }

  lemma Reorder(amount: nat, f: nat, p: nat)
    ensures Up(amount, f) * p == amount * (p * f)
  {
  }

  /** A converted amount is worth no more, and less than one unit less, than the original. */
  lemma AdjustValue(amount: nat, from: nat, to: nat)
    ensures var converted := Adjust(amount, from, to);
            converted * Pow10(from) <= amount * Pow10(to) < (converted + 1) * Pow10(from)
  {
    if from > to {
      Pow10Adds(to, from - to);
      ScaleUp(amount, Pow10(from - to), Pow10(to));
    } else {
      Pow10Adds(from, to - from);
      Reorder(amount, Pow10(to - from), Pow10(from));
      Reorder(1, Pow10(from), Adjust(amount, from, to));
    }
  }

  /** An asset's address and decimals on a source chain. */
  datatype Mapped = Mapped(address: nat, decimals: nat)

  datatype Holding = Holding(asset: nat, amount: nat)

  /** `onChain` maps a destination asset to a chain, `toDestination` maps back, and
      `destinationDecimals` is the lookup the planner makes with the source-chain address. */
  datatype Config = Config(onChain: map<(nat, nat), Mapped>, toDestination: map<(nat, nat), nat>,
                           destinationDecimals: map<nat, nat>)

  /** A candidate chain after its escrow was simulated. */
  datatype Candidate = Candidate(chain: nat, holdings: seq<Holding>, feeToken: nat, escrowCost: nat)

  datatype SourcedAsset = SourcedAsset(source: nat, destination: nat, amountSource: nat, amountDestination: nat)

  datatype FundSource = FundSource(chain: nat, assets: seq<SourcedAsset>, feeToken: nat, cost: nat)

  datatype Request = Request(asset: nat, amount: nat)

  function AmountOf(m: map<nat, nat>, a: nat): nat {
    if a in m then m[a] else 0
  }

  /** Requested minus what the destination already holds. */
  function Needed(requested: seq<Request>, existing: map<nat, nat>, a: nat): nat {
    if requested == [] then 0
    else if requested[|requested| - 1].asset == a
    then Monus(requested[|requested| - 1].amount, AmountOf(existing, a))
    else Needed(requested[..|requested| - 1], existing, a)
  }

  predicate DistinctRequests(requested: seq<Request>) {
    forall i, j | 0 <= i < j < |requested| :: requested[i].asset != requested[j].asset
  }

  /** Of a requested asset, what the request exceeds the existing balance by; of others nothing. */
  lemma {:induction false} NeededOf(requested: seq<Request>, existing: map<nat, nat>, a: nat)
    requires DistinctRequests(requested)
    ensures forall r <- requested | r.asset == a ::
              var held := if a in existing then existing[a] else 0;
              if held <= r.amount then Needed(requested, existing, a) + held == r.amount else Needed(requested, existing, a) == 0
    ensures (forall r <- requested :: r.asset != a) ==> Needed(requested, existing, a) == 0
  {
    if requested != [] {
      var init, last := requested[..|requested| - 1], requested[|requested| - 1];
      NeededOf(init, existing, a);
      assert requested == init + [last];
    }
  }

  method Shortfall(requested: seq<Request>, existing: map<nat, nat>) returns (remaining: map<nat, nat>)
    requires DistinctRequests(requested)
    ensures forall a :: AmountOf(remaining, a) == Needed(requested, existing, a)
    ensures forall a <- remaining :: remaining[a] > 0
    ensures forall r <- requested ::
              var held := if r.asset in existing then existing[r.asset] else 0;
              if held < r.amount then r.asset in remaining && remaining[r.asset] + held == r.amount else r.asset !in remaining
    ensures forall a <- remaining :: exists r <- requested :: r.asset == a
  {
    remaining := map[];
    for i := 0 to |requested|
      invariant forall a :: AmountOf(remaining, a) == Needed(requested[..i], existing, a)
      invariant forall a <- remaining :: remaining[a] > 0 && exists j | 0 <= j < i :: requested[j].asset == a
    {
      assert requested[..i + 1][..i] == requested[..i];
      var left := Monus(requested[i].amount, AmountOf(existing, requested[i].asset));
      if left != 0 {
        remaining := remaining[requested[i].asset := left];
      }
    }
    assert requested[..|requested|] == requested;
    forall r <- requested
      ensures var held := if r.asset in existing then existing[r.asset] else 0;
              if held < r.amount then r.asset in remaining && remaining[r.asset] + held == r.amount else r.asset !in remaining
    {
      NeededOf(requested, existing, r.asset);
      assert AmountOf(remaining, r.asset) == Needed(requested, existing, r.asset);
    }
  }

  /** The holdings of one chain that map to a requested asset and are not empty. */
  function Usable(config: Config, requested: seq<Request>, chain: nat, holdings: seq<Holding>): seq<Holding> {
    if holdings == [] then []
    else
      var h := holdings[|holdings| - 1];
      Usable(config, requested, chain, holdings[..|holdings| - 1])
      + if (chain, h.asset) in config.toDestination
           && (exists r <- requested :: r.asset == config.toDestination[(chain, h.asset)]) && h.amount != 0
        then [h] else []
  }

  /** Candidate chains: never the destination, fee token mappable, something usable on them. */
  function Sources(config: Config, requested: seq<Request>, all: map<nat, seq<Holding>>, destination: nat,
                   feeToken: Option<nat>): map<nat, seq<Holding>> {
    map chain | chain in all && chain != destination
                && (feeToken.Some? ==> (chain, feeToken.value) in config.onChain)
                && Usable(config, requested, chain, all[chain]) != []
      :: Usable(config, requested, chain, all[chain])
  }

  /** A holding that can be drawn on: something of an asset that maps to a requested one. */
  predicate Drawable(config: Config, requested: seq<Request>, chain: nat, h: Holding) {
    && h.amount > 0 && (chain, h.asset) in config.toDestination
    && exists r <- requested :: r.asset == config.toDestination[(chain, h.asset)]
  }

  lemma {:induction false} UsableExactly(config: Config, requested: seq<Request>, chain: nat, holdings: seq<Holding>, h: Holding)
    ensures multiset(Usable(config, requested, chain, holdings))[h]
         == if Drawable(config, requested, chain, h) then multiset(holdings)[h] else 0
  {
    if holdings != [] {
      var init, last := holdings[..|holdings| - 1], holdings[|holdings| - 1];
      UsableExactly(config, requested, chain, init, h);
      assert holdings == init + [last];
    }
  }

  /** The sources are all chains but the destination that can pay the fee token and hold something that
      can be drawn on, each with exactly what can be drawn on. */
  lemma SourcesExactly(config: Config, requested: seq<Request>, all: map<nat, seq<Holding>>, destination: nat,
                       feeToken: Option<nat>, chain: nat)
    ensures var sources := Sources(config, requested, all, destination, feeToken);
            && (chain in sources <==>
                  && chain in all && chain != destination
                  && (feeToken.None? || (chain, feeToken.value) in config.onChain)
                  && exists h <- all[chain] :: Drawable(config, requested, chain, h))
            && (chain in sources ==>
                  forall h :: multiset(sources[chain])[h]
                           == if Drawable(config, requested, chain, h) then multiset(all[chain])[h] else 0)
  {
    if chain in all {
      var usable := Usable(config, requested, chain, all[chain]);
      forall h ensures multiset(usable)[h] == if Drawable(config, requested, chain, h) then multiset(all[chain])[h] else 0 {
        UsableExactly(config, requested, chain, all[chain], h);
      }
      if usable != [] {
        assert usable[0] in multiset(usable) && usable[0] in multiset(all[chain]);
      }
      if h :| h in all[chain] && Drawable(config, requested, chain, h) {
        assert h in multiset(all[chain]) && h in multiset(usable);
      }
    }
  }

  /** The simulated candidates: each source chain at most once, in some order. */
  ghost predicate CandidatesFrom(candidates: seq<Candidate>, sources: map<nat, seq<Holding>>) {
    && (forall c <- candidates :: c.chain in sources && c.holdings == sources[c.chain])
    && forall i, j | 0 <= i < j < |candidates| :: candidates[i].chain != candidates[j].chain
  }

  function Find(holdings: seq<Holding>, asset: nat): Option<nat> {
    if holdings == [] then None
    else if holdings[0].asset == asset then Some(holdings[0].amount)
    else Find(holdings[1..], asset)
  }

  function Fee(c: Candidate, address: nat, sponsored: bool): nat {
    if !sponsored && c.feeToken == address then c.escrowCost else 0
  }

  /** What is credited is worth what is taken, to within one source unit, at these decimals. */
  predicate WorthWithin(t: SourcedAsset, source: nat, destination: nat) {
    Up(t.amountSource, Pow10(destination)) <= Up(t.amountDestination, Pow10(source))
    < Up(t.amountSource + 1, Pow10(destination))
  }

  /** One sourced asset drawn on a candidate: mapped correctly, affordable together with the escrow
      cost, and credited at its value to within one source unit. */
  ghost predicate Backed(config: Config, c: Candidate, sponsored: bool, t: SourcedAsset) {
    && (c.chain, t.destination) in config.onChain
    && var mapped := config.onChain[(c.chain, t.destination)];
       && t.source == mapped.address
       && mapped.address in config.destinationDecimals
       && Find(c.holdings, mapped.address).Some?
       && t.amountDestination > 0
       && t.amountSource + Fee(c, mapped.address, sponsored) <= Find(c.holdings, mapped.address).value
       && WorthWithin(t, mapped.decimals, config.destinationDecimals[mapped.address])
  }

  function CreditTo(a: nat): SourcedAsset -> nat {
    (t: SourcedAsset) => if t.destination == a then t.amountDestination else 0
  }

  ghost function PlanCredit(a: nat): FundSource -> nat {
    (s: FundSource) => Sum(s.assets, CreditTo(a))
  }

  /** What `taken` credits to a destination asset, and what a whole plan does. */
  ghost function Credit(taken: seq<SourcedAsset>, a: nat): nat {
    Sum(taken, CreditTo(a))
  }

  ghost function Credited(plan: seq<FundSource>, a: nat): nat {
    Sum(plan, PlanCredit(a))
  }

  /** What a plan credits to it out of one chain. */
  ghost function ChainCredit(chain: nat, a: nat): FundSource -> nat {
    (s: FundSource) => if s.chain == chain then Credit(s.assets, a) else 0
  }

  ghost function CreditOn(plan: seq<FundSource>, chain: nat, a: nat): nat {
    Sum(plan, ChainCredit(chain, a))
  }

  predicate DistinctAssets(taken: seq<SourcedAsset>) {
    forall i, j | 0 <= i < j < |taken| :: taken[i].destination != taken[j].destination
  }

  /** The most a candidate can contribute to a destination asset, in destination units. */
  function MaxTake(config: Config, sponsored: bool, asset: nat): Candidate -> nat {
    (c: Candidate) =>
      if (c.chain, asset) !in config.onChain then 0
      else
        var mapped := config.onChain[(c.chain, asset)];
        var balance := Find(c.holdings, mapped.address);
        if balance.None? || mapped.address !in config.destinationDecimals then 0
        else Adjust(Monus(balance.value, Fee(c, mapped.address, sponsored)), mapped.decimals,
                    config.destinationDecimals[mapped.address])
  }

  lemma {:induction false} FindFirst(holdings: seq<Holding>, asset: nat)
    ensures Find(holdings, asset).None? <==> forall h <- holdings :: h.asset != asset
    ensures Find(holdings, asset).Some? ==>
              exists i | 0 <= i < |holdings| ::
                holdings[i] == Holding(asset, Find(holdings, asset).value) && forall j | 0 <= j < i :: holdings[j].asset != asset
  {
    if holdings != [] {
      assert holdings == [holdings[0]] + holdings[1..];
      if holdings[0].asset != asset {
        FindFirst(holdings[1..], asset);
        if Find(holdings, asset).Some? {
          var i :| 0 <= i < |holdings[1..]| && holdings[1..][i] == Holding(asset, Find(holdings, asset).value)
                   && forall j | 0 <= j < i :: holdings[1..][j].asset != asset;
          assert holdings[i + 1] == holdings[1..][i];
          forall j | 0 <= j < i + 1 ensures holdings[j].asset != asset {
            assert j > 0 ==> holdings[j] == holdings[1..][j - 1];
          }
        }
      }
    }
  }

  /** It is the largest amount worth no more than the first balance held of the mapped asset, less the
      escrow cost if that is paid from it and not sponsored; nothing without mapping, lookup or balance. */
  lemma MaxTakeExactly(config: Config, sponsored: bool, a: nat, c: Candidate)
    ensures var most := MaxTake(config, sponsored, a)(c);
            if (c.chain, a) !in config.onChain || config.onChain[(c.chain, a)].address !in config.destinationDecimals
            then most == 0
            else
              var Mapped(address, decimals) := config.onChain[(c.chain, a)];
              if Find(c.holdings, address).None? then most == 0
              else
                var held := Find(c.holdings, address).value;
                var cost := if sponsored || c.feeToken != address then 0 else c.escrowCost;
                var free := if cost <= held then held - cost else 0;
                most * Pow10(decimals) <= free * Pow10(config.destinationDecimals[address]) < (most + 1) * Pow10(decimals)
  {
    if (c.chain, a) in config.onChain {
      var Mapped(address, decimals) := config.onChain[(c.chain, a)];
      if address in config.destinationDecimals && Find(c.holdings, address).Some? {
        AdjustValue(Monus(Find(c.holdings, address).value, Fee(c, address, sponsored)), decimals,
                    config.destinationDecimals[address]);
      }
    }
  }

  /** The most all candidates can contribute together. */
  ghost function Capacity(config: Config, sponsored: bool, candidates: seq<Candidate>, a: nat): nat {
    Sum(candidates, MaxTake(config, sponsored, a))
  }

  /** The decision for one asset on one candidate: how much to take, nothing if it cannot help. */
  method TakeOne(config: Config, c: Candidate, sponsored: bool, asset: nat, remaining: nat)
    returns (taken: Option<SourcedAsset>)
    requires remaining > 0
    ensures taken.Some? ==>
              && taken.value.destination == asset
              && taken.value.amountDestination == Min(remaining, MaxTake(config, sponsored, asset)(c))
              && Backed(config, c, sponsored, taken.value)
    ensures taken.None? <==> MaxTake(config, sponsored, asset)(c) == 0
  {
    if (c.chain, asset) !in config.onChain {
      return None;
    }
    var mapped := config.onChain[(c.chain, asset)];
    var balance := Find(c.holdings, mapped.address);
    if balance.None? || mapped.address !in config.destinationDecimals {
      return None;
    }
    var dst := config.destinationDecimals[mapped.address];
    var available := if !sponsored && c.feeToken == mapped.address
                     then Monus(balance.value, c.escrowCost) else balance.value;
    var maxTake := Adjust(available, mapped.decimals, dst);
    if maxTake == 0 {
      return None;
    }
    var take := Min(remaining, maxTake);
    var amountSource := Adjust(take, dst, mapped.decimals);
    AdjustBackFits(available, take, mapped.decimals, dst);
    AdjustValue(take, dst, mapped.decimals);
    NothingFromNothing(mapped.decimals, dst);
    return Some(SourcedAsset(mapped.address, asset, amountSource, take));
  }

  lemma NothingFromNothing(src: nat, dst: nat)
    ensures Adjust(0, src, dst) == 0
  {
  }

  lemma CreditPush(taken: seq<SourcedAsset>, t: SourcedAsset, a: nat)
    ensures Credit(taken + [t], a) == Credit(taken, a) + if t.destination == a then t.amountDestination else 0
  {
    assert (taken + [t])[..|taken|] == taken;
  }

  /** Each asset taken at most once, never one still to come, and everything taken is backed. */
  ghost predicate TakenFor(config: Config, c: Candidate, sponsored: bool, todo: set<nat>, taken: seq<SourcedAsset>) {
    DistinctAssets(taken) && forall t <- taken :: t.destination !in todo && Backed(config, c, sponsored, t)
  }

  /** One asset of the `retain`: what is left of it, and what was taken for it. */
  method Retain(config: Config, c: Candidate, sponsored: bool, asset: nat, left0: map<nat, nat>, taken0: seq<SourcedAsset>,
                ghost todo: set<nat>)
    returns (left: map<nat, nat>, taken: seq<SourcedAsset>)
    requires asset in left0 && forall a <- left0 :: left0[a] > 0
    requires asset in todo && TakenFor(config, c, sponsored, todo, taken0)
    ensures TakenFor(config, c, sponsored, todo - {asset}, taken)
    ensures forall a <- left :: left[a] > 0
    ensures left.Keys <= left0.Keys && forall a | a in left0 && a != asset :: a in left && left[a] == left0[a]
    ensures AmountOf(left, asset) == Monus(left0[asset], MaxTake(config, sponsored, asset)(c))
    ensures forall a :: Credit(taken, a) + AmountOf(left, a) == Credit(taken0, a) + AmountOf(left0, a)
  {
    var one := TakeOne(config, c, sponsored, asset, left0[asset]);
    if one.None? {
      return left0, taken0;
    }
    forall a ensures Credit(taken0 + [one.value], a)
                  == Credit(taken0, a) + if asset == a then one.value.amountDestination else 0
    {
      CreditPush(taken0, one.value, a);
    }
    taken := taken0 + [one.value];
    var rest := left0[asset] - one.value.amountDestination;
    left := if rest == 0 then left0 - {asset} else left0[asset := rest];
  }

  /** The `retain` over the remaining assets, in whatever order the hash map yields them. */
  method DrawOn(config: Config, c: Candidate, sponsored: bool, remaining0: map<nat, nat>)
    returns (remaining: map<nat, nat>, taken: seq<SourcedAsset>)
    requires forall a <- remaining0 :: remaining0[a] > 0
    ensures forall a <- remaining :: remaining[a] > 0
    ensures forall a :: Credit(taken, a) + AmountOf(remaining, a) == AmountOf(remaining0, a)
    ensures forall a :: AmountOf(remaining, a) == Monus(AmountOf(remaining0, a), MaxTake(config, sponsored, a)(c))
    ensures DistinctAssets(taken) && forall t <- taken :: Backed(config, c, sponsored, t)
  {
    remaining, taken := remaining0, [];
    var todo := remaining0.Keys;
    while todo != {}
      invariant todo <= remaining.Keys <= remaining0.Keys && forall a <- remaining :: remaining[a] > 0
      invariant forall a <- todo :: remaining[a] == remaining0[a]
      invariant forall a | a !in todo ::
                  AmountOf(remaining, a) == Monus(AmountOf(remaining0, a), MaxTake(config, sponsored, a)(c))
      invariant forall a :: Credit(taken, a) + AmountOf(remaining, a) == AmountOf(remaining0, a)
      invariant TakenFor(config, c, sponsored, todo, taken)
      decreases todo
    {
      var asset :| asset in todo;
      remaining, taken := Retain(config, c, sponsored, asset, remaining, taken, todo);
      todo := todo - {asset};
    }
  }

  lemma OneMoreFits(amount: nat, p: nat, factor: nat)
    requires amount > 0 && factor >= 2
    ensures Up(amount + 1, p) <= Up(amount, Up(factor, p))
  {
    MulMono(2, factor, amount);
    MulMono(amount + 1, amount * factor, p);
    assert amount * factor * p == amount * (factor * p);
  }

  lemma AtLeastTen(n: nat)
    requires n > 0
    ensures Pow10(n) >= 10
  {
    assert Pow10(n - 1) >= 1;
  }

  lemma TenTimes(amount: nat, low: nat, high: nat)
    requires amount > 0 && low < high
    ensures Up(amount + 1, Pow10(low)) <= Up(amount, Pow10(high))
  {
    Pow10Adds(high - low, low);
    AtLeastTen(high - low);
    OneMoreFits(amount, Pow10(low), Pow10(high - low));
  }

  /** In the token's own decimals a draw that takes something is within one source unit exactly when the
      planner's lookup returned those; one that takes nothing, exactly when its credit is worth less than
      one source unit in them. */
  lemma TrueWorthExactly(config: Config, c: Candidate, sponsored: bool, t: SourcedAsset, actual: nat)
    requires Backed(config, c, sponsored, t)
    ensures var mapped := config.onChain[(c.chain, t.destination)];
            WorthWithin(t, mapped.decimals, actual)
            <==> if t.amountSource > 0 then actual == config.destinationDecimals[mapped.address]
                 else Up(t.amountDestination, Pow10(mapped.decimals)) < Pow10(actual)
  {
    var mapped := config.onChain[(c.chain, t.destination)];
    var lookup := config.destinationDecimals[mapped.address];
    if t.amountSource == 0 {
      FreeWorth(t, mapped.decimals, actual);
    } else if actual < lookup {
      TenTimes(t.amountSource, actual, lookup);
    } else if lookup < actual {
      TenTimes(t.amountSource, lookup, actual);
    }
  }

  lemma FreeWorth(t: SourcedAsset, source: nat, destination: nat)
    requires t.amountSource == 0
    ensures WorthWithin(t, source, destination) <==> Up(t.amountDestination, Pow10(source)) < Pow10(destination)
  {
  }

  /** Everything a plan promises. */
  ghost predicate Sound(config: Config, candidates: seq<Candidate>, sponsored: bool, plan: seq<FundSource>) {
    && (forall s <- plan ::
          s.assets != [] && DistinctAssets(s.assets)
          && exists c <- candidates ::
               && s.chain == c.chain && s.feeToken == c.feeToken && s.cost == c.escrowCost
               && forall t <- s.assets :: Backed(config, c, sponsored, t))
    && forall i, j | 0 <= i < j < |plan| :: plan[i].chain != plan[j].chain
  }

  /** One candidate: its sources join the plan, if it has any to offer. */
  method Extend(config: Config, candidates: seq<Candidate>, i: nat, sponsored: bool, plan0: seq<FundSource>,
                remaining0: map<nat, nat>)
    returns (plan: seq<FundSource>, remaining: map<nat, nat>)
    requires i < |candidates| && Sound(config, candidates[..i], sponsored, plan0)
    requires forall j, k | 0 <= j < k < |candidates| :: candidates[j].chain != candidates[k].chain
    requires forall a <- remaining0 :: remaining0[a] > 0
    ensures Sound(config, candidates[..i + 1], sponsored, plan)
    ensures forall a <- remaining :: remaining[a] > 0
    ensures forall a :: Credited(plan, a) + AmountOf(remaining, a) == Credited(plan0, a) + AmountOf(remaining0, a)
    ensures forall a ::
              AmountOf(remaining, a) == Monus(AmountOf(remaining0, a), MaxTake(config, sponsored, a)(candidates[i]))
    ensures forall a :: CreditOn(plan, candidates[i].chain, a)
                     == Min(AmountOf(remaining0, a), MaxTake(config, sponsored, a)(candidates[i]))
    ensures forall a, chain | chain != candidates[i].chain :: CreditOn(plan, chain, a) == CreditOn(plan0, chain, a)
  {
    var c := candidates[i];
    NothingOnYet(config, candidates, i, sponsored, plan0);
    var taken;
    remaining, taken := DrawOn(config, c, sponsored, remaining0);
    if taken != [] {
      var source := FundSource(c.chain, taken, c.feeToken, c.escrowCost);
      forall a ensures Credited(plan0 + [source], a) == Credited(plan0, a) + Credit(taken, a) {
        assert (plan0 + [source])[..|plan0|] == plan0;
      }
      forall a, chain
        ensures CreditOn(plan0 + [source], chain, a)
             == CreditOn(plan0, chain, a) + if chain == c.chain then Credit(taken, a) else 0
      {
        assert (plan0 + [source])[..|plan0|] == plan0;
      }
      SoundGrows(config, candidates, i, sponsored, plan0, source);
      plan := plan0 + [source];
    } else {
      SoundKept(config, candidates, i, sponsored, plan0);
      plan := plan0;
    }
    assert forall a :: Credit(taken, a) == Min(AmountOf(remaining0, a), MaxTake(config, sponsored, a)(c));
  }

  lemma NothingOnYet(config: Config, candidates: seq<Candidate>, i: nat, sponsored: bool, plan: seq<FundSource>)
    requires i < |candidates| && Sound(config, candidates[..i], sponsored, plan)
    requires forall j, k | 0 <= j < k < |candidates| :: candidates[j].chain != candidates[k].chain
    ensures forall a :: CreditOn(plan, candidates[i].chain, a) == 0
  {
    forall a ensures CreditOn(plan, candidates[i].chain, a) == 0 {
      forall s <- plan ensures s.chain != candidates[i].chain {
        var c :| c in candidates[..i] && s.chain == c.chain;
      }
      SumZero(plan, ChainCredit(candidates[i].chain, a));
    }
  }

  /** The first `i` candidates give what they can, in order, until nothing is missing. */
  ghost predicate DrawnInOrder(config: Config, requested: seq<Request>, existing: map<nat, nat>, candidates: seq<Candidate>,
                               i: nat, sponsored: bool, plan: seq<FundSource>)
    requires i <= |candidates|
  {
    forall j, a | 0 <= j < i ::
      CreditOn(plan, candidates[j].chain, a)
      == Min(Monus(Needed(requested, existing, a), Capacity(config, sponsored, candidates[..j], a)),
             MaxTake(config, sponsored, a)(candidates[j]))
  }

  /** What the loop keeps after `i` candidates. */
  ghost predicate Progress(config: Config, requested: seq<Request>, existing: map<nat, nat>, candidates: seq<Candidate>,
                           i: nat, sponsored: bool, plan: seq<FundSource>, remaining: map<nat, nat>)
    requires i <= |candidates|
  {
    && Sound(config, candidates[..i], sponsored, plan)
    && DrawnInOrder(config, requested, existing, candidates, i, sponsored, plan)
    && (forall a <- remaining :: remaining[a] > 0)
    && (forall a :: Credited(plan, a) + AmountOf(remaining, a) == Needed(requested, existing, a))
    && forall a :: AmountOf(remaining, a)
                == Monus(Needed(requested, existing, a), Capacity(config, sponsored, candidates[..i], a))
  }

  lemma ProgressMade(config: Config, requested: seq<Request>, existing: map<nat, nat>, candidates: seq<Candidate>,
                     i: nat, sponsored: bool, plan0: seq<FundSource>, remaining0: map<nat, nat>,
                     plan: seq<FundSource>, remaining: map<nat, nat>)
    requires i < |candidates|
    requires Progress(config, requested, existing, candidates, i, sponsored, plan0, remaining0)
    requires Sound(config, candidates[..i + 1], sponsored, plan)
    requires forall a <- remaining :: remaining[a] > 0
    requires forall a :: Credited(plan, a) + AmountOf(remaining, a) == Credited(plan0, a) + AmountOf(remaining0, a)
    requires forall a ::
               AmountOf(remaining, a) == Monus(AmountOf(remaining0, a), MaxTake(config, sponsored, a)(candidates[i]))
    requires DrawnInOrder(config, requested, existing, candidates, i + 1, sponsored, plan)
    ensures Progress(config, requested, existing, candidates, i + 1, sponsored, plan, remaining)
  {
    CapacityGrows(config, candidates, i, sponsored);
  }

  lemma OneMoreDrawn(config: Config, requested: seq<Request>, existing: map<nat, nat>, candidates: seq<Candidate>,
                     i: nat, sponsored: bool, plan0: seq<FundSource>, remaining0: map<nat, nat>, plan: seq<FundSource>)
    requires i < |candidates| && forall j, k | 0 <= j < k < |candidates| :: candidates[j].chain != candidates[k].chain
    requires DrawnInOrder(config, requested, existing, candidates, i, sponsored, plan0)
    requires forall a :: AmountOf(remaining0, a)
                      == Monus(Needed(requested, existing, a), Capacity(config, sponsored, candidates[..i], a))
    requires forall a :: CreditOn(plan, candidates[i].chain, a)
                      == Min(AmountOf(remaining0, a), MaxTake(config, sponsored, a)(candidates[i]))
    requires forall a, chain | chain != candidates[i].chain :: CreditOn(plan, chain, a) == CreditOn(plan0, chain, a)
    ensures DrawnInOrder(config, requested, existing, candidates, i + 1, sponsored, plan)
  {
    forall j, a | 0 <= j < i + 1
      ensures CreditOn(plan, candidates[j].chain, a)
           == Min(Monus(Needed(requested, existing, a), Capacity(config, sponsored, candidates[..j], a)),
                  MaxTake(config, sponsored, a)(candidates[j]))
    {
      if j == i {
        assert AmountOf(remaining0, a) == Monus(Needed(requested, existing, a), Capacity(config, sponsored, candidates[..i], a));
      } else {
        assert candidates[j].chain != candidates[i].chain;
      }
    }
  }

  lemma NothingLeft(config: Config, requested: seq<Request>, existing: map<nat, nat>, candidates: seq<Candidate>,
                    i: nat, sponsored: bool, plan: seq<FundSource>)
    requires i < |candidates|
    requires Progress(config, requested, existing, candidates, i + 1, sponsored, plan, map[])
    ensures Sound(config, candidates, sponsored, plan)
    ensures forall a :: Credited(plan, a) == Needed(requested, existing, a)
    ensures forall a :: Needed(requested, existing, a) <= Capacity(config, sponsored, candidates, a)
  {
    SoundAll(config, candidates, i + 1, sponsored, plan);
    CapacityGrows(config, candidates, i, sponsored);
  }

  /** The plan draws on the first `k` candidates only, in order, and fewer would not do. */
  ghost predicate StopsAt(config: Config, requested: seq<Request>, existing: map<nat, nat>, candidates: seq<Candidate>,
                          sponsored: bool, plan: seq<FundSource>, k: nat) {
    && k <= |candidates| && Sound(config, candidates[..k], sponsored, plan)
    && DrawnInOrder(config, requested, existing, candidates, k, sponsored, plan)
    && (k > 0 ==> exists a :: Needed(requested, existing, a) > Capacity(config, sponsored, candidates[..k - 1], a))
  }

  lemma StillShort(config: Config, requested: seq<Request>, existing: map<nat, nat>, candidates: seq<Candidate>, i: nat,
                   sponsored: bool, plan: seq<FundSource>, remaining: map<nat, nat>)
    requires i <= |candidates| && remaining != map[]
    requires Progress(config, requested, existing, candidates, i, sponsored, plan, remaining)
    ensures exists a :: Needed(requested, existing, a) > Capacity(config, sponsored, candidates[..i], a)
  {
    var a :| a in remaining;
    assert AmountOf(remaining, a) > 0;
  }

  /** With what the destination holds, the plan makes up every request exactly; requests already covered
      and assets nobody asked for get nothing. */
  ghost predicate CreditsShortfalls(requested: seq<Request>, existing: map<nat, nat>, plan: seq<FundSource>) {
    && (forall r <- requested ::
          var held := if r.asset in existing then existing[r.asset] else 0;
          if held <= r.amount then Credited(plan, r.asset) + held == r.amount else Credited(plan, r.asset) == 0)
    && forall a | (forall r <- requested :: r.asset != a) :: Credited(plan, a) == 0
  }

  lemma ShortfallsNeeded(config: Config, requested: seq<Request>, existing: map<nat, nat>, candidates: seq<Candidate>,
                         sponsored: bool)
    requires DistinctRequests(requested)
    ensures (forall a :: Needed(requested, existing, a) <= Capacity(config, sponsored, candidates, a))
       <==> forall r <- requested ::
              r.amount <= (if r.asset in existing then existing[r.asset] else 0)
                          + Capacity(config, sponsored, candidates, r.asset)
  {
    forall r <- requested
      ensures Needed(requested, existing, r.asset) <= Capacity(config, sponsored, candidates, r.asset)
         <==> r.amount <= (if r.asset in existing then existing[r.asset] else 0)
                          + Capacity(config, sponsored, candidates, r.asset)
    {
      NeededOf(requested, existing, r.asset);
    }
    forall a | forall r <- requested :: r.asset != a ensures Needed(requested, existing, a) == 0 {
      NeededOf(requested, existing, a);
    }
  }

  lemma PlanMakesUp(requested: seq<Request>, existing: map<nat, nat>, plan: seq<FundSource>)
    requires DistinctRequests(requested) && forall a :: Credited(plan, a) == Needed(requested, existing, a)
    ensures CreditsShortfalls(requested, existing, plan)
  {
    forall r <- requested
      ensures var held := if r.asset in existing then existing[r.asset] else 0;
              if held <= r.amount then Credited(plan, r.asset) + held == r.amount else Credited(plan, r.asset) == 0
    {
      NeededOf(requested, existing, r.asset);
    }
    forall a | forall r <- requested :: r.asset != a ensures Credited(plan, a) == 0 {
      NeededOf(requested, existing, a);
    }
  }

  lemma StopsHere(config: Config, requested: seq<Request>, existing: map<nat, nat>, candidates: seq<Candidate>, i: nat,
                  sponsored: bool, plan: seq<FundSource>)
    requires i < |candidates| && Sound(config, candidates[..i + 1], sponsored, plan)
    requires DrawnInOrder(config, requested, existing, candidates, i + 1, sponsored, plan)
    requires exists a :: Needed(requested, existing, a) > Capacity(config, sponsored, candidates[..i], a)
    ensures exists k :: StopsAt(config, requested, existing, candidates, sponsored, plan, k)
  {
    assert StopsAt(config, requested, existing, candidates, sponsored, plan, i + 1);
  }

  /** One candidate more. */
  method Advance(config: Config, ghost requested: seq<Request>, ghost existing: map<nat, nat>, candidates: seq<Candidate>,
                 i: nat, sponsored: bool, plan0: seq<FundSource>, remaining0: map<nat, nat>)
    returns (plan: seq<FundSource>, remaining: map<nat, nat>)
    requires i < |candidates| && forall j, k | 0 <= j < k < |candidates| :: candidates[j].chain != candidates[k].chain
    requires Progress(config, requested, existing, candidates, i, sponsored, plan0, remaining0) && remaining0 != map[]
    ensures Progress(config, requested, existing, candidates, i + 1, sponsored, plan, remaining)
    ensures exists a :: Needed(requested, existing, a) > Capacity(config, sponsored, candidates[..i], a)
  {
    StillShort(config, requested, existing, candidates, i, sponsored, plan0, remaining0);
    plan, remaining := Extend(config, candidates, i, sponsored, plan0, remaining0);
    OneMoreDrawn(config, requested, existing, candidates, i, sponsored, plan0, remaining0, plan);
    ProgressMade(config, requested, existing, candidates, i, sponsored, plan0, remaining0, plan, remaining);
  }

  /** The search itself, from the shortfalls on. */
  method CoverNeeds(config: Config, requested: seq<Request>, existing: map<nat, nat>, candidates: seq<Candidate>,
                    sponsored: bool) returns (result: Option<seq<FundSource>>)
    requires DistinctRequests(requested)
    requires forall i, j | 0 <= i < j < |candidates| :: candidates[i].chain != candidates[j].chain
    ensures result.Some? ==> Sound(config, candidates, sponsored, result.value)
    ensures result.Some? ==> forall a :: Credited(result.value, a) == Needed(requested, existing, a)
    ensures result.Some? <==>
              forall a :: Needed(requested, existing, a) <= Capacity(config, sponsored, candidates, a)
    ensures (forall r <- requested :: Needed(requested, existing, r.asset) == 0) ==> result == Some([])
    ensures result.Some? ==> exists k :: StopsAt(config, requested, existing, candidates, sponsored, result.value, k)
  {
    var remaining := Shortfall(requested, existing);
    NeedOnlyRequested(requested, existing);
    if remaining == map[] {
      assert StopsAt(config, requested, existing, candidates, sponsored, [], 0);
      return Some([]);
    }
    var needed :| needed in remaining;
    assert AmountOf(remaining, needed) > 0;
    var plan: seq<FundSource> := [];
    for i := 0 to |candidates|
      invariant Progress(config, requested, existing, candidates, i, sponsored, plan, remaining)
      invariant remaining != map[]
    {
      plan, remaining := Advance(config, requested, existing, candidates, i, sponsored, plan, remaining);
      if remaining == map[] {
        NothingLeft(config, requested, existing, candidates, i, sponsored, plan);
        StopsHere(config, requested, existing, candidates, i, sponsored, plan);
        return Some(plan);
      }
    }
    assert candidates[..|candidates|] == candidates;
    StillShort(config, requested, existing, candidates, |candidates|, sponsored, plan, remaining);
    return None;
  }

  /** Finds a plan exactly when the candidates can cover every shortfall; the plan then makes up every
      request exactly, and stops at the first candidate that covers them all. */
  method PlanFunds(config: Config, requested: seq<Request>, existing: map<nat, nat>, candidates: seq<Candidate>,
                   sponsored: bool) returns (result: Option<seq<FundSource>>)
    requires DistinctRequests(requested)
    requires forall i, j | 0 <= i < j < |candidates| :: candidates[i].chain != candidates[j].chain
    ensures result.Some? ==> Sound(config, candidates, sponsored, result.value)
    ensures result.Some? ==> CreditsShortfalls(requested, existing, result.value)
    ensures result.Some? ==> forall a :: Credited(result.value, a) == Needed(requested, existing, a)
    ensures result.Some? <==>
              forall r <- requested ::
                r.amount <= (if r.asset in existing then existing[r.asset] else 0)
                            + Capacity(config, sponsored, candidates, r.asset)
    ensures (forall r <- requested :: r.amount <= if r.asset in existing then existing[r.asset] else 0) ==> result == Some([])
    ensures result.Some? ==> exists k :: StopsAt(config, requested, existing, candidates, sponsored, result.value, k)
  {
    result := CoverNeeds(config, requested, existing, candidates, sponsored);
    ShortfallsNeeded(config, requested, existing, candidates, sponsored);
    if result.Some? {
      PlanMakesUp(requested, existing, result.value);
    }
    NothingNeeded(requested, existing);
  }

  lemma NothingNeeded(requested: seq<Request>, existing: map<nat, nat>)
    requires DistinctRequests(requested)
    ensures (forall r <- requested :: r.amount <= if r.asset in existing then existing[r.asset] else 0) ==>
              forall r <- requested :: Needed(requested, existing, r.asset) == 0
  {
    forall r <- requested
      ensures r.amount <= (if r.asset in existing then existing[r.asset] else 0) ==> Needed(requested, existing, r.asset) == 0
    {
      NeededOf(requested, existing, r.asset);
    }
  }

  // ---------------------------------------------------------------- as few chains as possible

  /** The candidates in descending order of what they can contribute; with a sponsored fee that is the
      balance they are sorted by. */
  predicate Descending(config: Config, sponsored: bool, candidates: seq<Candidate>, a: nat) {
    forall i, j | 0 <= i < j < |candidates| ::
      MaxTake(config, sponsored, a)(candidates[i]) >= MaxTake(config, sponsored, a)(candidates[j])
  }

  function Chains(plan: seq<FundSource>): set<nat> {
    set s <- plan :: s.chain
  }

  function CandidateChains(candidates: seq<Candidate>): set<nat> {
    set c <- candidates :: c.chain
  }

  lemma {:induction false} DistinctChains(plan: seq<FundSource>)
    requires forall i, j | 0 <= i < j < |plan| :: plan[i].chain != plan[j].chain
    ensures |Chains(plan)| == |plan|
  {
    if plan != [] {
      var init, last := plan[..|plan| - 1], plan[|plan| - 1];
      DistinctChains(init);
      assert plan == init + [last];
      assert Chains(plan) == Chains(init) + {last.chain};
    }
  }

  lemma {:induction false} FewCandidateChains(candidates: seq<Candidate>)
    ensures |CandidateChains(candidates)| <= |candidates|
  {
    if candidates != [] {
      var init, last := candidates[..|candidates| - 1], candidates[|candidates| - 1];
      FewCandidateChains(init);
      assert candidates == init + [last];
      assert CandidateChains(candidates) == CandidateChains(init) + {last.chain};
    }
  }

  lemma SubsetSize(s: set<nat>, t: set<nat>)
    requires s <= t
    ensures |s| <= |t|
  {
    assert t == s + (t - s);
  }

  /** A sound plan has no more sources than there are candidates. */
  lemma SourcesPerCandidate(config: Config, candidates: seq<Candidate>, sponsored: bool, plan: seq<FundSource>)
    requires Sound(config, candidates, sponsored, plan)
    ensures |plan| <= |candidates|
  {
    DistinctChains(plan);
    FewCandidateChains(candidates);
    forall chain <- Chains(plan) ensures chain in CandidateChains(candidates) {
      var s :| s in plan && s.chain == chain;
      var c :| c in candidates && s.chain == c.chain;
    }
    SubsetSize(Chains(plan), CandidateChains(candidates));
  }

  /** The candidates at some increasing positions. */
  predicate Picks(positions: seq<nat>, n: nat) {
    && (forall i | 0 <= i < |positions| :: positions[i] < n)
    && forall i, j | 0 <= i < j < |positions| :: positions[i] < positions[j]
  }

  function Picked(candidates: seq<Candidate>, positions: seq<nat>): seq<Candidate>
    requires Picks(positions, |candidates|)
  {
    seq(|positions|, i requires 0 <= i < |positions| => candidates[positions[i]])
  }

  lemma {:induction false} PicksSpread(positions: seq<nat>, n: nat, i: nat)
    requires Picks(positions, n) && i < |positions|
    ensures positions[i] >= i
  {
    if i > 0 {
      PicksSpread(positions, n, i - 1);
    }
  }

  /** Of equally many candidates, the first ones contribute the most. */
  lemma {:induction false} FirstOnesBest(config: Config, sponsored: bool, candidates: seq<Candidate>, a: nat, positions: seq<nat>)
    requires Descending(config, sponsored, candidates, a) && Picks(positions, |candidates|)
    ensures |positions| <= |candidates|
    ensures Capacity(config, sponsored, Picked(candidates, positions), a)
         <= Capacity(config, sponsored, candidates[..|positions|], a)
  {
    if positions != [] {
      var last := |positions| - 1;
      PicksSpread(positions, |candidates|, last);
      FirstOnesBest(config, sponsored, candidates, a, positions[..last]);
      assert Picked(candidates, positions)[..last] == Picked(candidates, positions[..last]);
      assert candidates[..last + 1][..last] == candidates[..last];
    }
  }

  lemma {:induction false} CapacityPrefix(config: Config, sponsored: bool, candidates: seq<Candidate>, m: nat, n: nat, a: nat)
    requires m <= n <= |candidates|
    ensures Capacity(config, sponsored, candidates[..m], a) <= Capacity(config, sponsored, candidates[..n], a)
  {
    assert candidates[..n] == candidates[..m] + candidates[m..n];
    SumAppend(candidates[..m], candidates[m..n], MaxTake(config, sponsored, a));
  }

  lemma ShortBefore(config: Config, request: Request, existing: map<nat, nat>, candidates: seq<Candidate>, sponsored: bool,
                    plan: seq<FundSource>, k: nat)
    requires StopsAt(config, [request], existing, candidates, sponsored, plan, k) && k > 0
    ensures Needed([request], existing, request.asset) > Capacity(config, sponsored, candidates[..k - 1], request.asset)
  {
    assert [request][..0] == [];
    assert forall a | a != request.asset :: Needed([request], existing, a) == 0;
  }

  lemma NeedsThatMany(config: Config, candidates: seq<Candidate>, sponsored: bool, a: nat, needed: nat, k: nat,
                      positions: seq<nat>)
    requires Descending(config, sponsored, candidates, a) && Picks(positions, |candidates|) && k <= |candidates|
    requires k > 0 ==> needed > Capacity(config, sponsored, candidates[..k - 1], a)
    requires needed <= Capacity(config, sponsored, Picked(candidates, positions), a)
    ensures k <= |positions|
  {
    FirstOnesBest(config, sponsored, candidates, a, positions);
    if |positions| < k {
      CapacityPrefix(config, sponsored, candidates, |positions|, k - 1, a);
    }
  }

  /** For a single asset, whatever candidates could cover the shortfall, the plan draws on no more chains. */
  lemma FewestChains(config: Config, request: Request, existing: map<nat, nat>, candidates: seq<Candidate>, sponsored: bool,
                     plan: seq<FundSource>, k: nat, positions: seq<nat>)
    requires Descending(config, sponsored, candidates, request.asset) && Picks(positions, |candidates|)
    requires StopsAt(config, [request], existing, candidates, sponsored, plan, k)
    requires Needed([request], existing, request.asset)
             <= Capacity(config, sponsored, Picked(candidates, positions), request.asset)
    ensures |plan| <= |positions|
  {
    SourcesPerCandidate(config, candidates[..k], sponsored, plan);
    if k > 0 {
      ShortBefore(config, request, existing, candidates, sponsored, plan, k);
    }
    NeedsThatMany(config, candidates, sponsored, request.asset, Needed([request], existing, request.asset), k, positions);
  }

  /** One token at the same decimals everywhere: the larger balance first, but it also pays an escrow cost
      that the sorting does not know of. */
  const LEVEL := Config(map[(1, 0) := Mapped(7, 0), (2, 0) := Mapped(7, 0)], map[(1, 7) := 0, (2, 7) := 0], map[7 := 0])
  const LARGER := Candidate(1, [Holding(7, 10)], 7, 9)
  const SMALLER := Candidate(2, [Holding(7, 8)], 7, 0)

  /** A single source would be the larger balance, which has one unit to give. */
  lemma OneSourceGivesOne(s: FundSource, k: nat)
    requires StopsAt(LEVEL, [Request(0, 8)], map[], [LARGER, SMALLER], false, [s], k)
    ensures Credited([s], 0) == 1
  {
    var cs := [LARGER, SMALLER];
    assert [s][0] in [s] && [Request(0, 8)][..0] == [] && cs[..0] == [];
    assert CreditOn([s], cs[0].chain, 0) == Min(Monus(8, 0), MaxTake(LEVEL, false, 0)(LARGER)) == 1;
    SumOne(s, ChainCredit(1, 0));
    SumOne(s, PlanCredit(0));
  }

  /** So without a sponsored fee two chains are drawn on where the second alone would do. */
  lemma FeesCostAChain(plan: seq<FundSource>, k: nat)
    requires StopsAt(LEVEL, [Request(0, 8)], map[], [LARGER, SMALLER], false, plan, k) && Credited(plan, 0) == 8
    ensures Descending(LEVEL, true, [LARGER, SMALLER], 0)
    ensures Capacity(LEVEL, false, [SMALLER], 0) >= Needed([Request(0, 8)], map[], 0)
    ensures |plan| == 2
  {
    SumOne(SMALLER, MaxTake(LEVEL, false, 0));
    assert [Request(0, 8)][..0] == [];
    SourcesPerCandidate(LEVEL, [LARGER, SMALLER][..k], false, plan);
    if |plan| == 1 {
      assert plan == [plan[0]];
      OneSourceGivesOne(plan[0], k);
    }
  }

  // ---------------------------------------------------------------- the lookup by the mapped address

  /** What `PlanFunds` may return: its inputs are as required, and its contract holds of the plan. */
  ghost predicate Returned(config: Config, requested: seq<Request>, existing: map<nat, nat>, candidates: seq<Candidate>,
                           sponsored: bool, plan: seq<FundSource>) {
    && DistinctRequests(requested)
    && (forall i, j | 0 <= i < j < |candidates| :: candidates[i].chain != candidates[j].chain)
    && (forall a :: Needed(requested, existing, a) <= Capacity(config, sponsored, candidates, a))
    && Sound(config, candidates, sponsored, plan)
    && forall a :: Credited(plan, a) == Needed(requested, existing, a)
  }

  /** Draw `t` of source `s` maps between these decimals, as the planner looks them up. */
  predicate DrawnBetween(config: Config, s: FundSource, t: SourcedAsset, source: nat, lookup: nat) {
    && (s.chain, t.destination) in config.onChain
    && var mapped := config.onChain[(s.chain, t.destination)];
       mapped.decimals == source && mapped.address in config.destinationDecimals
       && config.destinationDecimals[mapped.address] == lookup
  }

  /** One token on chain 1, looked up at `lookup` decimals, and one of it held there. */
  function OneToken(source: nat, lookup: nat): Config {
    Config(map[(1, 0) := Mapped(7, source)], map[(1, 7) := 0], map[7 := lookup])
  }

  function OneHolder(source: nat): Candidate {
    Candidate(1, [Holding(7, Pow10(source))], 0, 0)
  }

  lemma OneTokenTake(source: nat, lookup: nat, a: nat)
    ensures Capacity(OneToken(source, lookup), true, [OneHolder(source)], a) == if a == 0 then Pow10(lookup) else 0
  {
    OneTokenAdjusts(source, lookup);
    SumOne(OneHolder(source), MaxTake(OneToken(source, lookup), true, a));
  }

  lemma OneTokenNeeded(lookup: nat, a: nat)
    ensures Needed([Request(0, Pow10(lookup))], map[], a) == if a == 0 then Pow10(lookup) else 0
  {
    assert [Request(0, Pow10(lookup))][..0] == [];
  }

  lemma PowersUp(m: nat, n: nat)
    ensures Up(Pow10(m), Pow10(n)) == Pow10(m + n)
  {
    Pow10Adds(m, n);
  }

  lemma OneTokenAdjusts(source: nat, lookup: nat)
    ensures Adjust(Pow10(source), source, lookup) == Pow10(lookup)
  {
    if source > lookup {
      PowersUp(lookup, source - lookup);
      ExactDown(Pow10(lookup), Pow10(source - lookup));
    } else {
      PowersUp(source, lookup - source);
    }
  }

  lemma ExactDown(amount: nat, factor: nat)
    requires factor > 0
    ensures Down(Up(amount, factor), factor) == amount
  {
    DownBounds(Up(amount, factor), factor);
    Cancel(Down(Up(amount, factor), factor), amount, factor);
    DownAtLeast(Up(amount, factor), amount, factor);
  }

  /** With one candidate and one asset there is one draw, and it is the whole credit. */
  lemma OnlyDraw(config: Config, c: Candidate, sponsored: bool, plan: seq<FundSource>)
    requires Sound(config, [c], sponsored, plan) && Credited(plan, 0) > 0
    requires forall k <- config.onChain :: k.1 == 0
    ensures |plan| == 1 && plan[0].chain == c.chain && |plan[0].assets| == 1
    ensures Backed(config, c, sponsored, plan[0].assets[0]) && plan[0].assets[0].amountDestination == Credited(plan, 0)
  {
    forall s <- plan ensures s.chain == c.chain && forall t <- s.assets :: Backed(config, c, sponsored, t) {
      var d :| d in [c] && s.chain == d.chain && forall t <- s.assets :: Backed(config, d, sponsored, t);
    }
    assert plan != [] && plan[0].chain == plan[|plan| - 1].chain;
    var assets := plan[0].assets;
    forall t <- assets ensures t.destination == 0 && Backed(config, c, sponsored, t) {
      assert (c.chain, t.destination) in config.onChain;
    }
    assert assets[0].destination == assets[|assets| - 1].destination;
    assert plan == [plan[0]] && assets == [assets[0]];
    SumOne(plan[0], PlanCredit(0));
    SumOne(assets[0], CreditTo(0));
  }

  ghost predicate WrongDraw(config: Config, s: FundSource, source: nat, lookup: nat, actual: nat) {
    exists t <- s.assets :: DrawnBetween(config, s, t, source, lookup) && !WorthWithin(t, source, actual)
  }

  /** A call for one token's worth gets a plan. */
  lemma OneTokenPlanned(source: nat, lookup: nat)
    ensures forall a :: Needed([Request(0, Pow10(lookup))], map[], a)
                     <= Capacity(OneToken(source, lookup), true, [OneHolder(source)], a)
  {
    forall a ensures Needed([Request(0, Pow10(lookup))], map[], a)
                  <= Capacity(OneToken(source, lookup), true, [OneHolder(source)], a)
    {
      OneTokenTake(source, lookup, a);
      OneTokenNeeded(lookup, a);
    }
  }

  /** Whatever plan it gets holds, under a wrong lookup, a draw that is not within one source unit in the
      token's own decimals. */
  lemma WrongLookupShows(source: nat, lookup: nat, actual: nat, plan: seq<FundSource>)
    requires lookup != actual
    requires Returned(OneToken(source, lookup), [Request(0, Pow10(lookup))], map[], [OneHolder(source)], true, plan)
    ensures exists s <- plan :: WrongDraw(OneToken(source, lookup), s, source, lookup, actual)
  {
    var config, c := OneToken(source, lookup), OneHolder(source);
    OneTokenNeeded(lookup, 0);
    OnlyDraw(config, c, true, plan);
    OneTokenDraw(c, plan[0].assets[0], source, lookup);
    TrueWorthExactly(config, c, true, plan[0].assets[0], actual);
    assert plan[0] in plan && DrawnBetween(config, plan[0], plan[0].assets[0], source, lookup);
  }

  lemma OneTokenDraw(c: Candidate, t: SourcedAsset, source: nat, lookup: nat)
    requires c.chain == 1 && Backed(OneToken(source, lookup), c, true, t) && t.amountDestination == Pow10(lookup)
    ensures t.destination == 0 && t.amountSource > 0
  {
    assert (1, t.destination) in OneToken(source, lookup).onChain;
    if t.amountSource == 0 {
      FreeWorth(t, source, lookup);
      MulMono(1, Pow10(source), Pow10(lookup));
    }
  }

  lemma Crosswise(a: nat, b: nat)
    requires b > 0
    ensures Up(a, b) <= Up(b, a) < Up(a + 1, b)
  {
  }

  /** The plan such a call returns. */
  lemma OneTokenPlan(source: nat, lookup: nat) returns (plan: seq<FundSource>)
    ensures Returned(OneToken(source, lookup), [Request(0, Pow10(lookup))], map[], [OneHolder(source)], true, plan)
  {
    var c, t := OneHolder(source), SourcedAsset(7, 0, Pow10(source), Pow10(lookup));
    var s := FundSource(1, [t], 0, 0);
    plan := [s];
    Crosswise(Pow10(source), Pow10(lookup));
    assert c in [c] && Backed(OneToken(source, lookup), c, true, t);
    OneTokenPlanned(source, lookup);
    forall a ensures Credited(plan, a) == Needed([Request(0, Pow10(lookup))], map[], a) {
      OneTokenNeeded(lookup, a);
      SumOne(s, PlanCredit(a));
      SumOne(t, CreditTo(a));
    }
  }

  /** Every draw the planner makes between a source's and looked-up decimals is within one source unit in
      the token's own decimals exactly when the lookup returned those. */
  lemma LookupExactly(source: nat, lookup: nat, actual: nat)
    ensures (forall config, requested, existing, candidates, sponsored, plan: seq<FundSource>, s: FundSource, t
               | Returned(config, requested, existing, candidates, sponsored, plan) && s in plan && t in s.assets
                 && DrawnBetween(config, s, t, source, lookup) :: WorthWithin(t, source, actual))
       <==> lookup == actual
  {
    if lookup == actual {
      forall config, requested, existing, candidates, sponsored, plan: seq<FundSource>, s: FundSource, t
        | Returned(config, requested, existing, candidates, sponsored, plan) && s in plan && t in s.assets
          && DrawnBetween(config, s, t, source, lookup)
        ensures WorthWithin(t, source, actual)
      {
        var c: Candidate :| c in candidates && s.chain == c.chain && forall u <- s.assets :: Backed(config, c, sponsored, u);
        assert Backed(config, c, sponsored, t);
      }
    } else {
      var plan := OneTokenPlan(source, lookup);
      WrongLookupShows(source, lookup, actual, plan);
      var s :| s in plan && WrongDraw(OneToken(source, lookup), s, source, lookup, actual);
      var t :| t in s.assets && DrawnBetween(OneToken(source, lookup), s, t, source, lookup) && !WorthWithin(t, source, actual);
      assert Returned(OneToken(source, lookup), [Request(0, Pow10(lookup))], map[], [OneHolder(source)], true, plan);
    }
  }

  lemma CapacityGrows(config: Config, candidates: seq<Candidate>, i: nat, sponsored: bool)
    requires i < |candidates|
    ensures forall a ::
              Capacity(config, sponsored, candidates[..i + 1], a)
              == Capacity(config, sponsored, candidates[..i], a) + MaxTake(config, sponsored, a)(candidates[i])
              <= Capacity(config, sponsored, candidates, a)
  {
    forall a
      ensures Capacity(config, sponsored, candidates[..i + 1], a)
           == Capacity(config, sponsored, candidates[..i], a) + MaxTake(config, sponsored, a)(candidates[i])
           <= Capacity(config, sponsored, candidates, a)
    {
      assert candidates[..i + 1][..i] == candidates[..i];
      assert candidates == candidates[..i + 1] + candidates[i + 1..];
      SumAppend(candidates[..i + 1], candidates[i + 1..], MaxTake(config, sponsored, a));
    }
  }

  lemma {:induction false} NeedOnlyRequested(requested: seq<Request>, existing: map<nat, nat>)
    ensures forall a :: Needed(requested, existing, a) > 0 ==> exists r <- requested :: r.asset == a
  {
    if requested != [] {
      NeedOnlyRequested(requested[..|requested| - 1], existing);
      assert requested[|requested| - 1] in requested;
    }
  }

  lemma SoundKept(config: Config, candidates: seq<Candidate>, i: nat, sponsored: bool, plan: seq<FundSource>)
    requires i < |candidates| && Sound(config, candidates[..i], sponsored, plan)
    ensures Sound(config, candidates[..i + 1], sponsored, plan)
  {
    assert candidates[..i + 1] == candidates[..i] + [candidates[i]];
  }

  lemma SoundGrows(config: Config, candidates: seq<Candidate>, i: nat, sponsored: bool, plan: seq<FundSource>,
                   source: FundSource)
    requires i < |candidates| && Sound(config, candidates[..i], sponsored, plan)
    requires forall j, k | 0 <= j < k < |candidates| :: candidates[j].chain != candidates[k].chain
    requires source.assets != [] && DistinctAssets(source.assets)
    requires var c := candidates[i];
             && source.chain == c.chain && source.feeToken == c.feeToken && source.cost == c.escrowCost
             && forall t <- source.assets :: Backed(config, c, sponsored, t)
    ensures Sound(config, candidates[..i + 1], sponsored, plan + [source])
  {
    SoundKept(config, candidates, i, sponsored, plan);
    assert candidates[i] in candidates[..i + 1];
    forall s <- plan ensures s.chain != source.chain {
      var c :| c in candidates[..i] && s.chain == c.chain;
    }
  }

  lemma SoundAll(config: Config, candidates: seq<Candidate>, i: nat, sponsored: bool, plan: seq<FundSource>)
    requires i <= |candidates| && Sound(config, candidates[..i], sponsored, plan)
    ensures Sound(config, candidates, sponsored, plan)
  {
    assert candidates == candidates[..i] + candidates[i..];
  }

  // ---------------------------------------------------------------- what a plan takes from the sources

  lemma {:induction false} UsableHeld(config: Config, requested: seq<Request>, chain: nat, holdings: seq<Holding>, h: Holding)
    requires h in Usable(config, requested, chain, holdings)
    ensures h in holdings
  {
    if holdings != [] {
      var init := holdings[..|holdings| - 1];
      assert holdings == init + [holdings[|holdings| - 1]];
      if h in Usable(config, requested, chain, init) {
        UsableHeld(config, requested, chain, init, h);
      }
    }
  }

  lemma {:induction false} FindHeld(holdings: seq<Holding>, asset: nat)
    requires Find(holdings, asset).Some?
    ensures Holding(asset, Find(holdings, asset).value) in holdings
  {
    if holdings[0].asset != asset {
      FindHeld(holdings[1..], asset);
    }
  }

  /** A plan made over the simulated sources never draws on the destination, draws on no chain twice,
      and takes each asset out of a holding the account has there, escrow cost included. */
  lemma PlanWithinHoldings(config: Config, requested: seq<Request>, all: map<nat, seq<Holding>>, destination: nat,
                           feeToken: Option<nat>, candidates: seq<Candidate>, sponsored: bool, plan: seq<FundSource>)
    requires CandidatesFrom(candidates, Sources(config, requested, all, destination, feeToken))
    requires Sound(config, candidates, sponsored, plan)
    ensures forall i, j | 0 <= i < j < |plan| :: plan[i].chain != plan[j].chain
    ensures forall s <- plan :: s.chain != destination && s.chain in all
    ensures forall s <- plan, t <- s.assets ::
              exists h <- all[s.chain] ::
                && h.asset == t.source
                && t.amountSource + (if !sponsored && s.feeToken == t.source then s.cost else 0) <= h.amount
  {
    forall s <- plan, t <- s.assets
      ensures exists h <- all[s.chain] ::
                && h.asset == t.source
                && t.amountSource + (if !sponsored && s.feeToken == t.source then s.cost else 0) <= h.amount
    {
      var c :| c in candidates && s.chain == c.chain && s.feeToken == c.feeToken && s.cost == c.escrowCost
               && forall u <- s.assets :: Backed(config, c, sponsored, u);
      FindHeld(c.holdings, t.source);
      UsableHeld(config, requested, c.chain, all[c.chain], Holding(t.source, Find(c.holdings, t.source).value));
    }
  }

  predicate Injective(config: Config) {
    forall k <- config.onChain, l <- config.onChain ::
      k.0 == l.0 && config.onChain[k].address == config.onChain[l].address ==> k == l
  }

  function DrawnAmount(address: nat): SourcedAsset -> nat {
    (t: SourcedAsset) => if t.source == address then t.amountSource else 0
  }

  ghost function PlanDraw(chain: nat, address: nat): FundSource -> nat {
    (s: FundSource) => if s.chain == chain then Sum(s.assets, DrawnAmount(address)) else 0
  }

  lemma DrawnOnce(config: Config, c: Candidate, sponsored: bool, taken: seq<SourcedAsset>, address: nat)
    requires Injective(config) && DistinctAssets(taken)
    requires forall t <- taken :: Backed(config, c, sponsored, t)
    ensures var drawn := Sum(taken, DrawnAmount(address));
            drawn > 0 ==> Find(c.holdings, address).Some?
                          && drawn + Fee(c, address, sponsored) <= Find(c.holdings, address).value
  {
    if t :| t in taken && t.source == address {
      var i :| 0 <= i < |taken| && taken[i] == t;
      forall j | 0 <= j < |taken| && j != i ensures taken[j].source != address {
        assert Backed(config, c, sponsored, taken[j]);
        assert taken[j].destination != t.destination;
      }
      SumSingle(taken, i, DrawnAmount(address));
    } else {
      SumZero(taken, DrawnAmount(address));
    }
  }

  /** Under an injective asset mapping, all that a plan draws of one asset on one chain, with the
      escrow cost it also pays for, fits the single balance held there. */
  lemma PlanDrawFits(config: Config, candidates: seq<Candidate>, sponsored: bool, plan: seq<FundSource>, c: Candidate,
                     address: nat)
    requires Injective(config) && Sound(config, candidates, sponsored, plan) && c in candidates
    requires forall i, j | 0 <= i < j < |candidates| :: candidates[i].chain != candidates[j].chain
    ensures var drawn := Sum(plan, PlanDraw(c.chain, address));
            drawn > 0 ==> Find(c.holdings, address).Some?
                          && drawn + Fee(c, address, sponsored) <= Find(c.holdings, address).value
  {
    if s :| s in plan && s.chain == c.chain {
      var i :| 0 <= i < |plan| && plan[i] == s;
      SumSingle(plan, i, PlanDraw(c.chain, address));
      var d :| d in candidates && s.chain == d.chain && forall t <- s.assets :: Backed(config, d, sponsored, t);
      assert d == c;
      DrawnOnce(config, c, sponsored, s.assets, address);
    } else {
      SumZero(plan, PlanDraw(c.chain, address));
    }
  }

  // ---------------------------------------------------------------- the transfers the plan pays for

  /** Credits of one source folded into the transfers. */
  method AddCredits(start: map<nat, nat>, taken: seq<SourcedAsset>) returns (transfers: map<nat, nat>)
    ensures forall a :: AmountOf(transfers, a) == AmountOf(start, a) + Credit(taken, a)
    ensures forall a <- transfers :: a in start || exists t <- taken :: t.destination == a
  {
    transfers := start;
    for i := 0 to |taken|
      invariant forall a :: AmountOf(transfers, a) == AmountOf(start, a) + Credit(taken[..i], a)
      invariant forall a <- transfers :: a in start || exists t <- taken :: t.destination == a
    {
      forall a ensures Credit(taken[..i + 1], a) == Credit(taken[..i], a) + CreditTo(a)(taken[i]) {
        assert taken[..i + 1][..i] == taken[..i];
      }
      var t := taken[i];
      transfers := transfers[t.destination := AmountOf(transfers, t.destination) + t.amountDestination];
    }
    assert taken[..|taken|] == taken;
  }

  /** Per-asset transfers of a plan, refused if the funder cannot pay one of them on the destination. */
  method FundTransfers(plan: seq<FundSource>, funder: map<nat, nat>) returns (result: Option<map<nat, nat>>)
    ensures result.Some? <==> forall a :: Credited(plan, a) <= AmountOf(funder, a)
    ensures result.Some? ==> forall a :: AmountOf(result.value, a) == Credited(plan, a)
  {
    var transfers: map<nat, nat> := map[];
    for i := 0 to |plan|
      invariant forall a :: AmountOf(transfers, a) == Credited(plan[..i], a)
    {
      transfers := AddCredits(transfers, plan[i].assets);
      forall a ensures Credited(plan[..i + 1], a) == Credited(plan[..i], a) + PlanCredit(a)(plan[i]) {
        assert plan[..i + 1][..i] == plan[..i];
      }
    }
    assert plan[..|plan|] == plan;
    var todo := transfers.Keys;
    while todo != {}
      invariant todo <= transfers.Keys
      invariant forall a <- transfers :: a in todo || transfers[a] <= AmountOf(funder, a)
      decreases todo
    {
      var token :| token in todo;
      if AmountOf(funder, token) < transfers[token] {
        assert AmountOf(transfers, token) > AmountOf(funder, token);
        return None;
      }
      todo := todo - {token};
    }
    return Some(transfers);
  }
}
