/** Fee estimation for new and replacement transactions. Amounts are wei without overflow. */
module Fees {
  import opened Common

  const MIN_GAS_PRICE_BUMP := 10
  const BASE_FEE_DELTA := 20
  const PRIORITY_FEE_THRESHOLD := 10

  datatype FeesError = CantAffordReplacement | CantAffordBaseFee

  datatype Estimation = Estimation(maxFee: nat, priorityFee: nat)

  datatype FeeContext = FeeContext(lastBaseFee: nat, recommendedPriorityFee: nat)

  /** A signed transaction; only EIP-1559 and EIP-7702 ones carry a priority fee. */
  datatype TxEnvelope =
    | Legacy(gasPrice: nat)
    | Eip1559(maxFee: nat, priorityFee: nat)
    | Eip7702(maxFee: nat, priorityFee: nat)

  function MaxFee(tx: TxEnvelope): nat {
    match tx
    case Legacy(p) => p
    case Eip1559(m, _) => m
    case Eip7702(m, _) => m
  }

  function PriorityFee(tx: TxEnvelope): Option<nat> {
    match tx
    case Legacy(_) => None
    case Eip1559(_, p) => Some(p)
    case Eip7702(_, p) => Some(p)
  }

  function PriorityOr(tx: TxEnvelope, default: nat): nat {
    match PriorityFee(tx)
    case Some(p) => p
    case None => default
  }

  /** The smallest replacement fee the network is assumed to accept, also the drift tolerated. */
  function Bumped(fee: nat): nat {
    fee * (100 + MIN_GAS_PRICE_BUMP) / 100
  }

  function WithDelta(baseFee: nat): nat {
    baseFee * (100 + BASE_FEE_DELTA) / 100
  }

  function NewFees(ctx: FeeContext, budget: nat): Result<Estimation, FeesError> {
    if budget < ctx.lastBaseFee then Err(CantAffordBaseFee)
    else
      var maxFee := Min(budget, WithDelta(ctx.lastBaseFee) + ctx.recommendedPriorityFee);
      Ok(Estimation(maxFee, Min(ctx.recommendedPriorityFee, maxFee)))
  }

  predicate ShouldBumpBaseFee(ctx: FeeContext, tx: TxEnvelope) {
    MaxFee(tx) < ctx.lastBaseFee
  }

  predicate ShouldBumpPriorityFee(ctx: FeeContext, tx: TxEnvelope) {
    ctx.recommendedPriorityFee > PriorityOr(tx, 0) * (100 + PRIORITY_FEE_THRESHOLD) / 100
  }

  predicate ShouldBump(ctx: FeeContext, tx: TxEnvelope) {
    ShouldBumpBaseFee(ctx, tx) || ShouldBumpPriorityFee(ctx, tx)
  }

  /** The unsigned subtraction in the priority bump, before it can wrap. */
  function PriorityIncrease(ctx: FeeContext, tx: TxEnvelope): int {
    if ShouldBumpPriorityFee(ctx, tx) then ctx.recommendedPriorityFee - PriorityOr(tx, MaxFee(tx)) else 0
  }

  /** What the replacement should pay before the floor and the budget are applied. */
  function Wanted(ctx: FeeContext, tx: TxEnvelope): Estimation
    requires PriorityIncrease(ctx, tx) >= 0
  {
    var base := if ShouldBumpBaseFee(ctx, tx) then WithDelta(ctx.lastBaseFee) else MaxFee(tx);
    Estimation(base + PriorityIncrease(ctx, tx), PriorityOr(tx, MaxFee(tx)) + PriorityIncrease(ctx, tx))
  }

  /** The computation reaches the subtraction and it would go below zero. */
  predicate Underflows(ctx: FeeContext, tx: TxEnvelope, budget: nat) {
    ShouldBump(ctx, tx) && Bumped(MaxFee(tx)) <= budget && ctx.lastBaseFee <= budget && PriorityIncrease(ctx, tx) < 0
  }

  function Replacement(ctx: FeeContext, tx: TxEnvelope, budget: nat): Result<Option<Estimation>, FeesError>
    requires !Underflows(ctx, tx, budget)
  {
    if !ShouldBump(ctx, tx) then Ok(None)
    else if Bumped(MaxFee(tx)) > budget then
      if ShouldBumpBaseFee(ctx, tx) then Err(CantAffordReplacement) else Ok(None)
    else if budget < ctx.lastBaseFee then Err(CantAffordBaseFee)
    else
      var wanted := Wanted(ctx, tx);
      var maxFee := Min(Max(wanted.maxFee, Bumped(MaxFee(tx))), budget);
      Ok(Some(Estimation(maxFee, Min(Max(wanted.priorityFee, Bumped(PriorityOr(tx, MaxFee(tx)))), maxFee))))
  }

  /** The subtraction is safe for every EIP-1559 and EIP-7702 transaction, and for a legacy one that
      gets that far exactly when the recommended priority fee is zero or reaches its gas price. */
  lemma NoUnderflow(ctx: FeeContext, tx: TxEnvelope, budget: nat)
    ensures !tx.Legacy? ==> PriorityIncrease(ctx, tx) >= 0 && !Underflows(ctx, tx, budget)
    ensures tx.Legacy? && ShouldBump(ctx, tx) && Bumped(tx.gasPrice) <= budget && ctx.lastBaseFee <= budget ==>
              (Underflows(ctx, tx, budget) <==> 0 < ctx.recommendedPriorityFee < tx.gasPrice)
  {
    var p := PriorityOr(tx, 0);
    assert p * 110 / 100 >= p;
  }

  /** Such a legacy transaction. */
  lemma LegacyUnderflows()
    ensures Underflows(FeeContext(0, 50), Legacy(100), 110)
  {
  }

  /** The two best fees, bumped branch by branch; nothing when the unsigned subtraction fails. */
  method BestFees(ctx: FeeContext, tx: TxEnvelope) returns (best: Option<Estimation>)
    ensures best.None? <==> PriorityIncrease(ctx, tx) < 0
    ensures best.Some? ==> best.value == Wanted(ctx, tx)
  {
    var priorityFee := PriorityOr(tx, MaxFee(tx));
    var bestNewMaxFee := MaxFee(tx);
    var bestNewPriorityFee := priorityFee;
    if ShouldBumpBaseFee(ctx, tx) {
      bestNewMaxFee := WithDelta(ctx.lastBaseFee);
    }
    if ShouldBumpPriorityFee(ctx, tx) {
      if ctx.recommendedPriorityFee < priorityFee {
        return None;
      }
      var increase := ctx.recommendedPriorityFee - priorityFee;
      bestNewMaxFee := bestNewMaxFee + increase;
      bestNewPriorityFee := bestNewPriorityFee + increase;
    }
    return Some(Estimation(bestNewMaxFee, bestNewPriorityFee));
  }

  /** No result means that the unsigned subtraction failed. */
  method PrepareReplacement(ctx: FeeContext, tx: TxEnvelope, maxGasPrice: nat)
    returns (result: Option<Result<Option<Estimation>, FeesError>>)
    ensures result.None? <==> Underflows(ctx, tx, maxGasPrice)
    ensures result.Some? ==> result.value == Replacement(ctx, tx, maxGasPrice)
  {
    if !ShouldBump(ctx, tx) {
      return Some(Ok(None));
    }
    var maxFee := MaxFee(tx);
    var priorityFee := PriorityOr(tx, maxFee);
    if Bumped(maxFee) > maxGasPrice {
      if ShouldBumpBaseFee(ctx, tx) {
        return Some(Err(CantAffordReplacement));
      } else {
        return Some(Ok(None));
      }
    }
    if maxGasPrice < ctx.lastBaseFee {
      return Some(Err(CantAffordBaseFee));
    }
    var minNewMaxFee, minNewPriorityFee := Bumped(maxFee), Bumped(priorityFee);
    var best := BestFees(ctx, tx);
    if best.None? {
      return None;
    }
    var newMaxFee := Min(Max(best.value.maxFee, minNewMaxFee), maxGasPrice);
    var newPriorityFee := Min(Max(best.value.priorityFee, minNewPriorityFee), newMaxFee);
    return Some(Ok(Some(Estimation(newMaxFee, newPriorityFee))));
  }

  /** Priority never above the fee cap, as the network demands. */
  predicate WellFormed(tx: TxEnvelope) {
    !tx.Legacy? && tx.priorityFee <= tx.maxFee
  }

  lemma BumpedGrows(fee: nat)
    ensures Bumped(fee) >= fee && (fee >= 10 <==> Bumped(fee) > fee)
    ensures Bumped(fee) <= 2 * fee
  {
    assert fee * 110 / 100 == fee + fee * 10 / 100;
  }

  lemma BumpedMonotone(a: nat, b: nat)
    requires a <= b
    ensures Bumped(a) <= Bumped(b)
  {
    assert a * 110 <= b * 110;
  }

  lemma DeltaCovers(baseFee: nat)
    ensures WithDelta(baseFee) >= baseFee
  {
  }

  /** Fees of a first send: within the budget, enough for the last base fee, priority within them. */
  lemma NewFeesFit(ctx: FeeContext, budget: nat)
    ensures NewFees(ctx, budget).Ok? <==> budget >= ctx.lastBaseFee
    ensures NewFees(ctx, budget).Ok? ==>
              var fees := NewFees(ctx, budget).value;
              && ctx.lastBaseFee <= fees.maxFee <= budget && fees.priorityFee <= fees.maxFee
              && (fees.maxFee < budget ==> fees.maxFee >= ctx.lastBaseFee + fees.priorityFee)
  {
    DeltaCovers(ctx.lastBaseFee);
  }

  /** Fees of a replacement: affordable, enough for the last base fee, well formed, and at least
      the network's minimum bump of both old fees. */
  lemma ReplacementFits(ctx: FeeContext, tx: TxEnvelope, budget: nat)
    requires WellFormed(tx)
    ensures !Underflows(ctx, tx, budget)
    ensures var r := Replacement(ctx, tx, budget);
            r.Ok? && r.value.Some? ==>
              var fees := r.value.value;
              && ctx.lastBaseFee <= fees.maxFee <= budget
              && fees.priorityFee <= fees.maxFee
              && fees.maxFee >= Bumped(tx.maxFee) && fees.priorityFee >= Bumped(tx.priorityFee)
  {
    NoUnderflow(ctx, tx, budget);
    BumpedMonotone(tx.priorityFee, tx.maxFee);
    DeltaCovers(ctx.lastBaseFee);
  }

  /** When a replacement is made at all, it raises the fee cap exactly when there is room left. */
  lemma ReplacementRaises(ctx: FeeContext, tx: TxEnvelope, budget: nat)
    requires WellFormed(tx)
    ensures !Underflows(ctx, tx, budget)
    ensures var r := Replacement(ctx, tx, budget);
            r.Ok? && r.value.Some? ==>
              && (r.value.value.maxFee > tx.maxFee <==> tx.maxFee < budget)
              && (tx.maxFee >= 10 ==> tx.maxFee < budget)
  {
    ReplacementFits(ctx, tx, budget);
    BumpedGrows(tx.maxFee);
    DeltaCovers(ctx.lastBaseFee);
  }

  /** Below 10 wei the network minimum rounds to no raise at all, and a cap at the budget is resent. */
  lemma TinyReplacementStalls()
    ensures var r := Replacement(FeeContext(5, 3), Eip1559(9, 1), 9);
            r == Ok(Some(Estimation(9, 3)))
  {
  }

  /** `tx` carries these fees; an authorization list makes it an EIP-7702 transaction, else it is EIP-1559. */
  predicate Carries(tx: TxEnvelope, fees: Estimation) {
    !tx.Legacy? && tx.maxFee == fees.maxFee && tx.priorityFee == fees.priorityFee
  }

  /** However the replacement of `tx` is sent, as `next` say, no further one is proposed under the same
      context. */
  predicate Settles(ctx: FeeContext, tx: TxEnvelope, budget: nat, next: TxEnvelope)
    requires !tx.Legacy?
  {
    NoUnderflow(ctx, tx, budget);
    NoUnderflow(ctx, next, budget);
    var r := Replacement(ctx, tx, budget);
    r.Ok? && r.value.Some? && Carries(next, r.value.value) ==> Replacement(ctx, next, budget) == Ok(None)
  }

  lemma NoFurtherBump(ctx: FeeContext, tx: TxEnvelope, budget: nat, next: TxEnvelope)
    requires WellFormed(tx) && budget >= 10 && !Underflows(ctx, tx, budget) && !Underflows(ctx, next, budget)
    requires Replacement(ctx, tx, budget).Ok? && Replacement(ctx, tx, budget).value.Some?
    requires Carries(next, Replacement(ctx, tx, budget).value.value)
    ensures Replacement(ctx, next, budget) == Ok(None)
  {
    ReplacementFits(ctx, tx, budget);
    BumpedGrows(next.maxFee);
    BumpedGrows(next.priorityFee);
    BumpedGrows(tx.priorityFee);
    DeltaCovers(ctx.lastBaseFee);
  }

  lemma ReplacementSettles(ctx: FeeContext, tx: TxEnvelope, budget: nat, next: TxEnvelope)
    requires WellFormed(tx) && budget >= 10
    ensures Settles(ctx, tx, budget, next)
  {
    NoUnderflow(ctx, tx, budget);
    NoUnderflow(ctx, next, budget);
    var r := Replacement(ctx, tx, budget);
    if r.Ok? && r.value.Some? && Carries(next, r.value.value) {
      NoFurtherBump(ctx, tx, budget, next);
    }
  }

  /** With less than 10 wei a transaction at its budget is replaced by itself again and again. */
  lemma TinyReplacementsRepeat(budget: nat)
    requires budget < 10
    ensures Replacement(FeeContext(0, 100), Eip1559(budget, 0), budget) == Ok(Some(Estimation(budget, budget)))
    ensures Replacement(FeeContext(0, 100), Eip1559(budget, budget), budget) == Ok(Some(Estimation(budget, budget)))
  {
    assert Bumped(budget) == budget && Bumped(0) == 0;
  }

  /** Every replacement settles exactly from a budget of 10 wei up. */
  lemma SettlesExactly(budget: nat)
    ensures (forall ctx, tx, next | WellFormed(tx) :: Settles(ctx, tx, budget, next)) <==> budget >= 10
  {
    if budget >= 10 {
      forall ctx, tx, next | WellFormed(tx) ensures Settles(ctx, tx, budget, next) {
        ReplacementSettles(ctx, tx, budget, next);
      }
    } else {
      TinyReplacementsRepeat(budget);
      assert WellFormed(Eip1559(budget, 0)) && Carries(Eip1559(budget, budget), Estimation(budget, budget));
      assert !Settles(FeeContext(0, 100), Eip1559(budget, 0), budget, Eip1559(budget, budget));
    }
  }

  // ---------------------------------------------------------------- the fees in numbers

  /** A bump is due when the fee cap is below the base fee, or the recommended priority fee more than a
      tenth above the one offered; a legacy transaction offers none. */
  lemma BumpsExactly(ctx: FeeContext, tx: TxEnvelope)
    ensures ShouldBump(ctx, tx)
       <==> match tx
            case Legacy(price) => price < ctx.lastBaseFee || ctx.recommendedPriorityFee > 0
            case Eip1559(cap, tip) => cap < ctx.lastBaseFee || 10 * ctx.recommendedPriorityFee > 11 * tip
            case Eip7702(cap, tip) => cap < ctx.lastBaseFee || 10 * ctx.recommendedPriorityFee > 11 * tip
  {
  }

  /** `x` is `fee` raised by `num / den`, rounded down. */
  predicate IsShare(x: nat, fee: nat, num: nat, den: nat) {
    den * x <= num * fee < den * (x + 1)
  }

  /** First fees: a fifth over the base fee and the recommended priority fee, cut at the budget. */
  lemma NewFeesExactly(ctx: FeeContext, budget: nat) returns (ahead: nat)
    ensures IsShare(ahead, ctx.lastBaseFee, 6, 5)
    ensures NewFees(ctx, budget)
         == if budget < ctx.lastBaseFee then Err(CantAffordBaseFee)
            else if budget < ahead + ctx.recommendedPriorityFee
                 then Ok(Estimation(budget, if ctx.recommendedPriorityFee < budget then ctx.recommendedPriorityFee else budget))
            else Ok(Estimation(ahead + ctx.recommendedPriorityFee, ctx.recommendedPriorityFee))
  {
    ahead := WithDelta(ctx.lastBaseFee);
  }

  /** Fee cap and priority fee of a transaction; a legacy one's gas price is both. */
  predicate HasFees(tx: TxEnvelope, cap: nat, tip: nat) {
    match tx
    case Legacy(price) => cap == price == tip
    case Eip1559(maxFee, priorityFee) => cap == maxFee && tip == priorityFee
    case Eip7702(maxFee, priorityFee) => cap == maxFee && tip == priorityFee
  }

  /** A bump is due as in `BumpsExactly`. It is refused when a tenth more does not fit the budget, as an error
      only if the base fee overtook the cap, and is an error when the base fee does not fit. */
  lemma ReplacedExactly(ctx: FeeContext, tx: TxEnvelope, budget: nat, cap: nat, tip: nat) returns (raised: nat)
    requires HasFees(tx, cap, tip) && !Underflows(ctx, tx, budget)
    ensures IsShare(raised, cap, 11, 10)
    ensures var overtaken, r := cap < ctx.lastBaseFee, Replacement(ctx, tx, budget);
            var behind := if tx.Legacy? then ctx.recommendedPriorityFee > 0 else 10 * ctx.recommendedPriorityFee > 11 * tip;
            if !overtaken && !behind then r == Ok(None)
            else if budget < raised then r == if overtaken then Err(CantAffordReplacement) else Ok(None)
            else if budget < ctx.lastBaseFee then r == Err(CantAffordBaseFee)
            else r.Ok? && r.value.Some?
  {
    raised := Bumped(cap);
    Shares(cap);
    Behind(ctx, tx);
  }

  /** What it pays: a fifth over the base fee if that overtook the cap, and the priority increase on top, but
      at least a tenth over the old fees, cut at the budget and at the new cap. */
  lemma ReplacementExactly(ctx: FeeContext, tx: TxEnvelope, budget: nat, cap: nat, tip: nat)
    returns (raised: nat, tipped: nat, ahead: nat)
    requires HasFees(tx, cap, tip) && !Underflows(ctx, tx, budget)
    requires var r := Replacement(ctx, tx, budget);
             r.Ok? && r.value.Some?
    ensures IsShare(raised, cap, 11, 10) && IsShare(tipped, tip, 11, 10) && IsShare(ahead, ctx.lastBaseFee, 6, 5)
    ensures var Estimation(newCap, newTip) := Replacement(ctx, tx, budget).value.value;
            var behind := if tx.Legacy? then ctx.recommendedPriorityFee > 0 else 10 * ctx.recommendedPriorityFee > 11 * tip;
            var more := if behind then ctx.recommendedPriorityFee - tip else 0;
            var wanted := (if cap < ctx.lastBaseFee then ahead else cap) + more;
            && newCap == (if wanted < raised then raised else if budget < wanted then budget else wanted)
            && var wantedTip := if tip + more < tipped then tipped else tip + more;
               newTip == if wantedTip < newCap then wantedTip else newCap
  {
    raised, tipped, ahead := Bumped(cap), Bumped(tip), WithDelta(ctx.lastBaseFee);
    Shares(cap);
    Shares(tip);
    Shares(ctx.lastBaseFee);
    Behind(ctx, tx);
    var best := Wanted(ctx, tx);
    var newCap := Min(Max(best.maxFee, raised), budget);
    assert Replacement(ctx, tx, budget).value.value == Estimation(newCap, Min(Max(best.priorityFee, tipped), newCap));
  }

  lemma Shares(fee: nat)
    ensures IsShare(Bumped(fee), fee, 11, 10) && IsShare(WithDelta(fee), fee, 6, 5)
  {
  }

  lemma Behind(ctx: FeeContext, tx: TxEnvelope)
    ensures ShouldBumpBaseFee(ctx, tx) <==> MaxFee(tx) < ctx.lastBaseFee
    ensures ShouldBumpPriorityFee(ctx, tx)
       <==> if tx.Legacy? then ctx.recommendedPriorityFee > 0
            else 10 * ctx.recommendedPriorityFee > 11 * PriorityOr(tx, MaxFee(tx))
  {
  }

  // ---------------------------------------------------------------- chains of replacements

  /** A first send and its replacements, one context per attempt that produced a transaction. */
  ghost predicate Chain(sent: seq<TxEnvelope>, contexts: seq<FeeContext>, budget: nat) {
    && |sent| == |contexts| > 0
    && NewFees(contexts[0], budget).Ok? && Carries(sent[0], NewFees(contexts[0], budget).value)
    && forall i | 0 < i < |sent| ::
         && !Underflows(contexts[i], sent[i - 1], budget)
         && var r := Replacement(contexts[i], sent[i - 1], budget);
            r.Ok? && r.value.Some? && Carries(sent[i], r.value.value)
  }

  lemma {:induction false} ChainFits(sent: seq<TxEnvelope>, contexts: seq<FeeContext>, budget: nat, i: nat)
    requires Chain(sent, contexts, budget) && i < |sent|
    ensures WellFormed(sent[i]) && contexts[i].lastBaseFee <= MaxFee(sent[i]) <= budget
  {
    if i == 0 {
      NewFeesFit(contexts[0], budget);
    } else {
      ChainFits(sent, contexts, budget, i - 1);
      ReplacementFits(contexts[i], sent[i - 1], budget);
    }
  }

  lemma {:induction false} ChainClimbs(sent: seq<TxEnvelope>, contexts: seq<FeeContext>, budget: nat, i: nat)
    requires Chain(sent, contexts, budget) && i < |sent| && MaxFee(sent[0]) >= 10
    ensures MaxFee(sent[i]) >= MaxFee(sent[0]) + i
  {
    if i != 0 {
      ChainClimbs(sent, contexts, budget, i - 1);
      ChainFits(sent, contexts, budget, i - 1);
      ReplacementRaises(contexts[i], sent[i - 1], budget);
    }
  }

  /** From 10 wei on, every chain of replacements is strictly rising and finite. */
  lemma ChainsAreFinite(sent: seq<TxEnvelope>, contexts: seq<FeeContext>, budget: nat)
    requires Chain(sent, contexts, budget) && MaxFee(sent[0]) >= 10
    ensures MaxFee(sent[0]) + |sent| <= budget + 1
    ensures forall i | 0 < i < |sent| :: MaxFee(sent[i - 1]) < MaxFee(sent[i])
  {
    ChainClimbs(sent, contexts, budget, |sent| - 1);
    ChainFits(sent, contexts, budget, |sent| - 1);
    forall i | 0 < i < |sent| ensures MaxFee(sent[i - 1]) < MaxFee(sent[i]) {
      ChainClimbs(sent, contexts, budget, i - 1);
      ChainFits(sent, contexts, budget, i - 1);
      ReplacementRaises(contexts[i], sent[i - 1], budget);
    }
  }

  // ---------------------------------------------------------------- the payment in the intent

  /** The part of a quote the payment is computed from; `ethPrice` is fee-token units per ether. */
  datatype Quote = Quote(extraPayment: nat, gasLimit: nat, decimals: nat, ethPrice: nat,
                         maxFeeEstimate: nat, totalPaymentMax: nat)

  function CeilDiv(a: nat, b: nat): nat
    requires b > 0
  {
    (a + b - 1) / b
  }

  /** Gas cost at `maxFee`, scaled to token decimals, still to be divided by the ether price. */
  function ScaledCost(q: Quote, maxFee: nat): nat {
    q.gasLimit * maxFee * Pow10(q.decimals)
  }

  function Payment(q: Quote, maxFee: nat): nat
    requires q.ethPrice > 0
  {
    Min(q.extraPayment + CeilDiv(ScaledCost(q, maxFee), q.ethPrice), q.totalPaymentMax)
  }

  lemma CeilDivBounds(a: nat, b: nat)
    requires b > 0
    ensures a <= CeilDiv(a, b) * b < a + b
  {
  }

  lemma CeilDivMonotone(a: nat, c: nat, b: nat)
    requires b > 0 && a <= c
    ensures CeilDiv(a, b) <= CeilDiv(c, b)
  {
    CeilDivBounds(a, b);
    CeilDivBounds(c, b);
    if CeilDiv(a, b) > CeilDiv(c, b) {
      MulMono(CeilDiv(c, b), CeilDiv(a, b) - 1, b);
    }
  }

  lemma PaymentMonotone(q: Quote, low: nat, high: nat)
    requires q.ethPrice > 0 && low <= high
    ensures ScaledCost(q, low) <= ScaledCost(q, high)
    ensures Payment(q, low) <= Payment(q, high) <= q.totalPaymentMax
  {
    assert q.gasLimit * low <= q.gasLimit * high;
    assert q.gasLimit * low * Pow10(q.decimals) <= q.gasLimit * high * Pow10(q.decimals);
    CeilDivMonotone(ScaledCost(q, low), ScaledCost(q, high), q.ethPrice);
  }

  /** The signed maximum covers the quoted fee. */
  predicate Affordable(q: Quote) {
    && q.ethPrice > 0 && q.extraPayment <= q.totalPaymentMax
    && q.gasLimit * q.maxFeeEstimate * Pow10(q.decimals) <= (q.totalPaymentMax - q.extraPayment) * q.ethPrice
  }

  lemma MaximumCovers(q: Quote)
    requires Affordable(q)
    ensures q.extraPayment + CeilDiv(ScaledCost(q, q.maxFeeEstimate), q.ethPrice) <= q.totalPaymentMax
  {
    var cost, room := ScaledCost(q, q.maxFeeEstimate), q.totalPaymentMax - q.extraPayment;
    CeilDivBounds(cost, q.ethPrice);
    if CeilDiv(cost, q.ethPrice) > room {
      MulMono(room, CeilDiv(cost, q.ethPrice) - 1, q.ethPrice);
    }
  }

  /** The payment covers the extra payment and the whole gas cost, with less than a unit to spare. */
  lemma PaymentCovers(q: Quote, maxFee: nat)
    requires Affordable(q) && maxFee <= q.maxFeeEstimate
    ensures var due := q.extraPayment * q.ethPrice + q.gasLimit * maxFee * Pow10(q.decimals);
            due <= Payment(q, maxFee) * q.ethPrice < due + q.ethPrice
  {
    PaymentMonotone(q, maxFee, q.maxFeeEstimate);
    MaximumCovers(q);
    CeilDivMonotone(ScaledCost(q, maxFee), ScaledCost(q, q.maxFeeEstimate), q.ethPrice);
    CeilDivBounds(ScaledCost(q, maxFee), q.ethPrice);
    var units := CeilDiv(ScaledCost(q, maxFee), q.ethPrice);
    assert Payment(q, maxFee) == q.extraPayment + units;
    assert (q.extraPayment + units) * q.ethPrice == q.extraPayment * q.ethPrice + units * q.ethPrice;
  }

  /** It is the least amount that pays the gas on top of the extra payment, or the signed maximum. */
  lemma PaymentIsLeast(q: Quote, maxFee: nat, x: nat)
    requires q.ethPrice > 0
    ensures var p, cost := Payment(q, maxFee), q.gasLimit * maxFee * Pow10(q.decimals);
            && p <= q.totalPaymentMax
            && (p < q.totalPaymentMax ==> q.extraPayment <= p && cost <= (p - q.extraPayment) * q.ethPrice)
            && (q.extraPayment <= x && cost <= (x - q.extraPayment) * q.ethPrice ==> p <= x)
  {
    var cost := ScaledCost(q, maxFee);
    var units := CeilDiv(cost, q.ethPrice);
    CeilDivBounds(cost, q.ethPrice);
    if q.extraPayment <= x < q.extraPayment + units {
      MulMono(x - q.extraPayment, units - 1, q.ethPrice);
    }
  }

  lemma TenfoldCeil(cost: nat, price: nat)
    requires price > 0
    ensures 10 * (CeilDiv(cost, price) - 1) < CeilDiv(10 * cost, price) <= 10 * CeilDiv(cost, price)
  {
    var units, more := CeilDiv(cost, price), CeilDiv(10 * cost, price);
    CeilDivBounds(cost, price);
    CeilDivBounds(10 * cost, price);
    if more > 10 * units {
      MulMono(10 * units, more - 1, price);
    }
    if units > 0 && more <= 10 * (units - 1) {
      MulMono(more, 10 * (units - 1), price);
    }
  }

  /** A token with one decimal more is paid in ten times as many units, to within the rounding. */
  lemma OneDecimalMore(q: Quote, maxFee: nat)
    requires q.ethPrice > 0 && q.extraPayment == 0
    requires var finer := q.(decimals := q.decimals + 1);
             Payment(q, maxFee) < q.totalPaymentMax && Payment(finer, maxFee) < q.totalPaymentMax
    ensures var p := Payment(q, maxFee);
            10 * (p - 1) < Payment(q.(decimals := q.decimals + 1), maxFee) <= 10 * p
  {
    var finer := q.(decimals := q.decimals + 1);
    assert ScaledCost(finer, maxFee) == 10 * ScaledCost(q, maxFee);
    TenfoldCeil(ScaledCost(q, maxFee), q.ethPrice);
  }

  /** Over a first send and all its replacements, with the quoted fee as budget: payments never
      fall, never pass the signed maximum, and each covers its own transaction exactly to a unit. */
  lemma PaymentsAlongChain(q: Quote, sent: seq<TxEnvelope>, contexts: seq<FeeContext>, i: nat, j: nat)
    requires Affordable(q) && Chain(sent, contexts, q.maxFeeEstimate) && i <= j < |sent|
    ensures Payment(q, MaxFee(sent[i])) <= Payment(q, MaxFee(sent[j])) <= q.totalPaymentMax
    ensures var due := q.extraPayment * q.ethPrice + q.gasLimit * MaxFee(sent[j]) * Pow10(q.decimals);
            due <= Payment(q, MaxFee(sent[j])) * q.ethPrice < due + q.ethPrice
    decreases j - i
  {
    ChainFits(sent, contexts, q.maxFeeEstimate, j);
    PaymentCovers(q, MaxFee(sent[j]));
    if i < j {
      ChainFits(sent, contexts, q.maxFeeEstimate, j - 1);
      PaymentsAlongChain(q, sent, contexts, i, j - 1);
      ReplacementFits(contexts[j], sent[j - 1], q.maxFeeEstimate);
      BumpedGrows(MaxFee(sent[j - 1]));
      PaymentMonotone(q, MaxFee(sent[j - 1]), MaxFee(sent[j]));
    } else {
      PaymentMonotone(q, MaxFee(sent[j]), MaxFee(sent[j]));
    }
  }
}
