/** From an entry and a raw stop to a lot-sized trade plan on the price grid. */
module RiskEngine {
  import opened Reals
  import opened PriceTicks
  import opened IdxGrid

  datatype Category = StrongBuy | SpeculativeBuy | Watchlist | Avoid | NoTrade

  datatype RiskConfig = RiskConfig(
    totalCapital: real, riskPerTradePct: real, riskPerTradePctMax: real, maxSimultaneousPositions: real,
    maxDeployedCapital: real, tp1AllocationPct: real, tp1RiskMultiple: real, tp2RiskMultiple: real,
    minNetRewardToRisk: real, chaseMaxPctAboveBAvg: real, slippagePerShare: real,
    buyFeeRate: real, sellFeeRate: real, lotSize: real, minStopDistanceTicks: real)
  {
    /** Sizing divides by the lot and by the fee-inclusive price. */
    predicate Sizable() {
      lotSize > 0.0 && buyFeeRate >= 0.0
    }

    /** The costs are costs: what a sale leaves is between nothing and everything. */
    predicate Costed() {
      && Sizable()
      && 0.0 <= sellFeeRate <= 1.0
      && slippagePerShare >= 0.0
    }

    /** Targets lie above the entry and in order, and none of the shares on them is negative. */
    predicate Targeted() {
      0.0 < tp1RiskMultiple <= tp2RiskMultiple && 0.0 <= tp1AllocationPct
    }

    predicate Sane() {
      Costed() && Targeted()
    }
  }

  const DEFAULT_RISK := RiskConfig(
    3_800_000.0, 0.0075, 0.01, 1.0, 2_800_000.0, 0.6, 2.0, 3.0, 1.75, 0.035, 2.0, 0.0015, 0.0025, 100.0, 2.0)

  /** What the theorems ask of a configuration holds of the one that ships. */
  lemma DefaultsAreSane()
    ensures DEFAULT_RISK.Sane() && DEFAULT_RISK.minNetRewardToRisk > 0.0 && DEFAULT_RISK.tp1AllocationPct >= 0.5
  {
  }

  /** Calendar dates in their ISO order. */
  type Day = int

  datatype RiskInput = RiskInput(
    symbol: string, tradingDate: Day, entryTrigger: real, stopLossRaw: real, category: Category)

  datatype TradePlan = TradePlan(
    symbol: string, tradingDate: Day, entryTrigger: real, maxBuyPrice: real, totalLots: int, estimatedCapital: real,
    tp1Price: real, tp1Lots: int, tp2Price: real, tp2Lots: int, slPrice: real, slRemainingLots: int,
    grossReward: real, estimatedFees: real, slippageAllowance: real, netReward: real, maxNetLoss: real,
    netRewardToRisk: real, isNoTrade: bool)

  const LOOP_GUARD := 10_000

  // ----- the stop -----

  /** Measured in ticks at the entry's own level. */
  function MinDistance(entry: real, minTicks: real): real {
    minTicks * Tick(entry) as real
  }

  /** The distance is a number of the ticks of the tier the entry lies in. */
  lemma DistanceByTier(entry: real, minTicks: real)
    ensures MinDistance(entry, minTicks) ==
            if entry <= 200.0 then minTicks
            else if entry <= 500.0 then minTicks * 2.0
            else if entry <= 2000.0 then minTicks * 5.0
            else if entry <= 5000.0 then minTicks * 10.0
            else minTicks * 25.0
  {
    TickByTier(entry);
  }

  /** A stop must respect the raw level and keep the minimum distance from the entry. */
  function StopLimit(entry: real, stopLossRaw: real, minTicks: real): real {
    MinReal(stopLossRaw, entry - MinDistance(entry, minTicks))
  }

  /** The greatest valid price meeting the limit, unless more than LOOP_GUARD valid prices lie in between. */
  function ResolvedStop(entry: real, stopLossRaw: real, minTicks: real): real {
    PriceAt(Max(IndexBelow(StopLimit(entry, stopLossRaw, minTicks)), IndexBelow(stopLossRaw) - LOOP_GUARD)) as real
  }

  method ResolveStopLoss(entry: real, stopLossRaw: real, minTicks: real) returns (sl: real)
    ensures sl == ResolvedStop(entry, stopLossRaw, minTicks)
  {
    hide RoundDownToTick, PriceAt, IndexBelow, Tick, MinDistance;
    sl := RoundDownToTick(stopLossRaw);
    var minDistance := MinDistance(entry, minTicks);
    var guard := 0;
    ghost var limit := StopLimit(entry, stopLossRaw, minTicks);
    ghost var first, last := IndexBelow(stopLossRaw), IndexBelow(limit);
    StopLoopStarts(stopLossRaw, limit);
    while entry - sl < minDistance && guard < LOOP_GUARD
      invariant 0 <= guard <= LOOP_GUARD
      invariant sl == PriceAt(first - guard) as real <= stopLossRaw
      invariant last <= first - guard
      decreases LOOP_GUARD - guard
    {
      StopLoopSteps(first - guard, limit);
      var tick := Tick(sl);
      sl := RoundDownToTick(sl - tick as real);
      guard := guard + 1;
    }
    if entry - sl >= minDistance {
      IndexBelowIsAdjoint(first - guard, limit);
    }
  }

  lemma StopLoopStarts(raw: real, limit: real)
    requires limit <= raw
    ensures RoundDownToTick(raw) == PriceAt(IndexBelow(raw)) as real <= raw
    ensures IndexBelow(limit) <= IndexBelow(raw)
  {
    IndexBelowIsAdjoint(IndexBelow(raw), raw);
    IndexBelowIsAdjoint(IndexBelow(limit), limit);
    IndexBelowIsAdjoint(IndexBelow(limit), raw);
  }

  lemma StopLoopSteps(i: int, limit: real)
    requires PriceAt(i) as real > limit
    ensures IndexBelow(limit) <= i - 1
    ensures var q := PriceAt(i) as real; RoundDownToTick(q - Tick(q) as real) == PriceAt(i - 1) as real < q
  {
    StepDownIsPredecessor(i);
    IndexBelowIsAdjoint(i, limit);
    IndexOrder(i - 1, i);
  }

  /** Exactly when the loop reaches its goal before its iteration guard. */
  lemma StopIsGreatestValidPriceIff(entry: real, raw: real, minTicks: real)
    ensures var limit := StopLimit(entry, raw, minTicks);
            ResolvedStop(entry, raw, minTicks) == RoundDownToTick(limit)
            <==> IndexBelow(raw) - IndexBelow(limit) <= LOOP_GUARD
  {
    var limit := StopLimit(entry, raw, minTicks);
    IndexBelowIsAdjoint(0, limit);
    IndexOrder(IndexBelow(limit), IndexBelow(raw) - LOOP_GUARD);
  }

  lemma IndexSpan(p: real, q: real)
    requires q <= p
    ensures (IndexBelow(p) - IndexBelow(q)) as real < p - q + 25.0
  {
    IndexBelowIsAdjoint(IndexBelow(q), p);
    IndexBelowIsAdjoint(IndexBelow(q), q);
    IndexBelowIsAdjoint(IndexBelow(p), p);
    IndexOrder(IndexBelow(q), IndexBelow(p));
    GapBelow(q);
  }

  /**
   * From a raw stop at or below the entry the search takes fewer steps than the minimum distance in rupiah plus 25, so
   * a distance of up to 9975 never exhausts the guard, and the result is the greatest valid price that keeps it.
   */
  lemma StopBelowEntry(entry: real, raw: real, minTicks: real)
    requires raw <= entry
    ensures var limit, distance := StopLimit(entry, raw, minTicks), MinDistance(entry, minTicks);
            && (IndexBelow(raw) - IndexBelow(limit)) as real < MaxReal(0.0, distance) + 25.0
            && (distance <= 9975.0 ==>
                  && ResolvedStop(entry, raw, minTicks) == RoundDownToTick(limit)
                  && Valid(ResolvedStop(entry, raw, minTicks))
                  && entry - ResolvedStop(entry, raw, minTicks) >= distance)
  {
    hide MinDistance, ResolvedStop, RoundDownToTick, IndexBelow;
    var limit := StopLimit(entry, raw, minTicks);
    IndexSpan(raw, limit);
    StopIsGreatestValidPriceIff(entry, raw, minTicks);
    RoundedStopIsValid(limit);
  }

  lemma RoundedStopIsValid(limit: real)
    ensures Valid(RoundDownToTick(limit)) && RoundDownToTick(limit) <= limit
  {
    IdxTableAligned();
    RoundDownOnGrid(limit, IDX_TABLE);
  }

  /** A valid raw stop far enough from the entry is the stop. */
  lemma StopAlreadyValid(entry: real, raw: real, minTicks: real)
    requires Valid(raw) && entry - raw >= MinDistance(entry, minTicks)
    ensures ResolvedStop(entry, raw, minTicks) == raw
  {
    IdxTableAligned();
    RoundingFixesGrid(raw, IDX_TABLE);
    StopIsGreatestValidPriceIff(entry, raw, minTicks);
  }

  /** Far above the entry the guard does run out, and the stop stays above the entry. */
  lemma GuardCanRunOut()
    ensures ResolvedStop(100.0, 1_000_000.0, 2.0) > 100.0
    ensures ResolvedStop(100.0, 1_000_000.0, 2.0) != RoundDownToTick(StopLimit(100.0, 1_000_000.0, 2.0))
  {
    TickByTier(100.0);
    var limit := StopLimit(100.0, 1_000_000.0, 2.0);
    assert limit == 98.0;
    IndexBelowIsAdjoint(98, limit);
    IndexBelowIsAdjoint(99, limit);
    IndexBelowIsAdjoint(40_750, 1_000_000.0);
    IndexOrder(98, 30_750);
    IndexOrder(98, IndexBelow(1_000_000.0) - LOOP_GUARD);
    IndexOrder(30_750, IndexBelow(1_000_000.0) - LOOP_GUARD);
  }

  // ----- the plan -----

  function MaxBuyPrice(entry: real): real {
    RoundUpToTick(entry + Tick(entry) as real)
  }

  lemma MaxBuyIsSuccessor(entry: real)
    ensures entry < MaxBuyPrice(entry)
    ensures Valid(entry) ==> MaxBuyPrice(entry) == PriceAt(IndexOf(entry.Floor) + 1) as real
  {
    TickByTier(entry);
    RoundUpAbove(entry + Tick(entry) as real, entry + Tick(entry) as real);
    if Valid(entry) {
      ValidIsPriceAt(entry);
      StepUpIsSuccessor(IndexOf(entry.Floor));
    }
  }

  function SizeMultiplier(category: Category): real {
    if category.SpeculativeBuy? then 0.6 else 1.0
  }

  function EffectiveRiskPerShare(entry: real, sl: real, cfg: RiskConfig): real {
    entry - sl + entry * cfg.buyFeeRate + entry * cfg.sellFeeRate + cfg.slippagePerShare
  }

  function Shares(lots: int, cfg: RiskConfig): real {
    lots as real * cfg.lotSize
  }

  function RiskBudget(cfg: RiskConfig): real {
    cfg.totalCapital * cfg.riskPerTradePct
  }

  function RiskPerLot(entry: real, sl: real, cfg: RiskConfig): real {
    cfg.lotSize * EffectiveRiskPerShare(entry, sl, cfg)
  }

  function CapitalOf(n: real, entry: real, cfg: RiskConfig): real {
    n * entry * (1.0 + cfg.buyFeeRate)
  }

  function CapitalPerLot(entry: real, cfg: RiskConfig): real {
    cfg.lotSize * entry * (1.0 + cfg.buyFeeRate)
  }

  function EmptyPlan(input: RiskInput, sl: real): TradePlan {
    var entry := input.entryTrigger;
    TradePlan(input.symbol, input.tradingDate, entry, MaxBuyPrice(entry), 0, 0.0, entry, 0, entry, 0, sl, 0,
              0.0, 0.0, 0.0, 0.0, 0.0, 0.0, true)
  }

  /** Full-size lots: what the risk budget and the deployable capital both afford. */
  function AffordableLots(entry: real, sl: real, cfg: RiskConfig): (lots: int)
    requires cfg.Sizable() && entry > 0.0 && EffectiveRiskPerShare(entry, sl, cfg) > 0.0
    ensures lots >= 0
  {
    CapitalPerLotPositive(entry, cfg);
    RiskPerLotPositive(entry, sl, cfg);
    var riskLots := (RiskBudget(cfg) / RiskPerLot(entry, sl, cfg)).Floor;
    var capitalLots := (cfg.maxDeployedCapital / CapitalPerLot(entry, cfg)).Floor;
    Max(0, Min(riskLots, capitalLots))
  }

  lemma CapitalPerLotPositive(entry: real, cfg: RiskConfig)
    requires cfg.Sizable() && entry > 0.0
    ensures CapitalPerLot(entry, cfg) > 0.0
  {
    assert cfg.lotSize * entry > 0.0;
    assert cfg.lotSize * entry * (1.0 + cfg.buyFeeRate) > 0.0;
  }

  lemma RiskPerLotPositive(entry: real, sl: real, cfg: RiskConfig)
    requires cfg.Sizable() && EffectiveRiskPerShare(entry, sl, cfg) > 0.0
    ensures RiskPerLot(entry, sl, cfg) > 0.0
  {
  }

  function RawTarget(entry: real, priceRisk: real, riskMultiple: real): real {
    entry + riskMultiple * priceRisk
  }

  function TargetPrice(entry: real, priceRisk: real, riskMultiple: real): real {
    RoundUpToTick(RawTarget(entry, priceRisk, riskMultiple))
  }

  /** Shares n1 and n2 leave at the two targets. */
  function GrossReward(n1: real, n2: real, entry: real, tp1: real, tp2: real): real {
    n1 * (tp1 - entry) + n2 * (tp2 - entry)
  }

  function RoundTripFees(n: real, n1: real, n2: real, entry: real, tp1: real, tp2: real, cfg: RiskConfig): real {
    n * entry * cfg.buyFeeRate + n1 * tp1 * cfg.sellFeeRate + n2 * tp2 * cfg.sellFeeRate
  }

  /** All n shares stopped out exactly at the stop. */
  function PlannedLoss(n: real, entry: real, sl: real, cfg: RiskConfig): real {
    n * (entry - sl) + n * entry * cfg.buyFeeRate + n * sl * cfg.sellFeeRate + n * cfg.slippagePerShare
  }

  function Allocated(lots: int, allocation: real): real {
    allocation * lots as real
  }

  function FirstTargetLots(lots: int, allocation: real): int {
    Min(lots, Round(Allocated(lots, allocation)))
  }

  /** The plan for a lot count already decided. */
  function SizedPlan(input: RiskInput, sl: real, lots: int, cfg: RiskConfig): TradePlan {
    var entry := input.entryTrigger;
    var n := Shares(lots, cfg);
    var tp1, tp2 :=
        TargetPrice(entry, entry - sl, cfg.tp1RiskMultiple), TargetPrice(entry, entry - sl, cfg.tp2RiskMultiple);
    var tp1Lots := FirstTargetLots(lots, cfg.tp1AllocationPct);
    var tp2Lots := lots - tp1Lots;
    var n1, n2 := Shares(tp1Lots, cfg), Shares(tp2Lots, cfg);
    var grossReward := GrossReward(n1, n2, entry, tp1, tp2);
    var fees := RoundTripFees(n, n1, n2, entry, tp1, tp2, cfg);
    var slippage := n * cfg.slippagePerShare;
    var netReward := grossReward - fees - slippage;
    var maxNetLoss := PlannedLoss(n, entry, sl, cfg);
    var rr := if maxNetLoss > 0.0 then netReward / maxNetLoss else 0.0;
    TradePlan(input.symbol, input.tradingDate, entry, MaxBuyPrice(entry), lots, CapitalOf(n, entry, cfg),
              tp1, tp1Lots, tp2, tp2Lots, sl, lots, grossReward, fees, slippage, netReward, maxNetLoss, rr,
              lots <= 0 || rr < cfg.minNetRewardToRisk)
  }

  function BuildRiskPlan(input: RiskInput, cfg: RiskConfig): TradePlan
    requires cfg.Sizable() && input.entryTrigger > 0.0
  {
    var entry := input.entryTrigger;
    var sl := ResolvedStop(entry, input.stopLossRaw, cfg.minStopDistanceTicks);
    if entry - sl <= 0.0 || EffectiveRiskPerShare(entry, sl, cfg) <= 0.0 then EmptyPlan(input, sl)
    else
      var lots := (AffordableLots(entry, sl, cfg) as real * SizeMultiplier(input.category)).Floor;
      if lots <= 0 then EmptyPlan(input, sl) else SizedPlan(input, sl, lots, cfg)
  }

  // ----- what every plan keeps -----

  /** Which branch a plan came from. */
  lemma PlanWithLots(input: RiskInput, cfg: RiskConfig)
    requires cfg.Sizable() && input.entryTrigger > 0.0
    ensures var plan := BuildRiskPlan(input, cfg);
            var entry := input.entryTrigger;
            plan.totalLots > 0 ==>
              && plan.entryTrigger == entry
              && plan.slPrice < entry
              && EffectiveRiskPerShare(entry, plan.slPrice, cfg) > 0.0
              && plan.totalLots
                  == (AffordableLots(entry, plan.slPrice, cfg) as real * SizeMultiplier(input.category)).Floor
              && plan == SizedPlan(input, plan.slPrice, plan.totalLots, cfg)
  {
    hide TargetPrice, MaxBuyPrice, GrossReward, RoundTripFees, PlannedLoss, EffectiveRiskPerShare, ResolvedStop;
    hide AffordableLots, Shares, CapitalOf, FirstTargetLots, SizeMultiplier;
  }

  /** Prices in order and lots split in two. */
  predicate WellShaped(plan: TradePlan) {
    && plan.slPrice < plan.entryTrigger < plan.tp1Price <= plan.tp2Price
    && plan.entryTrigger < plan.maxBuyPrice
    && 0.0 < plan.entryTrigger
    && plan.tp1Lots + plan.tp2Lots == plan.totalLots
    && 0 <= plan.tp1Lots && 0 <= plan.tp2Lots
  }

  /** At least half of the lots leave at the first target. */
  predicate FavoursFirstTarget(plan: TradePlan) {
    1 <= plan.tp1Lots && plan.totalLots <= 2 * plan.tp1Lots
  }

  lemma PlanIsWellShaped(input: RiskInput, cfg: RiskConfig)
    requires cfg.Sizable() && cfg.Targeted() && input.entryTrigger > 0.0
    ensures var plan := BuildRiskPlan(input, cfg);
            plan.totalLots > 0 ==>
              && WellShaped(plan)
              && (cfg.tp1AllocationPct >= 0.5 ==> FavoursFirstTarget(plan))
  {
    hide BuildRiskPlan, SizedPlan, WellShaped, FavoursFirstTarget, AffordableLots, EffectiveRiskPerShare,
        SizeMultiplier;
    var plan := BuildRiskPlan(input, cfg);
    PlanWithLots(input, cfg);
    if plan.totalLots > 0 {
      LotsAndTargets(input, plan.slPrice, plan.totalLots, cfg);
    }
  }

  lemma LotsAndTargets(input: RiskInput, sl: real, lots: int, cfg: RiskConfig)
    requires cfg.Targeted() && sl < input.entryTrigger && input.entryTrigger > 0.0 && lots > 0
    ensures var plan := SizedPlan(input, sl, lots, cfg);
            WellShaped(plan) && (cfg.tp1AllocationPct >= 0.5 ==> FavoursFirstTarget(plan))
  {
    hide TargetPrice, MaxBuyPrice, GrossReward, RoundTripFees, PlannedLoss, Shares, CapitalOf, FirstTargetLots;
    MaxBuyIsSuccessor(input.entryTrigger);
    TargetsAreOrdered(input.entryTrigger, input.entryTrigger - sl, cfg.tp1RiskMultiple, cfg.tp2RiskMultiple);
    FirstTargetShare(lots, cfg.tp1AllocationPct);
  }

  /** The two targets are different prices exactly when a valid price separates what they are rounded from. */
  lemma TargetsDifferIff(input: RiskInput, cfg: RiskConfig)
    requires cfg.Sizable() && input.entryTrigger > 0.0
    ensures var plan := BuildRiskPlan(input, cfg);
            var entry, risk := plan.entryTrigger, plan.entryTrigger - plan.slPrice;
            plan.totalLots > 0 ==>
              (plan.tp1Price < plan.tp2Price <==>
               exists q :: Valid(q)
                   && RawTarget(entry, risk, cfg.tp1RiskMultiple) <= q < RawTarget(entry, risk, cfg.tp2RiskMultiple))
  {
    hide RoundUpToTick, RawTarget, Valid, MaxBuyPrice, GrossReward, RoundTripFees, PlannedLoss;
    hide AffordableLots, EffectiveRiskPerShare, ResolvedStop, Shares, CapitalOf, SizeMultiplier;
    var plan := BuildRiskPlan(input, cfg);
    PlanWithLots(input, cfg);
    var entry, risk := plan.entryTrigger, plan.entryTrigger - plan.slPrice;
    RoundedUpDifferIff(RawTarget(entry, risk, cfg.tp1RiskMultiple), RawTarget(entry, risk, cfg.tp2RiskMultiple));
  }

  lemma RoundedUpDifferIff(p: real, p': real)
    ensures RoundUpToTick(p) < RoundUpToTick(p') <==> exists q :: Valid(q) && p <= q < p'
  {
    IdxTableAligned();
    RoundUpOnGrid(p, IDX_TABLE);
    var up := RoundUpToTick(p);
    assert Valid(up) && p <= up;
    RoundingIsAdjoint(p', up, IDX_TABLE);
    if q :| Valid(q) && p <= q < p' {
      RoundingIsAdjoint(p, q, IDX_TABLE);
      RoundingIsAdjoint(p', q, IDX_TABLE);
    }
  }

  lemma TargetsAreOrdered(entry: real, risk: real, m1: real, m2: real)
    requires risk > 0.0 && 0.0 < m1 <= m2
    ensures entry < TargetPrice(entry, risk, m1) <= TargetPrice(entry, risk, m2)
  {
    hide RoundUpToTick;
    var a, b := m1 * risk, m2 * risk;
    ScaleStrict(0.0, m1, risk);
    Scale(m1, m2, risk);
    RoundUpAbove(entry + a, entry + b);
    assert TargetPrice(entry, risk, m1) == RoundUpToTick(entry + a);
    assert TargetPrice(entry, risk, m2) == RoundUpToTick(entry + b);
  }

  /** Rounding half up splits the lots without a remainder, and a share of one half keeps at least half of them. */
  lemma FirstTargetShare(lots: int, allocation: real)
    requires lots > 0 && allocation >= 0.0
    ensures var tp1Lots := FirstTargetLots(lots, allocation);
            0 <= tp1Lots <= lots && (allocation >= 0.5 ==> 1 <= tp1Lots && lots <= 2 * tp1Lots)
  {
    hide Round, Allocated;
    AllocatedAtLeast(lots, 0.0, allocation);
    if allocation >= 0.5 { AllocatedAtLeast(lots, 0.5, allocation); }
    RoundedKeepsHalf(lots, Allocated(lots, allocation));
  }

  lemma AllocatedAtLeast(lots: int, least: real, allocation: real)
    requires lots > 0 && least <= allocation
    ensures least * lots as real <= Allocated(lots, allocation)
  {
    Scale(least, allocation, lots as real);
  }

  lemma RoundedKeepsHalf(lots: int, share: real)
    requires lots > 0 && share >= 0.0
    ensures 0 <= Round(share) && (0.5 * lots as real <= share ==> 1 <= Round(share) && lots <= 2 * Round(share))
  {
  }

  /**
   * The first target gets the whole number of lots nearest to its configured share, or every lot for a share above one.
   */
  lemma FirstTargetIsNearest(input: RiskInput, cfg: RiskConfig)
    requires cfg.Sizable() && input.entryTrigger > 0.0
    ensures var plan := BuildRiskPlan(input, cfg);
            plan.totalLots > 0 ==>
              && plan.tp2Lots == plan.totalLots - plan.tp1Lots
              && if cfg.tp1AllocationPct <= 1.0 then
                   var share, lots := cfg.tp1AllocationPct * plan.totalLots as real, plan.tp1Lots as real;
                   lots - 0.5 <= share < lots + 0.5
                 else plan.tp1Lots == plan.totalLots
  {
    hide TargetPrice, MaxBuyPrice, GrossReward, RoundTripFees, PlannedLoss, EffectiveRiskPerShare, ResolvedStop;
    hide AffordableLots, Shares, CapitalOf, FirstTargetLots, SizeMultiplier;
    var plan := BuildRiskPlan(input, cfg);
    PlanWithLots(input, cfg);
    if plan.totalLots > 0 { NearestAllocation(plan.totalLots, cfg.tp1AllocationPct); }
  }

  lemma NearestAllocation(lots: int, allocation: real)
    requires lots > 0
    ensures var tp1Lots := FirstTargetLots(lots, allocation);
            if allocation <= 1.0 then tp1Lots as real - 0.5 <= allocation * lots as real < tp1Lots as real + 0.5
            else tp1Lots == lots
  {
    var share := allocation * lots as real;
    assert share == Allocated(lots, allocation);
    hide Allocated;
    if allocation <= 1.0 {
      assert share <= lots as real by { Scale(allocation, 1.0, lots as real); }
    } else {
      assert lots as real <= share by { Scale(1.0, allocation, lots as real); }
    }
  }

  /** Whose plan it is, its stop, its chase limit and its capital. A plan without lots is empty and refused. */
  lemma PlanIsAsAsked(input: RiskInput, cfg: RiskConfig)
    requires cfg.Sizable() && input.entryTrigger > 0.0
    ensures var plan := BuildRiskPlan(input, cfg);
            var entry := input.entryTrigger;
            && plan.symbol == input.symbol && plan.tradingDate == input.tradingDate && plan.entryTrigger == entry
            && plan.slPrice == ResolvedStop(entry, input.stopLossRaw, cfg.minStopDistanceTicks)
            && plan.maxBuyPrice == RoundUpToTick(entry + Tick(entry) as real)
            && plan.slRemainingLots == plan.totalLots >= 0
            && (plan.totalLots > 0 ==>
                  plan.estimatedCapital == plan.totalLots as real * cfg.lotSize * entry * (1.0 + cfg.buyFeeRate))
            && (plan.totalLots == 0 ==>
                  && plan.isNoTrade && plan.tp1Lots == plan.tp2Lots == 0 && plan.tp1Price == plan.tp2Price == entry
                  && plan.estimatedCapital == plan.grossReward == plan.estimatedFees == plan.slippageAllowance == 0.0
                  && plan.netReward == plan.maxNetLoss == plan.netRewardToRisk == 0.0)
  {
    hide GrossReward, RoundTripFees, PlannedLoss, EffectiveRiskPerShare, ResolvedStop, AffordableLots, SizeMultiplier;
    hide FirstTargetLots, RoundUpToTick, Tick, TargetPrice;
  }

  /** The targets are the least valid prices that are at least their multiples of the risk above the entry. */
  lemma TargetsAreLeast(input: RiskInput, cfg: RiskConfig)
    requires cfg.Sizable() && input.entryTrigger > 0.0
    ensures var plan := BuildRiskPlan(input, cfg);
            var entry, risk := input.entryTrigger, input.entryTrigger - plan.slPrice;
            plan.totalLots > 0 ==>
              && Valid(plan.tp1Price) && Valid(plan.tp2Price)
              && (forall q :: Valid(q) ==> (entry + Product(cfg.tp1RiskMultiple, risk) <= q <==> plan.tp1Price <= q))
              && (forall q :: Valid(q) ==> (entry + Product(cfg.tp2RiskMultiple, risk) <= q <==> plan.tp2Price <= q))
  {
    hide BuildRiskPlan, RoundUpToTick, Valid, GrossReward, RoundTripFees, PlannedLoss, EffectiveRiskPerShare;
    hide AffordableLots, SizeMultiplier, FirstTargetLots, MaxBuyPrice, Shares, CapitalOf, RawTarget, Product;
    var plan := BuildRiskPlan(input, cfg);
    PlanWithLots(input, cfg);
    if plan.totalLots > 0 {
      var entry, risk := input.entryTrigger, input.entryTrigger - plan.slPrice;
      RawTargetSpelledOut(entry, risk, cfg.tp1RiskMultiple);
      RawTargetSpelledOut(entry, risk, cfg.tp2RiskMultiple);
      LeastValidAbove(RawTarget(entry, risk, cfg.tp1RiskMultiple));
      LeastValidAbove(RawTarget(entry, risk, cfg.tp2RiskMultiple));
    }
  }

  lemma RawTargetSpelledOut(entry: real, risk: real, multiple: real)
    ensures RawTarget(entry, risk, multiple) == entry + Product(multiple, risk)
  {
  }

  lemma LeastValidAbove(p: real)
    ensures Valid(RoundUpToTick(p)) && forall q :: Valid(q) ==> (p <= q <==> RoundUpToTick(p) <= q)
  {
    IdxTableAligned();
    RoundUpOnGrid(p, IDX_TABLE);
    forall q | Valid(q) ensures p <= q <==> RoundUpToTick(p) <= q { RoundingIsAdjoint(p, q, IDX_TABLE); }
  }

  /** The budget that sized the plan bounds its worst planned loss and its capital, with no tolerance. */
  lemma PlanWithinBudgets(input: RiskInput, cfg: RiskConfig)
    requires cfg.Costed() && input.entryTrigger > 0.0
    ensures var plan := BuildRiskPlan(input, cfg);
            plan.totalLots > 0 ==>
              && 0.0 < plan.maxNetLoss <= RiskBudget(cfg)
              && plan.estimatedCapital <= cfg.maxDeployedCapital
  {
    hide TargetPrice, MaxBuyPrice, GrossReward, RoundTripFees, PlannedLoss, AffordableLots, EffectiveRiskPerShare;
    hide ResolvedStop, RiskBudget, Shares, CapitalOf, SizeMultiplier;
    var plan := BuildRiskPlan(input, cfg);
    PlanWithLots(input, cfg);
    if plan.totalLots > 0 {
      var afford := AffordableLots(input.entryTrigger, plan.slPrice, cfg);
      ReducedSize(afford, input.category);
      LotsWithinBudgets(plan.totalLots, input.entryTrigger, plan.slPrice, cfg);
    }
  }

  lemma ReducedSize(lots: int, category: Category)
    requires lots >= 0
    ensures (lots as real * SizeMultiplier(category)).Floor <= lots
  {
  }

  lemma LotsWithinBudgets(lots: int, entry: real, sl: real, cfg: RiskConfig)
    requires cfg.Costed() && sl < entry && entry > 0.0 && EffectiveRiskPerShare(entry, sl, cfg) > 0.0
    requires 0 < lots <= AffordableLots(entry, sl, cfg)
    ensures 0.0 < PlannedLoss(Shares(lots, cfg), entry, sl, cfg) <= RiskBudget(cfg)
    ensures CapitalOf(Shares(lots, cfg), entry, cfg) <= cfg.maxDeployedCapital
  {
    hide EffectiveRiskPerShare, PlannedLoss, CapitalPerLot, RiskPerLot, RiskBudget, Shares, CapitalOf;
    AffordableIsWithinBoth(lots, entry, sl, cfg);
    LossBelowEffectiveRisk(lots, entry, sl, cfg);
    CapitalByLot(lots, entry, cfg);
  }

  /** Affordable at full size is exactly: within the risk budget and within the capital. */
  lemma AffordableIsWithinBoth(lots: int, entry: real, sl: real, cfg: RiskConfig)
    requires cfg.Sizable() && entry > 0.0 && EffectiveRiskPerShare(entry, sl, cfg) > 0.0 && lots > 0
    ensures lots <= AffordableLots(entry, sl, cfg) <==>
            && lots as real * RiskPerLot(entry, sl, cfg) <= RiskBudget(cfg)
            && lots as real * CapitalPerLot(entry, cfg) <= cfg.maxDeployedCapital
  {
    hide EffectiveRiskPerShare, CapitalPerLot, RiskPerLot, RiskBudget;
    RiskPerLotPositive(entry, sl, cfg);
    CapitalPerLotPositive(entry, cfg);
    UnitsWithin(lots, RiskBudget(cfg), RiskPerLot(entry, sl, cfg));
    UnitsWithin(lots, cfg.maxDeployedCapital, CapitalPerLot(entry, cfg));
  }

  lemma CapitalByLot(lots: int, entry: real, cfg: RiskConfig)
    ensures CapitalOf(Shares(lots, cfg), entry, cfg) == lots as real * CapitalPerLot(entry, cfg)
  {
    Associate(lots as real, cfg.lotSize, entry, 1.0 + cfg.buyFeeRate);
  }

  lemma Associate(a: real, b: real, c: real, d: real)
    ensures a * b * c * d == a * (b * c * d)
  {
  }

  /** The sizing estimate charges the sell fee at the entry, the planned loss at the lower stop. */
  lemma LossBelowEffectiveRisk(lots: int, entry: real, sl: real, cfg: RiskConfig)
    requires cfg.Costed() && sl < entry && entry > 0.0 && lots > 0
    ensures 0.0 < PlannedLoss(Shares(lots, cfg), entry, sl, cfg) <= lots as real * RiskPerLot(entry, sl, cfg)
  {
    hide PlannedLoss, RiskPerLot, Shares, EffectiveRiskPerShare;
    var n, loss := Shares(lots, cfg), LossOf(entry, sl, cfg);
    SharesPositive(lots, cfg);
    LossPerShare(n, entry, sl, cfg);
    LossPerShareBounds(entry, sl, cfg);
    ScaleStrict(0.0, loss, n);
    Scale(loss, EffectiveRiskPerShare(entry, sl, cfg), n);
    RiskByLot(lots, entry, sl, cfg);
  }

  /** Buy at the entry, sell at the stop, both fees and the slippage allowance, for one share. */
  function LossOf(entry: real, sl: real, cfg: RiskConfig): real {
    entry - sl + entry * cfg.buyFeeRate + sl * cfg.sellFeeRate + cfg.slippagePerShare
  }

  lemma SharesPositive(lots: int, cfg: RiskConfig)
    requires cfg.Sizable() && lots > 0
    ensures Shares(lots, cfg) > 0.0
  {
    ScaleStrict(0.0, lots as real, cfg.lotSize);
  }

  lemma RiskByLot(lots: int, entry: real, sl: real, cfg: RiskConfig)
    ensures lots as real * RiskPerLot(entry, sl, cfg) == EffectiveRiskPerShare(entry, sl, cfg) * Shares(lots, cfg)
  {
    hide EffectiveRiskPerShare;
  }

  lemma LossPerShareBounds(entry: real, sl: real, cfg: RiskConfig)
    requires cfg.Costed() && sl < entry && entry > 0.0
    ensures 0.0 < LossOf(entry, sl, cfg) <= EffectiveRiskPerShare(entry, sl, cfg)
  {
    var buyFee, feeAtStop, feeAtEntry := entry * cfg.buyFeeRate, sl * cfg.sellFeeRate, entry * cfg.sellFeeRate;
    assert buyFee >= 0.0 && feeAtStop <= feeAtEntry by { Scale(sl, entry, cfg.sellFeeRate); }
    assert feeAtStop >= 0.0 || feeAtStop >= sl by {
      if sl < 0.0 { Scale(cfg.sellFeeRate, 1.0, -sl); }
    }
  }

  /** The worst planned loss is the loss of one share times the shares. */
  lemma LossPerShare(n: real, entry: real, sl: real, cfg: RiskConfig)
    ensures PlannedLoss(n, entry, sl, cfg) == LossOf(entry, sl, cfg) * n
  {
    var a, b := entry * cfg.buyFeeRate, sl * cfg.sellFeeRate;
    assert n * entry * cfg.buyFeeRate == n * a;
    assert n * sl * cfg.sellFeeRate == n * b;
  }

  /**
   * At full size a plan with a stop below the entry has as many lots as the account allows: what they put at risk a
   * share, both fees at the entry and the slippage allowance included, is within the risk budget, their cost with the
   * buy fee within the deployable capital, and one more lot breaks one of the two.
   */
  lemma SizeIsMaximal(input: RiskInput, cfg: RiskConfig)
    requires cfg.Sizable() && input.entryTrigger > 0.0 && !input.category.SpeculativeBuy?
    ensures var plan := BuildRiskPlan(input, cfg);
            var entry, n := plan.entryTrigger, plan.totalLots as real;
            var risk := entry - plan.slPrice + Product(entry, cfg.buyFeeRate) + Product(entry, cfg.sellFeeRate)
                        + cfg.slippagePerShare;
            var atRisk, cost := Product(cfg.lotSize, risk), Product(Product(cfg.lotSize, entry), 1.0 + cfg.buyFeeRate);
            var budget := Product(cfg.totalCapital, cfg.riskPerTradePct);
            plan.slPrice < entry && risk > 0.0 ==>
              && (plan.totalLots > 0 ==> Product(n, atRisk) <= budget && Product(n, cost) <= cfg.maxDeployedCapital)
              && (Product(n + 1.0, atRisk) > budget || Product(n + 1.0, cost) > cfg.maxDeployedCapital)
  {
    hide *;
    var plan := BuildRiskPlan(input, cfg);
    SizeIsMaximalInUnits(input, cfg);
    UnitsSpelledOut(plan.entryTrigger, plan.slPrice, cfg);
    assert (plan.totalLots + 1) as real == plan.totalLots as real + 1.0;
  }

  lemma UnitsSpelledOut(entry: real, sl: real, cfg: RiskConfig)
    ensures var risk :=
            entry - sl + Product(entry, cfg.buyFeeRate) + Product(entry, cfg.sellFeeRate) + cfg.slippagePerShare;
            EffectiveRiskPerShare(entry, sl, cfg) == risk && RiskPerLot(entry, sl, cfg) == Product(cfg.lotSize, risk)
    ensures CapitalPerLot(entry, cfg) == Product(Product(cfg.lotSize, entry), 1.0 + cfg.buyFeeRate)
    ensures RiskBudget(cfg) == Product(cfg.totalCapital, cfg.riskPerTradePct)
  {
  }

  lemma SizeIsMaximalInUnits(input: RiskInput, cfg: RiskConfig)
    requires cfg.Sizable() && input.entryTrigger > 0.0 && !input.category.SpeculativeBuy?
    ensures var plan := BuildRiskPlan(input, cfg);
            var entry, sl, lots := plan.entryTrigger, plan.slPrice, plan.totalLots;
            var atRisk, cost, budget := RiskPerLot(entry, sl, cfg), CapitalPerLot(entry, cfg), RiskBudget(cfg);
            sl < entry && EffectiveRiskPerShare(entry, sl, cfg) > 0.0 ==>
              && (lots > 0 ==>
                    && Product(lots as real, atRisk) <= budget
                    && Product(lots as real, cost) <= cfg.maxDeployedCapital)
              && (|| Product((lots + 1) as real, atRisk) > budget
                  || Product((lots + 1) as real, cost) > cfg.maxDeployedCapital)
  {
    hide TargetPrice, MaxBuyPrice, GrossReward, RoundTripFees, PlannedLoss, EffectiveRiskPerShare, ResolvedStop;
    hide Shares, CapitalOf, RiskPerLot, CapitalPerLot, RiskBudget, FirstTargetLots;
    var plan := BuildRiskPlan(input, cfg);
    if plan.slPrice < plan.entryTrigger && EffectiveRiskPerShare(plan.entryTrigger, plan.slPrice, cfg) > 0.0 {
      assert plan.totalLots == AffordableLots(plan.entryTrigger, plan.slPrice, cfg);
      if plan.totalLots > 0 { AffordableIsWithinBoth(plan.totalLots, plan.entryTrigger, plan.slPrice, cfg); }
      AffordableIsWithinBoth(plan.totalLots + 1, plan.entryTrigger, plan.slPrice, cfg);
    }
  }

  /** A speculative plan is the same trade at six tenths of the lots, rounded down. */
  lemma SpeculativeIsReduced(input: RiskInput, cfg: RiskConfig)
    requires cfg.Sizable() && input.entryTrigger > 0.0 && !input.category.SpeculativeBuy?
    ensures var full, reduced :=
            BuildRiskPlan(input, cfg).totalLots, BuildRiskPlan(input.(category := SpeculativeBuy), cfg).totalLots;
            10 * reduced <= 6 * full < 10 * (reduced + 1)
  {
    hide BuildRiskPlan, EffectiveRiskPerShare, ResolvedStop, AffordableLots, ReducedLots;
    var entry, speculative := input.entryTrigger, input.(category := SpeculativeBuy);
    LotsOfPlan(input, cfg);
    LotsOfPlan(speculative, cfg);
    assert speculative.category == SpeculativeBuy;
    var sl := ResolvedStop(entry, input.stopLossRaw, cfg.minStopDistanceTicks);
    if sl < entry && EffectiveRiskPerShare(entry, sl, cfg) > 0.0 {
      SixTenths(AffordableLots(entry, sl, cfg), input.category);
    }
  }

  function ReducedLots(lots: int, category: Category): int {
    Max(0, (lots as real * SizeMultiplier(category)).Floor)
  }

  lemma LotsOfPlan(input: RiskInput, cfg: RiskConfig)
    requires cfg.Sizable() && input.entryTrigger > 0.0
    ensures var entry := input.entryTrigger;
            var sl := ResolvedStop(entry, input.stopLossRaw, cfg.minStopDistanceTicks);
            BuildRiskPlan(input, cfg).totalLots ==
            if sl < entry && EffectiveRiskPerShare(entry, sl, cfg) > 0.0
            then ReducedLots(AffordableLots(entry, sl, cfg), input.category) else 0
  {
    hide TargetPrice, MaxBuyPrice, GrossReward, RoundTripFees, PlannedLoss, EffectiveRiskPerShare, ResolvedStop,
        AffordableLots;
    hide Shares, CapitalOf, SizeMultiplier;
  }

  lemma SixTenths(lots: int, category: Category)
    requires lots >= 0 && !category.SpeculativeBuy?
    ensures ReducedLots(lots, category) == lots
    ensures var reduced := ReducedLots(lots, SpeculativeBuy); 10 * reduced <= 6 * lots < 10 * (reduced + 1)
  {
  }

  // ----- plans worked out in full, for inputs other results point at -----

  /** The lots are settled by what fits and what one more would break. */
  lemma LotsAre(lots: int, entry: real, sl: real, cfg: RiskConfig)
    requires cfg.Sizable() && entry > 0.0 && EffectiveRiskPerShare(entry, sl, cfg) > 0.0 && lots > 0
    requires lots as real * RiskPerLot(entry, sl, cfg) <= RiskBudget(cfg)
    requires lots as real * CapitalPerLot(entry, cfg) <= cfg.maxDeployedCapital
    requires (lots + 1) as real * RiskPerLot(entry, sl, cfg) > RiskBudget(cfg)
    ensures AffordableLots(entry, sl, cfg) == lots
  {
    hide EffectiveRiskPerShare, RiskPerLot, CapitalPerLot, RiskBudget, AffordableLots;
    AffordableIsWithinBoth(lots, entry, sl, cfg);
    AffordableIsWithinBoth(lots + 1, entry, sl, cfg);
  }

  lemma PlanAt(input: RiskInput, lots: int, cfg: RiskConfig)
    requires cfg.Sizable() && input.entryTrigger > 0.0 && !input.category.SpeculativeBuy? && lots > 0
    requires ResolvedStop(input.entryTrigger, input.stopLossRaw, cfg.minStopDistanceTicks)
            == input.stopLossRaw < input.entryTrigger
    requires EffectiveRiskPerShare(input.entryTrigger, input.stopLossRaw, cfg) > 0.0
    requires AffordableLots(input.entryTrigger, input.stopLossRaw, cfg) == lots
    ensures BuildRiskPlan(input, cfg) == SizedPlan(input, input.stopLossRaw, lots, cfg)
  {
    hide AffordableLots, EffectiveRiskPerShare, ResolvedStop, SizedPlan, EmptyPlan;
  }

  lemma RoundUpIs(p: real, i: int)
    requires PriceAt(i - 1) as real < p <= PriceAt(i) as real
    ensures RoundUpToTick(p) == PriceAt(i) as real
  {
    IdxTableAligned();
    var up := RoundUpToTick(p);
    PriceAtValid(i);
    RoundUpOnGrid(p, IDX_TABLE);
    RoundUpLeast(p, PriceAt(i) as real, IDX_TABLE);
    ValidIsPriceAt(up);
    IndexOrder(i - 1, IndexOf(up.Floor));
    IndexOrder(IndexOf(up.Floor), i);
  }

  /** Entry 498 and stop 494: both targets round to 510, across the tier boundary at 500. */
  lemma TargetsCanCoincide()
    ensures var plan := BuildRiskPlan(RiskInput("X", 0, 498.0, 494.0, StrongBuy), DEFAULT_RISK);
            plan.totalLots == 35 && plan.slPrice == 494.0 && plan.tp1Price == plan.tp2Price == 510.0
  {
    var input := RiskInput("X", 0, 498.0, 494.0, StrongBuy);
    TickByTier(494.0);
    TickByTier(498.0);
    StopAlreadyValid(498.0, 494.0, 2.0);
    LotsAre(35, 498.0, 494.0, DEFAULT_RISK);
    PlanAt(input, 35, DEFAULT_RISK);
    RoundUpIs(506.0, 352);
    RoundUpIs(510.0, 352);
  }

  function AtOneThousand(stop: real, category: Category): RiskInput {
    RiskInput("X", 0, 1000.0, stop, category)
  }

  /** Entry 1000 and stop 950 under the shipped configuration: five lots, three of them for 1100 and two for 1150. */
  lemma PlanWithStop950(category: Category)
    requires !category.SpeculativeBuy?
    ensures var plan := BuildRiskPlan(AtOneThousand(950.0, category), DEFAULT_RISK);
            && plan.entryTrigger == 1000.0 && plan.slPrice == 950.0 && plan.maxBuyPrice > 1000.0
            && plan.totalLots == 5 && plan.tp1Lots == 3 && plan.tp2Lots == 2
            && plan.tp1Price == 1100.0 && plan.tp2Price == 1150.0 && plan.maxNetLoss == 27937.5 && !plan.isNoTrade
  {
    hide MaxBuyPrice;
    MaxBuyIsSuccessor(1000.0);
    TickByTier(950.0);
    TickByTier(1000.0);
    StopAlreadyValid(1000.0, 950.0, 2.0);
    LotsAre(5, 1000.0, 950.0, DEFAULT_RISK);
    PlanAt(AtOneThousand(950.0, category), 5, DEFAULT_RISK);
    RoundUpIs(1100.0, 470);
    RoundUpIs(1150.0, 480);
  }

  /** Entry 1000 and stop 970: seven lots, four of them for 1060 and three for 1090. */
  lemma PlanWithStop970(category: Category)
    requires !category.SpeculativeBuy?
    ensures var plan := BuildRiskPlan(AtOneThousand(970.0, category), DEFAULT_RISK);
            && plan.entryTrigger == 1000.0 && plan.slPrice == 970.0 && plan.maxBuyPrice > 1000.0
            && plan.totalLots == 7 && plan.tp1Lots == 4 && plan.tp2Lots == 3
            && plan.tp1Price == 1060.0 && plan.tp2Price == 1090.0 && !plan.isNoTrade
  {
    hide MaxBuyPrice;
    MaxBuyIsSuccessor(1000.0);
    TickByTier(970.0);
    TickByTier(1000.0);
    StopAlreadyValid(1000.0, 970.0, 2.0);
    LotsAre(7, 1000.0, 970.0, DEFAULT_RISK);
    PlanAt(AtOneThousand(970.0, category), 7, DEFAULT_RISK);
    RoundUpIs(1060.0, 462);
    RoundUpIs(1090.0, 468);
  }
}
