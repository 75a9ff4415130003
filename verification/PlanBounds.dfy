/** The simulated profit and loss of a plan, held against the figures the plan quotes. */
module PlanBounds {
  import opened Options
  import opened Reals
  import opened Sequences
  import opened RiskEngine
  import opened FillSimulation
  import opened ExitTraces

  datatype SimulationOptions = SimulationOptions(fillFraction: real, maxHoldingBars: int)

  const DEFAULT_OPTIONS := SimulationOptions(DEFAULT_FILL_FRACTION, DEFAULT_MAX_HOLDING_BARS)

  datatype TradeOutcome = TradeOutcome(
    plan: TradePlan, fill: FillEvent, exits: seq<ExitLeg>, grossPnl: real, fees: real, slippage: real,
    netPnl: real, netRR: Option<real>)

  function LegGross(leg: ExitLeg, f: real, cfg: RiskConfig): real {
    Shares(leg.lots, cfg) * (leg.price - f)
  }

  function LegSellFee(leg: ExitLeg, cfg: RiskConfig): real {
    Shares(leg.lots, cfg) * leg.price * cfg.sellFeeRate
  }

  function BuyFee(filled: int, f: real, cfg: RiskConfig): real {
    Shares(filled, cfg) * f * cfg.buyFeeRate
  }

  function Slippage(filled: int, cfg: RiskConfig): real {
    Shares(filled, cfg) * cfg.slippagePerShare
  }

  function GrossPnl(legs: seq<ExitLeg>, f: real, cfg: RiskConfig): real {
    if legs == [] then 0.0
    else
      GrossPnl(legs[..|legs| - 1], f, cfg) + LegGross(legs[|legs| - 1], f, cfg)
  }

  function SellFees(legs: seq<ExitLeg>, cfg: RiskConfig): real {
    if legs == [] then 0.0
    else
      SellFees(legs[..|legs| - 1], cfg) + LegSellFee(legs[|legs| - 1], cfg)
  }

  function NetPnl(legs: seq<ExitLeg>, f: real, filled: int, cfg: RiskConfig): real {
    GrossPnl(legs, f, cfg) - (BuyFee(filled, f, cfg) + SellFees(legs, cfg)) - Slippage(filled, cfg)
  }

  /** The planned worst loss, scaled to what filled. */
  function ScaledLoss(plan: TradePlan, filled: int): real {
    if plan.totalLots > 0 then plan.maxNetLoss * filled as real / plan.totalLots as real else 0.0
  }

  function Outcome(
      plan: TradePlan, entryBar: Option<Bar>, bars: seq<Bar>, cfg: RiskConfig, opts: SimulationOptions): TradeOutcome
    requires cfg.lotSize > 0.0
  {
    var fill := if entryBar.None? then NoFill(NoEntryBar)
        else SimulateEntry(plan, entryBar.value, cfg, opts.fillFraction);
    if fill.NoFill? then TradeOutcome(plan, fill, [], 0.0, 0.0, 0.0, 0.0, None)
    else
      var exits := ExitLegs(plan, fill.price, fill.lots, Slice(bars, opts.maxHoldingBars));
      var net, loss := NetPnl(exits, fill.price, fill.lots, cfg), ScaledLoss(plan, fill.lots);
      TradeOutcome(plan, fill, exits, GrossPnl(exits, fill.price, cfg),
                   BuyFee(fill.lots, fill.price, cfg) + SellFees(exits, cfg), Slippage(fill.lots, cfg), net,
                   if loss > 0.0 then Some(net / loss) else None)
  }

  method SimulateTradePlan(
      plan: TradePlan, entryBar: Option<Bar>, bars: seq<Bar>, cfg: RiskConfig, opts: SimulationOptions)
    returns (outcome: TradeOutcome)
    requires cfg.lotSize > 0.0
    ensures outcome == Outcome(plan, entryBar, bars, cfg, opts)
  {
    hide SimulateEntry, ExitLegs, LegGross, LegSellFee, BuyFee, Slippage, ScaledLoss, Slice;
    var fill := NoFill(NoEntryBar);
    if entryBar.Some? {
      fill := SimulateEntry(plan, entryBar.value, cfg, opts.fillFraction);
    }
    if fill.NoFill? {
      return TradeOutcome(plan, fill, [], 0.0, 0.0, 0.0, 0.0, None);
    }
    FilledLotsArePositive(plan, entryBar.value, cfg, opts.fillFraction);
    var exits := SimulateExit(plan, fill.price, fill.lots, Slice(bars, opts.maxHoldingBars));
    var buyFeeTotal, slippage := BuyFee(fill.lots, fill.price, cfg), Slippage(fill.lots, cfg);
    var grossPnl, sellFeeTotal := 0.0, 0.0;
    for i := 0 to |exits|
      invariant grossPnl == GrossPnl(exits[..i], fill.price, cfg)
      invariant sellFeeTotal == SellFees(exits[..i], cfg)
    {
      var leg := exits[i];
      assert exits[..i + 1][..i] == exits[..i];
      grossPnl := grossPnl + LegGross(leg, fill.price, cfg);
      sellFeeTotal := sellFeeTotal + LegSellFee(leg, cfg);
    }
    assert exits[..|exits|] == exits;
    var fees := buyFeeTotal + sellFeeTotal;
    var netPnl := grossPnl - fees - slippage;
    var scaledMaxNetLoss := ScaledLoss(plan, fill.lots);
    var netRR := if scaledMaxNetLoss > 0.0 then Some(netPnl / scaledMaxNetLoss) else None;
    outcome := TradeOutcome(plan, fill, exits, grossPnl, fees, slippage, netPnl, netRR);
  }

  lemma FilledLotsArePositive(plan: TradePlan, bar: Bar, cfg: RiskConfig, fraction: real)
    requires cfg.lotSize > 0.0
    ensures var fill := SimulateEntry(plan, bar, cfg, fraction); fill.Filled? ==> fill.lots >= 1
  {
  }

  // ----- net result as a sum over legs -----

  /** One share bought at f and sold at the leg's price, after both fees and the allowance. */
  function NetPerShare(price: real, f: real, cfg: RiskConfig): real {
    price - f - price * cfg.sellFeeRate - f * cfg.buyFeeRate - cfg.slippagePerShare
  }

  /** Net result of lots bought at f and sold at a price. */
  function SaleNet(price: real, f: real, lots: int, cfg: RiskConfig): real {
    NetPerShare(price, f, cfg) * Shares(lots, cfg)
  }

  function LegSum(legs: seq<ExitLeg>, f: real, cfg: RiskConfig): real {
    if legs == [] then 0.0
    else
      var leg := legs[|legs| - 1];
      LegSum(legs[..|legs| - 1], f, cfg) + SaleNet(leg.price, f, leg.lots, cfg)
  }

  lemma SharesAdd(a: int, b: int, cfg: RiskConfig)
    ensures Shares(a + b, cfg) == Shares(a, cfg) + Shares(b, cfg)
  {
    var x, y, size := a as real, b as real, cfg.lotSize;
    assert (x + y) * size == x * size + y * size;
  }

  lemma SplitNet(n: real, price: real, f: real, bf: real, sf: real, slip: real)
    ensures (price - f - price * sf - f * bf - slip) * n == n * (price - f) - n * price * sf - n * f * bf - n * slip
  {
    var a, b := price * sf, f * bf;
    assert n * price * sf == n * a && n * f * bf == n * b;
  }

  lemma SplitCost(m: real, n: real, f: real, bf: real, slip: real)
    ensures (m + n) * f * bf == m * f * bf + n * f * bf && (m + n) * slip == m * slip + n * slip
  {
    var b := f * bf;
    assert (m + n) * f * bf == (m + n) * b && m * f * bf == m * b && n * f * bf == n * b;
  }

  lemma {:induction false} NetIsLegSum(legs: seq<ExitLeg>, f: real, cfg: RiskConfig)
    ensures NetPnl(legs, f, TotalLots(legs), cfg) == LegSum(legs, f, cfg)
    decreases |legs|
  {
    if legs == [] {
      assert Shares(0, cfg) == 0.0;
    } else {
      var init, leg := legs[..|legs| - 1], legs[|legs| - 1];
      NetIsLegSum(init, f, cfg);
      NetOfLastLeg(init, leg, f, cfg);
    }
  }

  lemma NetOfLastLeg(init: seq<ExitLeg>, leg: ExitLeg, f: real, cfg: RiskConfig)
    ensures NetPnl(init + [leg], f, TotalLots(init + [leg]), cfg)
         == NetPnl(init, f, TotalLots(init), cfg) + SaleNet(leg.price, f, leg.lots, cfg)
  {
    hide Shares;
    var legs, m, n := init + [leg], Shares(TotalLots(init), cfg), Shares(leg.lots, cfg);
    assert legs[..|legs| - 1] == init;
    SharesAdd(TotalLots(init), leg.lots, cfg);
    SplitNet(n, leg.price, f, cfg.buyFeeRate, cfg.sellFeeRate, cfg.slippagePerShare);
    SplitCost(m, n, f, cfg.buyFeeRate, cfg.slippagePerShare);
  }

  // ----- the planned worst loss bounds every run -----

  /** What gapped stop-outs cost beyond the planned stop. */
  function GapShortfall(legs: seq<ExitLeg>, sl: real, cfg: RiskConfig): real {
    if legs == [] then 0.0
    else
      var leg := legs[|legs| - 1];
      GapShortfall(legs[..|legs| - 1], sl, cfg) + ShortfallPerShare(leg, sl, cfg) * Shares(leg.lots, cfg)
  }

  function ShortfallPerShare(leg: ExitLeg, sl: real, cfg: RiskConfig): real {
    if leg.reason.StopLoss? && leg.gapped && leg.price < sl then (1.0 - cfg.sellFeeRate) * (sl - leg.price) else 0.0
  }

  /** Selling at or above the stop or the fill loses at most the planned loss of a share. */
  lemma SharesAboveTheStop(price: real, f: real, entry: real, sl: real, cfg: RiskConfig)
    requires cfg.Costed() && sl < entry && f <= entry && price >= MinReal(sl, f)
    ensures NetPerShare(price, f, cfg) >= -LossOf(entry, sl, cfg)
  {
    var buyF, buyEntry := f * cfg.buyFeeRate, entry * cfg.buyFeeRate;
    var sellP, sellSl, sellF := price * cfg.sellFeeRate, sl * cfg.sellFeeRate, f * cfg.sellFeeRate;
    assert buyF <= buyEntry by { Scale(f, entry, cfg.buyFeeRate); }
    assert NetPerShare(price, f, cfg) == price - f - sellP - buyF - cfg.slippagePerShare;
    assert LossOf(entry, sl, cfg) == entry - sl + buyEntry + sellSl + cfg.slippagePerShare;
    if price >= sl {
      assert sl - sellSl <= price - sellP by { Keep(sl, price, cfg.sellFeeRate); }
    } else {
      assert f - sellF <= price - sellP by { Keep(f, price, cfg.sellFeeRate); }
      assert sellF <= sellSl by { Scale(f, sl, cfg.sellFeeRate); }
    }
  }

  /** Less a fee of at most everything, more is still more. */
  lemma Keep(a: real, b: real, rate: real)
    requires a <= b && 0.0 <= rate <= 1.0
    ensures a - a * rate <= b - b * rate
  {
    Scale(a, b, 1.0 - rate);
    assert a * (1.0 - rate) == a - a * rate && b * (1.0 - rate) == b - b * rate;
  }

  lemma GappedShare(price: real, f: real, entry: real, sl: real, cfg: RiskConfig)
    requires cfg.Costed() && sl < entry && f <= entry && price < sl
    ensures NetPerShare(price, f, cfg) + (1.0 - cfg.sellFeeRate) * (sl - price) >= -LossOf(entry, sl, cfg)
  {
    var keep := 1.0 - cfg.sellFeeRate;
    assert cfg.buyFeeRate * f <= cfg.buyFeeRate * entry by { Scale(f, entry, cfg.buyFeeRate); }
    assert keep * (sl - price) == keep * sl - keep * price;
  }

  /** Every leg is at or above the stop or the fill, except a gapped stop-out. */
  predicate NoWorseThanStop(leg: ExitLeg, sl: real, f: real) {
    leg.lots >= 0 && (leg.price >= MinReal(sl, f) || (leg.reason.StopLoss? && leg.gapped))
  }

  lemma {:induction false} LegSumBound(legs: seq<ExitLeg>, f: real, entry: real, sl: real, cfg: RiskConfig)
    requires cfg.Costed() && sl < entry && f <= entry
    requires forall k :: 0 <= k < |legs| ==> NoWorseThanStop(legs[k], sl, f)
    ensures LegSum(legs, f, cfg)
            + GapShortfall(legs, sl, cfg) >= -(LossOf(entry, sl, cfg) * Shares(TotalLots(legs), cfg))
    decreases |legs|
  {
    hide Shares, NetPerShare, LossOf, ShortfallPerShare;
    if legs == [] {
      SharesOfNone(cfg);
      assert LossOf(entry, sl, cfg) * 0.0 == 0.0;
    } else {
      var init, leg := legs[..|legs| - 1], legs[|legs| - 1];
      var m, n, loss := Shares(TotalLots(init), cfg), Shares(leg.lots, cfg), LossOf(entry, sl, cfg);
      var net, gap := SaleNet(leg.price, f, leg.lots, cfg), ShortfallPerShare(leg, sl, cfg) * n;
      LegSumBound(init, f, entry, sl, cfg);
      assert net + gap >= -(loss * n) by { LegBound(leg, f, entry, sl, cfg); }
      assert Shares(TotalLots(legs), cfg) == m + n by { SharesAdd(TotalLots(init), leg.lots, cfg); }
      assert loss * (m + n) == loss * m + loss * n by { Distribute(loss, m, n); }
      assert LegSum(legs, f, cfg) == LegSum(init, f, cfg) + net;
      assert GapShortfall(legs, sl, cfg) == GapShortfall(init, sl, cfg) + gap;
    }
  }

  lemma Distribute(a: real, b: real, c: real)
    ensures a * (b + c) == a * b + a * c
  {
  }

  lemma SharesOfNone(cfg: RiskConfig)
    ensures Shares(0, cfg) == 0.0
  {
  }

  lemma LegBound(leg: ExitLeg, f: real, entry: real, sl: real, cfg: RiskConfig)
    requires cfg.Costed() && sl < entry && f <= entry && NoWorseThanStop(leg, sl, f)
    ensures SaleNet(leg.price, f, leg.lots, cfg) + ShortfallPerShare(leg, sl, cfg) * Shares(leg.lots, cfg)
            >= -(LossOf(entry, sl, cfg) * Shares(leg.lots, cfg))
  {
    hide Shares, NetPerShare, LossOf;
    var n, loss := Shares(leg.lots, cfg), LossOf(entry, sl, cfg);
    var net, gap := NetPerShare(leg.price, f, cfg), ShortfallPerShare(leg, sl, cfg);
    SharesNonNegative(leg.lots, cfg);
    if leg.price >= MinReal(sl, f) {
      SharesAboveTheStop(leg.price, f, entry, sl, cfg);
      assert gap >= 0.0 by { ShortfallNonNegative(leg, sl, cfg); }
    } else {
      GappedShare(leg.price, f, entry, sl, cfg);
    }
    Scale(-loss, net + gap, n);
    assert (net + gap) * n == net * n + gap * n && -loss * n == -(loss * n);
  }

  lemma ShortfallNonNegative(leg: ExitLeg, sl: real, cfg: RiskConfig)
    requires cfg.Costed()
    ensures ShortfallPerShare(leg, sl, cfg) >= 0.0
  {
    if leg.price < sl { Scale(0.0, 1.0 - cfg.sellFeeRate, sl - leg.price); }
  }

  lemma SharesNonNegative(lots: int, cfg: RiskConfig)
    requires cfg.Sizable() && lots >= 0
    ensures Shares(lots, cfg) >= 0.0
  {
    Scale(0.0, lots as real, cfg.lotSize);
  }

  /** In a complete trace only a gapped stop-out sells below both the stop and the fill. */
  lemma TraceNoWorseThanStop(legs: seq<ExitLeg>, a: int, b: int, plan: TradePlan, f: real, bars: seq<Bar>)
    requires Levels(plan, f) && a >= 0 && b >= 0 && CompleteTrace(legs, a, b, plan, f, bars)
    ensures forall k :: 0 <= k < |legs| ==> NoWorseThanStop(legs[k], plan.slPrice, f)
  {
  }

  /** Selling nothing at all still costs less than the planned loss. */
  lemma EmptyRunBound(f: real, filled: nat, entry: real, sl: real, cfg: RiskConfig)
    requires cfg.Costed() && sl < entry && 0.0 < entry && f <= entry
    ensures NetPnl([], f, filled, cfg) >= -(LossOf(entry, sl, cfg) * Shares(filled, cfg))
  {
    hide Shares;
    var n, buyF, buyEntry, sellSl :=
        Shares(filled, cfg), f * cfg.buyFeeRate, entry * cfg.buyFeeRate, sl * cfg.sellFeeRate;
    SharesNonNegative(filled, cfg);
    assert buyF <= buyEntry by { Scale(f, entry, cfg.buyFeeRate); }
    assert sellSl >= 0.0 || sellSl >= sl by {
      if sl >= 0.0 { Scale(0.0, cfg.sellFeeRate, sl); } else { Scale(cfg.sellFeeRate, 1.0, -sl); }
    }
    var loss := LossOf(entry, sl, cfg);
    assert loss == entry - sl + buyEntry + sellSl + cfg.slippagePerShare;
    assert n * f * cfg.buyFeeRate == buyF * n && n * cfg.slippagePerShare == cfg.slippagePerShare * n;
    Scale(buyF + cfg.slippagePerShare, loss, n);
    Distribute(n, buyF, cfg.slippagePerShare);
  }

  /** Every run of a filled plan loses at most the planned loss, plus what gapped stop-outs cost beyond the stop. */
  lemma LossIsBounded(plan: TradePlan, f: real, filled: nat, bars: seq<Bar>, cfg: RiskConfig)
    requires cfg.Costed() && WellShaped(plan) && 1 <= filled <= plan.totalLots && f <= plan.entryTrigger
            && AllWellFormed(bars)
    ensures var legs := ExitLegs(plan, f, filled, bars);
            NetPnl(legs, f, filled, cfg) + GapShortfall(legs, plan.slPrice, cfg)
            >= -(LossOf(plan.entryTrigger, plan.slPrice, cfg) * Shares(filled, cfg))
  {
    hide Shares, LossOf, NetPnl, ScaleToFilledLots, CompleteTrace;
    var legs := ExitLegs(plan, f, filled, bars);
    if bars == [] {
      assert legs == [];
      EmptyRunBound(f, filled, plan.entryTrigger, plan.slPrice, cfg);
    } else {
      var (a, b) := ScaleToFilledLots(plan, filled);
      FirstTargetKeepsALotIff(plan, filled);
      EveryRunIsComplete(plan, f, filled, bars);
      TraceNoWorseThanStop(legs, a, b, plan, f, bars);
      LegSumBound(legs, f, plan.entryTrigger, plan.slPrice, cfg);
      NetIsLegSum(legs, f, cfg);
    }
  }

  lemma ScaledLossOfPlan(input: RiskInput, cfg: RiskConfig, filled: nat)
    requires cfg.Costed() && input.entryTrigger > 0.0
    requires var plan := BuildRiskPlan(input, cfg); 1 <= filled <= plan.totalLots
    ensures var plan := BuildRiskPlan(input, cfg);
            && ScaledLoss(plan, filled) == LossOf(plan.entryTrigger, plan.slPrice, cfg) * Shares(filled, cfg)
            && ScaledLoss(plan, filled) > 0.0
  {
    hide BuildRiskPlan, PlannedLoss, LossOf, TargetPrice, GrossReward, RoundTripFees, MaxBuyPrice, CapitalOf;
    hide AffordableLots, EffectiveRiskPerShare, SizeMultiplier, Shares;
    var plan := BuildRiskPlan(input, cfg);
    PlanWithLots(input, cfg);
    LossPerShare(Shares(plan.totalLots, cfg), plan.entryTrigger, plan.slPrice, cfg);
    LossPerShareBounds(plan.entryTrigger, plan.slPrice, cfg);
    Prorate(LossOf(plan.entryTrigger, plan.slPrice, cfg), plan.totalLots, filled, cfg);
    SharesPositive(filled, cfg);
    ScaleStrict(0.0, LossOf(plan.entryTrigger, plan.slPrice, cfg), Shares(filled, cfg));
  }

  lemma Prorate(loss: real, total: int, filled: int, cfg: RiskConfig)
    requires total > 0
    ensures loss * Shares(total, cfg) * filled as real / total as real == loss * Shares(filled, cfg)
  {
    var t, k, size := total as real, filled as real, cfg.lotSize;
    assert loss * (t * size) * k == (loss * (k * size)) * t;
    assert (loss * (k * size)) * t / t == loss * (k * size);
  }

  lemma {:induction false} NoGapNoShortfall(legs: seq<ExitLeg>, sl: real, cfg: RiskConfig)
    requires forall k :: 0 <= k < |legs| ==> !(legs[k].reason.StopLoss? && legs[k].gapped)
    ensures GapShortfall(legs, sl, cfg) == 0.0
    decreases |legs|
  {
    hide Shares;
    if legs != [] {
      NoGapNoShortfall(legs[..|legs| - 1], sl, cfg);
    }
  }

  predicate StoppedInAGap(legs: seq<ExitLeg>) {
    exists k :: 0 <= k < |legs| && legs[k].reason.StopLoss? && legs[k].gapped
  }

  /** The plan's worst case is the simulator's: without a gapped stop-out no filled run nets below minus one risk. */
  lemma PlannedLossBoundsEveryOutcome(
      input: RiskInput, cfg: RiskConfig, entryBar: Bar, bars: seq<Bar>, opts: SimulationOptions)
    requires cfg.Sane() && input.entryTrigger > 0.0 && WellFormed(entryBar) && AllWellFormed(bars)
    ensures var plan := BuildRiskPlan(input, cfg);
            var outcome := Outcome(plan, Some(entryBar), bars, cfg, opts);
            outcome.fill.Filled? ==>
              && outcome.netPnl + GapShortfall(outcome.exits, plan.slPrice, cfg) >= -ScaledLoss(plan, outcome.fill.lots)
              && outcome.netRR.Some?
              && (!StoppedInAGap(outcome.exits) ==> outcome.netRR.value >= -1.0)
  {
    hide BuildRiskPlan, SimulateEntry, ExitLegs, NetPnl, GapShortfall, ScaledLoss, LossOf, Shares, VolumeShare, BuyFee;
    hide Slippage, GrossPnl, SellFees;
    var plan := BuildRiskPlan(input, cfg);
    var outcome := Outcome(plan, Some(entryBar), bars, cfg, opts);
    EntryIsRealizable(plan, entryBar, cfg, opts.fillFraction);
    if outcome.fill.Filled? {
      var f, lots := outcome.fill.price, outcome.fill.lots;
      PlanIsWellShaped(input, cfg);
      LossIsBounded(plan, f, lots, Slice(bars, opts.maxHoldingBars), cfg);
      ScaledLossOfPlan(input, cfg, lots);
      var loss := ScaledLoss(plan, lots);
      assert outcome.netRR == Some(outcome.netPnl / loss);
      if !StoppedInAGap(outcome.exits) {
        NoGapNoShortfall(outcome.exits, plan.slPrice, cfg);
        QuotientAtLeast(outcome.netPnl, loss);
      }
    }
  }

  lemma QuotientAtLeast(net: real, loss: real)
    requires loss > 0.0
    ensures net >= -loss <==> net / loss >= -1.0
  {
    var q := net / loss;
    assert q * loss == net;
    if q >= -1.0 { Scale(-1.0, q, loss); } else { ScaleStrict(q, -1.0, loss); }
  }

  /**
   * What a share sold at this price keeps of its planned loss: what the fill saved, less what the sale is short of the
   * stop.
   */
  function Cushion(price: real, plan: TradePlan, f: real, cfg: RiskConfig): real {
    (1.0 + cfg.buyFeeRate) * (plan.entryTrigger - f) - (1.0 - cfg.sellFeeRate) * (plan.slPrice - price)
  }

  predicate GappedStop(leg: ExitLeg) {
    leg.reason.StopLoss? && leg.gapped
  }

  /** A stop-out in a gap that loses more than planned, alone or after TP1, whose gain then counts against it. */
  predicate LosesMoreThanPlanned(exits: seq<ExitLeg>, plan: TradePlan, f: real, cfg: RiskConfig) {
    || (|exits| == 1 && GappedStop(exits[0]) && Cushion(exits[0].price, plan, f, cfg) < 0.0)
    || (|exits| == 2 && exits[0].reason.Tp1? && GappedStop(exits[1])
        && exits[0].lots as real * Cushion(exits[0].price, plan, f, cfg)
           + exits[1].lots as real * Cushion(exits[1].price, plan, f, cfg) < 0.0)
  }

  /**
   * Only a gap breaks the bound, and not every gap does. A filled outcome loses more than one risk exactly if it ends
   * in a gapped stop-out, before or after TP1, and the cushions of its sales, weighted by their lots, do not add up to
   * zero.
   */
  lemma GapBreaksTheBoundIff(input: RiskInput, cfg: RiskConfig, entryBar: Bar, bars: seq<Bar>, opts: SimulationOptions)
    requires cfg.Sane() && input.entryTrigger > 0.0 && WellFormed(entryBar) && AllWellFormed(bars)
    ensures var plan := BuildRiskPlan(input, cfg);
            var outcome := Outcome(plan, Some(entryBar), bars, cfg, opts);
            outcome.fill.Filled? ==>
              && outcome.netRR.Some?
              && (outcome.netRR.value < -1.0 <==> LosesMoreThanPlanned(outcome.exits, plan, outcome.fill.price, cfg))
  {
    hide BuildRiskPlan, SimulateEntry, ExitLegs, NetPnl, ScaledLoss, LossOf, Shares, VolumeShare, BuyFee, Slippage,
        GrossPnl;
    hide SellFees, Cushion, Slice, AllWellFormed, FirstLeg, SecondLeg, TotalLots, WellShaped, GapShortfall;
    var plan := BuildRiskPlan(input, cfg);
    var outcome := Outcome(plan, Some(entryBar), bars, cfg, opts);
    PlannedLossBoundsEveryOutcome(input, cfg, entryBar, bars, opts);
    if outcome.fill.Filled? && StoppedInAGap(outcome.exits) {
      var walk, f, lots := Slice(bars, opts.maxHoldingBars), outcome.fill.price, outcome.fill.lots;
      EntryIsRealizable(plan, entryBar, cfg, opts.fillFraction);
      PlanIsWellShaped(input, cfg);
      SliceIsWellFormed(bars, opts.maxHoldingBars);
      GappedRunShape(plan, f, lots, walk);
      ScaledLossOfPlan(input, cfg, lots);
      MarginDecides(outcome.exits, plan, f, cfg);
      QuotientAtLeast(outcome.netPnl, ScaledLoss(plan, lots));
    }
  }

  lemma SliceIsWellFormed(bars: seq<Bar>, n: int)
    requires AllWellFormed(bars)
    ensures AllWellFormed(Slice(bars, n))
  {
  }

  /** A run with a gapped stop-out is that sale alone or TP1 and that sale. */
  lemma GappedRunShape(plan: TradePlan, f: real, filled: nat, walk: seq<Bar>)
    requires WellShaped(plan) && 1 <= filled <= plan.totalLots && f <= plan.entryTrigger && AllWellFormed(walk)
    requires StoppedInAGap(ExitLegs(plan, f, filled, walk))
    ensures var exits := ExitLegs(plan, f, filled, walk);
            && TotalLots(exits) == filled
            && if |exits| == 1 then GappedStop(exits[0])
               else |exits| == 2 && exits[0].reason.Tp1? && GappedStop(exits[1])
  {
    hide ScaleToFilledLots, TotalLots, FirstLeg, SecondLeg;
    FirstTargetKeepsALotIff(plan, filled);
    EveryRunIsComplete(plan, f, filled, walk);
  }

  /** Lots times cushion, over all sales. */
  function Margin(legs: seq<ExitLeg>, plan: TradePlan, f: real, cfg: RiskConfig): real {
    if legs == [] then 0.0
    else
      var leg := legs[|legs| - 1];
      Margin(legs[..|legs| - 1], plan, f, cfg) + leg.lots as real * Cushion(leg.price, plan, f, cfg)
  }

  lemma {:induction false} NetAgainstPlanned(legs: seq<ExitLeg>, plan: TradePlan, f: real, cfg: RiskConfig)
    ensures LegSum(legs, f, cfg) + LossOf(plan.entryTrigger, plan.slPrice, cfg) * Shares(TotalLots(legs), cfg)
         == Margin(legs, plan, f, cfg) * cfg.lotSize
    decreases |legs|
  {
    hide NetPerShare, LossOf, Cushion;
    var loss := LossOf(plan.entryTrigger, plan.slPrice, cfg);
    if legs == [] {
      SharesOfNone(cfg);
      assert loss * Shares(TotalLots(legs), cfg) == 0.0;
    } else {
      var init, leg := legs[..|legs| - 1], legs[|legs| - 1];
      var cushion, lots, size := Cushion(leg.price, plan, f, cfg), leg.lots as real, cfg.lotSize;
      var net := NetPerShare(leg.price, f, cfg);
      NetAgainstPlanned(init, plan, f, cfg);
      CushionIsNetPlusLoss(leg.price, plan, f, cfg);
      SharesAdd(TotalLots(init), leg.lots, cfg);
      Distribute(loss, Shares(TotalLots(init), cfg), Shares(leg.lots, cfg));
      WeightedCushion(net, loss, lots, size);
      AddWeighted(Margin(init, plan, f, cfg), lots * cushion, size);
    }
  }

  lemma WeightedCushion(net: real, loss: real, lots: real, size: real)
    ensures net * (lots * size) + loss * (lots * size) == lots * (net + loss) * size
  {
  }

  lemma AddWeighted(a: real, b: real, size: real)
    ensures (a + b) * size == a * size + b * size
  {
  }

  lemma CushionIsNetPlusLoss(price: real, plan: TradePlan, f: real, cfg: RiskConfig)
    ensures Cushion(price, plan, f, cfg) == NetPerShare(price, f, cfg) + LossOf(plan.entryTrigger, plan.slPrice, cfg)
  {
    var entry, sl := plan.entryTrigger, plan.slPrice;
    var buyEntry, buyF, sellP, sellSl :=
        entry * cfg.buyFeeRate, f * cfg.buyFeeRate, price * cfg.sellFeeRate, sl * cfg.sellFeeRate;
    assert (1.0 + cfg.buyFeeRate) * (entry - f) == entry - f + buyEntry - buyF;
    assert (1.0 - cfg.sellFeeRate) * (sl - price) == sl - price - sellSl + sellP;
    assert NetPerShare(price, f, cfg) == price - f - sellP - buyF - cfg.slippagePerShare;
    assert LossOf(entry, sl, cfg) == entry - sl + buyEntry + sellSl + cfg.slippagePerShare;
  }

  lemma MarginOfOneOrTwo(legs: seq<ExitLeg>, plan: TradePlan, f: real, cfg: RiskConfig)
    requires 1 <= |legs| <= 2
    ensures var first := legs[0].lots as real * Cushion(legs[0].price, plan, f, cfg);
            Margin(legs, plan, f, cfg) ==
            if |legs| == 1 then first else first + legs[1].lots as real * Cushion(legs[1].price, plan, f, cfg)
  {
    hide Cushion;
    assert legs[..1] == [legs[0]] && [legs[0]][..0] == [];
    assert Margin([legs[0]], plan, f, cfg) == legs[0].lots as real * Cushion(legs[0].price, plan, f, cfg);
    assert |legs| == 1 ==> legs == [legs[0]];
  }

  lemma MarginDecides(legs: seq<ExitLeg>, plan: TradePlan, f: real, cfg: RiskConfig)
    requires cfg.Costed() && TotalLots(legs) >= 1
    requires if |legs| == 1 then GappedStop(legs[0]) else |legs| == 2 && legs[0].reason.Tp1? && GappedStop(legs[1])
    ensures NetPnl(legs, f, TotalLots(legs), cfg)
            < -(LossOf(plan.entryTrigger, plan.slPrice, cfg) * Shares(TotalLots(legs), cfg))
            <==> LosesMoreThanPlanned(legs, plan, f, cfg)
  {
    hide NetPnl, LegSum, LossOf, Shares, Cushion, Margin;
    NetIsLegSum(legs, f, cfg);
    NetAgainstPlanned(legs, plan, f, cfg);
    MarginOfOneOrTwo(legs, plan, f, cfg);
    TotalOfOneOrTwo(legs);
    SignOfProduct(Margin(legs, plan, f, cfg), cfg.lotSize);
    if |legs| == 1 {
      SignOfProduct(Cushion(legs[0].price, plan, f, cfg), legs[0].lots as real);
    }
  }

  lemma SignOfProduct(x: real, size: real)
    requires size > 0.0
    ensures x * size < 0.0 <==> x < 0.0
    ensures size * x < 0.0 <==> x < 0.0
  {
    if x < 0.0 { ScaleStrict(x, 0.0, size); } else { Scale(0.0, x, size); }
  }

  /** A bar that opens at or below the active stop sells there whatever lots are left, before TP1 or after it. */
  lemma GapSellsTheRest(plan: TradePlan, f: real, filled: nat, walk: seq<Bar>, k: nat)
    requires k < |walk|
    requires var p := Walk(plan, f, filled, walk[..k]); !p.closed && p.lots1 + p.lots2 > 0 && walk[k].open <= p.stop
    ensures var p := Walk(plan, f, filled, walk[..k]);
            ExitLegs(plan, f, filled, walk)
            == p.legs + [ExitLeg(StopLoss, walk[k].open, p.lots1 + p.lots2, walk[k].date, true)]
  {
    hide ScaleToFilledLots;
    assert walk[..k + 1][..k] == walk[..k];
    assert walk[..k + 1] + walk[k + 1..] == walk;
    ClosedStaysClosed(plan, f, filled, walk[..k + 1], walk[k + 1..]);
  }

  const ENTRY_DAY := Bar(1, 1000.0, 1010.0, 990.0, 1000.0, 100_000.0, None)
  const TP1_DAY := Bar(2, 1050.0, 1100.0, 1010.0, 1080.0, 100_000.0, None)
  const CRASH := Bar(3, 400.0, 410.0, 390.0, 400.0, 100_000.0, None)

  /** Even after TP1: three lots sold at 1100 and two in a gap at 400 lose more than three planned risks. */
  lemma GapAfterTp1BreaksTheBound()
    ensures var plan := BuildRiskPlan(AtOneThousand(950.0, StrongBuy), DEFAULT_RISK);
            var outcome := Outcome(plan, Some(ENTRY_DAY), [TP1_DAY, CRASH], DEFAULT_RISK, DEFAULT_OPTIONS);
            && !plan.isNoTrade && outcome.fill == Filled(1000.0, 5, 1, false)
            && outcome.exits == [ExitLeg(Tp1, 1100.0, 3, 2, false), ExitLeg(StopLoss, 400.0, 2, 3, true)]
            && outcome.netRR.Some? && outcome.netRR.value < -3.0
  {
    hide BuildRiskPlan, ExitLegs, NetPnl, ScaledLoss, GrossPnl, SellFees, BuyFee, Slippage;
    PlanWithStop950(StrongBuy);
    var plan := BuildRiskPlan(AtOneThousand(950.0, StrongBuy), DEFAULT_RISK);
    var walk, legs := [TP1_DAY, CRASH], [ExitLeg(Tp1, 1100.0, 3, 2, false), ExitLeg(StopLoss, 400.0, 2, 3, true)];
    assert Slice(walk, DEFAULT_MAX_HOLDING_BARS) == walk;
    TwoDays(plan, 1000.0, 5, TP1_DAY, CRASH);
    NetOfCrash(legs);
    ScaledLossOfAll(plan);
    QuotientBelow(NetPnl(legs, 1000.0, 5, DEFAULT_RISK), 27937.5);
  }

  lemma TwoDays(plan: TradePlan, f: real, filled: nat, first: Bar, second: Bar)
    requires plan.slPrice == 950.0 && plan.tp1Price == 1100.0 && plan.tp2Price == 1150.0
    requires plan.totalLots == 5 && plan.tp1Lots == 3 && plan.tp2Lots == 2
    requires f == 1000.0 && filled == 5 && first == TP1_DAY && second == CRASH
    ensures ExitLegs(plan, f, filled, [first, second])
            == [ExitLeg(Tp1, 1100.0, 3, 2, false), ExitLeg(StopLoss, 400.0, 2, 3, true)]
  {
    assert [first, second][..1] == [first] && [first][..0] == [];
    assert Walk(plan, f, filled, [first]) == BarStep(Start(plan, filled), plan, f, first);
    GapSellsTheRest(plan, f, filled, [first, second], 1);
  }

  lemma NetOfCrash(legs: seq<ExitLeg>)
    requires legs == [ExitLeg(Tp1, 1100.0, 3, 2, false), ExitLeg(StopLoss, 400.0, 2, 3, true)]
    ensures NetPnl(legs, 1000.0, 5, DEFAULT_RISK) < -3.0 * 27937.5
  {
    hide NetPnl;
    NetIsLegSum(legs, 1000.0, DEFAULT_RISK);
    TotalOfOneOrTwo(legs);
    LegSumOfOneOrTwo(legs, 1000.0, DEFAULT_RISK);
  }

  lemma ScaledLossOfAll(plan: TradePlan)
    requires plan.totalLots == 5
    ensures ScaledLoss(plan, 5) == plan.maxNetLoss
  {
  }

  lemma QuotientBelow(net: real, loss: real)
    requires loss > 0.0 && net < -3.0 * loss
    ensures net / loss < -3.0
  {
    var q := net / loss;
    assert q * loss == net;
    if q >= -3.0 { Scale(-3.0, q, loss); }
  }

  /** Fully filled and out at its targets, a run earns at least the quoted reward. */
  lemma WinEarnsThePlan(input: RiskInput, cfg: RiskConfig, f: real, bars: seq<Bar>)
    requires cfg.Sane() && input.entryTrigger > 0.0 && AllWellFormed(bars) && bars != []
    requires var plan := BuildRiskPlan(input, cfg); plan.totalLots >= 1 && f <= plan.entryTrigger
    ensures var plan := BuildRiskPlan(input, cfg);
            var legs := ExitLegs(plan, f, plan.totalLots, bars);
            (forall k :: 0 <= k < |legs| ==> legs[k].reason.Tp1? || legs[k].reason.Tp2?) ==>
              NetPnl(legs, f, plan.totalLots, cfg) >= plan.netReward
  {
    hide BuildRiskPlan, ExitLegs, NetPnl, Shares, NetPerShare, CompleteTrace, TotalLots, LegSum;
    var plan := BuildRiskPlan(input, cfg);
    PlanIsWellShaped(input, cfg);
    var legs := ExitLegs(plan, f, plan.totalLots, bars);
    EveryRunIsComplete(plan, f, plan.totalLots, bars);
    if forall k :: 0 <= k < |legs| ==> legs[k].reason.Tp1? || legs[k].reason.Tp2? {
      NetIsLegSum(legs, f, cfg);
      RewardOfPlan(input, cfg);
      TargetLegs(legs, plan, f, bars, cfg);
    }
  }

  lemma TargetLegs(legs: seq<ExitLeg>, plan: TradePlan, f: real, bars: seq<Bar>, cfg: RiskConfig)
    requires cfg.Costed() && WellShaped(plan) && f <= plan.entryTrigger
    requires CompleteTrace(legs, plan.tp1Lots, plan.tp2Lots, plan, f, bars)
    requires forall k :: 0 <= k < |legs| ==> legs[k].reason.Tp1? || legs[k].reason.Tp2?
    ensures LegSum(legs, f, cfg) >= RewardAsPlanned(plan, cfg)
  {
    hide SaleNet, LegSum;
    var entry := plan.entryTrigger;
    LegSumOfOneOrTwo(legs, f, cfg);
    EmptySale(plan.tp1Price, entry, cfg);
    EmptySale(plan.tp2Price, entry, cfg);
    if legs[0].reason.Tp2? {
      TargetSale(legs[0].price, plan.tp2Price, f, entry, plan.tp2Lots, cfg);
    } else {
      TargetSale(legs[0].price, plan.tp1Price, f, entry, plan.tp1Lots, cfg);
      if |legs| == 2 {
        TargetSale(legs[1].price, plan.tp2Price, f, entry, plan.tp2Lots, cfg);
      }
    }
  }

  lemma EmptySale(price: real, f: real, cfg: RiskConfig)
    ensures SaleNet(price, f, 0, cfg) == 0.0
  {
    hide NetPerShare;
    SharesOfNone(cfg);
    var net, none := NetPerShare(price, f, cfg), Shares(0, cfg);
    assert net * none == 0.0;
  }

  lemma LegSumOfOneOrTwo(legs: seq<ExitLeg>, f: real, cfg: RiskConfig)
    requires 1 <= |legs| <= 2
    ensures var first := SaleNet(legs[0].price, f, legs[0].lots, cfg);
            LegSum(legs, f, cfg) == if |legs| == 1 then first else first + SaleNet(legs[1].price, f, legs[1].lots, cfg)
  {
    hide SaleNet;
    assert LegSum([], f, cfg) == 0.0;
    assert legs[..1] == [legs[0]] && [legs[0]][..0] == [];
    assert LegSum([legs[0]], f, cfg) == SaleNet(legs[0].price, f, legs[0].lots, cfg);
    assert |legs| == 1 ==> legs == [legs[0]];
  }

  function RewardAsPlanned(plan: TradePlan, cfg: RiskConfig): real {
    SaleNet(plan.tp1Price, plan.entryTrigger, plan.tp1Lots, cfg)
        + SaleNet(plan.tp2Price, plan.entryTrigger, plan.tp2Lots, cfg)
  }

  lemma RewardOfPlan(input: RiskInput, cfg: RiskConfig)
    requires cfg.Costed() && input.entryTrigger > 0.0 && BuildRiskPlan(input, cfg).totalLots >= 1
    ensures BuildRiskPlan(input, cfg).netReward == RewardAsPlanned(BuildRiskPlan(input, cfg), cfg)
  {
    hide BuildRiskPlan, PlannedLoss, TargetPrice, MaxBuyPrice, CapitalOf, Shares, AffordableLots, EffectiveRiskPerShare;
    var plan := BuildRiskPlan(input, cfg);
    PlanWithLots(input, cfg);
    var entry, n1, n2 := plan.entryTrigger, Shares(plan.tp1Lots, cfg), Shares(plan.tp2Lots, cfg);
    SharesAdd(plan.tp1Lots, plan.tp2Lots, cfg);
    SplitNet(n1, plan.tp1Price, entry, cfg.buyFeeRate, cfg.sellFeeRate, cfg.slippagePerShare);
    SplitNet(n2, plan.tp2Price, entry, cfg.buyFeeRate, cfg.sellFeeRate, cfg.slippagePerShare);
    SplitCost(n1, n2, entry, cfg.buyFeeRate, cfg.slippagePerShare);
  }

  lemma TargetSale(p: real, target: real, f: real, entry: real, lots: int, cfg: RiskConfig)
    requires cfg.Costed() && target <= p && f <= entry && lots >= 0
    ensures SaleNet(target, entry, lots, cfg) <= SaleNet(p, f, lots, cfg)
  {
    hide Shares;
    assert f * cfg.buyFeeRate <= entry * cfg.buyFeeRate by { Scale(f, entry, cfg.buyFeeRate); }
    Keep(target, p, cfg.sellFeeRate);
    SharesNonNegative(lots, cfg);
    Scale(NetPerShare(target, entry, cfg), NetPerShare(p, f, cfg), Shares(lots, cfg));
  }

  lemma QuotedRatio(input: RiskInput, cfg: RiskConfig)
    requires cfg.Costed() && input.entryTrigger > 0.0 && BuildRiskPlan(input, cfg).totalLots >= 1
    ensures var plan := BuildRiskPlan(input, cfg);
            && plan.netRewardToRisk * plan.maxNetLoss == plan.netReward
            && plan.maxNetLoss > 0.0
            && (!plan.isNoTrade ==> plan.netRewardToRisk >= cfg.minNetRewardToRisk)
  {
    hide BuildRiskPlan, PlannedLoss, TargetPrice, MaxBuyPrice, CapitalOf, Shares, AffordableLots, EffectiveRiskPerShare;
    hide GrossReward, RoundTripFees, RiskBudget, SizeMultiplier;
    var plan := BuildRiskPlan(input, cfg);
    PlanWithLots(input, cfg);
    PlanWithinBudgets(input, cfg);
    assert plan.netRewardToRisk == plan.netReward / plan.maxNetLoss;
  }

  /** The legs of the day the plan hopes for, and of the day it fears. */
  function TargetDay(plan: TradePlan, date: Day): seq<ExitLeg> {
    [ExitLeg(Tp1, plan.tp1Price, plan.tp1Lots, date, false), ExitLeg(Tp2, plan.tp2Price, plan.tp2Lots, date, false)]
  }

  function StopDay(plan: TradePlan, date: Day): seq<ExitLeg> {
    [ExitLeg(StopLoss, plan.slPrice, plan.totalLots, date, false)]
  }

  /**
   * The plan and the simulator keep the same books: bought at the entry and sold at both targets, the simulated gross,
   * fees, slippage and net are the quoted ones; sold out at the stop, the net is the quoted worst loss.
   */
  lemma PlanAndSimulatorAgree(input: RiskInput, cfg: RiskConfig, date: Day)
    requires cfg.Sizable() && input.entryTrigger > 0.0 && BuildRiskPlan(input, cfg).totalLots >= 1
    ensures var plan := BuildRiskPlan(input, cfg);
            var entry, lots := plan.entryTrigger, plan.totalLots;
            && GrossPnl(TargetDay(plan, date), entry, cfg) == plan.grossReward
            && BuyFee(lots, entry, cfg) + SellFees(TargetDay(plan, date), cfg) == plan.estimatedFees
            && Slippage(lots, cfg) == plan.slippageAllowance
            && NetPnl(TargetDay(plan, date), entry, lots, cfg) == plan.netReward
            && NetPnl(StopDay(plan, date), entry, lots, cfg) == -plan.maxNetLoss
  {
    hide BuildRiskPlan, TargetPrice, MaxBuyPrice, CapitalOf, Shares, AffordableLots, EffectiveRiskPerShare;
    hide SizeMultiplier, FirstTargetLots, GrossReward, RoundTripFees, PlannedLoss, BuyFee, GrossPnl, SellFees;
    var plan := BuildRiskPlan(input, cfg);
    PlanWithLots(input, cfg);
    TargetDayGross(plan, date, cfg);
    TargetDayFees(plan, date, cfg);
    StoppedOutNet(plan, date, cfg);
  }

  lemma TargetDayGross(plan: TradePlan, date: Day, cfg: RiskConfig)
    ensures GrossPnl(TargetDay(plan, date), plan.entryTrigger, cfg)
            == GrossReward(Shares(plan.tp1Lots, cfg), Shares(plan.tp2Lots, cfg), plan.entryTrigger, plan.tp1Price,
                plan.tp2Price)
  {
    hide Shares;
    var win := TargetDay(plan, date);
    assert win[..1] == [win[0]] && [win[0]][..0] == [];
    assert GrossPnl([win[0]], plan.entryTrigger, cfg) == LegGross(win[0], plan.entryTrigger, cfg);
  }

  lemma TargetDayFees(plan: TradePlan, date: Day, cfg: RiskConfig)
    ensures BuyFee(plan.totalLots, plan.entryTrigger, cfg) + SellFees(TargetDay(plan, date), cfg)
            == RoundTripFees(Shares(plan.totalLots, cfg), Shares(plan.tp1Lots, cfg), Shares(plan.tp2Lots, cfg),
                             plan.entryTrigger, plan.tp1Price, plan.tp2Price, cfg)
  {
    hide Shares;
    var win := TargetDay(plan, date);
    assert win[..1] == [win[0]] && [win[0]][..0] == [];
    assert SellFees([win[0]], cfg) == LegSellFee(win[0], cfg);
  }

  lemma StoppedOutNet(plan: TradePlan, date: Day, cfg: RiskConfig)
    ensures NetPnl(StopDay(plan, date), plan.entryTrigger, plan.totalLots, cfg)
            == -PlannedLoss(Shares(plan.totalLots, cfg), plan.entryTrigger, plan.slPrice, cfg)
  {
    hide Shares, NetPerShare;
    var loss, n := StopDay(plan, date), Shares(plan.totalLots, cfg);
    assert loss[..0] == [];
    assert GrossPnl(loss, plan.entryTrigger, cfg) == LegGross(loss[0], plan.entryTrigger, cfg);
    assert SellFees(loss, cfg) == LegSellFee(loss[0], cfg);
    hide GrossPnl, SellFees;
    TurnedAround(n, plan.slPrice, plan.entryTrigger);
  }

  lemma TurnedAround(n: real, a: real, b: real)
    ensures n * (a - b) == -(n * (b - a))
  {
  }

  /** An outcome's figures are those of its fill and its exits, which are complete over the bars it may hold through. */
  lemma OutcomeIsOfItsExits(
      input: RiskInput, cfg: RiskConfig, entryBar: Bar, bars: seq<Bar>, opts: SimulationOptions)
    requires cfg.Sizable() && cfg.Targeted() && input.entryTrigger > 0.0 && WellFormed(entryBar) && AllWellFormed(bars)
    ensures var plan := BuildRiskPlan(input, cfg);
            var o := Outcome(plan, Some(entryBar), bars, cfg, opts);
            && o.plan == plan && o.fill == SimulateEntry(plan, entryBar, cfg, opts.fillFraction)
            && o.netPnl == o.grossPnl - o.fees - o.slippage
            && (o.fill.NoFill? ==> o.exits == [] && o.grossPnl == o.fees == o.slippage == 0.0 && o.netRR.None?)
            && (o.fill.Filled? ==>
                  && o.netPnl == NetPnl(o.exits, o.fill.price, o.fill.lots, cfg)
                  && (opts.maxHoldingBars >= 1 && bars != [] ==>
                        && TotalLots(o.exits) == o.fill.lots
                        && var (a, b) := ScaleToFilledLots(plan, o.fill.lots);
                           CompleteTrace(o.exits, a, b, plan, o.fill.price, bars[..Min(opts.maxHoldingBars, |bars|)])))
  {
    hide BuildRiskPlan, SimulateEntry, ExitLegs, GrossPnl, SellFees, BuyFee, Slippage, ScaledLoss, CompleteTrace,
        TotalLots;
    hide ScaleToFilledLots;
    var plan := BuildRiskPlan(input, cfg);
    var o := Outcome(plan, Some(entryBar), bars, cfg, opts);
    EntryIsRealizable(plan, entryBar, cfg, opts.fillFraction);
    if o.fill.Filled? && opts.maxHoldingBars >= 1 && bars != [] {
      LotsAreConserved(input, cfg, o.fill.price, o.fill.lots, bars[..Min(opts.maxHoldingBars, |bars|)]);
    }
  }

  /** A plan that is not refused, when it fills and wins, pays at least the minimum multiple of what it puts at risk. */
  lemma TradeablePlanPaysItsMinimum(input: RiskInput, cfg: RiskConfig, f: real, bars: seq<Bar>)
    requires cfg.Sane() && input.entryTrigger > 0.0 && AllWellFormed(bars) && bars != []
    requires var plan := BuildRiskPlan(input, cfg); plan.totalLots >= 1 && f <= plan.entryTrigger && !plan.isNoTrade
    ensures var plan := BuildRiskPlan(input, cfg);
            var legs := ExitLegs(plan, f, plan.totalLots, bars);
            (forall k :: 0 <= k < |legs| ==> legs[k].reason.Tp1? || legs[k].reason.Tp2?) ==>
              NetPnl(legs, f, plan.totalLots, cfg) >= cfg.minNetRewardToRisk * plan.maxNetLoss
  {
    hide BuildRiskPlan, ExitLegs, NetPnl;
    var plan := BuildRiskPlan(input, cfg);
    WinEarnsThePlan(input, cfg, f, bars);
    QuotedRatio(input, cfg);
    Scale(cfg.minNetRewardToRisk, plan.netRewardToRisk, plan.maxNetLoss);
  }
}
