/** What every exit walk keeps: lots, the order of reasons, and prices that traded. */
module ExitTraces {
  import opened Options
  import opened Reals
  import opened RiskEngine
  import opened FillSimulation

  /** The leg was executed on this bar: at a price it traded, on the right side of the level that caused it. */
  predicate Realized(leg: ExitLeg, b: Bar, plan: TradePlan, stop: real) {
    && leg.date == b.date
    && b.low <= leg.price <= b.high
    && (leg.gapped ==> leg.price == b.open)
    && match leg.reason
       case Tp1 => leg.price >= plan.tp1Price && (leg.gapped || leg.price == plan.tp1Price)
       case Tp2 => leg.price >= plan.tp2Price && (leg.gapped || leg.price == plan.tp2Price)
       case StopLoss => leg.price <= stop && (leg.gapped || leg.price == stop)
       case Expiry => leg.price == b.close && !leg.gapped
  }

  predicate RealizedIn(leg: ExitLeg, bars: seq<Bar>, plan: TradePlan, stop: real) {
    exists k :: 0 <= k < |bars| && Realized(leg, bars[k], plan, stop)
  }

  lemma RealizedLater(leg: ExitLeg, bars: seq<Bar>, b: Bar, plan: TradePlan, stop: real)
    ensures RealizedIn(leg, bars, plan, stop) ==> RealizedIn(leg, bars + [b], plan, stop)
    ensures Realized(leg, b, plan, stop) ==> RealizedIn(leg, bars + [b], plan, stop)
  {
    if k :| 0 <= k < |bars| && Realized(leg, bars[k], plan, stop) {
      assert (bars + [b])[k] == bars[k];
    }
    assert (bars + [b])[|bars|] == b;
  }

  /** A first leg answers to the plan's stop, a second one to breakeven, and it is not executed on an earlier bar. */
  predicate FirstLeg(leg: ExitLeg, lots: int, bars: seq<Bar>, plan: TradePlan) {
    leg.lots == lots && RealizedIn(leg, bars, plan, plan.slPrice)
  }

  predicate SecondLeg(first: ExitLeg, leg: ExitLeg, lots: int, bars: seq<Bar>, plan: TradePlan, fillPrice: real) {
    leg.lots == lots && RealizedInOrder(first, leg, bars, plan, fillPrice)
  }

  predicate RealizedInOrder(first: ExitLeg, second: ExitLeg, bars: seq<Bar>, plan: TradePlan, fillPrice: real) {
    exists j, k ::
      0 <= j <= k < |bars| && Realized(first, bars[j], plan, plan.slPrice) && Realized(second, bars[k], plan, fillPrice)
  }

  lemma InOrderLater(first: ExitLeg, second: ExitLeg, bars: seq<Bar>, b: Bar, plan: TradePlan, f: real)
    ensures RealizedInOrder(first, second, bars, plan, f) ==> RealizedInOrder(first, second, bars + [b], plan, f)
    ensures RealizedIn(first, bars + [b], plan, plan.slPrice) && Realized(second, b, plan, f) ==>
              RealizedInOrder(first, second, bars + [b], plan, f)
  {
    hide Realized;
    var more := bars + [b];
    assert more[|bars|] == b;
    if j, k :|
      0 <= j <= k < |bars| && Realized(first, bars[j], plan, plan.slPrice) && Realized(second, bars[k], plan, f)
    {
      assert more[j] == bars[j] && more[k] == bars[k];
    }
  }

  /** The walk's three phases, each with everything it has booked so far. */
  predicate Untouched(p: Position, a: int, b: int, plan: TradePlan) {
    p == Position(false, false, plan.slPrice, a, b, [])
  }

  predicate AfterTp1(p: Position, a: int, b: int, plan: TradePlan, fillPrice: real, bars: seq<Bar>) {
    && 1 <= a && |p.legs| == 1 && p.legs[0].reason.Tp1?
    && p == Position(true, false, fillPrice, 0, b, p.legs)
    && FirstLeg(p.legs[0], a, bars, plan)
  }

  predicate Finished(p: Position, a: int, b: int, plan: TradePlan, fillPrice: real, bars: seq<Bar>) {
    && p.closed && p.lots1 == 0 && p.lots2 == 0
    && 1 <= |p.legs| <= 2
    && (match p.legs[0].reason
        case StopLoss => |p.legs| == 1 && FirstLeg(p.legs[0], a + b, bars, plan)
        case Tp1 =>
          && 1 <= a && FirstLeg(p.legs[0], a, bars, plan)
          && (if b == 0 then |p.legs| == 1
              else
                && |p.legs| == 2 && (p.legs[1].reason.Tp2? || p.legs[1].reason.StopLoss?)
                && SecondLeg(p.legs[0], p.legs[1], b, bars, plan, fillPrice))
        case Tp2 => a == 0 && |p.legs| == 1 && FirstLeg(p.legs[0], b, bars, plan)
        case Expiry => false)
  }

  predicate WalkInvariant(p: Position, a: int, b: int, plan: TradePlan, fillPrice: real, bars: seq<Bar>) {
    && (Untouched(p, a, b, plan) || AfterTp1(p, a, b, plan, fillPrice, bars)
        || Finished(p, a, b, plan, fillPrice, bars))
    && (!p.closed && bars != [] ==> bars[|bars| - 1].low > MinReal(plan.slPrice, fillPrice))
  }

  /** The lots of the two targets: none negative, and some on one of them. */
  predicate Splits(plan: TradePlan, filled: nat) {
    var (a, b) := ScaleToFilledLots(plan, filled);
    0 <= a && 0 <= b && 1 <= a + b
  }

  /** The levels a filled plan trades against. */
  predicate Levels(plan: TradePlan, fillPrice: real) {
    plan.slPrice < plan.tp1Price <= plan.tp2Price && fillPrice < plan.tp1Price
  }

  lemma StepFromUntouched(p: Position, a: int, b: int, plan: TradePlan, f: real, bars: seq<Bar>, bar: Bar)
    requires Levels(plan, f) && 0 <= a && 0 <= b && 1 <= a + b && WellFormed(bar) && Untouched(p, a, b, plan)
    ensures WalkInvariant(BarStep(p, plan, f, bar), a, b, plan, f, bars + [bar])
  {
    var q := BarStep(p, plan, f, bar);
    if |q.legs| > 0 { RealizedLater(q.legs[0], bars, bar, plan, plan.slPrice); }
    if |q.legs| > 1 { InOrderLater(q.legs[0], q.legs[1], bars, bar, plan, f); }
  }

  lemma StepAfterTp1(p: Position, a: int, b: int, plan: TradePlan, f: real, bars: seq<Bar>, bar: Bar)
    requires Levels(plan, f) && 0 <= b && WellFormed(bar) && AfterTp1(p, a, b, plan, f, bars)
    ensures WalkInvariant(BarStep(p, plan, f, bar), a, b, plan, f, bars + [bar])
  {
    var q := BarStep(p, plan, f, bar);
    RealizedLater(q.legs[0], bars, bar, plan, plan.slPrice);
    if |q.legs| > 1 { InOrderLater(q.legs[0], q.legs[1], bars, bar, plan, f); }
  }

  lemma {:induction false} WalkKeepsInvariant(plan: TradePlan, f: real, filled: nat, bars: seq<Bar>)
    requires Levels(plan, f) && AllWellFormed(bars)
    requires Splits(plan, filled)
    ensures var (a, b) := ScaleToFilledLots(plan, filled);
            WalkInvariant(Walk(plan, f, filled, bars), a, b, plan, f, bars)
    decreases |bars|
  {
    hide ScaleToFilledLots, Realized;
    if bars != [] {
      var (a, b) := ScaleToFilledLots(plan, filled);
      var init, last := bars[..|bars| - 1], bars[|bars| - 1];
      assert bars == init + [last];
      WalkKeepsInvariant(plan, f, filled, init);
      var p := Walk(plan, f, filled, init);
      if Untouched(p, a, b, plan) {
        StepFromUntouched(p, a, b, plan, f, init, last);
      } else if AfterTp1(p, a, b, plan, f, init) {
        StepAfterTp1(p, a, b, plan, f, init, last);
      } else {
        RealizedLater(p.legs[0], init, last, plan, plan.slPrice);
        if |p.legs| > 1 { InOrderLater(p.legs[0], p.legs[1], init, last, plan, f); }
      }
    }
  }

  /**
   * Lots leave once: [sl], [expiry], [tp1, x] with x the rest, [tp1] alone when the second target has no lots, or [tp2]
   * alone when the first has none; what is left at the end goes at the last bar's close.
   */
  predicate CompleteTrace(legs: seq<ExitLeg>, a: int, b: int, plan: TradePlan, f: real, bars: seq<Bar>) {
    && 1 <= |legs| <= 2
    && (match legs[0].reason
        case StopLoss => |legs| == 1 && FirstLeg(legs[0], a + b, bars, plan)
        case Expiry => |legs| == 1 && FirstLeg(legs[0], a + b, bars, plan)
        case Tp1 =>
          && 1 <= a && FirstLeg(legs[0], a, bars, plan)
          && (if b == 0 then |legs| == 1
              else |legs| == 2 && !legs[1].reason.Tp1? && SecondLeg(legs[0], legs[1], b, bars, plan, f))
        case Tp2 => a == 0 && |legs| == 1 && FirstLeg(legs[0], b, bars, plan))
    && (forall k :: 0 <= k < |legs| && legs[k].reason.Expiry? ==>
          && legs[k].price > MinReal(plan.slPrice, f)
          && bars != [] && Realized(legs[k], bars[|bars| - 1], plan, plan.slPrice))
  }

  function TotalLots(legs: seq<ExitLeg>): int {
    if legs == [] then 0 else TotalLots(legs[..|legs| - 1]) + legs[|legs| - 1].lots
  }

  /** Conservation and realizability of every run over at least one bar. */
  lemma EveryRunIsComplete(plan: TradePlan, f: real, filled: nat, bars: seq<Bar>)
    requires Levels(plan, f) && AllWellFormed(bars) && bars != []
    requires Splits(plan, filled)
    ensures var (a, b) := ScaleToFilledLots(plan, filled);
            var legs := ExitLegs(plan, f, filled, bars);
            && CompleteTrace(legs, a, b, plan, f, bars)
            && TotalLots(legs) == a + b
            && (forall k :: 0 <= k < |legs| ==> legs[k].lots >= 1)
  {
    hide ScaleToFilledLots, Walk, WalkInvariant, CompleteTrace, TotalLots;
    var (a, b) := ScaleToFilledLots(plan, filled);
    WalkKeepsInvariant(plan, f, filled, bars);
    var p := Walk(plan, f, filled, bars);
    if !p.closed && p.lots1 + p.lots2 > 0 {
      ExpiryCompletes(p, a, b, plan, f, bars);
    } else {
      FlatIsComplete(p, a, b, plan, f, bars);
    }
    TraceSums(ExitLegs(plan, f, filled, bars), a, b, plan, f, bars);
  }

  lemma ExpiryCompletes(p: Position, a: int, b: int, plan: TradePlan, f: real, bars: seq<Bar>)
    requires WalkInvariant(p, a, b, plan, f, bars) && AllWellFormed(bars) && bars != []
    requires !p.closed && p.lots1 + p.lots2 > 0
    ensures var last := bars[|bars| - 1];
            var leg := ExitLeg(Expiry, last.close, p.lots1 + p.lots2, last.date, false);
            CompleteTrace(p.legs + [leg], a, b, plan, f, bars)
  {
    var init, last := bars[..|bars| - 1], bars[|bars| - 1];
    var leg := ExitLeg(Expiry, last.close, p.lots1 + p.lots2, last.date, false);
    assert init + [last] == bars;
    RealizedLater(leg, init, last, plan, plan.slPrice);
    if |p.legs| > 0 { InOrderLater(p.legs[0], leg, init, last, plan, f); }
  }

  lemma FlatIsComplete(p: Position, a: int, b: int, plan: TradePlan, f: real, bars: seq<Bar>)
    requires WalkInvariant(p, a, b, plan, f, bars) && 0 <= a && 0 <= b && 1 <= a + b
            && (p.closed || p.lots1 + p.lots2 <= 0)
    ensures CompleteTrace(p.legs, a, b, plan, f, bars)
  {
    hide FirstLeg, SecondLeg;
  }

  lemma TraceSums(legs: seq<ExitLeg>, a: int, b: int, plan: TradePlan, f: real, bars: seq<Bar>)
    requires 0 <= a && 0 <= b && 1 <= a + b && CompleteTrace(legs, a, b, plan, f, bars)
    ensures TotalLots(legs) == a + b && forall k :: 0 <= k < |legs| ==> legs[k].lots >= 1
  {
    TotalOfOneOrTwo(legs);
  }

  lemma TotalOfOneOrTwo(legs: seq<ExitLeg>)
    requires 1 <= |legs| <= 2
    ensures TotalLots(legs) == if |legs| == 1 then legs[0].lots else legs[0].lots + legs[1].lots
  {
    assert TotalLots(legs[..0]) == 0;
    if |legs| == 2 { assert legs[..1][..0] == []; }
  }

  /** For plans of the risk engine every run over at least one bar sells exactly the filled lots. */
  lemma LotsAreConserved(input: RiskInput, cfg: RiskConfig, f: real, filled: nat, bars: seq<Bar>)
    requires cfg.Sizable() && cfg.Targeted() && input.entryTrigger > 0.0 && AllWellFormed(bars) && bars != []
    requires var plan := BuildRiskPlan(input, cfg); 1 <= filled <= plan.totalLots && f <= plan.entryTrigger
    ensures var plan := BuildRiskPlan(input, cfg);
            var legs := ExitLegs(plan, f, filled, bars);
            && TotalLots(legs) == filled
            && CompleteTrace(legs, ScaleToFilledLots(plan, filled).0, ScaleToFilledLots(plan, filled).1, plan, f, bars)
  {
    hide BuildRiskPlan, ScaleToFilledLots, ExitLegs, CompleteTrace;
    var plan := BuildRiskPlan(input, cfg);
    PlanIsWellShaped(input, cfg);
    FirstTargetKeepsALotIff(plan, filled);
    EveryRunIsComplete(plan, f, filled, bars);
  }

  /** A bar that opens between the stop and the targets and reaches the second one. */
  function ThroughTheTargets(plan: TradePlan): Bar {
    var open := (plan.slPrice + plan.tp1Price) / 2.0;
    Bar(0, open, plan.tp2Price, open, open, 0.0, None)
  }

  lemma LoneSecondTarget(plan: TradePlan, f: real, filled: nat)
    requires Levels(plan, f) && ScaleToFilledLots(plan, filled).0 <= 0 && ScaleToFilledLots(plan, filled).1 >= 1
    ensures var bars := [ThroughTheTargets(plan)];
            && AllWellFormed(bars)
            && BooksLoneSecondTarget(ExitLegs(plan, f, filled, bars))
            && TotalLots(ExitLegs(plan, f, filled, bars)) == ScaleToFilledLots(plan, filled).1
  {
    hide ScaleToFilledLots;
    var bars := [ThroughTheTargets(plan)];
    assert bars[..0] == [];
    assert Walk(plan, f, filled, bars[..0]) == Start(plan, filled);
    TotalOfOneOrTwo(ExitLegs(plan, f, filled, bars));
  }

  predicate BooksLoneSecondTarget(legs: seq<ExitLeg>) {
    legs != [] && legs[0].reason.Tp2?
  }

  /**
   * A walk may sell at the second target without having sold at the first exactly when the first has less than a lot.
   */
  lemma LanguageNeedsAFirstTargetLotIff(plan: TradePlan, f: real, filled: nat)
    requires Levels(plan, f) && Splits(plan, filled)
    ensures ScaleToFilledLots(plan, filled).0 >= 1 <==>
            forall bars :: bars != [] && AllWellFormed(bars) ==> !BooksLoneSecondTarget(ExitLegs(plan, f, filled, bars))
  {
    hide ScaleToFilledLots, ExitLegs;
    if ScaleToFilledLots(plan, filled).0 >= 1 {
      forall bars | bars != [] && AllWellFormed(bars) ensures !BooksLoneSecondTarget(ExitLegs(plan, f, filled, bars)) {
        EveryRunIsComplete(plan, f, filled, bars);
      }
    } else {
      LoneSecondTarget(plan, f, filled);
    }
  }

  /** The filled lots are sold over every walk exactly when scaling leaves no negative share on the first target. */
  lemma ConservedOverAllWalksIff(plan: TradePlan, f: real, filled: nat)
    requires Levels(plan, f) && 1 <= filled
    requires var (a, b) := ScaleToFilledLots(plan, filled); a <= filled && a + b == filled
    ensures ScaleToFilledLots(plan, filled).0 >= 0 <==>
            forall bars :: bars != [] && AllWellFormed(bars) ==> TotalLots(ExitLegs(plan, f, filled, bars)) == filled
  {
    hide ScaleToFilledLots, ExitLegs, TotalLots, CompleteTrace;
    if ScaleToFilledLots(plan, filled).0 >= 0 {
      forall bars | bars != [] && AllWellFormed(bars) ensures TotalLots(ExitLegs(plan, f, filled, bars)) == filled {
        EveryRunIsComplete(plan, f, filled, bars);
      }
    } else {
      LoneSecondTarget(plan, f, filled);
    }
  }

  /**
   * Over every run what is sold at the first target is its planned lots, or the nearest whole share of a partial fill.
   */
  lemma FirstTargetSellsItsShare(plan: TradePlan, f: real, filled: nat, bars: seq<Bar>, k: nat)
    requires Levels(plan, f) && AllWellFormed(bars) && bars != []
    requires 1 <= filled <= plan.totalLots == plan.tp1Lots + plan.tp2Lots && 0 <= plan.tp1Lots && 0 <= plan.tp2Lots
    requires k < |ExitLegs(plan, f, filled, bars)| && ExitLegs(plan, f, filled, bars)[k].reason.Tp1?
    ensures var lots := ExitLegs(plan, f, filled, bars)[k].lots;
            if filled == plan.totalLots then lots == plan.tp1Lots
            else (2 * lots - 1) * plan.totalLots <= 2 * (plan.tp1Lots * filled) < (2 * lots + 1) * plan.totalLots
  {
    hide ScaleToFilledLots, ExitLegs;
    FirstTargetKeepsALotIff(plan, filled);
    EveryRunIsComplete(plan, f, filled, bars);
    if filled < plan.totalLots { ScaledShareIsNearest(plan, filled); }
  }
}
