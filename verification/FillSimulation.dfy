/** Running one plan against daily bars: the entry fill, the exit walk and the profit and loss. */
module FillSimulation {
  import opened Options
  import opened Reals
  import opened RiskEngine

  datatype Bar = Bar(date: Day, open: real, high: real, low: real, close: real, volume: real, turnover: Option<real>)

  predicate WellFormed(b: Bar) {
    b.low <= b.open <= b.high && b.low <= b.close <= b.high
  }

  predicate AllWellFormed(bars: seq<Bar>) {
    forall k :: 0 <= k < |bars| ==> WellFormed(bars[k])
  }

  datatype NoFillNote = GapUp | NeverTraded | TooThin | NoEntryBar
  datatype FillEvent = NoFill(note: NoFillNote) | Filled(price: real, lots: int, date: Day, partial: bool)

  datatype ExitReason = Tp1 | Tp2 | StopLoss | Expiry
  datatype ExitLeg = ExitLeg(reason: ExitReason, price: real, lots: int, date: Day, gapped: bool)

  const DEFAULT_FILL_FRACTION := 0.05
  const DEFAULT_MAX_HOLDING_BARS := 20

  // ----- entry -----

  /** Shares of the bar's volume an order may take. */
  function VolumeShare(bar: Bar, fraction: real): real {
    bar.volume * fraction
  }

  function FillableLots(volumeShare: real, lotSize: real): int
    requires lotSize > 0.0
  {
    (volumeShare / lotSize).Floor
  }

  function SimulateEntry(plan: TradePlan, bar: Bar, cfg: RiskConfig, fraction: real): FillEvent
    requires cfg.lotSize > 0.0
  {
    if bar.open > plan.maxBuyPrice then NoFill(GapUp)
    else if bar.low > plan.entryTrigger then NoFill(NeverTraded)
    else
      var theoretical := if bar.open <= plan.entryTrigger then bar.open else plan.entryTrigger;
      var lots := Max(0, Min(plan.totalLots, FillableLots(VolumeShare(bar, fraction), cfg.lotSize)));
      if lots <= 0 then NoFill(TooThin)
      else Filled(MinReal(theoretical, plan.maxBuyPrice), lots, bar.date, lots < plan.totalLots)
  }

  /**
   * A fill is a price that traded that day, never above the trigger nor the chase limit. It takes all lots, or as many
   * as the volume share holds, and a day without one says why.
   */
  lemma EntryIsRealizable(plan: TradePlan, bar: Bar, cfg: RiskConfig, fraction: real)
    requires cfg.lotSize > 0.0 && WellFormed(bar)
    ensures var fill := SimulateEntry(plan, bar, cfg, fraction);
            && (fill.Filled? ==>
                  && bar.low <= fill.price <= bar.high
                  && fill.price <= plan.entryTrigger && fill.price <= plan.maxBuyPrice
                  && (fill.price == bar.open || (fill.price == plan.entryTrigger < bar.open))
                  && 1 <= fill.lots <= plan.totalLots
                  && fill.lots as real * cfg.lotSize <= bar.volume * fraction
                  && (fill.lots < plan.totalLots ==> bar.volume * fraction < (fill.lots + 1) as real * cfg.lotSize)
                  && fill.date == bar.date
                  && (fill.partial <==> fill.lots < plan.totalLots))
            && (fill.Filled? <==>
                  && bar.open <= plan.maxBuyPrice && bar.low <= plan.entryTrigger
                  && plan.totalLots >= 1 && cfg.lotSize <= bar.volume * fraction)
            && (fill == NoFill(GapUp) <==> bar.open > plan.maxBuyPrice)
            && (fill == NoFill(NeverTraded) <==> bar.open <= plan.maxBuyPrice && bar.low > plan.entryTrigger)
            && (fill.NoFill? ==> !fill.note.NoEntryBar?)
  {
    var share := VolumeShare(bar, fraction);
    assert share == bar.volume * fraction;
    hide FillableLots, VolumeShare;
    var fill := SimulateEntry(plan, bar, cfg, fraction);
    assert 1 <= FillableLots(share, cfg.lotSize) <==> cfg.lotSize <= share by { FillableIff(1, share, cfg.lotSize); }
    if fill.Filled? {
      FillableIff(fill.lots, share, cfg.lotSize);
      FillableIff(fill.lots + 1, share, cfg.lotSize);
    }
  }

  lemma FillableIff(lots: int, share: real, lotSize: real)
    requires lotSize > 0.0
    ensures lots <= FillableLots(share, lotSize) <==> lots as real * lotSize <= share
  {
    UnitsWithin(lots, share, lotSize);
  }

  /** A share of whole lots, rounded to the nearest lot. */
  function RoundedShare(part: int, whole: int): int
    requires whole != 0
  {
    Round(part as real / whole as real)
  }

  lemma RoundedShareKeepsOneIff(part: nat, whole: nat)
    requires whole > 0
    ensures RoundedShare(part, whole) >= 0
    ensures RoundedShare(part, whole) >= 1 <==> whole <= 2 * part
  {
    QuotientAgainstHalf(part as real, whole as real);
  }

  lemma QuotientAgainstHalf(p: real, w: real)
    requires w > 0.0 && p >= 0.0
    ensures p / w >= 0.0 && (p / w >= 0.5 <==> w <= 2.0 * p)
  {
    var x := p / w;
    var xw, half := x * w, 0.5 * w;
    assert xw == p;
    if x >= 0.5 {
      assert half <= xw by { Scale(0.5, x, w); }
    } else {
      assert xw < half by { ScaleStrict(x, 0.5, w); }
      assert x >= 0.0 by { if x < 0.0 { ScaleStrict(x, 0.0, w); } }
    }
  }

  /** The nearest whole number, halves up. */
  lemma RoundedShareIsNearest(part: int, whole: nat)
    requires whole > 0
    ensures var n := RoundedShare(part, whole); (2 * n - 1) * whole <= 2 * part < (2 * n + 1) * whole
  {
    var n := RoundedShare(part, whole);
    NearestMultiple(part as real, whole as real);
    assert (n * whole) as real == n as real * whole as real;
    assert (2 * n - 1) * whole == 2 * (n * whole) - whole && (2 * n + 1) * whole == 2 * (n * whole) + whole;
  }

  /** Lots of the two targets once only part of the order filled. */
  function ScaleToFilledLots(plan: TradePlan, filled: nat): (int, int) {
    if filled >= plan.totalLots then (plan.tp1Lots, plan.tp2Lots)
    else
      var tp1Lots := Min(filled, RoundedShare(plan.tp1Lots * filled, plan.totalLots));
      (tp1Lots, filled - tp1Lots)
  }

  /** The first target keeps a lot exactly when its share of the filled lots is at least half a lot. */
  lemma FirstTargetKeepsALotIff(plan: TradePlan, filled: nat)
    requires 1 <= filled <= plan.totalLots == plan.tp1Lots + plan.tp2Lots
    requires 0 <= plan.tp1Lots && 0 <= plan.tp2Lots
    ensures var (a, b) := ScaleToFilledLots(plan, filled);
            && a + b == filled && 0 <= a && 0 <= b
            && (filled < plan.totalLots ==> (1 <= a <==> plan.totalLots <= 2 * plan.tp1Lots * filled))
            && (filled == plan.totalLots ==> a == plan.tp1Lots && b == plan.tp2Lots)
  {
    hide RoundedShare;
    var part := plan.tp1Lots * filled;
    assert part >= 0 && 2 * plan.tp1Lots * filled == 2 * part;
    RoundedShareKeepsOneIff(part, plan.totalLots);
  }

  /** A partial fill gives the first target the nearest whole number of lots to its share of what filled. */
  lemma ScaledShareIsNearest(plan: TradePlan, filled: nat)
    requires filled < plan.totalLots && plan.tp1Lots <= plan.totalLots
    ensures var (a, b) := ScaleToFilledLots(plan, filled);
            && (2 * a - 1) * plan.totalLots <= 2 * (plan.tp1Lots * filled) < (2 * a + 1) * plan.totalLots
            && a <= filled && b == filled - a
  {
    hide RoundedShare;
    var part := plan.tp1Lots * filled;
    RoundedShareIsNearest(part, plan.totalLots);
    NearestIsAtMost(RoundedShare(part, plan.totalLots), plan.tp1Lots, filled, plan.totalLots);
  }

  lemma NearestIsAtMost(n: int, lots: int, filled: nat, whole: nat)
    requires lots <= whole && whole > 0 && (2 * n - 1) * whole <= 2 * (lots * filled)
    ensures n <= filled
  {
    var asked, least, room := lots * filled, n * whole, filled * whole;
    assert asked <= room by { IntScale(lots, whole, filled); }
    assert (2 * n - 1) * whole == 2 * least - whole;
    assert n > filled ==> room + whole <= least by { if n > filled { IntScale(filled + 1, n, whole); } }
  }

  lemma IntScale(a: int, b: int, c: nat)
    requires a <= b
    ensures a * c <= b * c && a * c == c * a && b * c == c * b && (a + 1) * c == a * c + c
  {
    assert (b - a) * c >= 0;
  }

  lemma ProductGrows(a: nat, b: nat)
    requires b >= 1
    ensures a <= a * b
  {
  }

  lemma FirstTargetKeepsALot(plan: TradePlan, filled: nat)
    requires WellShaped(plan) && FavoursFirstTarget(plan) && 1 <= filled <= plan.totalLots
    ensures var (a, b) := ScaleToFilledLots(plan, filled); a + b == filled && 1 <= a && 0 <= b
  {
    hide RoundedShare;
    FirstTargetKeepsALotIff(plan, filled);
    ProductGrows(2 * plan.tp1Lots, filled);
  }

  // ----- the exit walk as a function of the bars -----

  datatype Position = Position(tp1Done: bool, closed: bool, stop: real, lots1: int, lots2: int, legs: seq<ExitLeg>)

  function Liquidate(p: Position, price: real, date: Day, reason: ExitReason, gapped: bool): Position {
    var lots := p.lots1 + p.lots2;
    p.(closed := true, lots1 := 0, lots2 := 0,
       legs := if lots > 0 then p.legs + [ExitLeg(reason, price, lots, date, gapped)] else p.legs)
  }

  /** Filling the first target moves the stop of the rest to breakeven. */
  function TakeTp1(p: Position, fillPrice: real, price: real, date: Day, gapped: bool): Position {
    if p.lots1 <= 0 then p
    else p.(tp1Done := true, stop := fillPrice, lots1 := 0,
            legs := p.legs + [ExitLeg(Tp1, price, p.lots1, date, gapped)])
  }

  function TakeTp2(p: Position, price: real, date: Day, gapped: bool): Position {
    if p.lots2 <= 0 then p
    else p.(lots2 := 0, legs := p.legs + [ExitLeg(Tp2, price, p.lots2, date, gapped)])
  }

  function CloseIfFlat(p: Position): Position {
    p.(closed := p.lots1 == 0 && p.lots2 == 0)
  }

  function BarStep(p: Position, plan: TradePlan, fillPrice: real, b: Bar): Position {
    if b.open <= p.stop then Liquidate(p, b.open, b.date, StopLoss, true)
    else if !p.tp1Done && b.open >= plan.tp2Price then
      CloseIfFlat(TakeTp2(TakeTp1(p, fillPrice, b.open, b.date, true), b.open, b.date, true))
    else
      var q := if !p.tp1Done && b.open >= plan.tp1Price then TakeTp1(p, fillPrice, b.open, b.date, true) else p;
      if q.tp1Done && !q.closed && b.open >= plan.tp2Price && q.lots2 > 0 then
        CloseIfFlat(TakeTp2(q, b.open, b.date, true))
      else if q.closed then q
      else WithinBar(q, plan, fillPrice, b)
  }

  /** No level is gapped: when the bar's range holds both the stop and a target, the stop goes first. */
  function WithinBar(p: Position, plan: TradePlan, fillPrice: real, b: Bar): Position {
    if b.low <= p.stop then Liquidate(p, p.stop, b.date, StopLoss, false)
    else if p.tp1Done then
      if b.high >= plan.tp2Price then
        var q := TakeTp2(p, plan.tp2Price, b.date, false);
        q.(closed := q.lots2 == 0)
      else p
    else if b.high >= plan.tp1Price then
      var q := TakeTp1(p, fillPrice, plan.tp1Price, b.date, false);
      if b.high >= plan.tp2Price && q.lots2 > 0 then CloseIfFlat(TakeTp2(q, plan.tp2Price, b.date, false)) else q
    else p
  }

  function Start(plan: TradePlan, filled: nat): Position {
    var (a, b) := ScaleToFilledLots(plan, filled);
    Position(false, false, plan.slPrice, a, b, [])
  }

  function Walk(plan: TradePlan, fillPrice: real, filled: nat, bars: seq<Bar>): Position {
    if bars == [] then Start(plan, filled)
    else
      var p := Walk(plan, fillPrice, filled, bars[..|bars| - 1]);
      if p.closed then p else BarStep(p, plan, fillPrice, bars[|bars| - 1])
  }

  /** The legs of a walk that ended in p: what is left is sold at the last close. */
  function Settled(p: Position, bars: seq<Bar>): seq<ExitLeg> {
    if !p.closed && bars != [] && p.lots1 + p.lots2 > 0 then
      p.legs + [ExitLeg(Expiry, bars[|bars| - 1].close, p.lots1 + p.lots2, bars[|bars| - 1].date, false)]
    else p.legs
  }

  function ExitLegs(plan: TradePlan, fillPrice: real, filled: nat, bars: seq<Bar>): seq<ExitLeg> {
    Settled(Walk(plan, fillPrice, filled, bars), bars)
  }

  // ----- the simulator's mutable state -----

  class ExitState {
    var tp1Done: bool
    var closed: bool
    var currentSl: real
    var remainingTp1Lots: int
    var remainingTp2Lots: int
    var exits: seq<ExitLeg>

    ghost function View(): Position
      reads this
    {
      Position(tp1Done, closed, currentSl, remainingTp1Lots, remainingTp2Lots, exits)
    }

    constructor (plan: TradePlan, filled: nat)
      ensures View() == Start(plan, filled)
    {
      var (a, b) := ScaleToFilledLots(plan, filled);
      tp1Done, closed, currentSl, exits := false, false, plan.slPrice, [];
      remainingTp1Lots, remainingTp2Lots := a, b;
    }

    method CloseAll(price: real, date: Day, reason: ExitReason, gapped: bool)
      modifies this
      ensures View() == Liquidate(old(View()), price, date, reason, gapped)
    {
      var lots := remainingTp1Lots + remainingTp2Lots;
      if lots > 0 {
        exits := exits + [ExitLeg(reason, price, lots, date, gapped)];
      }
      remainingTp1Lots := 0;
      remainingTp2Lots := 0;
      closed := true;
    }

    method FillTp1(entryFillPrice: real, price: real, date: Day, gapped: bool)
      modifies this
      ensures View() == TakeTp1(old(View()), entryFillPrice, price, date, gapped)
    {
      if remainingTp1Lots <= 0 { return; }
      exits := exits + [ExitLeg(Tp1, price, remainingTp1Lots, date, gapped)];
      remainingTp1Lots := 0;
      tp1Done := true;
      currentSl := entryFillPrice;
    }

    method FillTp2(price: real, date: Day, gapped: bool)
      modifies this
      ensures View() == TakeTp2(old(View()), price, date, gapped)
    {
      if remainingTp2Lots <= 0 { return; }
      exits := exits + [ExitLeg(Tp2, price, remainingTp2Lots, date, gapped)];
      remainingTp2Lots := 0;
    }

    method StepBar(plan: TradePlan, fillPrice: real, b: Bar)
      modifies this
      ensures View() == BarStep(old(View()), plan, fillPrice, b)
    {
      if b.open <= currentSl {
        CloseAll(b.open, b.date, StopLoss, true);
        return;
      }
      if !tp1Done && b.open >= plan.tp2Price {
        FillTp1(fillPrice, b.open, b.date, true);
        FillTp2(b.open, b.date, true);
        closed := remainingTp1Lots == 0 && remainingTp2Lots == 0;
        return;
      }
      if !tp1Done && b.open >= plan.tp1Price {
        FillTp1(fillPrice, b.open, b.date, true);
      }
      if tp1Done && !closed && b.open >= plan.tp2Price && remainingTp2Lots > 0 {
        FillTp2(b.open, b.date, true);
        closed := remainingTp1Lots == 0 && remainingTp2Lots == 0;
        return;
      }
      if closed { return; }

      if !tp1Done {
        var hitSl, hitTp1 := b.low <= currentSl, b.high >= plan.tp1Price;
        if hitSl && hitTp1 {
          CloseAll(currentSl, b.date, StopLoss, false);
          return;
        }
        if hitSl {
          CloseAll(currentSl, b.date, StopLoss, false);
          return;
        }
        if hitTp1 {
          FillTp1(fillPrice, plan.tp1Price, b.date, false);
          if b.high >= plan.tp2Price && remainingTp2Lots > 0 {
            FillTp2(plan.tp2Price, b.date, false);
            closed := remainingTp1Lots == 0 && remainingTp2Lots == 0;
          }
          return;
        }
        return;
      }

      var hitSl, hitTp2 := b.low <= currentSl, b.high >= plan.tp2Price;
      if hitSl && hitTp2 {
        CloseAll(currentSl, b.date, StopLoss, false);
        return;
      }
      if hitSl {
        CloseAll(currentSl, b.date, StopLoss, false);
        return;
      }
      if hitTp2 {
        FillTp2(plan.tp2Price, b.date, false);
        closed := remainingTp2Lots == 0;
      }
    }
  }

  method SimulateExit(plan: TradePlan, fillPrice: real, filled: nat, bars: seq<Bar>) returns (exits: seq<ExitLeg>)
    ensures exits == ExitLegs(plan, fillPrice, filled, bars)
  {
    hide BarStep, Start;
    var state := new ExitState(plan, filled);
    var i := 0;
    while i < |bars| && !state.closed
      invariant 0 <= i <= |bars|
      invariant state.View() == Walk(plan, fillPrice, filled, bars[..i])
      decreases |bars| - i
    {
      var upTo := bars[..i + 1];
      assert upTo[..i] == bars[..i] && upTo[i] == bars[i];
      state.StepBar(plan, fillPrice, bars[i]);
      i := i + 1;
    }
    if state.closed {
      assert bars[..i] + bars[i..] == bars;
      ClosedStaysClosed(plan, fillPrice, filled, bars[..i], bars[i..]);
    } else if |bars| > 0 {
      assert bars[..i] == bars;
      var last := bars[|bars| - 1];
      var lots := state.remainingTp1Lots + state.remainingTp2Lots;
      if lots > 0 {
        state.exits := state.exits + [ExitLeg(Expiry, last.close, lots, last.date, false)];
      }
    }
    exits := state.exits;
  }

  // ----- causality -----

  /** Once nothing is left, later bars change nothing. */
  lemma {:induction false} ClosedStaysClosed(
      plan: TradePlan, fillPrice: real, filled: nat, bars: seq<Bar>, more: seq<Bar>)
    requires Walk(plan, fillPrice, filled, bars).closed
    ensures Walk(plan, fillPrice, filled, bars + more) == Walk(plan, fillPrice, filled, bars)
    decreases |more|
  {
    if more == [] {
      assert bars + more == bars;
    } else {
      var init := more[..|more| - 1];
      assert (bars + more)[..|bars + more| - 1] == bars + init;
      ClosedStaysClosed(plan, fillPrice, filled, bars, init);
    }
  }

  lemma BarStepAppends(p: Position, plan: TradePlan, fillPrice: real, b: Bar)
    ensures p.legs <= BarStep(p, plan, fillPrice, b).legs
  {
  }

  lemma {:induction false} WalkAppends(plan: TradePlan, fillPrice: real, filled: nat, bars: seq<Bar>, more: seq<Bar>)
    ensures Walk(plan, fillPrice, filled, bars).legs <= Walk(plan, fillPrice, filled, bars + more).legs
    decreases |more|
  {
    if more == [] {
      assert bars + more == bars;
    } else {
      var init := more[..|more| - 1];
      assert (bars + more)[..|bars + more| - 1] == bars + init;
      WalkAppends(plan, fillPrice, filled, bars, init);
      BarStepAppends(Walk(plan, fillPrice, filled, bars + init), plan, fillPrice, more[|more| - 1]);
    }
  }

  function WithoutExpiry(legs: seq<ExitLeg>): seq<ExitLeg> {
    if legs != [] && legs[|legs| - 1].reason.Expiry? then legs[..|legs| - 1] else legs
  }

  lemma {:induction false} WalkNeverExpires(plan: TradePlan, fillPrice: real, filled: nat, bars: seq<Bar>)
    ensures NoExpiry(Walk(plan, fillPrice, filled, bars).legs)
    decreases |bars|
  {
    hide ScaleToFilledLots;
    if bars != [] {
      WalkNeverExpires(plan, fillPrice, filled, bars[..|bars| - 1]);
      NoBarExpires(Walk(plan, fillPrice, filled, bars[..|bars| - 1]), plan, fillPrice, bars[|bars| - 1]);
      hide BarStep;
    }
  }

  predicate NoExpiry(legs: seq<ExitLeg>) {
    forall k :: 0 <= k < |legs| ==> !legs[k].reason.Expiry?
  }

  lemma OrdersNeverExpire(p: Position, fillPrice: real, price: real, date: Day, gapped: bool)
    requires NoExpiry(p.legs)
    ensures NoExpiry(Liquidate(p, price, date, StopLoss, gapped).legs)
    ensures NoExpiry(TakeTp1(p, fillPrice, price, date, gapped).legs) && NoExpiry(TakeTp2(p, price, date, gapped).legs)
  {
  }

  lemma NoBarExpires(p: Position, plan: TradePlan, fillPrice: real, b: Bar)
    requires NoExpiry(p.legs)
    ensures NoExpiry(BarStep(p, plan, fillPrice, b).legs)
  {
    hide NoExpiry, Liquidate, TakeTp1, TakeTp2;
    forall q: Position, price, gapped | NoExpiry(q.legs)
      ensures NoExpiry(Liquidate(q, price, b.date, StopLoss, gapped).legs)
      ensures NoExpiry(TakeTp1(q, fillPrice, price, b.date, gapped).legs)
      ensures NoExpiry(TakeTp2(q, price, b.date, gapped).legs)
    {
      OrdersNeverExpire(q, fillPrice, price, b.date, gapped);
    }
  }

  /** Decided exits never depend on later bars: what a prefix books before expiry is kept by every extension. */
  lemma WalkIsCausal(plan: TradePlan, fillPrice: real, filled: nat, bars: seq<Bar>, more: seq<Bar>)
    ensures WithoutExpiry(ExitLegs(plan, fillPrice, filled, bars)) <= ExitLegs(plan, fillPrice, filled, bars + more)
    ensures Walk(plan, fillPrice, filled, bars).closed ==>
              ExitLegs(plan, fillPrice, filled, bars + more) == ExitLegs(plan, fillPrice, filled, bars)
  {
    WalkAppends(plan, fillPrice, filled, bars, more);
    WalkNeverExpires(plan, fillPrice, filled, bars);
    if Walk(plan, fillPrice, filled, bars).closed {
      ClosedStaysClosed(plan, fillPrice, filled, bars, more);
    }
  }
}
