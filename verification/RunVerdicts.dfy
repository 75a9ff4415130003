/** When the result of a whole run, expiry and costs included, can be better than the days it stands for. */
module RunVerdicts {
  import opened Options
  import opened Reals
  import opened RiskEngine
  import opened FillSimulation
  import opened ExitTraces
  import opened PlanBounds
  import opened IntradayPaths
  import opened RunPaths

  /** The legs of a whole run along its paths. */
  function PathLegs(plan: TradePlan, f: real, filled: nat, days: seq<seq<real>>, bars: seq<Bar>): seq<ExitLeg>
    requires |days| == |bars|
  {
    Settled(DaysFrom(Start(plan, filled), plan, f, days, bars), bars)
  }

  // ----- in terms of the simulator's walk -----

  lemma {:induction false} RuleFromOneMore(p: Position, plan: TradePlan, f: real, bars: seq<Bar>, b: Bar)
    ensures var q := RuleFrom(p, plan, f, bars);
            RuleFrom(p, plan, f, bars + [b]) == if q.closed then q else BarStep(q, plan, f, b)
    decreases |bars|
  {
    hide BarStep;
    if bars == [] {
      assert bars + [b] == [b];
    } else if !p.closed {
      assert (bars + [b])[1..] == bars[1..] + [b];
      RuleFromOneMore(BarStep(p, plan, f, bars[0]), plan, f, bars[1..], b);
    }
  }

  lemma {:induction false} WalkIsRuleFromStart(plan: TradePlan, f: real, filled: nat, bars: seq<Bar>)
    ensures Walk(plan, f, filled, bars) == RuleFrom(Start(plan, filled), plan, f, bars)
    decreases |bars|
  {
    hide BarStep, Start;
    if bars != [] {
      var init := bars[..|bars| - 1];
      assert bars == init + [bars[|bars| - 1]];
      WalkIsRuleFromStart(plan, f, filled, init);
      RuleFromOneMore(Start(plan, filled), plan, f, init, bars[|bars| - 1]);
    }
  }

  predicate FlattersAt(p: Position, plan: TradePlan, f: real, bars: seq<Bar>, k: nat)
    requires k < |bars|
  {
    Flatters(RuleFrom(p, plan, f, bars[..k]), plan, f, bars[k], bars[k + 1..])
  }

  lemma FlattersAtTail(p: Position, plan: TradePlan, f: real, bars: seq<Bar>, k: nat)
    requires 0 < k < |bars| && !p.closed
    ensures FlattersAt(p, plan, f, bars, k) <==> FlattersAt(BarStep(p, plan, f, bars[0]), plan, f, bars[1..], k - 1)
  {
    hide BarStep, Flatters;
    assert bars[..k][1..] == bars[1..][..k - 1] && bars[..k][0] == bars[0];
    assert bars[k + 1..] == bars[1..][k..];
  }

  lemma {:induction false} SomewhereIsSomeBar(p: Position, plan: TradePlan, f: real, bars: seq<Bar>)
    ensures FlattersSomewhere(p, plan, f, bars) <==> exists k: nat :: k < |bars| && FlattersAt(p, plan, f, bars, k)
    decreases |bars|
  {
    hide BarStep, FlattersAt;
    if bars != [] {
      FirstBar(p, plan, f, bars);
      if p.closed {
        forall k: nat | k < |bars| ensures !FlattersAt(p, plan, f, bars, k) {
          ClosedIsNotFlattered(p, plan, f, bars, k);
        }
      } else {
        var q, rest := BarStep(p, plan, f, bars[0]), bars[1..];
        SomewhereIsSomeBar(q, plan, f, rest);
        forall k: nat | 0 < k < |bars|
          ensures FlattersAt(p, plan, f, bars, k) <==> FlattersAt(q, plan, f, rest, k - 1)
        {
          FlattersAtTail(p, plan, f, bars, k);
        }
        if j: nat :| j < |rest| && FlattersAt(q, plan, f, rest, j) {
          assert FlattersAt(p, plan, f, bars, j + 1);
        }
      }
    }
  }

  lemma FirstBar(p: Position, plan: TradePlan, f: real, bars: seq<Bar>)
    requires bars != []
    ensures FlattersAt(p, plan, f, bars, 0) <==> Flatters(p, plan, f, bars[0], bars[1..])
  {
    hide Flatters;
    assert bars[..0] == [];
  }

  lemma ClosedIsNotFlattered(p: Position, plan: TradePlan, f: real, bars: seq<Bar>, k: nat)
    requires p.closed && k < |bars|
    ensures !FlattersAt(p, plan, f, bars, k)
  {
  }

  // ----- lots along paths -----

  /** Lots leave once, and nothing is left when closed. */
  predicate Keeps(p: Position, filled: int) {
    && 0 <= p.lots1 && 0 <= p.lots2
    && (p.closed ==> p.lots1 == 0 && p.lots2 == 0)
    && TotalLots(p.legs) + p.lots1 + p.lots2 == filled
  }

  lemma TotalOfOneMore(legs: seq<ExitLeg>)
    ensures forall leg :: TotalLots(legs + [leg]) == TotalLots(legs) + leg.lots
  {
    forall leg ensures TotalLots(legs + [leg]) == TotalLots(legs) + leg.lots {
      assert (legs + [leg])[..|legs|] == legs;
    }
  }

  lemma OrdersKeep(p: Position, filled: int, f: real, price: real, date: Day, reason: ExitReason, gapped: bool)
    requires Keeps(p, filled)
    ensures Keeps(Liquidate(p, price, date, reason, gapped), filled)
    ensures !p.closed
            ==> Keeps(TakeTp1(p, f, price, date, gapped), filled) && Keeps(TakeTp2(p, price, date, gapped), filled)
  {
    hide TotalLots;
    TotalOfOneMore(p.legs);
  }

  lemma MoveKeeps(p: Position, filled: int, plan: TradePlan, f: real, level: real, date: Day)
    requires Keeps(p, filled)
    ensures Keeps(MoveTo(p, plan, f, level, date), filled)
  {
    hide Keeps, Liquidate, TakeTp2;
    OrdersKeep(p, filled, f, p.stop, date, StopLoss, false);
    OrdersKeep(p, filled, f, plan.tp1Price, date, StopLoss, false);
    OrdersKeep(p, filled, f, plan.tp2Price, date, StopLoss, false);
    if !p.closed {
      OrdersKeep(TakeTp1(p, f, plan.tp1Price, date, false), filled, f, plan.tp2Price, date, StopLoss, false);
    }
  }

  lemma OpenKeeps(p: Position, filled: int, plan: TradePlan, f: real, b: Bar)
    requires Keeps(p, filled) && !p.closed
    ensures Keeps(AtOpen(p, plan, f, b), filled)
  {
    hide Keeps, Liquidate, TakeTp2;
    OrdersKeep(p, filled, f, b.open, b.date, StopLoss, true);
    OrdersKeep(TakeTp1(p, f, b.open, b.date, true), filled, f, b.open, b.date, StopLoss, true);
  }

  lemma {:induction false} FollowKeeps(p: Position, filled: int, plan: TradePlan, f: real, path: seq<real>, date: Day)
    requires Keeps(p, filled)
    ensures Keeps(Follow(p, plan, f, path, date), filled)
    decreases |path|
  {
    hide Keeps, MoveTo;
    if path != [] {
      var init := path[..|path| - 1];
      FollowKeeps(p, filled, plan, f, init, date);
      MoveKeeps(Follow(p, plan, f, init, date), filled, plan, f, path[|path| - 1], date);
    }
  }

  lemma {:induction false} DaysKeep(
      p: Position, filled: int, plan: TradePlan, f: real, days: seq<seq<real>>, bars: seq<Bar>)
    requires Keeps(p, filled) && |days| == |bars|
    ensures Keeps(DaysFrom(p, plan, f, days, bars), filled)
    decreases |bars|
  {
    hide Keeps, AtOpen, Follow;
    if bars != [] && !p.closed {
      OpenKeeps(p, filled, plan, f, bars[0]);
      FollowKeeps(AtOpen(p, plan, f, bars[0]), filled, plan, f, days[0], bars[0].date);
      DaysKeep(PathResult(p, plan, f, days[0], bars[0]), filled, plan, f, days[1..], bars[1..]);
    }
  }

  lemma SettledIsWorth(p: Position, filled: int, bars: seq<Bar>)
    requires Keeps(p, filled) && bars != []
    ensures Proceeds(Settled(p, bars)) == Value(p, bars[|bars| - 1].close) && TotalLots(Settled(p, bars)) == filled
  {
    hide Proceeds, TotalLots;
    SaleProceeds(p.legs);
    TotalOfOneMore(p.legs);
    NothingSold(bars[|bars| - 1].close);
  }

  lemma WalkKeeps(plan: TradePlan, f: real, filled: nat, bars: seq<Bar>)
    requires Levels(plan, f) && Splits(plan, filled) && AllWellFormed(bars)
    ensures var (a, b) := ScaleToFilledLots(plan, filled); Keeps(Walk(plan, f, filled, bars), a + b)
  {
    hide ScaleToFilledLots, Walk;
    WalkKeepsInvariant(plan, f, filled, bars);
    var p := Walk(plan, f, filled, bars);
    if 1 <= |p.legs| <= 2 { TotalOfOneOrTwo(p.legs); }
  }

  // ----- the verdict on a run -----

  ghost predicate RunNeverOverstates(plan: TradePlan, f: real, filled: nat, bars: seq<Bar>) {
    forall days :: PathsOf(days, bars) ==>
      Proceeds(ExitLegs(plan, f, filled, bars)) <= Proceeds(PathLegs(plan, f, filled, days, bars))
  }

  /** Bar k of the walk, with the bars after it, is one on which the rule books too much. */
  predicate FlattersBar(plan: TradePlan, f: real, filled: nat, bars: seq<Bar>, k: nat)
    requires k < |bars|
  {
    Flatters(Walk(plan, f, filled, bars[..k]), plan, f, bars[k], bars[k + 1..])
  }

  /** Both runs in money. */
  lemma RunsInMoney(plan: TradePlan, f: real, filled: nat, days: seq<seq<real>>, bars: seq<Bar>)
    requires Levels(plan, f) && Splits(plan, filled) && AllWellFormed(bars) && bars != [] && |days| == |bars|
    ensures var start, last := Start(plan, filled), LastMark(0.0, bars);
            && Proceeds(ExitLegs(plan, f, filled, bars)) == Value(RuleFrom(start, plan, f, bars), last)
            && Proceeds(PathLegs(plan, f, filled, days, bars)) == Value(DaysFrom(start, plan, f, days, bars), last)
    ensures var (a, b) := ScaleToFilledLots(plan, filled);
            TotalLots(ExitLegs(plan, f, filled, bars)) == TotalLots(PathLegs(plan, f, filled, days, bars)) == a + b
  {
    hide ScaleToFilledLots, Proceeds, Value, TotalLots, Settled, Walk, RuleFrom, DaysFrom, Keeps;
    var (a, b) := ScaleToFilledLots(plan, filled);
    WalkIsRuleFromStart(plan, f, filled, bars);
    WalkKeeps(plan, f, filled, bars);
    SettledIsWorth(Walk(plan, f, filled, bars), a + b, bars);
    StartKeeps(plan, filled);
    DaysKeep(Start(plan, filled), a + b, plan, f, days, bars);
    SettledIsWorth(DaysFrom(Start(plan, filled), plan, f, days, bars), a + b, bars);
  }

  lemma StartKeeps(plan: TradePlan, filled: nat)
    requires Splits(plan, filled)
    ensures var (a, b) := ScaleToFilledLots(plan, filled); Keeps(Start(plan, filled), a + b)
  {
    hide ScaleToFilledLots;
  }

  lemma SplitsAddUp(plan: TradePlan, filled: nat)
    requires filled <= plan.totalLots == plan.tp1Lots + plan.tp2Lots
    ensures ScaleToFilledLots(plan, filled).0 + ScaleToFilledLots(plan, filled).1 == filled
  {
  }

  lemma StartIsLive(plan: TradePlan, f: real, filled: nat)
    requires Levels(plan, f) && Splits(plan, filled)
    ensures Live(Start(plan, filled), plan, f) && !Start(plan, filled).tp1Done
  {
    hide ScaleToFilledLots;
  }

  /**
   * The same-bar rule over a whole run, expiry included: it never books more than the run earns when every day follows
   * a path of its own, exactly if no bar flatters.
   */
  lemma RunNeverOverstatesIff(plan: TradePlan, f: real, filled: nat, bars: seq<Bar>)
    requires Levels(plan, f) && Splits(plan, filled) && AllWellFormed(bars) && bars != []
    ensures RunNeverOverstates(plan, f, filled, bars) <==>
            !exists k: nat :: k < |bars| && FlattersBar(plan, f, filled, bars, k)
  {
    hide Proceeds, Value, TotalLots, ExitLegs, PathLegs, Walk, RuleFrom, DaysFrom, Start, Flatters, FlattersSomewhere,
        Levels;
    hide Splits, ScaleToFilledLots, AllWellFormed, Live, PathOf;
    var start := Start(plan, filled);
    StartIsLive(plan, f, filled);
    SomewhereIsSomeBar(start, plan, f, bars);
    forall k: nat | k < |bars| ensures FlattersBar(plan, f, filled, bars, k) <==> FlattersAt(start, plan, f, bars, k) {
      WalkIsRuleFromStart(plan, f, filled, bars[..k]);
    }
    FlattersIffTurnIsCheaper(start, plan, f, 0.0, bars);
    if FlattersSomewhere(start, plan, f, bars) {
      var days := TurnIsReached(start, plan, f, 0.0, bars);
      RunsInMoney(plan, f, filled, days, bars);
    } else {
      forall days | PathsOf(days, bars)
        ensures Proceeds(ExitLegs(plan, f, filled, bars)) <= Proceeds(PathLegs(plan, f, filled, days, bars))
      {
        RunsInMoney(plan, f, filled, days, bars);
        PathsEndNoLower(start, plan, f, 0.0, days, bars);
      }
    }
  }

  /**
   * The re-check the rule leaves out: on the day TP1 is reached with the stop untouched, breakeven is reached as well.
   */
  predicate BreakevenSkipped(p: Position, plan: TradePlan, f: real, b: Bar) {
    !p.closed && ReachesTp1(p, plan, b) && p.stop < b.low <= f
  }

  /** From a fill at or above the stop, a run that never skips that re-check is never overstated. */
  lemma WithoutSkippingNeverOverstated(plan: TradePlan, f: real, filled: nat, bars: seq<Bar>)
    requires Levels(plan, f) && Splits(plan, filled) && AllWellFormed(bars) && bars != [] && plan.slPrice <= f
    requires forall k: nat :: k < |bars| ==> !BreakevenSkipped(Walk(plan, f, filled, bars[..k]), plan, f, bars[k])
    ensures RunNeverOverstates(plan, f, filled, bars)
  {
    hide Walk, ScaleToFilledLots;
    forall k: nat | k < |bars| ensures !FlattersBar(plan, f, filled, bars, k) {
      WalkKeepsInvariant(plan, f, filled, bars[..k]);
      StopBeatsNoTurn(Walk(plan, f, filled, bars[..k]), plan, f, bars[k], bars[k + 1..]);
    }
    RunNeverOverstatesIff(plan, f, filled, bars);
  }

  lemma StopBeatsNoTurn(p: Position, plan: TradePlan, f: real, b: Bar, rest: seq<Bar>)
    requires p.stop <= f || p.tp1Done || p.closed
    ensures b.low <= p.stop ==> !Flatters(p, plan, f, b, rest)
  {
    hide Times, Proceeds;
    if !p.closed && ReachesTp1(p, plan, b) && b.low <= p.stop {
      TimesOrder(p.lots1, p.stop, plan.tp1Price);
      TimesOrder(p.lots2, p.stop, f);
    }
  }

  /** Bars as the exchange prints them: prices are positive. */
  predicate AllPositive(bars: seq<Bar>) {
    forall k :: 0 <= k < |bars| ==> 0.0 < bars[k].low
  }

  /** The day TP1 is reached leaves the run open to flattery, whatever comes after it. */
  predicate Exposed(p: Position, plan: TradePlan, f: real, b: Bar) {
    if p.stop < b.low then b.low <= f
    else if b.low <= f then BothAt(p, plan.tp1Price, f) < BothAt(p, p.stop, p.stop)
    else b.high < plan.tp2Price && BothAt(p, plan.tp1Price, 0.0) < BothAt(p, p.stop, p.stop)
  }

  lemma {:induction false} StaysDecided(plan: TradePlan, f: real, filled: nat, bars: seq<Bar>, more: seq<Bar>)
    requires Decided(Walk(plan, f, filled, bars))
    ensures Decided(Walk(plan, f, filled, bars + more))
    decreases |more|
  {
    if more == [] {
      assert bars + more == bars;
    } else {
      assert (bars + more)[..|bars + more| - 1] == bars + more[..|more| - 1];
      StaysDecided(plan, f, filled, bars, more[..|more| - 1]);
    }
  }

  /** At most one bar of a walk reaches TP1 from an untouched position. */
  lemma OneDisputedDay(plan: TradePlan, f: real, filled: nat, bars: seq<Bar>, j: nat, k: nat)
    requires Levels(plan, f) && Splits(plan, filled) && AllWellFormed(bars) && j < k <= |bars|
    requires !Walk(plan, f, filled, bars[..j]).closed && ReachesTp1(Walk(plan, f, filled, bars[..j]), plan, bars[j])
    ensures Decided(Walk(plan, f, filled, bars[..k]))
  {
    hide ScaleToFilledLots, BarStep;
    var p, b := Walk(plan, f, filled, bars[..j]), bars[j];
    WalkKeepsInvariant(plan, f, filled, bars[..j]);
    OpenLowHighCloseIsAPath(b);
    DisputedDay(p, plan, f, b, OpenLowHighClose(b));
    assert bars[..j + 1][..j] == bars[..j];
    assert bars[..j + 1] + bars[j + 1..k] == bars[..k];
    StaysDecided(plan, f, filled, bars[..j + 1], bars[j + 1..k]);
  }

  /**
   * What a caller can tell on the day TP1 is reached: the run can still be overstated, on some days to come, exactly
   * if it is exposed.
   */
  lemma ExposedIff(plan: TradePlan, f: real, filled: nat, bars: seq<Bar>, b: Bar)
    requires Levels(plan, f) && Splits(plan, filled) && AllWellFormed(bars + [b]) && AllPositive(bars + [b]) && 0.0 < f
    requires var p := Walk(plan, f, filled, bars); !p.closed && ReachesTp1(p, plan, b)
    ensures Exposed(Walk(plan, f, filled, bars), plan, f, b) <==>
            exists rest :: AllWellFormed(rest) && AllPositive(rest)
                && !RunNeverOverstates(plan, f, filled, bars + [b] + rest)
  {
    hide Walk, ScaleToFilledLots, Flatters, Exposed, RunNeverOverstates;
    var p := Walk(plan, f, filled, bars);
    assert WellFormed(b) && 0.0 < b.low by { assert (bars + [b])[|bars|] == b; }
    WalkKeepsInvariant(plan, f, filled, InitOf(bars, b));
    if Exposed(p, plan, f, b) {
      var rest := ExposingDays(p, plan, f, b);
      FlatteredHere(plan, f, filled, bars, b, rest);
    }
    forall rest | AllWellFormed(rest) && AllPositive(rest) && !RunNeverOverstates(plan, f, filled, bars + [b] + rest)
      ensures Exposed(p, plan, f, b)
    {
      FlatteredHere(plan, f, filled, bars, b, rest);
      FlatteredIsExposed(p, plan, f, b, rest);
    }
  }

  function InitOf(bars: seq<Bar>, b: Bar): (init: seq<Bar>)
    ensures init == bars
  {
    (bars + [b])[..|bars|]
  }

  /** A run with that day in it is overstated exactly if that day flatters it. */
  lemma FlatteredHere(plan: TradePlan, f: real, filled: nat, bars: seq<Bar>, b: Bar, rest: seq<Bar>)
    requires Levels(plan, f) && Splits(plan, filled) && AllWellFormed(bars + [b]) && AllWellFormed(rest)
    requires var p := Walk(plan, f, filled, bars); !p.closed && ReachesTp1(p, plan, b)
    ensures !RunNeverOverstates(plan, f, filled, bars + [b] + rest)
            <==> Flatters(Walk(plan, f, filled, bars), plan, f, b, rest)
  {
    hide Walk, ScaleToFilledLots, RunNeverOverstates;
    var all := bars + [b] + rest;
    forall k | 0 <= k < |all| ensures WellFormed(all[k]) {
      assert all[k] == if k < |bars + [b]| then (bars + [b])[k] else rest[k - |bars + [b]|];
    }
    RunNeverOverstatesIff(plan, f, filled, all);
    assert all[..|bars|] == bars && all[|bars|] == b && all[|bars| + 1..] == rest;
    assert FlattersBar(plan, f, filled, all, |bars|) <==> Flatters(Walk(plan, f, filled, bars), plan, f, b, rest);
    forall k: nat | k < |all| && k != |bars| ensures !FlattersBar(plan, f, filled, all, k) {
      if FlattersBar(plan, f, filled, all, k) {
        if k < |bars| {
          OneDisputedDay(plan, f, filled, all, k, |bars|);
        } else {
          OneDisputedDay(plan, f, filled, all, |bars|, k);
        }
      }
    }
  }

  function FlatDay(price: real): Bar {
    Bar(0, price, price, price, price, 0.0, None)
  }

  lemma ExposingDays(p: Position, plan: TradePlan, f: real, b: Bar) returns (rest: seq<Bar>)
    requires !p.closed && ReachesTp1(p, plan, b) && Exposed(p, plan, f, b) && Live(p, plan, f) && 0.0 < f && 0.0 < b.low
    requires WellFormed(b)
    ensures AllWellFormed(rest) && AllPositive(rest) && Flatters(p, plan, f, b, rest)
  {
    hide Times, Proceeds;
    if p.stop < b.low {
      rest := [FlatDay(plan.tp2Price)];
    } else if b.low <= f {
      rest := [];
    } else {
      var price := SmallEnough(p, plan.tp1Price, p.stop, f);
      rest := [FlatDay(price)];
    }
  }

  lemma SmallEnough(p: Position, tp1: real, stop: real, f: real) returns (price: real)
    requires 0.0 < f && p.lots2 > 0 && BothAt(p, tp1, 0.0) < BothAt(p, stop, stop)
    ensures 0.0 < price <= f && BothAt(p, tp1, price) < BothAt(p, stop, stop)
  {
    hide Proceeds;
    var gap, n := BothAt(p, stop, stop) - BothAt(p, tp1, 0.0), p.lots2 as real;
    hide BothAt;
    var half := gap / (2.0 * n);
    assert half * (2.0 * n) == gap;
    assert half > 0.0 by { if half <= 0.0 { Scale(half, 0.0, 2.0 * n); } }
    price := MinReal(f, half);
    assert price * n < gap by { Scale(price, half, n); }
    PriceOfSecond(p, tp1, price);
  }

  lemma PriceOfSecond(p: Position, price1: real, price: real)
    ensures BothAt(p, price1, price) == BothAt(p, price1, 0.0) + price * p.lots2 as real
  {
    assert Times(p.lots2, 0.0) == 0.0;
  }

  lemma {:induction false} RunnerExitPositive(mark: real, bars: seq<Bar>, plan: TradePlan, f: real)
    requires 0.0 < mark && AllWellFormed(bars) && AllPositive(bars) && 0.0 < f < plan.tp2Price
    ensures 0.0 < RunnerExit(mark, bars, plan, f)
    decreases |bars|
  {
    if bars != [] {
      assert WellFormed(bars[0]) && 0.0 < bars[0].low;
      RunnerExitPositive(bars[0].close, bars[1..], plan, f);
    }
  }

  lemma FlatteredIsExposed(p: Position, plan: TradePlan, f: real, b: Bar, rest: seq<Bar>)
    requires Flatters(p, plan, f, b, rest) && Live(p, plan, f) && 0.0 < f && 0.0 < b.low && WellFormed(b)
    requires AllWellFormed(rest) && AllPositive(rest)
    ensures Exposed(p, plan, f, b)
  {
    hide Times, Proceeds;
    RunnerExitPositive(b.close, rest, plan, f);
    TimesOrder(p.lots2, 0.0, RunnerExit(b.close, rest, plan, f));
    TimesOrder(p.lots1, p.stop, plan.tp1Price);
    TimesOrder(p.lots2, p.stop, plan.tp2Price);
  }

  /** A single bar, with what is held valued at its close, is the run that ends there. */
  lemma OneBarIsARun(p: Position, plan: TradePlan, f: real, b: Bar)
    requires Live(p, plan, f) && WellFormed(b)
    ensures Flatters(p, plan, f, b, []) <==> Optimistic(p, plan, f, b)
  {
    hide Times, Proceeds;
    TimesOrder(p.lots1, p.stop, plan.tp1Price);
    if ReachesTp1(p, plan, b) { TimesOrder(p.lots2, p.stop, plan.tp2Price); }
  }

  // ----- the verdict in net results -----

  /** What the sell fee leaves. */
  function Kept(cfg: RiskConfig): real {
    1.0 - cfg.sellFeeRate
  }

  /** What so many lots cost to buy, allowance included, in shares per lot. */
  function CostOf(lots: int, f: real, cfg: RiskConfig): real {
    (f + f * cfg.buyFeeRate + cfg.slippagePerShare) * lots as real
  }

  /** Proceeds less the sell fee and a fixed cost, for so many shares to a lot. */
  function AfterCosts(proceeds: real, keep: real, cost: real, size: real): real {
    (proceeds * keep - cost) * size
  }

  lemma AfterCostsKeepOrder(x: real, y: real, keep: real, cost: real, size: real)
    requires keep >= 0.0 && size > 0.0 && x <= y
    ensures AfterCosts(x, keep, cost, size) <= AfterCosts(y, keep, cost, size)
  {
    var low, high := x * keep, y * keep;
    assert low <= high by { Scale(x, y, keep); }
    Scale(low - cost, high - cost, size);
  }

  lemma AfterCostsKeepStrictOrder(x: real, y: real, keep: real, cost: real, size: real)
    requires keep > 0.0 && size > 0.0 && x < y
    ensures AfterCosts(x, keep, cost, size) < AfterCosts(y, keep, cost, size)
  {
    var low, high := x * keep, y * keep;
    assert low < high by { ScaleStrict(x, y, keep); }
    ScaleStrict(low - cost, high - cost, size);
  }

  lemma AfterCostsPositive(x: real, keep: real, cost: real, size: real)
    requires keep > 0.0 && size > 0.0 && x >= cost / keep + 1.0
    ensures AfterCosts(x, keep, cost, size) > 0.0
  {
    var quotient := cost / keep;
    var enough := quotient + 1.0;
    var needed, kept := enough * keep, x * keep;
    assert quotient * keep == cost;
    assert needed == cost + keep;
    assert needed <= kept by { Scale(enough, x, keep); }
    ScaleStrict(0.0, kept - cost, size);
  }

  /** More proceeds add at most themselves. */
  lemma AfterCostsOfMore(x: real, more: real, keep: real, cost: real, size: real)
    requires 0.0 <= keep <= 1.0 && size > 0.0 && more >= 0.0
    ensures AfterCosts(x + more, keep, cost, size) <= AfterCosts(x, keep, cost, size) + more * size
  {
    var before, kept, all := x * keep, more * keep, more * size;
    assert kept <= more by { Scale(keep, 1.0, more); }
    assert kept * size <= all by { Scale(kept, more, size); }
    assert (x + more) * keep == before + kept;
    assert (before + kept - cost) * size == (before - cost) * size + kept * size;
  }

  /** Net result of a run that sold this many lots, bought at f, for so much in shares per lot. */
  function NetOf(proceeds: real, lots: int, f: real, cfg: RiskConfig): real {
    AfterCosts(proceeds, Kept(cfg), CostOf(lots, f, cfg), cfg.lotSize)
  }

  lemma {:induction false} LegSumOfProceeds(legs: seq<ExitLeg>, f: real, cfg: RiskConfig)
    ensures LegSum(legs, f, cfg) == NetOf(Proceeds(legs), TotalLots(legs), f, cfg)
    decreases |legs|
  {
    if legs != [] {
      LegSumOfProceeds(legs[..|legs| - 1], f, cfg);
    }
  }

  /** The net result depends on the proceeds alone. */
  lemma NetOfProceeds(legs: seq<ExitLeg>, lots: int, f: real, cfg: RiskConfig)
    requires TotalLots(legs) == lots
    ensures NetPnl(legs, f, lots, cfg) == NetOf(Proceeds(legs), lots, f, cfg)
  {
    hide NetOf, NetPnl;
    NetIsLegSum(legs, f, cfg);
    LegSumOfProceeds(legs, f, cfg);
  }

  lemma NetKeepsOrder(x: real, y: real, lots: int, f: real, cfg: RiskConfig)
    requires cfg.Costed() && x <= y
    ensures NetOf(x, lots, f, cfg) <= NetOf(y, lots, f, cfg)
  {
    assert Kept(cfg) >= 0.0;
    hide AfterCosts, Kept, CostOf;
    AfterCostsKeepOrder(x, y, Kept(cfg), CostOf(lots, f, cfg), cfg.lotSize);
  }

  lemma NetKeepsStrictOrder(x: real, y: real, lots: int, f: real, cfg: RiskConfig)
    requires cfg.Costed() && cfg.sellFeeRate < 1.0 && x < y
    ensures NetOf(x, lots, f, cfg) < NetOf(y, lots, f, cfg)
  {
    assert Kept(cfg) > 0.0;
    hide AfterCosts, Kept, CostOf;
    AfterCostsKeepStrictOrder(x, y, Kept(cfg), CostOf(lots, f, cfg), cfg.lotSize);
  }

  /** A run that wins wins on every choice of paths. */
  ghost predicate WinNeverOverstated(plan: TradePlan, f: real, filled: nat, bars: seq<Bar>, cfg: RiskConfig) {
    NetPnl(ExitLegs(plan, f, filled, bars), f, filled, cfg) > 0.0 ==>
      forall days :: PathsOf(days, bars) ==> NetPnl(PathLegs(plan, f, filled, days, bars), f, filled, cfg) > 0.0
  }

  /** A booked win is a loss on some paths exactly when turning on the day that reaches TP1 is one. */
  lemma WinNeverOverstatedIff(plan: TradePlan, f: real, filled: nat, bars: seq<Bar>, cfg: RiskConfig)
    requires Levels(plan, f) && Splits(plan, filled) && 1 <= filled <= plan.totalLots == plan.tp1Lots + plan.tp2Lots
    requires AllWellFormed(bars) && bars != [] && cfg.Costed()
    ensures var turn := Turn(Start(plan, filled), plan, f, bars);
            WinNeverOverstated(plan, f, filled, bars, cfg) <==>
            !(NetPnl(ExitLegs(plan, f, filled, bars), f, filled, cfg) > 0.0 && turn.Some?
                && NetOf(turn.value, filled, f, cfg) <= 0.0)
  {
    hide Proceeds, Value, TotalLots, ExitLegs, PathLegs, Walk, RuleFrom, DaysFrom, Start, Turn, Live, PathOf, NetPnl,
        NetOf;
    hide AllWellFormed, Levels;
    var start := Start(plan, filled);
    StartIsLive(plan, f, filled);
    var turn := Turn(start, plan, f, bars);
    SplitsAddUp(plan, filled);
    forall days | PathsOf(days, bars)
      ensures var path, booked :=
              Proceeds(PathLegs(plan, f, filled, days, bars)), Proceeds(ExitLegs(plan, f, filled, bars));
              && NetPnl(ExitLegs(plan, f, filled, bars), f, filled, cfg) == NetOf(booked, filled, f, cfg)
              && NetPnl(PathLegs(plan, f, filled, days, bars), f, filled, cfg) == NetOf(path, filled, f, cfg)
              && (NetOf(path, filled, f, cfg) >= NetOf(booked, filled, f, cfg)
                  || (turn.Some? && NetOf(path, filled, f, cfg) >= NetOf(turn.value, filled, f, cfg)))
    {
      RunsInMoney(plan, f, filled, days, bars);
      PathsEndNoLower(start, plan, f, 0.0, days, bars);
      var path, booked := Proceeds(PathLegs(plan, f, filled, days, bars)), Proceeds(ExitLegs(plan, f, filled, bars));
      NetOfProceeds(ExitLegs(plan, f, filled, bars), filled, f, cfg);
      NetOfProceeds(PathLegs(plan, f, filled, days, bars), filled, f, cfg);
      if path >= booked { NetKeepsOrder(booked, path, filled, f, cfg); }
      if turn.Some? && path >= turn.value { NetKeepsOrder(turn.value, path, filled, f, cfg); }
    }
    if turn.Some? {
      var days := TurnIsReached(start, plan, f, 0.0, bars);
      RunsInMoney(plan, f, filled, days, bars);
    }
  }

  /** From a fill at or above the stop, a turn is worth no less than the run, or it is breakeven after TP1. */
  lemma {:induction false} TurnFromAboveTheStop(p: Position, plan: TradePlan, f: real, mark: real, bars: seq<Bar>)
    requires Live(p, plan, f) && !p.tp1Done && AllWellFormed(bars) && p.stop <= f
    ensures var turn := Turn(p, plan, f, bars);
            turn.Some? ==>
              || turn.value >= Value(RuleFrom(p, plan, f, bars), LastMark(mark, bars))
              || (p.stop < f && p.lots1 > 0 && p.lots2 > 0 && plan.tp1Price < plan.tp2Price
                  && turn.value == BothAt(p, plan.tp1Price, f))
    decreases |bars|
  {
    hide Times, BarStep, Value, Proceeds, BothAt, WellFormed, PathOf, OpenLowHighClose;
    if bars != [] {
      var b, rest := bars[0], bars[1..];
      OpenLowHighCloseIsAPath(b);
      if ReachesTp1(p, plan, b) {
        LowFirstDaysArePaths(rest);
        DisputedRunBooks(p, plan, f, b, LowFirstDays(rest), rest);
        FlattersIffTurnIsWorse(p, plan, f, b, rest);
        StopBeatsNoTurn(p, plan, f, b, rest);
      } else {
        UndisputedDay(p, plan, f, b, OpenLowHighClose(b));
        if BarStep(p, plan, f, b) == p {
          TurnFromAboveTheStop(p, plan, f, b.close, rest);
        } else {
          DecidedDoesNotTurn(BarStep(p, plan, f, b), plan, f, rest);
        }
      }
    }
  }

  /**
   * From a fill below the stop it is, or everything was sold at the stop and the turn still brings more than TP1 alone.
   */
  lemma {:induction false} TurnFromBelowTheStop(p: Position, plan: TradePlan, f: real, mark: real, bars: seq<Bar>)
    requires Live(p, plan, f) && !p.tp1Done && AllWellFormed(bars) && AllPositive(bars) && 0.0 < f < p.stop
    ensures var turn, booked := Turn(p, plan, f, bars), Value(RuleFrom(p, plan, f, bars), LastMark(mark, bars));
            turn.Some? ==>
              || turn.value >= booked
              || (p.lots1 > 0 && p.lots2 > 0 && plan.tp1Price < plan.tp2Price
                  && booked == BothAt(p, p.stop, p.stop) && BothAt(p, plan.tp1Price, 0.0) < turn.value)
    decreases |bars|
  {
    hide Times, BarStep, Value, Proceeds, WellFormed, PathOf, OpenLowHighClose;
    if bars != [] {
      var b, rest := bars[0], bars[1..];
      OpenLowHighCloseIsAPath(b);
      if ReachesTp1(p, plan, b) {
        LowFirstDaysArePaths(rest);
        DisputedRunBooks(p, plan, f, b, LowFirstDays(rest), rest);
        ClosesPositive(b);
        RunnerExitPositive(b.close, rest, plan, f);
        TimesOrder(p.lots2, 0.0, AfterTheTurn(b, rest, plan, f));
      } else {
        hide BothAt;
        UndisputedDay(p, plan, f, b, OpenLowHighClose(b));
        if BarStep(p, plan, f, b) == p {
          TurnFromBelowTheStop(p, plan, f, b.close, rest);
        } else {
          DecidedDoesNotTurn(BarStep(p, plan, f, b), plan, f, rest);
        }
      }
    }
  }

  lemma ClosesPositive(b: Bar)
    requires WellFormed(b) && 0.0 < b.low
    ensures 0.0 < b.close
  {
  }

  /** Both halves sold at these prices are a win. */
  predicate Wins(plan: TradePlan, f: real, filled: nat, price1: real, price2: real, cfg: RiskConfig) {
    var (a, b) := ScaleToFilledLots(plan, filled);
    NetOf(Times(a, price1) + Times(b, price2), filled, f, cfg) > 0.0
  }

  /** The first half alone, even at TP1, does not pay for the whole position. */
  predicate FirstHalfLoses(plan: TradePlan, f: real, filled: nat, cfg: RiskConfig) {
    NetOf(Times(ScaleToFilledLots(plan, filled).0, plan.tp1Price), filled, f, cfg) < 0.0
  }

  /** Before the run: is there no run at all whose win is overstated? */
  predicate WinIsSafe(plan: TradePlan, f: real, filled: nat, cfg: RiskConfig) {
    var (a, b) := ScaleToFilledLots(plan, filled);
    || a == 0 || b == 0 || plan.tp1Price == plan.tp2Price
    || (if plan.slPrice <= f then plan.slPrice == f || Wins(plan, f, filled, plan.tp1Price, f, cfg)
        else !Wins(plan, f, filled, plan.slPrice, plan.slPrice, cfg) || !FirstHalfLoses(plan, f, filled, cfg))
  }

  /**
   * What a caller can tell before the run. From a fill at or above the stop no run overstates its win exactly if TP1
   * followed by breakeven is a win; from a fill below it, exactly if the stop is no win or the first half pays for all.
   */
  lemma WinIsSafeIff(plan: TradePlan, f: real, filled: nat, cfg: RiskConfig)
    requires Levels(plan, f) && Splits(plan, filled) && 1 <= filled <= plan.totalLots == plan.tp1Lots + plan.tp2Lots
    requires 0.0 < f && cfg.Costed() && cfg.sellFeeRate < 1.0
    ensures (forall bars :: bars != [] && AllWellFormed(bars) && AllPositive(bars) ==>
            WinNeverOverstated(plan, f, filled, bars, cfg))
            <==> WinIsSafe(plan, f, filled, cfg)
  {
    hide ScaleToFilledLots, WinNeverOverstated, Wins, FirstHalfLoses;
    if WinIsSafe(plan, f, filled, cfg) {
      forall bars | bars != [] && AllWellFormed(bars) && AllPositive(bars)
        ensures WinNeverOverstated(plan, f, filled, bars, cfg)
      {
        SafeWin(plan, f, filled, bars, cfg);
      }
    } else if plan.slPrice <= f {
      var bars := UnsafeWin(plan, f, filled, cfg);
    } else {
      var bars := UnsafeWinAtTheStop(plan, f, filled, cfg);
    }
  }

  lemma ProceedsOfNothing(p: Position, price1: real, price2: real)
    requires p.legs == []
    ensures BothAt(p, price1, price2) == Times(p.lots1, price1) + Times(p.lots2, price2)
  {
  }

  lemma SafeWin(plan: TradePlan, f: real, filled: nat, bars: seq<Bar>, cfg: RiskConfig)
    requires Levels(plan, f) && Splits(plan, filled) && 1 <= filled <= plan.totalLots == plan.tp1Lots + plan.tp2Lots
    requires 0.0 < f && cfg.Costed() && cfg.sellFeeRate < 1.0 && AllWellFormed(bars) && AllPositive(bars) && bars != []
    requires WinIsSafe(plan, f, filled, cfg)
    ensures WinNeverOverstated(plan, f, filled, bars, cfg)
  {
    hide WinNeverOverstated, NetPnl, NetOf, Times, BothAt, Proceeds, Value, TotalLots, ExitLegs, PathLegs, RuleFrom,
        Turn, Live;
    hide Keeps, CompleteTrace, PathOf, WellFormed, DaysFrom;
    var start := Start(plan, filled);
    StartIsLive(plan, f, filled);
    SplitsAddUp(plan, filled);
    LowFirstDaysArePaths(bars);
    RunsInMoney(plan, f, filled, LowFirstDays(bars), bars);
    WinNeverOverstatedIff(plan, f, filled, bars, cfg);
    NetOfProceeds(ExitLegs(plan, f, filled, bars), filled, f, cfg);
    var turn, booked := Turn(start, plan, f, bars), Proceeds(ExitLegs(plan, f, filled, bars));
    if turn.Some? && turn.value >= booked {
      NetKeepsOrder(booked, turn.value, filled, f, cfg);
    } else if plan.slPrice <= f {
      TurnFromAboveTheStop(start, plan, f, 0.0, bars);
      ProceedsOfNothing(start, plan.tp1Price, f);
    } else if turn.Some? {
      TurnFromBelowTheStop(start, plan, f, 0.0, bars);
      ProceedsOfNothing(start, plan.slPrice, plan.slPrice);
      ProceedsOfNothing(start, plan.tp1Price, 0.0);
      NoMoneyForNothing(start.lots2);
      NetKeepsStrictOrder(BothAt(start, plan.tp1Price, 0.0), turn.value, filled, f, cfg);
    }
  }

  lemma NoMoneyForNothing(lots: int)
    ensures Times(lots, 0.0) == 0.0
  {
  }

  /** Up to TP1 and back to the fill, then a jump as high as it takes to make the booked run a win. */
  lemma UnsafeWin(plan: TradePlan, f: real, filled: nat, cfg: RiskConfig) returns (bars: seq<Bar>)
    requires Levels(plan, f) && Splits(plan, filled) && 1 <= filled <= plan.totalLots == plan.tp1Lots + plan.tp2Lots
    requires plan.slPrice < f && 0.0 < f && cfg.Costed() && cfg.sellFeeRate < 1.0 && plan.tp1Price < plan.tp2Price
    requires ScaleToFilledLots(plan, filled).0 > 0 && ScaleToFilledLots(plan, filled).1 > 0 
    requires !Wins(plan, f, filled, plan.tp1Price, f, cfg)
    ensures bars != [] && AllWellFormed(bars) && AllPositive(bars) && !WinNeverOverstated(plan, f, filled, bars, cfg)
  {
    hide WinNeverOverstated, NetPnl, NetOf, Times, Proceeds, Value, TotalLots, ExitLegs, PathLegs, RuleFrom, Live,
        BarStep;
    hide Keeps, CompleteTrace, PathOf, DaysFrom, ScaleToFilledLots;
    var start := Start(plan, filled);
    var price := WinningPrice(start.lots2, Times(start.lots1, plan.tp1Price), plan.tp2Price, filled, f, cfg);
    var up, jump := Bar(0, f, plan.tp1Price, f, f, 0.0, None), FlatDay(price);
    bars := [up, jump];
    assert bars[1..] == [jump];
    StartIsLive(plan, f, filled);
    SplitsAddUp(plan, filled);
    LowFirstDaysArePaths(bars);
    LowFirstDaysArePaths([jump]);
    RunsInMoney(plan, f, filled, LowFirstDays(bars), bars);
    DisputedRunBooks(start, plan, f, up, LowFirstDays([jump]), [jump]);
    assert AfterTheTarget(up, [jump], plan, f) == price;
    ProceedsOfNothing(start, plan.tp1Price, f);
    ProceedsOfNothing(start, plan.tp1Price, price);
    assert RuleFrom(start, plan, f, bars) == RuleFrom(BarStep(start, plan, f, up), plan, f, [jump]) by {
      RuleFromFirst(start, plan, f, bars);
    }
    NetOfProceeds(ExitLegs(plan, f, filled, bars), filled, f, cfg);
    WinNeverOverstatedIff(plan, f, filled, bars, cfg);
  }

  /** Up to TP1 but down to the stop as well, and the next day a jump down as far as it takes to lose after a turn. */
  lemma UnsafeWinAtTheStop(plan: TradePlan, f: real, filled: nat, cfg: RiskConfig) returns (bars: seq<Bar>)
    requires Levels(plan, f) && Splits(plan, filled) && 1 <= filled <= plan.totalLots == plan.tp1Lots + plan.tp2Lots
    requires 0.0 < f < plan.slPrice && cfg.Costed() && plan.tp1Price < plan.tp2Price
    requires ScaleToFilledLots(plan, filled).0 > 0 && ScaleToFilledLots(plan, filled).1 > 0
    requires Wins(plan, f, filled, plan.slPrice, plan.slPrice, cfg) && FirstHalfLoses(plan, f, filled, cfg)
    ensures bars != [] && AllWellFormed(bars) && AllPositive(bars) && !WinNeverOverstated(plan, f, filled, bars, cfg)
  {
    hide WinNeverOverstated, NetPnl, NetOf, Times, Proceeds, Value, TotalLots, ExitLegs, PathLegs, RuleFrom, Live,
        BarStep;
    hide Keeps, CompleteTrace, PathOf, DaysFrom, ScaleToFilledLots;
    var start := Start(plan, filled);
    var price := LosingPrice(start.lots2, Times(start.lots1, plan.tp1Price), filled, f, cfg);
    var open := (plan.slPrice + plan.tp1Price) / 2.0;
    var both, drop := Bar(0, open, plan.tp1Price, plan.slPrice, open, 0.0, None), FlatDay(price);
    bars := [both, drop];
    assert bars[1..] == [drop];
    StartIsLive(plan, f, filled);
    SplitsAddUp(plan, filled);
    LowFirstDaysArePaths(bars);
    LowFirstDaysArePaths([drop]);
    RunsInMoney(plan, f, filled, LowFirstDays(bars), bars);
    DisputedRunBooks(start, plan, f, both, LowFirstDays([drop]), [drop]);
    assert AfterTheTurn(both, [drop], plan, f) == price;
    ProceedsOfNothing(start, plan.slPrice, plan.slPrice);
    ProceedsOfNothing(start, plan.tp1Price, price);
    RuleFromFirst(start, plan, f, bars);
    NetOfProceeds(ExitLegs(plan, f, filled, bars), filled, f, cfg);
    WinNeverOverstatedIff(plan, f, filled, bars, cfg);
  }

  lemma LosingPrice(n: int, first: real, lots: int, f: real, cfg: RiskConfig) returns (price: real)
    requires n > 0 && cfg.Costed() && 0.0 < f && NetOf(first, lots, f, cfg) < 0.0
    ensures 0.0 < price <= f && NetOf(first + Times(n, price), lots, f, cfg) <= 0.0
  {
    var m, size, lack := n as real, cfg.lotSize, -NetOf(first, lots, f, cfg);
    var share := lack / (m * size);
    assert m * size > 0.0 by { ScaleStrict(0.0, m, size); }
    assert share * (m * size) == lack;
    assert share > 0.0 by { if share <= 0.0 { Scale(share, 0.0, m * size); } }
    price := MinReal(f, share);
    var more := price * (m * size);
    assert more <= lack by { Scale(price, share, m * size); }
    assert more > 0.0 by { ScaleStrict(0.0, price, m * size); }
    NetOfMore(n, first, price, lots, f, cfg);
  }

  lemma SoldByLot(price: real, m: real, size: real)
    ensures price * m * size == price * (m * size)
  {
  }

  lemma NetOfMore(n: int, first: real, price: real, lots: int, f: real, cfg: RiskConfig)
    requires n > 0 && cfg.Costed() && price > 0.0
    ensures NetOf(first + Times(n, price), lots, f, cfg)
            <= NetOf(first, lots, f, cfg) + price * (n as real * cfg.lotSize)
  {
    assert 0.0 <= Kept(cfg) <= 1.0;
    hide AfterCosts, Kept, CostOf;
    var sold, m := Times(n, price), n as real;
    assert sold >= 0.0 by { Scale(0.0, price, m); }
    AfterCostsOfMore(first, sold, Kept(cfg), CostOf(lots, f, cfg), cfg.lotSize);
    SoldByLot(price, m, cfg.lotSize);
  }

  lemma RuleFromFirst(p: Position, plan: TradePlan, f: real, bars: seq<Bar>)
    requires bars != [] && !p.closed
    ensures RuleFrom(p, plan, f, bars) == RuleFrom(BarStep(p, plan, f, bars[0]), plan, f, bars[1..])
  {
    hide BarStep;
  }

  lemma WinningPrice(n: int, first: real, low: real, lots: int, f: real, cfg: RiskConfig) returns (price: real)
    requires n > 0 && cfg.Costed() && cfg.sellFeeRate < 1.0
    ensures low <= price && NetOf(first + Times(n, price), lots, f, cfg) > 0.0
  {
    assert Kept(cfg) > 0.0;
    hide AfterCosts, Kept, CostOf;
    var keep, cost, m := Kept(cfg), CostOf(lots, f, cfg), n as real;
    var missing := cost / keep + 1.0 - first;
    var goal := missing / m;
    price := MaxReal(low, goal);
    var sold := Times(n, price);
    assert goal * m == missing;
    assert sold >= missing by { Scale(goal, price, m); }
    hide Times;
    AfterCostsPositive(first + sold, keep, cost, cfg.lotSize);
  }

  // ----- runs of an engine plan -----

  const DIP := Bar(2, 1050.0, 1120.0, 960.0, 980.0, 100_000.0, None)
  const RECOVERY := Bar(3, 1010.0, 1160.0, 1005.0, 1150.0, 100_000.0, None)

  /**
   * The day that reaches TP1 ends below breakeven, and the next one reaches TP2. Judged bar by bar neither is
   * optimistic, but the run books 5600 in shares per lot where every choice of paths ends at 5300.
   */
  lemma RecoveryIsCounted()
    ensures var plan, bars := BuildRiskPlan(AtOneThousand(950.0, StrongBuy), DEFAULT_RISK), [DIP, RECOVERY];
            && !plan.isNoTrade
            && !Optimistic(Walk(plan, 1000.0, 5, bars[..0]), plan, 1000.0, DIP)
            && !Optimistic(Walk(plan, 1000.0, 5, bars[..1]), plan, 1000.0, RECOVERY)
            && Proceeds(ExitLegs(plan, 1000.0, 5, bars)) == 5600.0
            && forall days :: PathsOf(days, bars) ==> Proceeds(PathLegs(plan, 1000.0, 5, days, bars)) == 5300.0
  {
    hide BuildRiskPlan;
    PlanWithStop950(StrongBuy);
    RecoveryOf(BuildRiskPlan(AtOneThousand(950.0, StrongBuy), DEFAULT_RISK));
  }

  lemma RecoveryOf(plan: TradePlan)
    requires plan.slPrice == 950.0 && plan.tp1Price == 1100.0 && plan.tp2Price == 1150.0
    requires plan.totalLots == 5 && plan.tp1Lots == 3 && plan.tp2Lots == 2
    ensures var bars := [DIP, RECOVERY];
            && !Optimistic(Walk(plan, 1000.0, 5, bars[..0]), plan, 1000.0, DIP)
            && !Optimistic(Walk(plan, 1000.0, 5, bars[..1]), plan, 1000.0, RECOVERY)
            && Proceeds(ExitLegs(plan, 1000.0, 5, bars)) == 5600.0
            && forall days :: PathsOf(days, bars) ==> Proceeds(PathLegs(plan, 1000.0, 5, days, bars)) == 5300.0
  {
    hide Value, TotalLots, ExitLegs, PathLegs, BarStep, PathOf, Keeps, Proceeds;
    var f, bars, start := 1000.0, [DIP, RECOVERY], Start(plan, 5);
    assert bars[..0] == [] && bars[..1] == [DIP] && bars[1..] == [RECOVERY];
    assert start == Position(false, false, 950.0, 3, 2, []);
    ProceedsOfNothing(start, 1100.0, 1150.0);
    ProceedsOfNothing(start, 1100.0, f);
    WalkOfOne(plan, f, 5, DIP);
    LowFirstDaysArePaths([RECOVERY]);
    DisputedRunBooks(start, plan, f, DIP, LowFirstDays([RECOVERY]), [RECOVERY]);
    assert BarStep(start, plan, f, DIP).tp1Done by {
      OpenLowHighCloseIsAPath(DIP);
      DisputedDay(start, plan, f, DIP, OpenLowHighClose(DIP));
    }
    RuleFromFirst(start, plan, f, bars);
    LowFirstDaysArePaths(bars);
    RunsInMoney(plan, f, 5, LowFirstDays(bars), bars);
    forall days | PathsOf(days, bars) ensures Proceeds(PathLegs(plan, f, 5, days, bars)) == 5300.0 {
      var followed := PathResult(start, plan, f, days[0], DIP);
      DisputedDay(start, plan, f, DIP, days[0]);
      FlatForever(followed, 5300.0, plan, f, days[1..], [RECOVERY]);
      FlatIsWorth(DaysFrom(followed, plan, f, days[1..], [RECOVERY]), 5300.0, RECOVERY.close);
      RunsInMoney(plan, f, 5, days, bars);
    }
  }

  /** Filled at its trigger that plan never overstates a win, one filled far below its stop can. */
  lemma SafeAndUnsafePlans()
    ensures WinIsSafe(BuildRiskPlan(AtOneThousand(950.0, StrongBuy), DEFAULT_RISK), 1000.0, 5, DEFAULT_RISK)
    ensures !WinIsSafe(BuildRiskPlan(AtOneThousand(970.0, StrongBuy), DEFAULT_RISK), 840.0, 7, DEFAULT_RISK)
  {
    hide BuildRiskPlan;
    PlanWithStop950(StrongBuy);
    PlanWithStop970(StrongBuy);
  }
}
