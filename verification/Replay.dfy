/** One replay: plans decided from the past of each date, filled and exited on the bars after it. */
module Replay {
  import opened Options
  import opened Reals
  import opened Sequences
  import opened RiskEngine
  import opened FillSimulation
  import opened PlanBounds
  import opened MarketData
  import opened Baselines

  /** Draws of the seeded generator for a date. */
  type Generator = Day -> nat -> real

  ghost predicate IsGenerator(gen: Generator) {
    forall d :: AreDraws(gen(d))
  }

  /** History the engine may look at when it decides for a date: as of the end of that day. */
  function HistoryFor(fx: Fixture, d: Day): string -> seq<DayBar> {
    symbol => match HistoryAsOf(fx, symbol, EndOf(d)) case None => [] case Some(envelope) => envelope.bars
  }

  function RandomPlans(fx: Fixture, d: Day, n: nat, gen: Generator, cfg: RiskConfig): seq<TradePlan>
    requires cfg.Sizable() && IsGenerator(gen)
  {
    RandomLiquid(UniverseAsOf(fx, d), HistoryFor(fx, d), d, n, gen(d), cfg)
  }

  function VolumePlans(fx: Fixture, d: Day, n: nat, cfg: RiskConfig): seq<TradePlan>
    requires cfg.Sizable()
  {
    VolumeOnly(UniverseAsOf(fx, d), HistoryFor(fx, d), d, n, cfg)
  }

  // ----- decisions see only the past -----

  lemma {:induction false} SameBarsSameEntries(fx: Fixture, fx': Fixture, symbols: seq<string>, d: Day)
    requires forall symbol :: BarsUpTo(fx, symbol, d) == BarsUpTo(fx', symbol, d)
    ensures UniverseOf(fx, symbols, d) == UniverseOf(fx', symbols, d)
    decreases |symbols|
  {
    if symbols != [] { SameBarsSameEntries(fx, fx', symbols[1..], d); }
  }

  /** A symbol without enough history is in no universe, so those not traded yet may be left out of the list. */
  lemma {:induction false} UnlistedAreSkipped(fx: Fixture, part: Fixture, d: Day)
    requires DistinctSymbols(part)
    requires forall k :: 0 <= k < |part| && UpTo(part[k].bars, d) == [] ==> BarsUpTo(fx, part[k].symbol, d) == []
    ensures UniverseOf(fx, Symbols(part), d) == UniverseOf(fx, Symbols(Listed(part, d)), d)
    decreases |part|
  {
    if part != [] {
      hide BarsUpTo, UniverseOf, EntryFor, Symbols, Listed;
      var init, last := part[..|part| - 1], part[|part| - 1];
      var kept := Listed(init, d);
      assert part == init + [last] && !Mentions(init, last.symbol);
      UnlistedAreSkipped(fx, init, d);
      UnmentionedHasNoBars(init, last.symbol, d);
      OneMoreEntry(init, last, last.symbol, d);
      OneMoreEntry(kept, last, last.symbol, d);
      UniverseAppends(fx, Symbols(init), last.symbol, d);
      UniverseAppends(fx, Symbols(kept), last.symbol, d);
      if UpTo(last.bars, d) == [] {
        NoHistoryNoEntry(fx, last.symbol, d);
        assert UniverseOf(fx, Symbols(init), d) + [] == UniverseOf(fx, Symbols(init), d);
      }
    } else {
      assert Listed(part, d) == part;
    }
  }

  lemma NoHistoryNoEntry(fx: Fixture, symbol: string, d: Day)
    requires BarsUpTo(fx, symbol, d) == []
    ensures EntryFor(fx, symbol, d) == []
  {
  }

  lemma {:induction false} LastEntryServes(fx: Fixture, k: nat, d: Day)
    requires DistinctSymbols(fx) && k < |fx|
    ensures BarsUpTo(fx, fx[k].symbol, d) == SortByDate(UpTo(fx[k].bars, d))
    decreases |fx|
  {
    if k == |fx| - 1 {
      CutCommutesWithSort(fx[k].bars, d);
    } else {
      LastEntryServes(fx[..|fx| - 1], k, d);
    }
  }

  lemma SamePastSameUniverse(fx: Fixture, fx': Fixture, d: Day)
    requires SamePast(fx, fx', d)
    ensures UniverseAsOf(fx, d) == UniverseAsOf(fx', d)
  {
    hide BarsUpTo, UniverseOf, Symbols;
    forall symbol ensures BarsUpTo(fx, symbol, d) == BarsUpTo(fx', symbol, d) {
      SamePastSameBars(fx, fx', symbol, d);
    }
    SameBarsSameEntries(fx, fx', Symbols(fx'), d);
    if SameEntries(fx, fx', d) {
      SameEntriesSameBars(fx, fx', "", d);
    } else {
      UniverseOfListed(fx, d);
      UniverseOfListed(fx', d);
      SameEntriesSameBars(Listed(fx, d), Listed(fx', d), "", d);
      SameBarsSameEntries(fx, fx', Symbols(Listed(fx', d)), d);
    }
  }

  lemma UniverseOfListed(fx: Fixture, d: Day)
    requires DistinctSymbols(fx)
    ensures UniverseAsOf(fx, d) == UniverseOf(fx, Symbols(Listed(fx, d)), d)
  {
    hide BarsUpTo, UniverseOf, Symbols;
    forall k | 0 <= k < |fx| && UpTo(fx[k].bars, d) == [] ensures BarsUpTo(fx, fx[k].symbol, d) == [] {
      LastEntryServes(fx, k, d);
    }
    UnlistedAreSkipped(fx, fx, d);
  }

  lemma {:induction false} SameHistorySamePlans(
    picked: seq<UniverseEntry>, h: string -> seq<DayBar>, h': string -> seq<DayBar>, d: Day, cfg: RiskConfig)
    requires cfg.Sizable() && forall symbol :: h(symbol) == h'(symbol)
    ensures PlansFor(picked, h, d, cfg) == PlansFor(picked, h', d, cfg)
    decreases |picked|
  {
    hide PlanFromHistory;
    if picked != [] { SameHistorySamePlans(picked[1..], h, h', d, cfg); }
  }

  /** Non-interference: fixtures with the same past up to a date lead both baselines to the same plans for it. */
  lemma DecisionsSeeOnlyThePast(fx: Fixture, fx': Fixture, d: Day, n: nat, gen: Generator, cfg: RiskConfig)
    requires cfg.Sizable() && IsGenerator(gen) && SamePast(fx, fx', d)
    ensures RandomPlans(fx, d, n, gen, cfg) == RandomPlans(fx', d, n, gen, cfg)
    ensures VolumePlans(fx, d, n, cfg) == VolumePlans(fx', d, n, cfg)
  {
    hide PlansFor, UniverseOf;
    SamePastSameUniverse(fx, fx', d);
    var h, h' := HistoryFor(fx, d), HistoryFor(fx', d);
    forall symbol ensures h(symbol) == h'(symbol) {
      SamePastSameBars(fx, fx', symbol, d);
    }
    SameHistorySamePlans(PickN(LiquidCandidates(UniverseAsOf(fx, d)), n, gen(d), 0), h, h', d, cfg);
    SameHistorySamePlans(Slice(RankedByVolume(LiquidCandidates(UniverseAsOf(fx, d))), n), h, h', d, cfg);
  }

  // ----- simulation happens after the decision -----

  datatype EntryConvention = NextSession | SameBar

  function ToOption(bars: seq<DayBar>): Option<Bar> {
    if bars == [] then None else Some(bars[0])
  }

  function OutcomeFor(
      fx: Fixture, plan: TradePlan, convention: EntryConvention, opts: SimulationOptions, cfg: RiskConfig): TradeOutcome
    requires cfg.lotSize > 0.0
  {
    match convention
    case SameBar =>
      var bar := BarOn(fx, plan.symbol, plan.tradingDate);
      Outcome(plan, if bar.None? then None else Some(bar.value),
              SimulationBars(fx, plan.symbol, plan.tradingDate, opts.maxHoldingBars), cfg, opts)
    case NextSession =>
      var after := SimulationBars(fx, plan.symbol, plan.tradingDate, opts.maxHoldingBars + 1);
      Outcome(plan, ToOption(after), if after == [] then [] else after[1..], cfg, opts)
  }

  method SimulateForDate(
      fx: Fixture, plans: seq<TradePlan>, convention: EntryConvention, opts: SimulationOptions, cfg: RiskConfig)
    returns (outcomes: seq<TradeOutcome>)
    requires cfg.lotSize > 0.0
    ensures |outcomes| == |plans|
    ensures forall i :: 0 <= i < |plans| ==> outcomes[i] == OutcomeFor(fx, plans[i], convention, opts, cfg)
  {
    hide Outcome, SimulationBars, BarOn;
    outcomes := [];
    for i := 0 to |plans|
      invariant |outcomes| == i
      invariant forall k :: 0 <= k < i ==> outcomes[k] == OutcomeFor(fx, plans[k], convention, opts, cfg)
    {
      var plan := plans[i];
      var outcome;
      if convention.SameBar? {
        var entryBar := BarOn(fx, plan.symbol, plan.tradingDate);
        var bars := SimulationBars(fx, plan.symbol, plan.tradingDate, opts.maxHoldingBars);
        outcome := SimulateTradePlan(plan, if entryBar.None? then None else Some(entryBar.value), bars, cfg, opts);
      } else {
        var after := SimulationBars(fx, plan.symbol, plan.tradingDate, opts.maxHoldingBars + 1);
        outcome := SimulateTradePlan(plan, ToOption(after), if after == [] then [] else after[1..], cfg, opts);
      }
      outcomes := outcomes + [outcome];
    }
  }

  predicate DatedIn(leg: ExitLeg, bars: seq<Bar>) {
    exists k :: 0 <= k < |bars| && bars[k].date == leg.date
  }

  lemma DatedLater(leg: ExitLeg, bars: seq<Bar>, b: Bar)
    ensures DatedIn(leg, bars) || leg.date == b.date ==> DatedIn(leg, bars + [b])
  {
    if k :| 0 <= k < |bars| && bars[k].date == leg.date { assert (bars + [b])[k].date == leg.date; }
    assert (bars + [b])[|bars|] == b;
  }

  /** Later legs are added behind earlier ones and carry this date. */
  predicate GrowsOn(legs: seq<ExitLeg>, more: seq<ExitLeg>, date: Day) {
    |legs| <= |more| && forall k :: 0 <= k < |more| ==> if k < |legs| then more[k] == legs[k] else more[k].date == date
  }

  lemma OrdersGrow(legs: seq<ExitLeg>, p: Position, f: real, price: real, date: Day, gapped: bool)
    requires GrowsOn(legs, p.legs, date)
    ensures GrowsOn(legs, Liquidate(p, price, date, StopLoss, gapped).legs, date)
    ensures GrowsOn(legs, TakeTp1(p, f, price, date, gapped).legs, date)
    ensures GrowsOn(legs, TakeTp2(p, price, date, gapped).legs, date)
  {
  }

  lemma NewLegsCarryTheBarsDate(p: Position, plan: TradePlan, f: real, b: Bar)
    ensures GrowsOn(p.legs, BarStep(p, plan, f, b).legs, b.date)
  {
    assert GrowsOn(p.legs, p.legs, b.date);
    hide GrowsOn, Liquidate, TakeTp1, TakeTp2;
    forall q: Position, price, gapped | GrowsOn(p.legs, q.legs, b.date)
      ensures GrowsOn(p.legs, Liquidate(q, price, b.date, StopLoss, gapped).legs, b.date)
      ensures GrowsOn(p.legs, TakeTp1(q, f, price, b.date, gapped).legs, b.date)
      ensures GrowsOn(p.legs, TakeTp2(q, price, b.date, gapped).legs, b.date)
    {
      OrdersGrow(p.legs, q, f, price, b.date, gapped);
    }
  }

  /** Whatever the plan, every exit is dated to a bar of the walk. */
  lemma {:induction false} WalkDates(plan: TradePlan, f: real, filled: nat, bars: seq<Bar>)
    ensures forall k :: 0 <= k < |Walk(plan, f, filled, bars).legs| ==>
            DatedIn(Walk(plan, f, filled, bars).legs[k], bars)
    decreases |bars|
  {
    hide BarStep, DatedIn, Start;
    if bars == [] {
      StartsEmpty(plan, filled);
    } else {
      var init, b := bars[..|bars| - 1], bars[|bars| - 1];
      assert bars == init + [b];
      WalkDates(plan, f, filled, init);
      var p, q := Walk(plan, f, filled, init), Walk(plan, f, filled, bars);
      NewLegsCarryTheBarsDate(p, plan, f, b);
      forall k | 0 <= k < |q.legs| ensures DatedIn(q.legs[k], bars) {
        DatedLater(q.legs[k], init, b);
      }
    }
  }

  lemma StartsEmpty(plan: TradePlan, filled: nat)
    ensures Start(plan, filled).legs == []
  {
  }

  lemma ExitDates(plan: TradePlan, f: real, filled: nat, bars: seq<Bar>)
    ensures forall k :: 0 <= k < |ExitLegs(plan, f, filled, bars)| ==> DatedIn(ExitLegs(plan, f, filled, bars)[k], bars)
  {
    WalkDates(plan, f, filled, bars);
    var legs := ExitLegs(plan, f, filled, bars);
    hide Walk;
    if legs != [] && bars != [] && legs[|legs| - 1].date == bars[|bars| - 1].date {
      assert DatedIn(legs[|legs| - 1], bars);
    }
  }

  predicate DistinctDates(bars: seq<DayBar>) {
    forall i, j :: 0 <= i < j < |bars| ==> bars[i].date != bars[j].date
  }

  /** In date order the later bars are the tail of the series. */
  lemma {:induction false} LaterIsTail(bars: seq<DayBar>, d: Day) returns (k: nat)
    requires InDateOrder(bars)
    ensures k <= |bars| && Later(bars, d) == bars[k..]
    ensures (forall j :: 0 <= j < k ==> bars[j].date <= d) && forall j :: k <= j < |bars| ==> bars[j].date > d
    decreases |bars|
  {
    if bars == [] {
      k := 0;
    } else if bars[0].date > d {
      k := 0;
      AllLater(bars, d);
    } else {
      var tail := LaterIsTail(bars[1..], d);
      k := tail + 1;
      forall j | 1 <= j < |bars| ensures j < k ==> bars[j].date <= d ensures k <= j ==> bars[j].date > d {
        assert bars[j] == bars[1..][j - 1];
      }
    }
  }

  lemma {:induction false} AllLater(bars: seq<DayBar>, d: Day)
    requires forall j :: 0 <= j < |bars| ==> bars[j].date > d
    ensures Later(bars, d) == bars
    decreases |bars|
  {
    if bars != [] { AllLater(bars[1..], d); }
  }

  /**
   * Under the next-session convention a fill is later than the decision and no exit is before the fill; with one bar a
   * day, all are later.
   */
  lemma TradesFollowDecisions(fx: Fixture, plan: TradePlan, opts: SimulationOptions, cfg: RiskConfig)
    requires cfg.lotSize > 0.0
    ensures var outcome := OutcomeFor(fx, plan, NextSession, opts, cfg);
            outcome.fill.Filled? ==>
              && outcome.fill.date > plan.tradingDate
              && (forall k :: 0 <= k < |outcome.exits| ==> outcome.exits[k].date >= outcome.fill.date)
              && (BarsOf(fx, plan.symbol).Some? && DistinctDates(BarsOf(fx, plan.symbol).value) ==>
                    forall k :: 0 <= k < |outcome.exits| ==> outcome.exits[k].date > outcome.fill.date)
  {
    hide ExitLegs, NetPnl, GrossPnl, SellFees, ScaledLoss, FillableLots, VolumeShare, BuyFee, Slippage, Later;
    var outcome := OutcomeFor(fx, plan, NextSession, opts, cfg);
    if outcome.fill.Filled? {
      var all := BarsOf(fx, plan.symbol).value;
      BarsComeSorted(fx, plan.symbol);
      var tail := LaterIsTail(all, plan.tradingDate);
      var after := SimulationBars(fx, plan.symbol, plan.tradingDate, opts.maxHoldingBars + 1);
      var walk: seq<Bar> := Slice(after[1..], opts.maxHoldingBars);
      ExitDates(plan, outcome.fill.price, outcome.fill.lots, walk);
      forall k | 0 <= k < |outcome.exits|
        ensures outcome.exits[k].date >= after[0].date && (DistinctDates(all) ==> outcome.exits[k].date > after[0].date)
      {
        assert DatedIn(outcome.exits[k], walk);
        var j :| 0 <= j < |walk| && walk[j].date == outcome.exits[k].date;
        assert walk[j] == after[j + 1] == all[tail + j + 1] && after[0] == all[tail];
      }
    }
  }

  /** The bars of a symbol in date order, from the first one after a date on. */
  lemma TailAfter(fx: Fixture, symbol: string, d: Day) returns (all: seq<DayBar>, k: nat)
    ensures all == if BarsOf(fx, symbol).Some? then BarsOf(fx, symbol).value else []
    ensures k <= |all| && (forall j :: 0 <= j < k ==> all[j].date <= d)
    ensures forall j :: k <= j < |all| ==> all[j].date > d
    ensures forall n: int :: SimulationBars(fx, symbol, d, n) == Slice(all[k..], n)
  {
    hide SortByDate, Later;
    if BarsOf(fx, symbol).Some? {
      all := BarsOf(fx, symbol).value;
      BarsComeSorted(fx, symbol);
      k := LaterIsTail(all, d);
    } else {
      all, k := [], 0;
    }
  }

  /**
   * Under the next-session convention the entry is tried on the first bar after the decision, whichever day that is,
   * and the walk goes on with the bars behind it; under the same-bar one the entry is tried on the day of the decision.
   */
  lemma ConventionsChooseTheBars(fx: Fixture, plan: TradePlan, opts: SimulationOptions, cfg: RiskConfig)
      returns (all: seq<DayBar>, k: nat)
    requires cfg.lotSize > 0.0 && opts.maxHoldingBars >= 0
    ensures all == if BarsOf(fx, plan.symbol).Some? then BarsOf(fx, plan.symbol).value else []
    ensures k <= |all| && (forall j :: 0 <= j < k ==> all[j].date <= plan.tradingDate)
    ensures forall j :: k <= j < |all| ==> all[j].date > plan.tradingDate
    ensures OutcomeFor(fx, plan, NextSession, opts, cfg) ==
            if k == |all| then Outcome(plan, None, [], cfg, opts)
            else Outcome(plan, Some(all[k]), all[k + 1..], cfg, opts)
    ensures OutcomeFor(fx, plan, SameBar, opts, cfg) ==
            match FirstOn(all, plan.tradingDate)
            case None => Outcome(plan, None, all[k..], cfg, opts)
            case Some(b) => Outcome(plan, Some(b), all[k..], cfg, opts)
  {
    hide ExitLegs, NetPnl, GrossPnl, SellFees, ScaledLoss, SimulateEntry, BuyFee, Slippage, SimulationBars, FirstOn;
    all, k := TailAfter(fx, plan.symbol, plan.tradingDate);
    var n := opts.maxHoldingBars;
    var tail := all[k..];
    var after := SimulationBars(fx, plan.symbol, plan.tradingDate, n + 1);
    SliceOfSlice(tail, n);
    assert tail != [] ==> tail[1..] == all[k + 1..];
    hide Slice;
    assert FirstOn([], plan.tradingDate) == None by { NoneOnNoDays(plan.tradingDate); }
  }

  lemma NoneOnNoDays(d: Day)
    ensures FirstOn([], d) == None
  {
  }

  /** The same-bar convention fills on the very day whose close decided the plan. */
  lemma SameBarFillsOnDecisionDay(fx: Fixture, plan: TradePlan, opts: SimulationOptions, cfg: RiskConfig)
    requires cfg.lotSize > 0.0
    ensures var outcome := OutcomeFor(fx, plan, SameBar, opts, cfg);
            outcome.fill.Filled? ==> outcome.fill.date == plan.tradingDate
  {
    hide ExitLegs, NetPnl, GrossPnl, SellFees, ScaledLoss, FillableLots, VolumeShare, BuyFee, Slippage, SimulationBars;
    if BarsOf(fx, plan.symbol).Some? { FirstOnIsOnDate(BarsOf(fx, plan.symbol).value, plan.tradingDate); }
  }

  lemma {:induction false} FirstOnIsOnDate(bars: seq<DayBar>, d: Day)
    ensures FirstOn(bars, d).Some? ==> FirstOn(bars, d).value.date == d
    decreases |bars|
  {
    if bars != [] { FirstOnIsOnDate(bars[1..], d); }
  }

  lemma {:induction false} BarsComeSorted(fx: Fixture, symbol: string)
    ensures BarsOf(fx, symbol).Some? ==> InDateOrder(BarsOf(fx, symbol).value)
    decreases |fx|
  {
    if fx != [] {
      SortedInDateOrder(fx[|fx| - 1].bars);
      BarsComeSorted(fx[..|fx| - 1], symbol);
    }
  }

  // ----- a whole replay -----

  ghost predicate Engineered(plan: TradePlan, cfg: RiskConfig)
    requires cfg.Sizable()
  {
    exists input: RiskInput :: input.entryTrigger > 0.0 && plan == BuildRiskPlan(input, cfg)
  }

  lemma {:induction false} BaselinePlansAreEngineered(
      picked: seq<UniverseEntry>, history: string -> seq<DayBar>, d: Day, cfg: RiskConfig)
    requires cfg.Sizable()
    ensures forall k :: 0 <= k < |PlansFor(picked, history, d, cfg)| ==>
            Engineered(PlansFor(picked, history, d, cfg)[k], cfg)
    decreases |picked|
  {
    hide BuildRiskPlan, StopFor;
    if picked != [] {
      BaselinePlansAreEngineered(picked[1..], history, d, cfg);
      var bars := history(picked[0].symbol);
      if bars != [] && PlanFromHistory(picked[0].symbol, d, bars, cfg).Some? {
        var input := RiskInput(picked[0].symbol, d, bars[|bars| - 1].close, StopFor(bars), StrongBuy);
        assert Engineered(BuildRiskPlan(input, cfg), cfg);
      }
    }
  }

  /**
   * What a replayed trade keeps: decided before it is filled, and short of a gapped stop-out never worse than its plan.
   */
  predicate Sound(o: TradeOutcome) {
    o.fill.Filled? ==>
      && o.fill.date > o.plan.tradingDate
      && (!StoppedInAGap(o.exits) ==> o.netRR.Some? && o.netRR.value >= -1.0)
  }

  lemma ReplayedTradeIsSound(fx: Fixture, plan: TradePlan, opts: SimulationOptions, cfg: RiskConfig)
    requires cfg.Sane() && Engineered(plan, cfg)
    ensures Sound(OutcomeFor(fx, plan, NextSession, opts, cfg))
  {
    hide BuildRiskPlan, Outcome, SimulationBars;
    TradesFollowDecisions(fx, plan, opts, cfg);
    var input: RiskInput :| input.entryTrigger > 0.0 && plan == BuildRiskPlan(input, cfg);
    var after := SimulationBars(fx, plan.symbol, plan.tradingDate, opts.maxHoldingBars + 1);
    if after == [] {
      NoBarNoFill(plan, cfg, opts);
    } else {
      PlannedLossBoundsEveryOutcome(input, cfg, after[0], after[1..], opts);
      OutcomeKeepsPlan(plan, Some(after[0]), after[1..], cfg, opts);
    }
  }

  lemma OutcomeKeepsPlan(plan: TradePlan, bar: Option<Bar>, bars: seq<Bar>, cfg: RiskConfig, opts: SimulationOptions)
    requires cfg.lotSize > 0.0
    ensures Outcome(plan, bar, bars, cfg, opts).plan == plan
  {
    hide NetPnl, GrossPnl, SellFees, ScaledLoss, BuyFee, Slippage, ExitLegs;
  }

  lemma NoBarNoFill(plan: TradePlan, cfg: RiskConfig, opts: SimulationOptions)
    requires cfg.lotSize > 0.0
    ensures Outcome(plan, None, [], cfg, opts).fill.NoFill?
  {
  }

  function OutcomesFor(fx: Fixture, plans: seq<TradePlan>, opts: SimulationOptions, cfg: RiskConfig): seq<TradeOutcome>
    requires cfg.lotSize > 0.0
  {
    seq(|plans|, i requires 0 <= i < |plans| => OutcomeFor(fx, plans[i], NextSession, opts, cfg))
  }

  function RandomOutcomes(
      fx: Fixture, dates: seq<Day>, n: nat, gen: Generator, opts: SimulationOptions, cfg: RiskConfig): seq<TradeOutcome>
    requires cfg.Sizable() && IsGenerator(gen)
  {
    if dates == [] then []
    else
      RandomOutcomes(fx, dates[..|dates| - 1], n, gen, opts, cfg)
      + OutcomesFor(fx, RandomPlans(fx, dates[|dates| - 1], n, gen, cfg), opts, cfg)
  }

  function VolumeOutcomes(
      fx: Fixture, dates: seq<Day>, n: nat, opts: SimulationOptions, cfg: RiskConfig): seq<TradeOutcome>
    requires cfg.Sizable()
  {
    if dates == [] then []
    else
      VolumeOutcomes(fx, dates[..|dates| - 1], n, opts, cfg)
      + OutcomesFor(fx, VolumePlans(fx, dates[|dates| - 1], n, cfg), opts, cfg)
  }

  /** These outcomes go on with one for each plan, in order. */
  ghost predicate GoesOnWith(
      after: seq<TradeOutcome>, before: seq<TradeOutcome>, plans: seq<TradePlan>, fx: Fixture, opts: SimulationOptions,
      cfg: RiskConfig)
    requires cfg.lotSize > 0.0
  {
    && |after| == |before| + |plans| && after[..|before|] == before
    && forall i :: 0 <= i < |plans| ==> after[|before| + i] == OutcomeFor(fx, plans[i], NextSession, opts, cfg)
  }

  lemma OutcomesGoOn(
      before: seq<TradeOutcome>, plans: seq<TradePlan>, fx: Fixture, opts: SimulationOptions, cfg: RiskConfig)
    requires cfg.lotSize > 0.0
    ensures GoesOnWith(before + OutcomesFor(fx, plans, opts, cfg), before, plans, fx, opts, cfg)
  {
    hide OutcomeFor;
  }

  /** The trades of a replay are those of its dates, one after the other, each plan of a date traded once, in order. */
  lemma OutcomesByDate(
      fx: Fixture, dates: seq<Day>, d: Day, n: nat, gen: Generator, opts: SimulationOptions, cfg: RiskConfig)
    requires cfg.Sizable() && IsGenerator(gen)
    ensures GoesOnWith(RandomOutcomes(fx, dates + [d], n, gen, opts, cfg), RandomOutcomes(fx, dates, n, gen, opts, cfg),
                       RandomPlans(fx, d, n, gen, cfg), fx, opts, cfg)
    ensures GoesOnWith(VolumeOutcomes(fx, dates + [d], n, opts, cfg), VolumeOutcomes(fx, dates, n, opts, cfg),
                       VolumePlans(fx, d, n, cfg), fx, opts, cfg)
  {
    hide OutcomesFor, GoesOnWith, RandomPlans, VolumePlans;
    assert (dates + [d])[..|dates|] == dates;
    OutcomesGoOn(RandomOutcomes(fx, dates, n, gen, opts, cfg), RandomPlans(fx, d, n, gen, cfg), fx, opts, cfg);
    OutcomesGoOn(VolumeOutcomes(fx, dates, n, opts, cfg), VolumePlans(fx, d, n, cfg), fx, opts, cfg);
  }

  /** The plans of a date are those of a sample of the liquid universe, and of its first by volume. */
  lemma PlansAreOfTheLiquid(fx: Fixture, d: Day, n: nat, gen: Generator, cfg: RiskConfig)
      returns (sample: seq<UniverseEntry>, first: seq<UniverseEntry>)
    requires cfg.Sizable() && IsGenerator(gen)
    ensures var liquid := LiquidCandidates(UniverseAsOf(fx, d));
            && |sample| == |first| == Min(n, |liquid|)
            && multiset(sample) <= multiset(liquid) && multiset(first) <= multiset(liquid)
            && (forall u, v :: u in first && v in multiset(liquid) - multiset(first) ==> u.avgVolume >= v.avgVolume)
    ensures RandomPlans(fx, d, n, gen, cfg) == PlansFor(sample, HistoryFor(fx, d), d, cfg)
    ensures VolumePlans(fx, d, n, cfg) == PlansFor(first, HistoryFor(fx, d), d, cfg)
  {
    hide PickN, PlansFor, LiquidCandidates, UniverseAsOf, HistoryFor, RankedByVolume;
    var liquid := LiquidCandidates(UniverseAsOf(fx, d));
    sample := PickN(liquid, n, gen(d), 0);
    first := Slice(RankedByVolume(liquid), n);
    PickNIsASample(liquid, n, gen(d), 0);
    FirstByVolume(liquid, n);
    var ranked := RankedByVolume(liquid);
    assert ranked == first + ranked[|first|..];
    assert multiset(liquid) - multiset(first) == multiset(ranked[|first|..]);
  }

  lemma EngineeredPlansTradeSoundly(fx: Fixture, plans: seq<TradePlan>, opts: SimulationOptions, cfg: RiskConfig)
    requires cfg.Sane() && forall k :: 0 <= k < |plans| ==> Engineered(plans[k], cfg)
    ensures forall k :: 0 <= k < |plans| ==> Sound(OutcomesFor(fx, plans, opts, cfg)[k])
  {
    hide Sound, OutcomeFor, Engineered;
    forall k | 0 <= k < |plans| ensures Sound(OutcomesFor(fx, plans, opts, cfg)[k]) {
      ReplayedTradeIsSound(fx, plans[k], opts, cfg);
    }
  }

  lemma BaselinesTradeSoundly(fx: Fixture, d: Day, n: nat, gen: Generator, opts: SimulationOptions, cfg: RiskConfig)
    requires cfg.Sane() && IsGenerator(gen)
    ensures var plans := RandomPlans(fx, d, n, gen, cfg);
            forall k :: 0 <= k < |plans| ==> Sound(OutcomesFor(fx, plans, opts, cfg)[k])
    ensures var plans := VolumePlans(fx, d, n, cfg);
            forall k :: 0 <= k < |plans| ==> Sound(OutcomesFor(fx, plans, opts, cfg)[k])
  {
    hide Sound, OutcomesFor, PlansFor, Engineered;
    var liquid, h := LiquidCandidates(UniverseAsOf(fx, d)), HistoryFor(fx, d);
    BaselinePlansAreEngineered(PickN(liquid, n, gen(d), 0), h, d, cfg);
    BaselinePlansAreEngineered(Slice(RankedByVolume(liquid), n), h, d, cfg);
    EngineeredPlansTradeSoundly(fx, RandomPlans(fx, d, n, gen, cfg), opts, cfg);
    EngineeredPlansTradeSoundly(fx, VolumePlans(fx, d, n, cfg), opts, cfg);
  }

  /** Every trade of both baselines over any list of dates is sound. */
  method RunBaselines(fx: Fixture, dates: seq<Day>, n: nat, gen: Generator, opts: SimulationOptions, cfg: RiskConfig)
    returns (random: seq<TradeOutcome>, volume: seq<TradeOutcome>)
    requires cfg.Sane() && IsGenerator(gen)
    ensures random == RandomOutcomes(fx, dates, n, gen, opts, cfg) && volume == VolumeOutcomes(fx, dates, n, opts, cfg)
    ensures forall k :: 0 <= k < |random| ==> Sound(random[k])
    ensures forall k :: 0 <= k < |volume| ==> Sound(volume[k])
  {
    hide Sound, OutcomeFor, RandomPlans, VolumePlans;
    random, volume := [], [];
    for i := 0 to |dates|
      invariant random == RandomOutcomes(fx, dates[..i], n, gen, opts, cfg)
      invariant volume == VolumeOutcomes(fx, dates[..i], n, opts, cfg)
      invariant forall k :: 0 <= k < |random| ==> Sound(random[k])
      invariant forall k :: 0 <= k < |volume| ==> Sound(volume[k])
    {
      var d := dates[i];
      assert dates[..i + 1][..i] == dates[..i];
      BaselinesTradeSoundly(fx, d, n, gen, opts, cfg);
      var randomPlans, volumePlans := RandomPlans(fx, d, n, gen, cfg), VolumePlans(fx, d, n, cfg);
      var more := SimulateForDate(fx, randomPlans, NextSession, opts, cfg);
      assert more == OutcomesFor(fx, randomPlans, opts, cfg);
      random := random + more;
      more := SimulateForDate(fx, volumePlans, NextSession, opts, cfg);
      assert more == OutcomesFor(fx, volumePlans, opts, cfg);
      volume := volume + more;
    }
    assert dates[..|dates|] == dates;
  }
}
