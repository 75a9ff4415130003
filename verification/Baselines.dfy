/** Candidate selection without broker data: a liquidity floor, then a random pick or a volume ranking. */
module Baselines {
  import opened Options
  import opened Reals
  import opened Sequences
  import opened RiskEngine
  import opened MarketData

  const MIN_LIQUID_TURNOVER := 500_000_000.0

  datatype UniverseEntry = UniverseEntry(symbol: string, avgVolume: real, avgTurnover: real, lastClose: real)

  function LastBars(bars: seq<DayBar>, n: nat): seq<DayBar> {
    bars[Max(0, |bars| - n)..]
  }

  function TotalVolume(bars: seq<DayBar>): real {
    if bars == [] then 0.0 else bars[0].volume + TotalVolume(bars[1..])
  }

  function TotalTurnover(bars: seq<DayBar>): real {
    if bars == [] then 0.0
    else (if bars[0].turnover.Some? then bars[0].turnover.value else 0.0) + TotalTurnover(bars[1..])
  }

  /** A symbol with at least five visible bars is in, with averages over its last twenty. */
  function EntryFor(fx: Fixture, symbol: string, d: Day): seq<UniverseEntry> {
    var bars := BarsUpTo(fx, symbol, d);
    if |bars| < 5 then []
    else
      var window := LastBars(bars, 20);
      var n := |window| as real;
      [UniverseEntry(symbol, TotalVolume(window) / n, TotalTurnover(window) / n, window[|window| - 1].close)]
  }

  function UniverseOf(fx: Fixture, symbols: seq<string>, d: Day): seq<UniverseEntry> {
    if symbols == [] then [] else EntryFor(fx, symbols[0], d) + UniverseOf(fx, symbols[1..], d)
  }

  function UniverseAsOf(fx: Fixture, d: Day): seq<UniverseEntry> {
    UniverseOf(fx, Symbols(fx), d)
  }

  function LiquidCandidates(universe: seq<UniverseEntry>): seq<UniverseEntry> {
    if universe == [] then []
    else
      (if universe[0].avgTurnover >= MIN_LIQUID_TURNOVER then [universe[0]] else []) + LiquidCandidates(universe[1..])
  }

  // ----- stops and plans from price history alone -----

  function LowestLow(bars: seq<DayBar>): real
    requires bars != []
  {
    if |bars| == 1 then bars[0].low else MinReal(bars[0].low, LowestLow(bars[1..]))
  }

  /** The recent five-day low. */
  function StopFor(bars: seq<DayBar>): real
    requires bars != []
  {
    LowestLow(LastBars(bars, 5))
  }

  function PlanFromHistory(symbol: string, d: Day, bars: seq<DayBar>, cfg: RiskConfig): Option<TradePlan>
    requires cfg.Sizable() && bars != []
  {
    var raw, close := StopFor(bars), bars[|bars| - 1].close;
    if raw >= close then None else Some(BuildRiskPlan(RiskInput(symbol, d, close, raw, StrongBuy), cfg))
  }

  lemma {:induction false} LowestIsLow(bars: seq<DayBar>)
    requires bars != []
    ensures forall k :: 0 <= k < |bars| ==> LowestLow(bars) <= bars[k].low
    ensures exists k :: 0 <= k < |bars| && LowestLow(bars) == bars[k].low
    decreases |bars|
  {
    if |bars| > 1 {
      LowestIsLow(bars[1..]);
      var j :| 0 <= j < |bars[1..]| && LowestLow(bars[1..]) == bars[1..][j].low;
      assert bars[j + 1].low == LowestLow(bars[1..]);
      assert forall k :: 1 <= k < |bars| ==> bars[k] == bars[1..][k - 1];
      assert LowestLow(bars) == bars[0].low || LowestLow(bars) == bars[j + 1].low;
    } else {
      assert LowestLow(bars) == bars[0].low;
    }
  }

  /**
   * A plan from history buys at the last close, with its raw stop at the lowest low of the last five bars, if that is
   * lower.
   */
  lemma PlanFromHistoryIff(symbol: string, d: Day, bars: seq<DayBar>, cfg: RiskConfig) returns (low: real)
    requires cfg.Sizable() && bars != []
    ensures forall k :: Max(0, |bars| - 5) <= k < |bars| ==> low <= bars[k].low
    ensures exists k :: Max(0, |bars| - 5) <= k < |bars| && low == bars[k].low
    ensures var plan, close := PlanFromHistory(symbol, d, bars, cfg), bars[|bars| - 1].close;
            && (plan.Some? <==> low < close)
            && (plan.Some? ==> plan.value == BuildRiskPlan(RiskInput(symbol, d, close, low, StrongBuy), cfg))
  {
    hide BuildRiskPlan, LowestLow;
    var recent, from := LastBars(bars, 5), Max(0, |bars| - 5);
    low := LowestLow(recent);
    LowestIsLow(recent);
    assert forall k :: from <= k < |bars| ==> bars[k] == recent[k - from];
    var j :| 0 <= j < |recent| && low == recent[j].low;
    assert bars[from + j].low == low;
  }

  // ----- the universe -----

  /** Totals add up bar by bar. */
  lemma {:induction false} TotalsAppend(bars: seq<DayBar>, b: DayBar)
    ensures TotalVolume(bars + [b]) == TotalVolume(bars) + b.volume
    ensures TotalTurnover(bars + [b]) == TotalTurnover(bars) + if b.turnover.Some? then b.turnover.value else 0.0
    decreases |bars|
  {
    if bars == [] {
      assert bars + [b] == [b] && [b][1..] == [];
    } else {
      assert (bars + [b])[1..] == bars[1..] + [b];
      TotalsAppend(bars[1..], b);
    }
  }

  /**
   * A symbol is in the universe from its fifth visible bar on, with averages over at most twenty of them, the latest.
   */
  lemma EntryIsOfRecentBars(fx: Fixture, symbol: string, d: Day)
    ensures var bars, entry := BarsUpTo(fx, symbol, d), EntryFor(fx, symbol, d);
            if |bars| < 5 then entry == []
            else
              var n := Min(20, |bars|);
              var window := bars[|bars| - n..];
              && |entry| == 1 && entry[0].symbol == symbol && entry[0].lastClose == bars[|bars| - 1].close
              && Product(entry[0].avgVolume, n as real) == TotalVolume(window)
              && Product(entry[0].avgTurnover, n as real) == TotalTurnover(window)
  {
    var bars := BarsUpTo(fx, symbol, d);
    if |bars| >= 5 {
      var n := Min(20, |bars|);
      var window := bars[|bars| - n..];
      assert window == LastBars(bars, 20);
      ProductOfQuotient(TotalVolume(window), n as real);
      ProductOfQuotient(TotalTurnover(window), n as real);
      hide Product;
    }
  }

  /** The universe goes through the symbols once, in order, and takes up the entry of each. */
  lemma {:induction false} UniverseAppends(fx: Fixture, symbols: seq<string>, symbol: string, d: Day)
    ensures UniverseOf(fx, symbols + [symbol], d) == UniverseOf(fx, symbols, d) + EntryFor(fx, symbol, d)
    decreases |symbols|
  {
    hide EntryFor;
    if symbols == [] {
      assert symbols + [symbol] == [symbol] && [symbol][1..] == [];
      assert EntryFor(fx, symbol, d) + [] == EntryFor(fx, symbol, d);
    } else {
      assert (symbols + [symbol])[1..] == symbols[1..] + [symbol] && (symbols + [symbol])[0] == symbols[0];
      UniverseAppends(fx, symbols[1..], symbol, d);
    }
  }

  /** Who is in the universe: the entries of the symbols given, whose bars are enough. */
  lemma UniverseIsOfTheSymbols(fx: Fixture, d: Day, u: UniverseEntry)
    ensures u in UniverseAsOf(fx, d) <==> exists symbol :: Mentions(fx, symbol) && u in EntryFor(fx, symbol, d)
  {
    hide UniverseOf, EntryFor, Mentions, Symbols;
    InUniverseIff(fx, Symbols(fx), d, u);
    SymbolsAreThoseMentioned(fx);
  }

  lemma {:induction false} InUniverseIff(fx: Fixture, symbols: seq<string>, d: Day, u: UniverseEntry)
    ensures u in UniverseOf(fx, symbols, d) <==> exists symbol :: symbol in symbols && u in EntryFor(fx, symbol, d)
    decreases |symbols|
  {
    hide EntryFor;
    if symbols != [] {
      var n := |symbols| - 1;
      var init, last := symbols[..n], symbols[n];
      assert symbols == init + [last];
      InUniverseIff(fx, init, d, u);
      UniverseAppends(fx, init, last, d);
    }
  }

  /** The floor lets through, in order, who turns over at least as much. */
  lemma {:induction false} LiquidAppend(universe: seq<UniverseEntry>, u: UniverseEntry)
    ensures LiquidCandidates(universe + [u])
            == LiquidCandidates(universe) + if u.avgTurnover >= 500_000_000.0 then [u] else []
    decreases |universe|
  {
    if universe == [] {
      assert universe + [u] == [u] && [u][1..] == [];
    } else {
      var head := if universe[0].avgTurnover >= MIN_LIQUID_TURNOVER then [universe[0]] else [];
      var last := if u.avgTurnover >= 500_000_000.0 then [u] else [];
      assert (universe + [u])[1..] == universe[1..] + [u] && (universe + [u])[0] == universe[0];
      LiquidAppend(universe[1..], u);
      assert head + (LiquidCandidates(universe[1..]) + last) == head + LiquidCandidates(universe[1..]) + last;
    }
  }

  lemma {:induction false} LiquidAreLiquid(universe: seq<UniverseEntry>)
    ensures forall u :: u in LiquidCandidates(universe) <==> u in universe && u.avgTurnover >= 500_000_000.0
    decreases |universe|
  {
    if universe != [] {
      var n := |universe| - 1;
      LiquidAreLiquid(universe[..n]);
      LiquidAppend(universe[..n], universe[n]);
      assert universe == universe[..n] + [universe[n]];
      hide LiquidCandidates;
    }
  }

  // ----- the two selections -----

  /** Draws in [0, 1), as the seeded generator gives them. */
  ghost predicate AreDraws(draws: nat -> real) {
    forall k: nat :: 0.0 <= draws(k) < 1.0
  }

  function DrawnIndex(draw: real, size: nat): int {
    (draw * size as real).Floor
  }

  lemma DrawnIndexInRange(draw: real, size: nat)
    requires 0.0 <= draw < 1.0 && size > 0
    ensures 0 <= DrawnIndex(draw, size) < size
  {
    var whole := size as real;
    var drawn := draw * whole;
    assert 0.0 <= drawn by { Scale(0.0, draw, whole); }
    assert drawn < whole by { ScaleStrict(draw, 1.0, whole); }
  }

  /** Repeatedly take one out of the pool at a drawn index. */
  function PickN<T>(pool: seq<T>, n: nat, draws: nat -> real, k: nat): seq<T>
    requires AreDraws(draws)
    decreases n
  {
    if pool == [] || n == 0 then []
    else
      DrawnIndexInRange(draws(k), |pool|);
      var i := DrawnIndex(draws(k), |pool|);
      [pool[i]] + PickN(pool[..i] + pool[i + 1..], n - 1, draws, k + 1)
  }

  /** A pick is without replacement and as large as asked for, or everything. */
  lemma {:induction false} PickNIsASample<T>(pool: seq<T>, n: nat, draws: nat -> real, k: nat)
    requires AreDraws(draws)
    ensures var picked := PickN(pool, n, draws, k);
            |picked| == Min(n, |pool|) && multiset(picked) <= multiset(pool)
    decreases n
  {
    if pool != [] && n > 0 {
      DrawnIndexInRange(draws(k), |pool|);
      var i := DrawnIndex(draws(k), |pool|);
      PickNIsASample(pool[..i] + pool[i + 1..], n - 1, draws, k + 1);
      assert pool == pool[..i] + [pool[i]] + pool[i + 1..];
    }
  }

  lemma {:induction false} AgreeingDraws<T>(pool: seq<T>, n: nat, draws: nat -> real, draws': nat -> real, k: nat)
    requires AreDraws(draws) && AreDraws(draws') && forall m: nat :: k <= m ==> draws(m) == draws'(m)
    ensures PickN(pool, n, draws, k) == PickN(pool, n, draws', k)
    decreases n
  {
    if pool != [] && n > 0 {
      DrawnIndexInRange(draws(k), |pool|);
      var i := DrawnIndex(draws(k), |pool|);
      AgreeingDraws(pool[..i] + pool[i + 1..], n - 1, draws, draws', k + 1);
    }
  }

  lemma EveryIndexCanBeDrawn(i: nat, size: nat) returns (draw: real)
    requires i < size
    ensures 0.0 <= draw < 1.0 && DrawnIndex(draw, size) == i
  {
    var w := size as real;
    draw := i as real / w;
    assert draw * w == i as real;
    if draw < 0.0 { ScaleStrict(draw, 0.0, w); }
    if draw >= 1.0 { Scale(1.0, draw, w); }
  }

  lemma PlaceInPool<T>(pool: seq<T>, sample: seq<T>) returns (i: nat)
    requires multiset(sample) <= multiset(pool) && sample != []
    ensures i < |pool| && pool[i] == sample[0] && multiset(sample[1..]) <= multiset(pool[..i] + pool[i + 1..])
  {
    assert sample[0] in sample;
    InLarger(sample[0], sample, pool);
    i :| 0 <= i < |pool| && pool[i] == sample[0];
    RestFits(pool, i, sample);
  }

  lemma RestFits<T>(pool: seq<T>, i: nat, sample: seq<T>)
    requires multiset(sample) <= multiset(pool) && sample != [] && i < |pool| && pool[i] == sample[0]
    ensures multiset(sample[1..]) <= multiset(pool[..i] + pool[i + 1..])
  {
    OneOut(pool, i);
    HeadOut(sample);
    WithoutBoth(multiset(sample), multiset(pool), sample[0]);
  }

  lemma HeadOut<T>(s: seq<T>)
    requires s != []
    ensures multiset(s[1..]) == multiset(s) - multiset{s[0]}
  {
    assert s == [s[0]] + s[1..];
  }

  lemma InLarger<T>(x: T, s: seq<T>, t: seq<T>)
    requires multiset(s) <= multiset(t) && x in s
    ensures x in t
  {
    assert x in multiset(s) && x in multiset(t);
  }

  lemma WithoutBoth<T>(a: multiset<T>, b: multiset<T>, x: T)
    requires a <= b
    ensures a - multiset{x} <= b - multiset{x}
  {
  }

  lemma OneOut<T>(s: seq<T>, i: nat)
    requires i < |s|
    ensures multiset(s[..i] + s[i + 1..]) == multiset(s) - multiset{s[i]}
  {
    assert s == s[..i] + [s[i]] + s[i + 1..];
  }

  /** No sample is out of reach: some draws pick it, in its order. */
  lemma {:induction false} EverySampleCanBePicked<T>(
      pool: seq<T>, n: nat, sample: seq<T>, k: nat) returns (draws: nat -> real)
    requires multiset(sample) <= multiset(pool) && |sample| == Min(n, |pool|)
    ensures AreDraws(draws) && PickN(pool, n, draws, k) == sample
    decreases n
  {
    hide PickN;
    if pool == [] || n == 0 {
      draws := (m: nat) => 0.0;
      assert sample == [];
      NothingLeftToPick(pool, n, draws, k);
    } else {
      hide AreDraws;
      var i := PlaceInPool(pool, sample);
      var rest := pool[..i] + pool[i + 1..];
      var later := EverySampleCanBePicked(rest, n - 1, sample[1..], k + 1);
      var draw := EveryIndexCanBeDrawn(i, |pool|);
      draws := DrawnFirst(draw, later, k);
      DrawnFirstPicks(pool, n, i, draw, later, k);
      assert sample == [sample[0]] + sample[1..];
    }
  }

  function DrawnFirst(draw: real, later: nat -> real, k: nat): nat -> real {
    (m: nat) => if m == k then draw else later(m)
  }

  lemma DrawnFirstPicks<T>(pool: seq<T>, n: nat, i: nat, draw: real, later: nat -> real, k: nat)
    requires AreDraws(later) && 0.0 <= draw < 1.0 && n > 0 && i < |pool| && DrawnIndex(draw, |pool|) == i
    ensures AreDraws(DrawnFirst(draw, later, k))
    ensures PickN(pool, n, DrawnFirst(draw, later, k), k)
            == [pool[i]] + PickN(pool[..i] + pool[i + 1..], n - 1, later, k + 1)
  {
    hide DrawnIndex;
    var draws := DrawnFirst(draw, later, k);
    assert AreDraws(draws);
    PickOneMore(pool, n, draws, k);
    AgreeingDraws(pool[..i] + pool[i + 1..], n - 1, draws, later, k + 1);
  }

  method Pick<T>(items: seq<T>, n: nat, draws: nat -> real) returns (picked: seq<T>)
    requires AreDraws(draws)
    ensures picked == PickN(items, n, draws, 0)
  {
    hide DrawnIndex, PickN, AreDraws;
    var pool := items;
    assert [] + PickN(items, n, draws, 0) == PickN(items, n, draws, 0);
    picked := [];
    while |pool| > 0 && |picked| < n
      invariant |picked| <= n
      invariant picked + PickN(pool, n - |picked|, draws, |picked|) == PickN(items, n, draws, 0)
      decreases n - |picked|
    {
      PickOneMore(pool, n - |picked|, draws, |picked|);
      var i := DrawnIndex(draws(|picked|), |pool|);
      var item, rest := pool[i], pool[..i] + pool[i + 1..];
      assert picked + ([item] + PickN(rest, n - |picked| - 1, draws, |picked| + 1))
          == picked + [item] + PickN(rest, n - |picked| - 1, draws, |picked| + 1);
      picked, pool := picked + [item], rest;
    }
    NothingLeftToPick(pool, n - |picked|, draws, |picked|);
  }

  lemma PickOneMore<T>(pool: seq<T>, n: nat, draws: nat -> real, k: nat)
    requires AreDraws(draws) && pool != [] && n > 0
    ensures var i := DrawnIndex(draws(k), |pool|);
            0 <= i < |pool|
                && PickN(pool, n, draws, k) == [pool[i]] + PickN(pool[..i] + pool[i + 1..], n - 1, draws, k + 1)
  {
    DrawnIndexInRange(draws(k), |pool|);
  }

  lemma NothingLeftToPick<T>(pool: seq<T>, n: nat, draws: nat -> real, k: nat)
    requires AreDraws(draws) && (pool == [] || n == 0)
    ensures PickN(pool, n, draws, k) == []
  {
  }

  predicate HigherVolume(a: UniverseEntry, b: UniverseEntry) {
    a.avgVolume > b.avgVolume
  }

  function RankedByVolume(universe: seq<UniverseEntry>): seq<UniverseEntry> {
    Sort(universe, HigherVolume)
  }

  /** The ranking loses nobody, and whoever makes the first n trades at least the volume of everyone who does not. */
  lemma FirstByVolume(universe: seq<UniverseEntry>, n: nat)
    ensures var ranked := RankedByVolume(universe);
            var chosen := Slice(ranked, n);
            && multiset(ranked) == multiset(universe) && |chosen| == Min(n, |universe|)
            && (forall i, j :: 0 <= i < j < |ranked| ==> ranked[i].avgVolume >= ranked[j].avgVolume)
            && (forall u, v :: u in chosen && v in ranked[|chosen|..] ==> u.avgVolume >= v.avgVolume)
  {
    SortSorts(universe, HigherVolume);
    var ranked := RankedByVolume(universe);
    assert forall i, j :: 0 <= i < j < |ranked| ==> !HigherVolume(ranked[j], ranked[i]);
  }

  /** Plans the engine itself does not refuse, in selection order. */
  function PlansFor(picked: seq<UniverseEntry>, history: string -> seq<DayBar>, d: Day, cfg: RiskConfig): seq<TradePlan>
    requires cfg.Sizable()
  {
    if picked == [] then []
    else
      var bars := history(picked[0].symbol);
      var plan := if bars == [] then None else PlanFromHistory(picked[0].symbol, d, bars, cfg);
      (if plan.Some? && !plan.value.isNoTrade then [plan.value] else []) + PlansFor(picked[1..], history, d, cfg)
  }

  /** The plan of one pick, if it has a history, a stop under its close, and is not refused. */
  lemma {:induction false} PlansAppend(
      picked: seq<UniverseEntry>, u: UniverseEntry, history: string -> seq<DayBar>, d: Day, cfg: RiskConfig)
    requires cfg.Sizable()
    ensures var bars := history(u.symbol);
            var plan := if bars == [] then None else PlanFromHistory(u.symbol, d, bars, cfg);
            PlansFor(picked + [u], history, d, cfg)
            == PlansFor(picked, history, d, cfg) + if plan.Some? && !plan.value.isNoTrade then [plan.value] else []
    decreases |picked|
  {
    hide PlanFromHistory;
    if picked == [] {
      assert picked + [u] == [u] && [u][1..] == [];
    } else {
      assert (picked + [u])[1..] == picked[1..] + [u] && (picked + [u])[0] == picked[0];
      PlansAppend(picked[1..], u, history, d, cfg);
    }
  }

  function RandomLiquid(
      universe: seq<UniverseEntry>, history: string -> seq<DayBar>, d: Day, n: nat, draws: nat -> real, cfg: RiskConfig)
    : seq<TradePlan>
    requires cfg.Sizable() && AreDraws(draws)
  {
    PlansFor(PickN(LiquidCandidates(universe), n, draws, 0), history, d, cfg)
  }

  function VolumeOnly(
      universe: seq<UniverseEntry>, history: string -> seq<DayBar>, d: Day, n: nat, cfg: RiskConfig): seq<TradePlan>
    requires cfg.Sizable()
  {
    PlansFor(Slice(RankedByVolume(LiquidCandidates(universe)), n), history, d, cfg)
  }

  /** Every baseline plan can be traded: it has lots, is not refused, and obeys the plan shape and both budgets. */
  lemma {:induction false} BaselinePlansAreTradeable(
      picked: seq<UniverseEntry>, history: string -> seq<DayBar>, d: Day, cfg: RiskConfig)
    requires cfg.Sane()
    ensures forall k :: 0 <= k < |PlansFor(picked, history, d, cfg)| ==>
              var plan := PlansFor(picked, history, d, cfg)[k];
              && !plan.isNoTrade && plan.tradingDate == d
              && plan.totalLots >= 1 && WellShaped(plan)
              && plan.maxNetLoss <= RiskBudget(cfg) && plan.estimatedCapital <= cfg.maxDeployedCapital
    decreases |picked|
  {
    hide BuildRiskPlan, WellShaped, StopFor, RiskBudget;
    if picked != [] {
      BaselinePlansAreTradeable(picked[1..], history, d, cfg);
      var bars := history(picked[0].symbol);
      if bars != [] && PlanFromHistory(picked[0].symbol, d, bars, cfg).Some? {
        var input := RiskInput(picked[0].symbol, d, bars[|bars| - 1].close, StopFor(bars), StrongBuy);
        PlanIsWellShaped(input, cfg);
        PlanWithinBudgets(input, cfg);
        UnrefusedPlanHasLots(input, cfg);
      }
    }
  }

  lemma UnrefusedPlanHasLots(input: RiskInput, cfg: RiskConfig)
    requires cfg.Sizable() && input.entryTrigger > 0.0
    ensures var plan := BuildRiskPlan(input, cfg);
            && plan.tradingDate == input.tradingDate
            && (!plan.isNoTrade ==> plan.totalLots >= 1)
  {
    hide PlannedLoss, GrossReward, RoundTripFees, MaxBuyPrice, TargetPrice, CapitalOf, AffordableLots,
        EffectiveRiskPerShare;
  }
}
