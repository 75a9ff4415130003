/** Score, plan, score again with the plan's own reward-to-risk, and plan again for the best. */
module DeepFunnel {
  import opened Options
  import opened Reals
  import opened Sequences
  import opened RiskEngine
  import opened Scoring
  import BrokerConcentration

  datatype Candidate = Candidate(features: Features, quotePrice: real)

  /** What the funnel is told about the user and the news. */
  datatype Context = Context(userOpenRiskPct: real, unreviewedNews: set<string>)

  datatype Scored = Scored(features: Features, entryTrigger: real, stopLossRaw: real, score: ScoreResult)

  const PRELIMINARY_STOP_PCT := 0.05

  function EntryOf(c: Candidate): real {
    if c.features.pctAboveBAvg.Some? && c.features.bAvg.Some?
    then c.features.bAvg.value * (1.0 + c.features.pctAboveBAvg.value)
    else c.quotePrice
  }

  /** The feature engine measures the distance from the quote, so the entry is the quote again. */
  lemma EntryIsTheQuote(c: Candidate)
    requires c.features.bAvg.Some? && c.features.pctAboveBAvg.Some? ==>
               var b := c.features.bAvg.value; b > 0.0 && c.features.pctAboveBAvg.value == (c.quotePrice - b) / b
    ensures EntryOf(c) == c.quotePrice
  {
    if c.features.bAvg.Some? && c.features.pctAboveBAvg.Some? {
      var b, p := c.features.bAvg.value, c.features.pctAboveBAvg.value;
      assert p * b == c.quotePrice - b;
      assert b * (1.0 + p) == b + p * b;
    }
  }

  /** Whatever they say, the entry lies that distance from the average, or without one at the quote. */
  lemma EntryIsAtItsDistance(c: Candidate)
    ensures if c.features.bAvg.Some? && c.features.pctAboveBAvg.Some? then
              EntryOf(c) - c.features.bAvg.value == c.features.pctAboveBAvg.value * c.features.bAvg.value
            else EntryOf(c) == c.quotePrice
  {
    if c.features.bAvg.Some? && c.features.pctAboveBAvg.Some? {
      var b, p := c.features.bAvg.value, c.features.pctAboveBAvg.value;
      assert b * (1.0 + p) == b + p * b;
    }
  }

  function ScoreWith(f: Features, estimate: real, ctx: Context, cfg: StrategyConfig): ScoreResult {
    ScoreCandidate(ScoringInput(f, ctx.userOpenRiskPct, f.symbol in ctx.unreviewedNews, estimate), cfg)
  }

  function PlanFor(f: Features, entry: real, stop: real, category: Category, cfg: StrategyConfig): TradePlan
    requires cfg.risk.Sizable() && entry > 0.0
  {
    BuildRiskPlan(RiskInput(f.symbol, f.tradingDate, entry, stop, category), cfg.risk)
  }

  /** Sized under the category a candidate gets when its reward-to-risk is taken on trust. */
  function PreliminaryPlan(c: Candidate, ctx: Context, cfg: StrategyConfig): TradePlan
    requires cfg.risk.Sizable() && EntryOf(c) > 0.0
  {
    var entry := EntryOf(c);
    var trusting := ScoreWith(c.features, cfg.risk.minNetRewardToRisk, ctx, cfg);
    PlanFor(c.features, entry, entry * (1.0 - PRELIMINARY_STOP_PCT), trusting.category, cfg)
  }

  function TwoPass(c: Candidate, ctx: Context, cfg: StrategyConfig): Scored
    requires cfg.risk.Sizable() && EntryOf(c) > 0.0
  {
    var entry := EntryOf(c);
    var plan := PreliminaryPlan(c, ctx, cfg);
    Scored(c.features, entry, entry * (1.0 - PRELIMINARY_STOP_PCT),
        ScoreWith(c.features, plan.netRewardToRisk, ctx, cfg))
  }

  /** The plan computed, and persisted, for a candidate in a plan slot, whatever its category. */
  function SlotPlan(s: Scored, withPlan: bool, cfg: StrategyConfig): Option<TradePlan>
    requires cfg.risk.Sizable() && s.entryTrigger > 0.0
  {
    if withPlan then Some(PlanFor(s.features, s.entryTrigger, s.stopLossRaw, s.score.category, cfg)) else None
  }

  function SignalOf(s: Scored, withPlan: bool, cfg: StrategyConfig): Signal
    requires cfg.risk.Sizable() && s.entryTrigger > 0.0
  {
    AssembleSignal(s.features, s.score, SlotPlan(s, withPlan, cfg))
  }

  /** A signal in a plan slot carries the persisted plan unless its category is NO_TRADE; AVOID keeps it. */
  lemma SignalCarriesPlanIff(s: Scored, withPlan: bool, cfg: StrategyConfig)
    requires cfg.risk.Sizable() && s.entryTrigger > 0.0
    ensures var signal := SignalOf(s, withPlan, cfg);
            && (signal.plan.Some? <==> withPlan && !signal.category.NoTrade?)
            && signal.plan == if signal.category.NoTrade? then None else SlotPlan(s, withPlan, cfg)
  {
  }

  // ----- the second pass confirms the first -----

  /** When the plan keeps its promise the second scoring is the first, gate for gate. */
  lemma SecondPassRepeatsFirst(f: Features, estimate: real, ctx: Context, cfg: StrategyConfig)
    requires estimate >= cfg.risk.minNetRewardToRisk
    ensures ScoreWith(f, estimate, ctx, cfg) == ScoreWith(f, cfg.risk.minNetRewardToRisk, ctx, cfg)
  {
  }

  lemma BrokenPromiseIsNoTrade(f: Features, estimate: real, ctx: Context, cfg: StrategyConfig)
    requires estimate < cfg.risk.minNetRewardToRisk
    ensures ScoreWith(f, estimate, ctx, cfg).category.NoTrade?
  {
    hide Categorize, EvaluateGates, Fails;
    var input := ScoringInput(f, ctx.userOpenRiskPct, f.symbol in ctx.unreviewedNews, estimate);
    GateFailsIff(input, cfg);
    CategoryObeysGates(f.composite, EvaluateGates(input, cfg), cfg);
    assert ForcesNoTrade(NetRrMin);
  }

  /** A plan is refused exactly when it has no lots or falls short of the minimum. */
  lemma NoTradePlanIff(input: RiskInput, cfg: RiskConfig)
    requires cfg.Sizable() && input.entryTrigger > 0.0
    ensures var plan := BuildRiskPlan(input, cfg);
            && plan.totalLots >= 0
            && (plan.isNoTrade <==> plan.totalLots == 0 || plan.netRewardToRisk < cfg.minNetRewardToRisk)
            && (plan.totalLots == 0 ==> plan.netRewardToRisk == 0.0)
  {
    hide PlannedLoss, GrossReward, RoundTripFees, MaxBuyPrice, TargetPrice, CapitalOf, AffordableLots,
        EffectiveRiskPerShare;
  }

  /**
   * Any plan a signal carries is the preliminary plan, meets the minimum reward-to-risk, and is refused by its own
   * flag only when it is the empty plan, which takes a minimum of zero or less.
   */
  lemma CarriedPlanIsTradeable(c: Candidate, withPlan: bool, ctx: Context, cfg: StrategyConfig)
    requires cfg.risk.Sizable() && EntryOf(c) > 0.0
    ensures var signal := SignalOf(TwoPass(c, ctx, cfg), withPlan, cfg);
            var first := PreliminaryPlan(c, ctx, cfg);
            signal.plan.Some? ==>
              && withPlan
              && signal.plan.value == first
              && first.netRewardToRisk >= cfg.risk.minNetRewardToRisk
              && (first.isNoTrade <==> first.totalLots == 0)
              && (cfg.risk.minNetRewardToRisk > 0.0 ==> !first.isNoTrade && first.totalLots >= 1)
  {
    hide BuildRiskPlan, ScoreCandidate;
    var entry, first := EntryOf(c), PreliminaryPlan(c, ctx, cfg);
    var trusting := ScoreWith(c.features, cfg.risk.minNetRewardToRisk, ctx, cfg);
    NoTradePlanIff(RiskInput(c.features.symbol, c.features.tradingDate, entry, entry * (1.0 - PRELIMINARY_STOP_PCT),
                             trusting.category), cfg.risk);
    if first.netRewardToRisk >= cfg.risk.minNetRewardToRisk {
      SecondPassRepeatsFirst(c.features, first.netRewardToRisk, ctx, cfg);
    } else {
      BrokenPromiseIsNoTrade(c.features, first.netRewardToRisk, ctx, cfg);
    }
  }

  /** With no minimum to meet an account without capital still gets a signal that carries its empty plan. */
  lemma EmptyPlanSlipsThrough()
    ensures var risk := DEFAULT_RISK.(totalCapital := 0.0, minNetRewardToRisk := 0.0);
            var cfg := DEFAULT_STRATEGY.(risk := risk);
            var f := Features("X", 0, 0.0, false, false, 1.0, 1.0, None, None, false, false,
                              BrokerConcentration.Concentration(0.0, 0.0, 0.0, 0, 0), 0);
            var signal := SignalOf(TwoPass(Candidate(f, 1000.0), Context(0.0, {}), cfg), true, cfg);
            signal.plan.Some? && signal.plan.value.isNoTrade
  {
    hide BuildRiskPlan, Categorize, EvaluateGates;
    var risk := DEFAULT_RISK.(totalCapital := 0.0, minNetRewardToRisk := 0.0);
    var cfg := DEFAULT_STRATEGY.(risk := risk);
    var f := Features("X", 0, 0.0, false, false, 1.0, 1.0, None, None, false, false,
                      BrokerConcentration.Concentration(0.0, 0.0, 0.0, 0, 0), 0);
    var ctx, c := Context(0.0, {}), Candidate(f, 1000.0);
    var first, trusting := PreliminaryPlan(c, ctx, cfg), ScoreWith(f, 0.0, ctx, cfg);
    var input := RiskInput("X", 0, 1000.0, 1000.0 * (1.0 - PRELIMINARY_STOP_PCT), trusting.category);
    NoCapitalNoLots(input, risk);
    NoTradePlanIff(input, risk);
    SecondPassRepeatsFirst(f, 0.0, ctx, cfg);
    GateFailsIff(ScoringInput(f, 0.0, false, 0.0), cfg);
    CategoryObeysGates(0.0, EvaluateGates(ScoringInput(f, 0.0, false, 0.0), cfg), cfg);
  }

  lemma NoCapitalNoLots(input: RiskInput, cfg: RiskConfig)
    requires cfg.Sane() && input.entryTrigger > 0.0 && cfg.totalCapital == 0.0
    ensures BuildRiskPlan(input, cfg).totalLots == 0
  {
    hide BuildRiskPlan;
    PlanWithinBudgets(input, cfg);
    NoTradePlanIff(input, cfg);
    assert RiskBudget(cfg) == 0.0;
  }

  // ----- one day of broker data -----

  /** Features computed, as the funnel does, from a single day's broker rows. */
  predicate FromOneDay(f: Features, day: BrokerConcentration.DaySummary, cfg: StrategyConfig) {
    var limits := cfg.concentration;
    && f.buyers == BrokerConcentration.BuyerConcentration(day, limits.meaningfulBuyerMinShare)
    && f.persistenceDays
        == BrokerConcentration.Persistence([day], limits.persistenceWindowDays, limits.meaningfulBuyerMinShare)
  }

  /** So while the gate wants more than one day of persistence, the funnel never scores anything above AVOID. */
  lemma OneDayNeverBuys(c: Candidate, day: BrokerConcentration.DaySummary, ctx: Context, cfg: StrategyConfig)
    requires cfg.risk.Sizable() && EntryOf(c) > 0.0
    requires FromOneDay(c.features, day, cfg) && cfg.concentration.persistenceMinDays > 1
    ensures var category := TwoPass(c, ctx, cfg).score.category; category.Avoid? || category.NoTrade?
  {
    hide PreliminaryPlan, Categorize, EvaluateGates, Fails;
    var rr := PreliminaryPlan(c, ctx, cfg).netRewardToRisk;
    var input := ScoringInput(c.features, ctx.userOpenRiskPct, c.features.symbol in ctx.unreviewedNews, rr);
    BrokerConcentration.OneDayNeverPersists(day, cfg.concentration);
    GateFailsIff(input, cfg);
    CategoryObeysGates(c.features.composite, EvaluateGates(input, cfg), cfg);
  }

  /** A candidate from one day of broker data that the funnel would have bought or watched. */
  predicate ScoresAboveAvoid(c: Candidate, day: BrokerConcentration.DaySummary, ctx: Context, cfg: StrategyConfig)
    requires cfg.risk.Sizable()
  {
    && EntryOf(c) > 0.0 && FromOneDay(c.features, day, cfg)
    && var category := TwoPass(c, ctx, cfg).score.category; !category.Avoid? && !category.NoTrade?
  }

  function WithMinDays(days: int): StrategyConfig {
    DEFAULT_STRATEGY.(concentration := BrokerConcentration.DEFAULT_LIMITS.(persistenceMinDays := days))
  }

  /**
   * Among the shipped limits it is the persistence one that decides: some candidate scores above AVOID iff it is at
   * most one day.
   */
  lemma OneDayCanBuyIff(days: int)
    ensures (exists c, day, ctx :: ScoresAboveAvoid(c, day, ctx, WithMinDays(days))) <==> days <= 1
  {
    hide TwoPass, FromOneDay, EntryOf;
    var cfg := WithMinDays(days);
    if days > 1 {
      forall c, day, ctx ensures !ScoresAboveAvoid(c, day, ctx, cfg) {
        if EntryOf(c) > 0.0 && FromOneDay(c.features, day, cfg) { OneDayNeverBuys(c, day, ctx, cfg); }
      }
    } else {
      FiveEqualBuyersAreBought(days);
      assert ScoresAboveAvoid(BroadCandidate(), BrokerConcentration.FIVE_EQUAL, Context(0.0, {}), cfg);
    }
  }

  /** Five equal buyers and a composite of 80, quoted at 1000. */
  function BroadCandidate(): Candidate {
    Candidate(Features("X", 0, 80.0, false, false, 1.0, 1.0, None, None, false, false,
                       BrokerConcentration.Concentration(0.2, 0.6, 0.2, 5, 5), 1), 1000.0)
  }

  lemma FiveEqualBuyersAreBought(days: int)
    requires days <= 1
    ensures ScoresAboveAvoid(BroadCandidate(), BrokerConcentration.FIVE_EQUAL, Context(0.0, {}), WithMinDays(days))
  {
    hide BuildRiskPlan, ScoreWith, BrokerConcentration.BuyerConcentration, BrokerConcentration.Persistence;
    var c, ctx, cfg := BroadCandidate(), Context(0.0, {}), WithMinDays(days);
    BrokerConcentration.FiveEqualBuyers();
    BroadIsStrong(days, cfg.risk.minNetRewardToRisk);
    PlanWithStop950(StrongBuy);
    var rr := BuildRiskPlan(AtOneThousand(950.0, StrongBuy), cfg.risk).netRewardToRisk;
    NoTradePlanIff(AtOneThousand(950.0, StrongBuy), cfg.risk);
    BroadIsStrong(days, rr);
  }

  lemma BroadIsStrong(days: int, estimate: real)
    requires days <= 1 && estimate >= DEFAULT_RISK.minNetRewardToRisk
    ensures ScoreWith(BroadCandidate().features, estimate, Context(0.0, {}), WithMinDays(days)).category == StrongBuy
  {
    hide Categorize, EvaluateGates, Fails;
    var cfg := WithMinDays(days);
    var input := ScoringInput(BroadCandidate().features, 0.0, false, estimate);
    GateFailsIff(input, cfg);
    forall g ensures !Fails(EvaluateGates(input, cfg), g) {
      match g
      case Freshness =>
      case SegmentSeparation =>
      case Liquidity =>
      case ChaseLimit =>
      case BrokerFlipOrDistribution =>
      case NewsReview =>
      case NetRrMin =>
      case UserRiskLimit =>
      case ConcentrationGate =>
    }
    StrongWhenAllPass(80.0, EvaluateGates(input, cfg), cfg);
  }

  /** Then every plan a signal carries belongs to an AVOID signal. */
  lemma CarriedPlansAreAvoided(
      c: Candidate, day: BrokerConcentration.DaySummary, withPlan: bool, ctx: Context, cfg: StrategyConfig)
    requires cfg.risk.Sizable() && EntryOf(c) > 0.0
    requires FromOneDay(c.features, day, cfg) && cfg.concentration.persistenceMinDays > 1
    ensures var signal := SignalOf(TwoPass(c, ctx, cfg), withPlan, cfg); signal.plan.Some? ==> signal.category.Avoid?
  {
    hide TwoPass;
    EntryOfTwoPass(c, ctx, cfg);
    OneDayNeverBuys(c, day, ctx, cfg);
    SignalCarriesPlanIff(TwoPass(c, ctx, cfg), withPlan, cfg);
  }

  /** Quiet features around one day of broker data. */
  function QuietDay(day: BrokerConcentration.DaySummary): Features {
    var limits := BrokerConcentration.DEFAULT_LIMITS;
    Features("X", 0, 0.0, false, false, 1.0, 1.0, None, None, false, false,
             BrokerConcentration.BuyerConcentration(day, limits.meaningfulBuyerMinShare),
             BrokerConcentration.Persistence([day], limits.persistenceWindowDays, limits.meaningfulBuyerMinShare))
  }

  /** And such plans occur: whatever that day brought, a quote of 1000 gives an AVOID signal with a tradeable plan. */
  lemma AvoidKeepsItsPlan(day: BrokerConcentration.DaySummary)
    ensures var c, ctx := Candidate(QuietDay(day), 1000.0), Context(0.0, {});
            var signal := SignalOf(TwoPass(c, ctx, DEFAULT_STRATEGY), true, DEFAULT_STRATEGY);
            && FromOneDay(c.features, day, DEFAULT_STRATEGY)
            && signal.category.Avoid? && signal.plan.Some?
            && !signal.plan.value.isNoTrade && signal.plan.value.totalLots == 5
  {
    hide BuildRiskPlan, QuietDay, ScoreWith;
    var f, ctx, cfg := QuietDay(day), Context(0.0, {}), DEFAULT_STRATEGY;
    assert IsQuiet(f, day) by { QuietDayIsQuiet(day); }
    AvoidedAt(f, day, cfg.risk.minNetRewardToRisk);
    PlanWithStop950(Avoid);
    var rr := BuildRiskPlan(AtOneThousand(950.0, Avoid), cfg.risk).netRewardToRisk;
    NoTradePlanIff(AtOneThousand(950.0, Avoid), cfg.risk);
    AvoidedAt(f, day, rr);
  }

  ghost predicate IsQuiet(f: Features, day: BrokerConcentration.DaySummary) {
    && f.symbol == "X" && f.tradingDate == 0 && f.bAvg.None? && f.pctAboveBAvg.None?
    && !f.dataStale && !f.segmentMixed && FromOneDay(f, day, DEFAULT_STRATEGY)
  }

  lemma QuietDayIsQuiet(day: BrokerConcentration.DaySummary)
    ensures IsQuiet(QuietDay(day), day)
  {
  }

  lemma AvoidedAt(f: Features, day: BrokerConcentration.DaySummary, estimate: real)
    requires IsQuiet(f, day) && estimate >= DEFAULT_RISK.minNetRewardToRisk
    ensures ScoreWith(f, estimate, Context(0.0, {}), DEFAULT_STRATEGY).category == Avoid
  {
    hide Categorize, EvaluateGates, Fails;
    var input := ScoringInput(f, 0.0, false, estimate);
    BrokerConcentration.OneDayNeverPersists(day, DEFAULT_STRATEGY.concentration);
    GateFailsIff(input, DEFAULT_STRATEGY);
    CategoryObeysGates(f.composite, EvaluateGates(input, DEFAULT_STRATEGY), DEFAULT_STRATEGY);
  }

  // ----- ranking and the plan slots -----

  predicate HigherScore(a: Scored, b: Scored) {
    a.score.composite > b.score.composite
  }

  /** Stable, best composite first. */
  function Ranked(scored: seq<Scored>): seq<Scored> {
    Sort(scored, HigherScore)
  }

  ghost predicate Enterable(scored: seq<Scored>) {
    forall k :: 0 <= k < |scored| ==> scored[k].entryTrigger > 0.0
  }

  /** Signals of the watchlist, and the plans stored beside them; the symbols of its best few get a plan. */
  method Assemble(scored: seq<Scored>, watchlistMax: nat, planMax: nat, cfg: StrategyConfig)
    returns (signals: seq<Signal>, persisted: seq<Option<TradePlan>>)
    requires cfg.risk.Sizable() && Enterable(Ranked(scored))
    ensures var watchlist := Slice(Ranked(scored), watchlistMax);
            && |signals| == |persisted| == |watchlist|
            && forall i :: 0 <= i < |signals| ==>
                 && persisted[i] == SlotPlan(watchlist[i], InPlanSlots(watchlist, i, planMax), cfg)
                 && signals[i] == SignalOf(watchlist[i], InPlanSlots(watchlist, i, planMax), cfg)
  {
    hide PlanFor, Ranked, InPlanSlots;
    var watchlist := Slice(Ranked(scored), watchlistMax);
    var symbols := set s | s in Slice(watchlist, planMax) :: s.features.symbol;
    signals, persisted := [], [];
    for i := 0 to |watchlist|
      invariant |signals| == |persisted| == i
      invariant forall k :: 0 <= k < i ==>
          persisted[k] == SlotPlan(watchlist[k], InPlanSlots(watchlist, k, planMax), cfg)
      invariant forall k :: 0 <= k < i ==> signals[k] == SignalOf(watchlist[k], InPlanSlots(watchlist, k, planMax), cfg)
    {
      var item := watchlist[i];
      SlotSymbolsIff(watchlist, i, planMax);
      var plan := if item.features.symbol in symbols
                  then Some(PlanFor(item.features, item.entryTrigger, item.stopLossRaw, item.score.category, cfg))
                      else None;
      signals := signals + [AssembleSignal(item.features, item.score, plan)];
      persisted := persisted + [plan];
    }
  }

  lemma SlotSymbolsIff(watchlist: seq<Scored>, i: nat, planMax: nat)
    requires i < |watchlist|
    ensures watchlist[i].features.symbol in (set s | s in Slice(watchlist, planMax) :: s.features.symbol)
            <==> InPlanSlots(watchlist, i, planMax)
  {
    var slots := Slice(watchlist, planMax);
    if InPlanSlots(watchlist, i, planMax) {
      var k :| 0 <= k < Min(planMax, |watchlist|) && watchlist[k].features.symbol == watchlist[i].features.symbol;
      assert slots[k] in slots;
    }
  }

  predicate InPlanSlots(watchlist: seq<Scored>, i: nat, planMax: nat)
    requires i < |watchlist|
  {
    exists k :: 0 <= k < Min(planMax, |watchlist|) && watchlist[k].features.symbol == watchlist[i].features.symbol
  }

  /** The ranking loses nobody and puts no lower score before a higher one. */
  lemma RankedSorts(scored: seq<Scored>)
    ensures var r := Ranked(scored);
            && multiset(r) == multiset(scored) && |r| == |scored|
            && forall i, j :: 0 <= i < j < |r| ==> r[i].score.composite >= r[j].score.composite
  {
    SortSorts(scored, HigherScore);
    assert forall i, j :: 0 <= i < j < |Ranked(scored)| ==> !HigherScore(Ranked(scored)[j], Ranked(scored)[i]);
  }

  /** With one entry per symbol exactly the best planMax of the watchlist are planned for. */
  lemma PlansGoToTheBest(watchlist: seq<Scored>, i: nat, planMax: nat)
    requires i < |watchlist|
    requires forall j, k :: 0 <= j < k < |watchlist| ==> watchlist[j].features.symbol != watchlist[k].features.symbol
    ensures InPlanSlots(watchlist, i, planMax) <==> i < planMax
  {
    if i < planMax { assert watchlist[i].features.symbol == watchlist[i].features.symbol; }
  }

  predicate AllEnterable(candidates: seq<Candidate>) {
    forall k :: 0 <= k < |candidates| ==> EntryOf(candidates[k]) > 0.0
  }

  /** The preliminary stop lies five percent under the entry. */
  function StopUnder(entry: real): real {
    entry * 0.95
  }

  /** The plan of a candidate under a category, bought at its entry. */
  function PlanOf(c: Candidate, category: Category, cfg: StrategyConfig): TradePlan
    requires cfg.risk.Sizable() && EntryOf(c) > 0.0
  {
    BuildRiskPlan(RiskInput(c.features.symbol, c.features.tradingDate, EntryOf(c), StopUnder(EntryOf(c)), category),
        cfg.risk)
  }

  /** The score of a candidate once its reward-to-risk is known, and while it is taken on trust. */
  function ScoreAt(c: Candidate, estimate: real, ctx: Context, cfg: StrategyConfig): ScoreResult {
    ScoreCandidate(ScoringInput(c.features, ctx.userOpenRiskPct, c.features.symbol in ctx.unreviewedNews, estimate),
        cfg)
  }

  function QuotedRatio(c: Candidate, ctx: Context, cfg: StrategyConfig): real
    requires cfg.risk.Sizable() && EntryOf(c) > 0.0
  {
    PlanOf(c, ScoreAt(c, cfg.risk.minNetRewardToRisk, ctx, cfg).category, cfg).netRewardToRisk
  }

  /** This signal and this stored plan are what two scorings and two plannings make of the candidate. */
  predicate Publishes(
      signal: Signal, stored: Option<TradePlan>, c: Candidate, withPlan: bool, ctx: Context, cfg: StrategyConfig)
    requires cfg.risk.Sizable() && EntryOf(c) > 0.0
  {
    && signal.symbol == c.features.symbol && signal.composite == c.features.composite
    && signal.category == ScoreAt(c, QuotedRatio(c, ctx, cfg), ctx, cfg).category
    && stored == (if withPlan then Some(PlanOf(c, signal.category, cfg)) else None)
    && signal.plan == (if signal.category.NoTrade? then None else stored)
  }

  lemma TwoPassPublishes(c: Candidate, withPlan: bool, ctx: Context, cfg: StrategyConfig)
    requires cfg.risk.Sizable() && EntryOf(c) > 0.0
    ensures var s := TwoPass(c, ctx, cfg);
            s.entryTrigger > 0.0
                && Publishes(SignalOf(s, withPlan, cfg), SlotPlan(s, withPlan, cfg), c, withPlan, ctx, cfg)
  {
    hide BuildRiskPlan, Categorize, EvaluateGates;
    assert EntryOf(c) * (1.0 - PRELIMINARY_STOP_PCT) == StopUnder(EntryOf(c));
  }

  /** Best composite first, ties in the order given, with everyone the watchlist has no room for at the end. */
  predicate BestFirst(candidates: seq<Candidate>, at: seq<nat>) {
    && IsPermutation(at, |candidates|)
    && forall i, j :: 0 <= i < j < |at| ==>
         || candidates[at[i]].features.composite > candidates[at[j]].features.composite
         || (candidates[at[i]].features.composite == candidates[at[j]].features.composite && at[i] < at[j])
  }

  /** A candidate has a plan slot if its symbol is among those of the best few. */
  predicate HasSlot(candidates: seq<Candidate>, at: seq<nat>, i: nat, slots: nat)
    requires IsPermutation(at, |candidates|) && i < |at|
  {
    exists k :: 0 <= k < Min(slots, |at|) && candidates[at[k]].features.symbol == candidates[at[i]].features.symbol
  }

  /** The best few, in order, each with its own signal and stored plan. */
  predicate PublishesBest(
      signals: seq<Signal>, persisted: seq<Option<TradePlan>>, candidates: seq<Candidate>, at: seq<nat>, slots: nat,
      ctx: Context, cfg: StrategyConfig)
    requires cfg.risk.Sizable() && AllEnterable(candidates)
  {
    && BestFirst(candidates, at) && |signals| == |persisted| <= |at|
    && forall i :: 0 <= i < |signals| ==>
         Publishes(signals[i], persisted[i], candidates[at[i]], HasSlot(candidates, at, i, slots), ctx, cfg)
  }

  /**
   * The whole run: the signals are those of the best candidates, one each, best first, and the plan slots go to the
   * first of them. With a positive minimum no plan a signal carries is one its own engine refuses. The stored plan is
   * the
   * same one, except that a NO_TRADE signal carries none whatever was stored for it.
   */
  method RunDeepFunnel(candidates: seq<Candidate>, ctx: Context, watchlistMax: nat, planMax: nat, cfg: StrategyConfig)
    returns (signals: seq<Signal>, persisted: seq<Option<TradePlan>>)
    requires cfg.risk.Sizable() && AllEnterable(candidates)
    ensures |signals| == |persisted| == Min(watchlistMax, |candidates|)
    ensures exists at :: PublishesBest(signals, persisted, candidates, at, Min(planMax, watchlistMax), ctx, cfg)
    ensures forall i :: 0 <= i < |signals| ==>
            signals[i].plan == if signals[i].category.NoTrade? then None else persisted[i]
    ensures forall i :: 0 <= i < |signals| && signals[i].plan.Some? ==>
              && signals[i].plan.value.netRewardToRisk >= cfg.risk.minNetRewardToRisk
              && (cfg.risk.minNetRewardToRisk > 0.0
                  ==> !signals[i].plan.value.isNoTrade && signals[i].plan.value.totalLots >= 1)
  {
    hide TwoPass, SignalOf, SlotPlan, PreliminaryPlan, EntryOf, Publishes, Ranked;
    var scored := [];
    for i := 0 to |candidates|
      invariant |scored| == i
      invariant forall k :: 0 <= k < i ==> scored[k] == TwoPass(candidates[k], ctx, cfg)
    {
      scored := scored + [TwoPass(candidates[i], ctx, cfg)];
    }
    ghost var at := RankingOf(candidates, scored, ctx, cfg);
    signals, persisted := Assemble(scored, watchlistMax, planMax, cfg);
    forall i | 0 <= i < |signals|
      ensures Publishes(signals[i], persisted[i], candidates[at[i]],
                        HasSlot(candidates, at, i, Min(planMax, watchlistMax)), ctx, cfg)
      ensures signals[i].plan == if signals[i].category.NoTrade? then None else persisted[i]
      ensures signals[i].plan.Some? ==>
                && signals[i].plan.value.netRewardToRisk >= cfg.risk.minNetRewardToRisk
                && (cfg.risk.minNetRewardToRisk > 0.0
                    ==> !signals[i].plan.value.isNoTrade && signals[i].plan.value.totalLots >= 1)
    {
      var watchlist := Slice(Ranked(scored), watchlistMax);
      var withPlan := InPlanSlots(watchlist, i, planMax);
      SlotsAgree(candidates, scored, at, watchlistMax, planMax, i, ctx, cfg);
      TwoPassPublishes(candidates[at[i]], withPlan, ctx, cfg);
      SignalCarriesPlanIff(watchlist[i], withPlan, cfg);
      CarriedPlanIsTradeable(candidates[at[i]], withPlan, ctx, cfg);
    }
    assert PublishesBest(signals, persisted, candidates, at, Min(planMax, watchlistMax), ctx, cfg);
  }

  /** The ranking is of the candidates themselves. */
  lemma RankingOf(
      candidates: seq<Candidate>, scored: seq<Scored>, ctx: Context, cfg: StrategyConfig) returns (at: seq<nat>)
    requires cfg.risk.Sizable() && AllEnterable(candidates) && |scored| == |candidates|
    requires forall k :: 0 <= k < |scored| ==> scored[k] == TwoPass(candidates[k], ctx, cfg)
    ensures BestFirst(candidates, at) && |Ranked(scored)| == |candidates| && Enterable(Ranked(scored))
    ensures forall i :: 0 <= i < |at| ==> Ranked(scored)[i] == TwoPass(candidates[at[i]], ctx, cfg)
  {
    hide TwoPass, EntryOf, Sort;
    at := SortIsStable(scored, HigherScore);
    var ranked := Ranked(scored);
    forall i | 0 <= i < |at|
      ensures ranked[i] == TwoPass(candidates[at[i]], ctx, cfg) && ranked[i].entryTrigger > 0.0
      ensures ranked[i].score.composite == candidates[at[i]].features.composite
    {
      EntryOfTwoPass(candidates[at[i]], ctx, cfg);
    }
    forall i, j | 0 <= i < j < |at|
      ensures || candidates[at[i]].features.composite > candidates[at[j]].features.composite
              || (candidates[at[i]].features.composite == candidates[at[j]].features.composite && at[i] < at[j])
    {
      assert HigherScore(ranked[i], ranked[j]) || (!HigherScore(ranked[j], ranked[i]) && at[i] < at[j]);
    }
  }

  lemma SlotsAgree(
      candidates: seq<Candidate>, scored: seq<Scored>, at: seq<nat>, watchlistMax: nat, planMax: nat, i: nat,
      ctx: Context, cfg: StrategyConfig)
    requires cfg.risk.Sizable() && AllEnterable(candidates) && BestFirst(candidates, at)
    requires |Ranked(scored)| == |candidates| && i < Min(watchlistMax, |candidates|)
    requires forall k :: 0 <= k < |at| ==> Ranked(scored)[k] == TwoPass(candidates[at[k]], ctx, cfg)
    ensures InPlanSlots(Slice(Ranked(scored), watchlistMax), i, planMax)
            <==> HasSlot(candidates, at, i, Min(planMax, watchlistMax))
  {
    hide Ranked, TwoPass, EntryOf;
    var watchlist := Slice(Ranked(scored), watchlistMax);
    forall k | 0 <= k < |watchlist| ensures watchlist[k].features.symbol == candidates[at[k]].features.symbol {
      EntryOfTwoPass(candidates[at[k]], ctx, cfg);
    }
  }

  /** With one candidate a symbol the slots go to the first few of the watchlist. */
  lemma SlotsGoToTheFirst(candidates: seq<Candidate>, at: seq<nat>, i: nat, slots: nat)
    requires IsPermutation(at, |candidates|) && i < |at|
    requires forall j, k :: 0 <= j < k < |candidates| ==> candidates[j].features.symbol != candidates[k].features.symbol
    ensures HasSlot(candidates, at, i, slots) <==> i < slots
  {
    if i < slots {
      assert candidates[at[i]].features.symbol == candidates[at[i]].features.symbol;
    }
    forall k | 0 <= k < |at| && k != i ensures candidates[at[k]].features.symbol != candidates[at[i]].features.symbol {
      assert at[k] != at[i];
    }
  }

  lemma EntryOfTwoPass(c: Candidate, ctx: Context, cfg: StrategyConfig)
    requires cfg.risk.Sizable() && EntryOf(c) > 0.0
    ensures var s := TwoPass(c, ctx, cfg);
            s.entryTrigger > 0.0 && s.features == c.features && s.score.composite == c.features.composite
  {
    hide BuildRiskPlan, Categorize, EvaluateGates;
  }
}
