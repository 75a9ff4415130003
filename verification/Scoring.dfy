/** Hard gates, the category they leave to a composite score, and the signal assembled from it. */
module Scoring {
  import opened Options
  import opened RiskEngine
  import BrokerConcentration

  datatype Gate =
    | Freshness | SegmentSeparation | Liquidity | ChaseLimit | BrokerFlipOrDistribution | NewsReview
    | NetRrMin | UserRiskLimit | ConcentrationGate

  datatype GateResult = GateResult(gate: Gate, passed: bool)

  /** The composite depends on the features and the weights alone, so a snapshot carries it. */
  datatype Features = Features(
    symbol: string, tradingDate: Day, composite: real, dataStale: bool, segmentMixed: bool,
    volumePace: real, turnoverRelative: real, bAvg: Option<real>, pctAboveBAvg: Option<real>,
    brokerFlip: bool, failedAbsorption: bool, buyers: BrokerConcentration.Concentration, persistenceDays: int)

  datatype StrategyConfig = StrategyConfig(
    risk: RiskConfig, concentration: BrokerConcentration.Limits,
    strongBuyMin: real, speculativeBuyMin: real, watchlistMin: real)

  const DEFAULT_STRATEGY := StrategyConfig(DEFAULT_RISK, BrokerConcentration.DEFAULT_LIMITS, 80.0, 65.0, 50.0)

  datatype ScoringInput = ScoringInput(
    features: Features, userOpenRiskPct: real, hasUnreviewedNews: bool, netRewardToRiskEstimate: real)

  datatype ScoreResult = ScoreResult(
    composite: real, category: Category, gates: seq<GateResult>, noTradeGate: Option<Gate>)

  const LIQUIDITY_MIN_RELATIVE_ACTIVITY := 0.2

  function EvaluateGates(input: ScoringInput, cfg: StrategyConfig): seq<GateResult> {
    var f := input.features;
    [ GateResult(Freshness, !f.dataStale),
      GateResult(SegmentSeparation, !f.segmentMixed),
      GateResult(Liquidity, f.volumePace >= LIQUIDITY_MIN_RELATIVE_ACTIVITY
          || f.turnoverRelative >= LIQUIDITY_MIN_RELATIVE_ACTIVITY),
      GateResult(ChaseLimit, f.pctAboveBAvg.None? || f.pctAboveBAvg.value <= cfg.risk.chaseMaxPctAboveBAvg),
      GateResult(BrokerFlipOrDistribution, !f.brokerFlip && !f.failedAbsorption),
      GateResult(NewsReview, !input.hasUnreviewedNews),
      GateResult(NetRrMin, input.netRewardToRiskEstimate >= cfg.risk.minNetRewardToRisk),
      GateResult(UserRiskLimit, input.userOpenRiskPct
          <= cfg.risk.riskPerTradePctMax * cfg.risk.maxSimultaneousPositions),
      GateResult(ConcentrationGate, BrokerConcentration.GatePasses(f.buyers, f.persistenceDays, cfg.concentration)) ]
  }

  predicate ForcesNoTrade(gate: Gate) {
    gate.Freshness? || gate.SegmentSeparation? || gate.NetRrMin? || gate.UserRiskLimit?
  }

  function Failed(gates: seq<GateResult>): seq<Gate> {
    if gates == [] then [] else (if gates[0].passed then [] else [gates[0].gate]) + Failed(gates[1..])
  }

  function FirstForcing(failed: seq<Gate>): Option<Gate> {
    if failed == [] then None else if ForcesNoTrade(failed[0]) then Some(failed[0]) else FirstForcing(failed[1..])
  }

  function Categorize(composite: real, gates: seq<GateResult>, cfg: StrategyConfig): (Category, Option<Gate>) {
    var failed := Failed(gates);
    var forcing := FirstForcing(failed);
    if forcing.Some? then (NoTrade, forcing)
    else if |failed| > 0 then (Avoid, None)
    else if composite >= cfg.strongBuyMin then (StrongBuy, None)
    else if composite >= cfg.speculativeBuyMin then (SpeculativeBuy, None)
    else if composite >= cfg.watchlistMin then (Watchlist, None)
    else (Avoid, None)
  }

  function ScoreCandidate(input: ScoringInput, cfg: StrategyConfig): ScoreResult {
    var gates := EvaluateGates(input, cfg);
    var (category, noTradeGate) := Categorize(input.features.composite, gates, cfg);
    ScoreResult(input.features.composite, category, gates, noTradeGate)
  }

  predicate Fails(gates: seq<GateResult>, gate: Gate) {
    exists k :: 0 <= k < |gates| && gates[k] == GateResult(gate, false)
  }

  lemma {:induction false} FailedAreFailed(gates: seq<GateResult>, gate: Gate)
    ensures gate in Failed(gates) <==> Fails(gates, gate)
    decreases |gates|
  {
    if gates != [] {
      FailedAreFailed(gates[1..], gate);
      assert forall k :: 1 <= k < |gates| ==> gates[k] == gates[1..][k - 1];
      if Fails(gates[1..], gate) {
        var k :| 0 <= k < |gates[1..]| && gates[1..][k] == GateResult(gate, false);
        assert gates[k + 1] == GateResult(gate, false);
      }
      if gates[0] == GateResult(gate, false) { assert Failed(gates)[0] == gate; }
    }
  }

  lemma {:induction false} FirstForcingIff(failed: seq<Gate>)
    ensures FirstForcing(failed).Some? <==> exists g :: g in failed && ForcesNoTrade(g)
    ensures FirstForcing(failed).Some?
            ==> ForcesNoTrade(FirstForcing(failed).value) && FirstForcing(failed).value in failed
    decreases |failed|
  {
    if failed != [] {
      FirstForcingIff(failed[1..]);
      assert failed == [failed[0]] + failed[1..];
    }
  }

  /** Gates beat the score: no trade iff a forcing gate fails, a buy of any kind only if every gate passes. */
  lemma CategoryObeysGates(composite: real, gates: seq<GateResult>, cfg: StrategyConfig)
    ensures var (category, gate) := Categorize(composite, gates, cfg);
            && (category.NoTrade? <==> exists g :: ForcesNoTrade(g) && Fails(gates, g))
            && (gate.Some? <==> category.NoTrade?)
            && (category.StrongBuy? || category.SpeculativeBuy? || category.Watchlist? ==> forall g :: !Fails(gates, g))
            && (category.StrongBuy? ==> composite >= cfg.strongBuyMin)
  {
    var failed := Failed(gates);
    FirstForcingIff(failed);
    forall g ensures g in failed <==> Fails(gates, g) { FailedAreFailed(gates, g); }
  }

  /** With every gate passed the score alone decides. */
  lemma StrongWhenAllPass(composite: real, gates: seq<GateResult>, cfg: StrategyConfig)
    requires composite >= cfg.strongBuyMin && forall g :: !Fails(gates, g)
    ensures Categorize(composite, gates, cfg) == (StrongBuy, None)
  {
    var failed := Failed(gates);
    if failed != [] {
      FailedAreFailed(gates, failed[0]);
    }
  }

  /** The gates in words of the input. */
  lemma GateFailsIff(input: ScoringInput, cfg: StrategyConfig)
    ensures var gates := EvaluateGates(input, cfg);
            var f := input.features;
            && (Fails(gates, Freshness) <==> f.dataStale)
            && (Fails(gates, SegmentSeparation) <==> f.segmentMixed)
            && (Fails(gates, Liquidity) <==>
                  f.volumePace < LIQUIDITY_MIN_RELATIVE_ACTIVITY
                      && f.turnoverRelative < LIQUIDITY_MIN_RELATIVE_ACTIVITY)
            && (Fails(gates, ChaseLimit)
                <==> f.pctAboveBAvg.Some? && f.pctAboveBAvg.value > cfg.risk.chaseMaxPctAboveBAvg)
            && (Fails(gates, BrokerFlipOrDistribution) <==> f.brokerFlip || f.failedAbsorption)
            && (Fails(gates, NewsReview) <==> input.hasUnreviewedNews)
            && (Fails(gates, NetRrMin) <==> input.netRewardToRiskEstimate < cfg.risk.minNetRewardToRisk)
            && (Fails(gates, UserRiskLimit) <==>
                  input.userOpenRiskPct > cfg.risk.riskPerTradePctMax * cfg.risk.maxSimultaneousPositions)
            && (Fails(gates, ConcentrationGate) <==>
                  !BrokerConcentration.GatePasses(f.buyers, f.persistenceDays, cfg.concentration))
  {
    var gates := EvaluateGates(input, cfg);
    forall k: nat | k < |gates| ensures Fails(gates, gates[k].gate) <==> !gates[k].passed {
      OnlyOneResult(gates, k);
    }
    hide Fails;
    assert gates[0].gate == Freshness && gates[1].gate == SegmentSeparation && gates[2].gate == Liquidity;
    assert gates[3].gate == ChaseLimit && gates[4].gate == BrokerFlipOrDistribution && gates[5].gate == NewsReview;
    assert gates[6].gate == NetRrMin && gates[7].gate == UserRiskLimit && gates[8].gate == ConcentrationGate;
  }

  lemma OnlyOneResult(gates: seq<GateResult>, k: nat)
    requires k < |gates| && forall j :: 0 <= j < |gates| && j != k ==> gates[j].gate != gates[k].gate
    ensures Fails(gates, gates[k].gate) <==> !gates[k].passed
  {
    if !gates[k].passed { assert gates[k] == GateResult(gates[k].gate, false); }
  }

  lemma {:induction false} FirstForcingOf(gates: seq<GateResult>)
    ensures FirstForcing(Failed(gates)) ==
            if gates == [] then None
            else if !gates[0].passed && ForcesNoTrade(gates[0].gate) then Some(gates[0].gate)
            else FirstForcing(Failed(gates[1..]))
  {
    if gates != [] {
      var rest := Failed(gates[1..]);
      assert Failed(gates) == if gates[0].passed then rest else [gates[0].gate] + rest;
      assert !gates[0].passed ==> Failed(gates)[1..] == rest;
    }
  }

  /** The reported reason is the first forcing condition, in this order. */
  function ForcingReason(input: ScoringInput, cfg: StrategyConfig): Option<Gate> {
    if input.features.dataStale then Some(Freshness)
    else if input.features.segmentMixed then Some(SegmentSeparation)
    else if input.netRewardToRiskEstimate < cfg.risk.minNetRewardToRisk then Some(NetRrMin)
    else if input.userOpenRiskPct > cfg.risk.riskPerTradePctMax * cfg.risk.maxSimultaneousPositions then
      Some(UserRiskLimit)
    else None
  }

  /** What keeps a candidate from being bought or watched without forcing NO_TRADE. */
  predicate Vetoed(input: ScoringInput, cfg: StrategyConfig) {
    var f, c, limits := input.features, input.features.buyers, cfg.concentration;
    || (f.volumePace < 0.2 && f.turnoverRelative < 0.2)
    || (f.pctAboveBAvg.Some? && f.pctAboveBAvg.value > cfg.risk.chaseMaxPctAboveBAvg)
    || f.brokerFlip || f.failedAbsorption || input.hasUnreviewedNews
    || c.top1Share > limits.top1ShareMax || c.top3Share > limits.top3ShareMax || c.hhi > limits.hhiMax
    || c.meaningfulBuyerCount < limits.minMeaningfulBuyers || f.persistenceDays < limits.persistenceMinDays
  }

  /** The score in words of the input: reason, vetoes, and then the bands in falling order. */
  lemma ScoreInWords(input: ScoringInput, cfg: StrategyConfig)
    ensures var score, composite := ScoreCandidate(input, cfg), input.features.composite;
            && score.composite == composite
            && score.noTradeGate == ForcingReason(input, cfg)
            && score.category ==
               if ForcingReason(input, cfg).Some? then NoTrade
               else if Vetoed(input, cfg) then Avoid
               else if composite >= cfg.strongBuyMin then StrongBuy
               else if composite >= cfg.speculativeBuyMin then SpeculativeBuy
               else if composite >= cfg.watchlistMin then Watchlist
               else Avoid
  {
    var gates := EvaluateGates(input, cfg);
    ReasonIsFirst(input, cfg);
    if ForcingReason(input, cfg).None? { FailedIffVetoed(input, cfg); }
    hide EvaluateGates, Failed, FirstForcing, Vetoed;
  }

  lemma ReasonIsFirst(input: ScoringInput, cfg: StrategyConfig)
    ensures FirstForcing(Failed(EvaluateGates(input, cfg))) == ForcingReason(input, cfg)
  {
    var g := EvaluateGates(input, cfg);
    hide Failed, FirstForcing, EvaluateGates;
    EvaluatedGates(input, cfg);
    FirstForcingOf(g);
    FirstForcingOf(g[1..]);
    FirstForcingOf(g[2..]);
    FirstForcingOf(g[3..]);
    FirstForcingOf(g[4..]);
    FirstForcingOf(g[5..]);
    FirstForcingOf(g[6..]);
    FirstForcingOf(g[7..]);
    FirstForcingOf(g[8..]);
    FirstForcingOf(g[9..]);
    assert forall k :: 0 <= k < 9 ==> g[k..][1..] == g[k + 1..];
    assert g[0..] == g;
  }

  lemma EvaluatedGates(input: ScoringInput, cfg: StrategyConfig)
    ensures var g, f := EvaluateGates(input, cfg), input.features;
            var limit := cfg.risk.riskPerTradePctMax * cfg.risk.maxSimultaneousPositions;
            && |g| == 9
            && g[0] == GateResult(Freshness, !f.dataStale) && g[1] == GateResult(SegmentSeparation, !f.segmentMixed)
            && !ForcesNoTrade(g[2].gate) && !ForcesNoTrade(g[3].gate)
            && !ForcesNoTrade(g[4].gate) && !ForcesNoTrade(g[5].gate)
            && g[6] == GateResult(NetRrMin, input.netRewardToRiskEstimate >= cfg.risk.minNetRewardToRisk)
            && g[7] == GateResult(UserRiskLimit, input.userOpenRiskPct <= limit)
            && !ForcesNoTrade(g[8].gate)
  {
  }

  lemma FailedIffVetoed(input: ScoringInput, cfg: StrategyConfig)
    requires ForcingReason(input, cfg).None?
    ensures Failed(EvaluateGates(input, cfg)) != [] <==> Vetoed(input, cfg)
  {
    var gates := EvaluateGates(input, cfg);
    GateFailsIff(input, cfg);
    hide EvaluateGates, Failed, Fails;
    forall g ensures g in Failed(gates) <==> Fails(gates, g) { FailedAreFailed(gates, g); }
    if Vetoed(input, cfg) {
      assert Liquidity in Failed(gates) || ChaseLimit in Failed(gates) || BrokerFlipOrDistribution in Failed(gates)
             || NewsReview in Failed(gates) || ConcentrationGate in Failed(gates);
    } else if Failed(gates) != [] {
      var g := Failed(gates)[0];
      assert Fails(gates, g);
      match g
      case Freshness =>
      case SegmentSeparation =>
      case Liquidity =>
      case ChaseLimit =>
      case BrokerFlipOrDistribution =>
      case NewsReview =>
      case NetRrMin =>
      case UserRiskLimit =>
      case ConcentrationGate =>
    }
  }

  datatype Signal = Signal(symbol: string, category: Category, composite: real, plan: Option<TradePlan>)

  /** Only the category NO_TRADE drops the plan; an AVOID signal keeps it. */
  function AssembleSignal(features: Features, score: ScoreResult, plan: Option<TradePlan>): Signal {
    Signal(features.symbol, score.category, score.composite, if score.category.NoTrade? then None else plan)
  }
}
