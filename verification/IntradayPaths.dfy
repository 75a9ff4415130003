/** The bar rule against a point-by-point simulator that follows the price through the day. */
module IntradayPaths {
  import opened Options
  import opened Reals
  import opened RiskEngine
  import opened FillSimulation
  import opened ExitTraces

  /**
   * A day's prices, monotone between consecutive points: from open to close, touching the high and the low, never
   * leaving them.
   */
  ghost predicate PathOf(path: seq<real>, b: Bar) {
    && |path| >= 1
    && path[0] == b.open && path[|path| - 1] == b.close
    && b.high in path && b.low in path
    && (forall k :: 0 <= k < |path| ==> b.low <= path[k] <= b.high)
  }

  /** Orders that the opening price executes at once. */
  function AtOpen(p: Position, plan: TradePlan, f: real, b: Bar): Position {
    if b.open <= p.stop then Liquidate(p, b.open, b.date, StopLoss, true)
    else
      var q := if b.open >= plan.tp1Price && !p.tp1Done then TakeTp1(p, f, b.open, b.date, true) else p;
      if q.lots1 == 0 && b.open >= plan.tp2Price then TakeTp2(q, b.open, b.date, true) else q
  }

  /** The price moves straight to a new level: down into the stop, or up through the targets in order. */
  function MoveTo(p: Position, plan: TradePlan, f: real, level: real, date: Day): Position {
    if p.closed then p
    else if level <= p.stop then Liquidate(p, p.stop, date, StopLoss, false)
    else
      var q := if level >= plan.tp1Price && !p.tp1Done then TakeTp1(p, f, plan.tp1Price, date, false) else p;
      if q.lots1 == 0 && level >= plan.tp2Price then TakeTp2(q, plan.tp2Price, date, false) else q
  }

  function Follow(p: Position, plan: TradePlan, f: real, path: seq<real>, date: Day): Position {
    if path == [] then p
    else MoveTo(Follow(p, plan, f, path[..|path| - 1], date), plan, f, path[|path| - 1], date)
  }

  function PathResult(p: Position, plan: TradePlan, f: real, path: seq<real>, b: Bar): Position {
    Follow(AtOpen(p, plan, f, b), plan, f, path, b.date)
  }

  function Times(lots: int, price: real): real {
    price * lots as real
  }

  /** Money taken out so far, with what is still held valued at a price. */
  function Value(p: Position, mark: real): real {
    Proceeds(p.legs) + Times(p.lots1 + p.lots2, mark)
  }

  function Proceeds(legs: seq<ExitLeg>): real {
    if legs == [] then 0.0 else Proceeds(legs[..|legs| - 1]) + Times(legs[|legs| - 1].lots, legs[|legs| - 1].price)
  }

  lemma ProceedsOfOneMore(legs: seq<ExitLeg>, leg: ExitLeg)
    ensures Proceeds(legs + [leg]) == Proceeds(legs) + Times(leg.lots, leg.price)
  {
    assert (legs + [leg])[..|legs + [leg]| - 1] == legs;
  }

  /** A position the walk can reach, before or after its first target. */
  predicate Live(p: Position, plan: TradePlan, f: real) {
    && !p.closed && 0 <= p.lots1 && 0 <= p.lots2
    && plan.slPrice < plan.tp1Price <= plan.tp2Price && f < plan.tp1Price
    && (if p.tp1Done then p.lots1 == 0 && p.stop == f else p.lots1 + p.lots2 >= 1 && p.stop == plan.slPrice)
  }

  /** The level at which the next lots are sold. */
  function NextTarget(p: Position, plan: TradePlan): real {
    if p.lots1 == 0 then plan.tp2Price else plan.tp1Price
  }

  /** Both targets have lots and a day that opens below the first one reaches it. */
  predicate ReachesTp1(p: Position, plan: TradePlan, b: Bar) {
    && !p.tp1Done && p.lots1 > 0 && p.lots2 > 0
    && p.stop < b.open < plan.tp1Price <= b.high && plan.tp1Price < plan.tp2Price
  }

  /** The stop held, and breakeven lay within the day's range after all. */
  predicate BreakevenNotRechecked(p: Position, plan: TradePlan, f: real, b: Bar) {
    ReachesTp1(p, plan, b) && p.stop < b.low <= f && (b.high >= plan.tp2Price || b.close > f)
  }

  /**
   * The stop was touched too, but selling it all there beats the first target followed by a fill far below the stop.
   */
  predicate StopFirstFlatters(p: Position, plan: TradePlan, f: real, b: Bar) {
    && ReachesTp1(p, plan, b) && b.low <= p.stop
    && var stopped, first := Times(p.lots1, p.stop) + Times(p.lots2, p.stop), Times(p.lots1, plan.tp1Price);
       if b.low <= f then first + Times(p.lots2, f) < stopped
       else b.high < plan.tp2Price && first + Times(p.lots2, b.close) < stopped
  }

  /** The two families of bars on which the booked result beats some path the day may have taken. */
  predicate Optimistic(p: Position, plan: TradePlan, f: real, b: Bar) {
    BreakevenNotRechecked(p, plan, f, b) || StopFirstFlatters(p, plan, f, b)
  }

  /** The day ends below breakeven, so that every path sold the rest there, while the rule still holds it. */
  predicate HeldBelowBreakeven(p: Position, plan: TradePlan, f: real, b: Bar) {
    ReachesTp1(p, plan, b) && p.stop < b.low && b.high < plan.tp2Price && b.close < f
  }

  // ----- what can have become of the lots since the open -----

  datatype Fate = Held | StoppedOut | Half | Breakeven | BothTargets

  /** Where the lots held after the open stand: an untouched position holds both halves, a runner the second. */
  function StartFate(p: Position): Fate {
    if p.tp1Done then Half else Held
  }

  /** A price level decides the fate of lots whose next target is t. */
  function FateAfter(fate: Fate, level: real, t: real, plan: TradePlan, f: real): Fate {
    match fate
    case Held => if level <= plan.slPrice then StoppedOut
                 else if level >= plan.tp2Price then BothTargets
                 else if level >= t then Half else Held
    case Half => if level <= f then Breakeven else if level >= plan.tp2Price then BothTargets else Half
    case _ => fate
  }

  function FateAlong(fate: Fate, path: seq<real>, t: real, plan: TradePlan, f: real): Fate {
    if path == [] then fate
        else FateAfter(FateAlong(fate, path[..|path| - 1], t, plan, f), path[|path| - 1], t, plan, f)
  }

  /** The fate a path brings upon the lots of p. */
  function PathFate(p: Position, path: seq<real>, plan: TradePlan, f: real): Fate {
    FateAlong(StartFate(p), path, NextTarget(p, plan), plan, f)
  }

  /** What position q shows when that fate has befallen the lots of p. */
  ghost predicate Shows(p: Position, q: Position, fate: Fate, plan: TradePlan, f: real) {
    var out := Proceeds(q.legs) - Proceeds(p.legs);
    match fate
    case Held => q == p
    case StoppedOut => q.lots1 == q.lots2 == 0 && out == Times(p.lots1 + p.lots2, plan.slPrice)
    case Half => !q.closed && q.tp1Done && q.stop == f && q.lots1 == 0 && q.lots2 == p.lots2
        && out == Times(p.lots1, plan.tp1Price)
    case Breakeven => q.lots1 == q.lots2 == 0 && out == Times(p.lots1, plan.tp1Price) + Times(p.lots2, f)
    case BothTargets => q.lots1 == q.lots2 == 0 && out == Times(p.lots1, plan.tp1Price) + Times(p.lots2, plan.tp2Price)
  }

  lemma SaleProceeds(legs: seq<ExitLeg>)
    ensures forall leg :: Proceeds(legs + [leg]) == Proceeds(legs) + Times(leg.lots, leg.price)
  {
    forall leg ensures Proceeds(legs + [leg]) == Proceeds(legs) + Times(leg.lots, leg.price) {
      ProceedsOfOneMore(legs, leg);
    }
  }

  lemma NothingSold(price: real)
    ensures Times(0, price) == 0.0
  {
  }

  lemma MoveShowsFate(p: Position, q: Position, fate: Fate, level: real, plan: TradePlan, f: real, date: Day)
    requires Live(p, plan, f) && p.lots1 + p.lots2 > 0 && (fate.Held? ==> !p.tp1Done) && Shows(p, q, fate, plan, f)
    ensures Shows(p, MoveTo(q, plan, f, level, date), FateAfter(fate, level, NextTarget(p, plan), plan, f), plan, f)
  {
    hide Times, Proceeds;
    SaleProceeds(q.legs);
    NothingSold(f);
    NothingSold(plan.tp1Price);
    NothingSold(plan.tp2Price);
    if fate.Held? && level > plan.slPrice && level >= plan.tp1Price {
      SaleProceeds(TakeTp1(q, f, plan.tp1Price, date, false).legs);
    }
  }

  lemma {:induction false} PathShowsFate(p: Position, path: seq<real>, plan: TradePlan, f: real, date: Day)
    requires Live(p, plan, f) && p.lots1 + p.lots2 > 0
    ensures Shows(p, Follow(p, plan, f, path, date), PathFate(p, path, plan, f), plan, f)
    ensures PathFate(p, path, plan, f).Held? ==> !p.tp1Done
    decreases |path|
  {
    if path == [] {
      NothingSold(plan.tp1Price);
    } else {
      var init := path[..|path| - 1];
      PathShowsFate(p, init, plan, f, date);
      MoveShowsFate(p, Follow(p, plan, f, init, date), PathFate(p, init, plan, f), path[|path| - 1], plan, f, date);
    }
  }

  /** What a fate says about the levels the path has been through, and so about the bar it belongs to. */
  ghost predicate Explains(fate: Fate, start: Fate, path: seq<real>, b: Bar, t: real, plan: TradePlan, f: real) {
    match fate
    case Held => start.Held? && forall k :: 0 <= k < |path| ==> plan.slPrice < path[k] < t
    case StoppedOut => start.Held? && b.low <= plan.slPrice
    case Half =>
      && (forall k :: 0 <= k < |path| ==>
          path[k] < plan.tp2Price && path[k] > if start.Held? then MinReal(plan.slPrice, f) else f)
      && (path != [] ==> path[|path| - 1] > f)
      && (start.Held? ==> b.high >= t && t < plan.tp2Price)
    case Breakeven => b.low <= f && (start.Held? ==> b.high >= t && t < plan.tp2Price)
    case BothTargets => b.high >= plan.tp2Price
  }

  lemma {:induction false} FateIsExplained(start: Fate, path: seq<real>, b: Bar, t: real, plan: TradePlan, f: real)
    requires plan.slPrice < t <= plan.tp2Price && f < t && (start.Held? || start.Half?)
    requires forall k :: 0 <= k < |path| ==> b.low <= path[k] <= b.high
    ensures Explains(FateAlong(start, path, t, plan, f), start, path, b, t, plan, f)
    decreases |path|
  {
    if path != [] {
      var init := path[..|path| - 1];
      FateIsExplained(start, init, b, t, plan, f);
      assert forall k :: 0 <= k < |path| ==> path[k] == if k < |init| then init[k] else path[|path| - 1];
    }
  }

  /** The fate the bar rule books for lots still held after the open. */
  function BookedFate(p: Position, plan: TradePlan, b: Bar): Fate {
    if b.low <= p.stop then (if p.tp1Done then Breakeven else StoppedOut)
    else if b.high >= plan.tp2Price then BothTargets
    else if p.tp1Done || b.high >= NextTarget(p, plan) then Half
    else Held
  }

  lemma BarShowsBookedFate(p: Position, plan: TradePlan, f: real, b: Bar)
    requires Live(p, plan, f) && p.lots1 + p.lots2 > 0
    ensures Shows(p, WithinBar(p, plan, f, b), BookedFate(p, plan, b), plan, f)
  {
    hide Times, Proceeds;
    SaleProceeds(p.legs);
    SaleProceeds(TakeTp1(p, f, plan.tp1Price, b.date, false).legs);
    NothingSold(plan.tp1Price);
    NothingSold(plan.tp2Price);
  }

  /** Value of a fate at the close, beyond what was banked before. */
  function Worth(p: Position, fate: Fate, plan: TradePlan, f: real, close: real): real {
    match fate
    case Held => Times(p.lots1, close) + Times(p.lots2, close)
    case StoppedOut => Times(p.lots1, plan.slPrice) + Times(p.lots2, plan.slPrice)
    case Half => Times(p.lots1, plan.tp1Price) + Times(p.lots2, close)
    case Breakeven => Times(p.lots1, plan.tp1Price) + Times(p.lots2, f)
    case BothTargets => Times(p.lots1, plan.tp1Price) + Times(p.lots2, plan.tp2Price)
  }

  lemma ValueOfFate(p: Position, q: Position, fate: Fate, plan: TradePlan, f: real, close: real)
    requires Shows(p, q, fate, plan, f)
    ensures Value(q, close) == Proceeds(p.legs) + Worth(p, fate, plan, f, close)
  {
    TimesAdd(p.lots1, p.lots2, close);
    TimesAdd(p.lots1, p.lots2, plan.slPrice);
  }

  lemma TimesAdd(a: int, b: int, price: real)
    ensures Times(a + b, price) == Times(a, price) + Times(b, price)
  {
    var x, y := a as real, b as real;
    assert price * (x + y) == price * x + price * y;
  }

  lemma TimesOrder(lots: int, low: real, high: real)
    requires lots >= 0 && low <= high
    ensures Times(lots, low) <= Times(lots, high)
    ensures lots > 0 && low < high ==> Times(lots, low) < Times(lots, high)
  {
    var l := lots as real;
    var a, c := low * l, high * l;
    assert Times(lots, low) == a && Times(lots, high) == c;
    assert a <= c by { Scale(low, high, l); }
    assert lots > 0 && low < high ==> a < c by { if lots > 0 && low < high { ScaleStrict(low, high, l); } }
  }

  /** After the open the position waits strictly between its active levels. */
  predicate Waiting(p: Position, plan: TradePlan, f: real, b: Bar) {
    Live(p, plan, f) && p.lots1 + p.lots2 > 0 && p.stop < b.open < NextTarget(p, plan)
  }

  // ----- the booked fate against the fate of a path -----

  /** Outside the optimistic families the booked fate is worth no more than the fate of any path of the bar. */
  lemma BookedIsWorst(p: Position, plan: TradePlan, f: real, b: Bar, path: seq<real>)
    requires Waiting(p, plan, f, b) && PathOf(path, b) && !Optimistic(p, plan, f, b)
    ensures Worth(p, BookedFate(p, plan, b), plan, f, b.close) <= Worth(p, PathFate(p, path, plan, f), plan, f, b.close)
  {
    hide Times;
    FateIsExplained(StartFate(p), path, b, NextTarget(p, plan), plan, f);
    var hi :| 0 <= hi < |path| && path[hi] == b.high;
    var lo :| 0 <= lo < |path| && path[lo] == b.low;
    TimesOrder(p.lots1, plan.slPrice, plan.tp1Price);
    TimesOrder(p.lots2, plan.slPrice, plan.tp2Price);
    TimesOrder(p.lots2, f, plan.tp2Price);
    if b.close <= f { TimesOrder(p.lots2, b.close, f); }
    NothingSold(b.close);
    NothingSold(f);
    NothingSold(plan.slPrice);
    NothingSold(plan.tp1Price);
    NothingSold(plan.tp2Price);
  }

  /** Inside them the day may have turned at the first target and gone down before it went up: worth strictly less. */
  lemma OptimisticHasAWorsePath(p: Position, plan: TradePlan, f: real, b: Bar) returns (path: seq<real>)
    requires Waiting(p, plan, f, b) && Optimistic(p, plan, f, b) && WellFormed(b)
    ensures PathOf(path, b)
    ensures Worth(p, PathFate(p, path, plan, f), plan, f, b.close) < Worth(p, BookedFate(p, plan, b), plan, f, b.close)
  {
    hide Times;
    path := [b.open, plan.tp1Price, b.low, b.high, b.close];
    TimesOrder(p.lots2, f, plan.tp2Price);
    assert path[3] == b.high && path[2] == b.low;
    if b.close > f { TimesOrder(p.lots2, f, b.close); }
    TurningAtTp1(path, plan, f);
  }

  lemma TurningAtTp1(path: seq<real>, plan: TradePlan, f: real)
    requires |path| == 5 && plan.slPrice < path[0] < plan.tp1Price == path[1] < plan.tp2Price && f < path[1]
    ensures path[2] <= f ==> FateAlong(Held, path, plan.tp1Price, plan, f) == Breakeven
    ensures f < path[2] < plan.tp2Price && f < path[3] < plan.tp2Price && f < path[4] < plan.tp2Price ==>
              FateAlong(Held, path, plan.tp1Price, plan, f) == Half
  {
    var t := plan.tp1Price;
    assert path[..4][..3] == path[..3] && path[..3][..2] == path[..2] && path[..2][..1] == path[..1]
        && path[..1][..0] == [];
    assert FateAlong(Held, path[..1], t, plan, f) == Held;
    assert FateAlong(Held, path[..2], t, plan, f) == Half;
    assert FateAlong(Held, path[..3], t, plan, f) == FateAfter(Half, path[2], t, plan, f);
    assert FateAlong(Held, path[..4], t, plan, f)
        == FateAfter(FateAfter(Half, path[2], t, plan, f), path[3], t, plan, f);
  }

  function OpenLowHighClose(b: Bar): seq<real> {
    [b.open, b.low, b.high, b.close]
  }

  lemma OpenLowHighCloseIsAPath(b: Bar)
    requires WellFormed(b)
    ensures PathOf(OpenLowHighClose(b), b)
  {
    assert OpenLowHighClose(b)[1] == b.low && OpenLowHighClose(b)[2] == b.high;
  }

  /** Unless the day ends below breakeven, the rule books what the open-low-high-close day is worth. */
  lemma BookedIsOpenLowHighClose(p: Position, plan: TradePlan, f: real, b: Bar)
    requires Waiting(p, plan, f, b) && WellFormed(b) && !HeldBelowBreakeven(p, plan, f, b)
    ensures Worth(p, PathFate(p, OpenLowHighClose(b), plan, f), plan, f, b.close)
            == Worth(p, BookedFate(p, plan, b), plan, f, b.close)
  {
    hide Times;
    NothingSold(b.close);
    NothingSold(f);
    var path, t := OpenLowHighClose(b), NextTarget(p, plan);
    assert path[..3][..2] == path[..2] && path[..2][..1] == path[..1] && path[..1][..0] == [];
    assert FateAlong(StartFate(p), path[..1], t, plan, f) == StartFate(p);
    assert FateAlong(StartFate(p), path[..2], t, plan, f) == FateAfter(StartFate(p), b.low, t, plan, f);
    assert FateAlong(StartFate(p), path[..3], t, plan, f)
        == FateAfter(FateAfter(StartFate(p), b.low, t, plan, f), b.high, t, plan, f);
  }

  /** If it does end there, every path has sold the rest at breakeven, for more than the close. */
  lemma HeldBelowBreakevenIsStrict(p: Position, plan: TradePlan, f: real, b: Bar, path: seq<real>)
    requires Waiting(p, plan, f, b) && PathOf(path, b) && HeldBelowBreakeven(p, plan, f, b)
    ensures Worth(p, BookedFate(p, plan, b), plan, f, b.close) < Worth(p, PathFate(p, path, plan, f), plan, f, b.close)
  {
    hide Times;
    FateIsExplained(StartFate(p), path, b, NextTarget(p, plan), plan, f);
    var hi :| 0 <= hi < |path| && path[hi] == b.high;
    TimesOrder(p.lots2, b.close, f);
  }

  // ----- the whole bar, opening included -----

  /** When nothing is left after the open, neither rule nor path changes what was booked. */
  lemma {:induction false} FlatStaysFlat(p: Position, path: seq<real>, plan: TradePlan, f: real, date: Day)
    requires p.lots1 == 0 && p.lots2 == 0
    ensures var q := Follow(p, plan, f, path, date); q.legs == p.legs && q.lots1 == 0 && q.lots2 == 0
    decreases |path|
  {
    if path != [] {
      FlatStaysFlat(p, path[..|path| - 1], plan, f, date);
    }
  }

  lemma OpeningAgrees(p: Position, plan: TradePlan, f: real, b: Bar)
    requires Live(p, plan, f) && WellFormed(b)
    ensures var q := AtOpen(p, plan, f, b);
            if q.lots1 == 0 && q.lots2 == 0 then
              var r := BarStep(p, plan, f, b); r.legs == q.legs && r.lots1 == 0 && r.lots2 == 0
            else
              Waiting(q, plan, f, b) && BarStep(p, plan, f, b) == WithinBar(q, plan, f, b)
    ensures ReachesTp1(p, plan, b) ==> AtOpen(p, plan, f, b) == p
    ensures ReachesTp1(AtOpen(p, plan, f, b), plan, b) ==> AtOpen(p, plan, f, b) == p
  {
  }

  /** Worth of the lots held after the open decides the comparison of the booked value with a path's. */
  lemma ValuesCompareAsWorths(p: Position, plan: TradePlan, f: real, b: Bar, path: seq<real>)
    requires Live(p, plan, f) && WellFormed(b)
    ensures var q := AtOpen(p, plan, f, b);
            var booked, followed :=
                Value(BarStep(p, plan, f, b), b.close), Value(PathResult(p, plan, f, path, b), b.close);
            if q.lots1 == 0 && q.lots2 == 0 then booked == followed
            else
              && Waiting(q, plan, f, b)
              && booked - followed ==
                 Worth(q, BookedFate(q, plan, b), plan, f, b.close)
                     - Worth(q, PathFate(q, path, plan, f), plan, f, b.close)
  {
    hide WithinBar, BarStep, AtOpen, Worth, BookedFate, PathFate, Follow;
    var q := AtOpen(p, plan, f, b);
    OpeningAgrees(p, plan, f, b);
    if q.lots1 == 0 && q.lots2 == 0 {
      FlatStaysFlat(q, path, plan, f, b.date);
    } else {
      hide Value;
      BarShowsBookedFate(q, plan, f, b);
      PathShowsFate(q, path, plan, f, b.date);
      ValueOfFate(q, WithinBar(q, plan, f, b), BookedFate(q, plan, b), plan, f, b.close);
      ValueOfFate(q, Follow(q, plan, f, path, b.date), PathFate(q, path, plan, f), plan, f, b.close);
    }
  }

  ghost predicate NeverOverstates(booked: Position, p: Position, plan: TradePlan, f: real, b: Bar) {
    forall path :: PathOf(path, b) ==> Value(booked, b.close) <= Value(PathResult(p, plan, f, path, b), b.close)
  }

  ghost predicate MatchesSomePath(booked: Position, p: Position, plan: TradePlan, f: real, b: Bar) {
    exists path :: PathOf(path, b) && Value(booked, b.close) == Value(PathResult(p, plan, f, path, b), b.close)
  }

  /**
   * The same-bar rule never overstates, exactly outside two families of bars: every path the day can have taken
   * is worth at least the booked result if and only if the bar is not Optimistic.
   */
  lemma BookedIsPessimisticIff(p: Position, plan: TradePlan, f: real, b: Bar)
    requires Live(p, plan, f) && WellFormed(b)
    ensures NeverOverstates(BarStep(p, plan, f, b), p, plan, f, b) <==> !Optimistic(p, plan, f, b)
  {
    hide WithinBar, BarStep, AtOpen, Worth, BookedFate, PathFate, PathResult, Value;
    var q := AtOpen(p, plan, f, b);
    OpeningAgrees(p, plan, f, b);
    if !Optimistic(p, plan, f, b) {
      forall path | PathOf(path, b)
        ensures Value(BarStep(p, plan, f, b), b.close) <= Value(PathResult(p, plan, f, path, b), b.close)
      {
        PathIsNoWorse(p, plan, f, b, path);
      }
    } else {
      var path := OptimisticHasAWorsePath(p, plan, f, b);
      ValuesCompareAsWorths(p, plan, f, b, path);
    }
  }

  lemma PathIsNoWorse(p: Position, plan: TradePlan, f: real, b: Bar, path: seq<real>)
    requires Live(p, plan, f) && WellFormed(b) && !Optimistic(p, plan, f, b) && PathOf(path, b)
    ensures Value(BarStep(p, plan, f, b), b.close) <= Value(PathResult(p, plan, f, path, b), b.close)
  {
    hide WithinBar, BarStep, AtOpen, Worth, BookedFate, PathFate, PathResult, Value;
    var q := AtOpen(p, plan, f, b);
    OpeningAgrees(p, plan, f, b);
    ValuesCompareAsWorths(p, plan, f, b, path);
    if q.lots1 != 0 || q.lots2 != 0 {
      BookedIsWorst(q, plan, f, b, path);
    }
  }

  /**
   * The booked result is the minimum over all paths exactly when the bar is neither Optimistic nor HeldBelowBreakeven.
   */
  lemma BookedIsTheMinimumIff(p: Position, plan: TradePlan, f: real, b: Bar)
    requires Live(p, plan, f) && WellFormed(b)
    ensures NeverOverstates(BarStep(p, plan, f, b), p, plan, f, b)
            && MatchesSomePath(BarStep(p, plan, f, b), p, plan, f, b)
            <==> !Optimistic(p, plan, f, b) && !HeldBelowBreakeven(p, plan, f, b)
  {
    hide WithinBar, BarStep, AtOpen, Worth, BookedFate, PathFate, PathResult, Value, Optimistic;
    var q := AtOpen(p, plan, f, b);
    OpeningAgrees(p, plan, f, b);
    BookedIsPessimisticIff(p, plan, f, b);
    if HeldBelowBreakeven(p, plan, f, b) {
      forall path | PathOf(path, b)
        ensures Value(BarStep(p, plan, f, b), b.close) < Value(PathResult(p, plan, f, path, b), b.close)
      {
        ValuesCompareAsWorths(p, plan, f, b, path);
        HeldBelowBreakevenIsStrict(p, plan, f, b, path);
      }
    } else {
      OpenLowHighCloseIsAPath(b);
      ValuesCompareAsWorths(p, plan, f, b, OpenLowHighClose(b));
      if q.lots1 != 0 || q.lots2 != 0 {
        BookedIsOpenLowHighClose(q, plan, f, b);
      }
    }
  }

  /** Touching the active stop books, leg for leg, the day that goes down first: open, low, high, close. */
  lemma StopFirstIsOpenLowHighClose(p: Position, plan: TradePlan, f: real, b: Bar)
    requires Waiting(p, plan, f, b) && WellFormed(b) && b.low <= p.stop
    ensures PathOf(OpenLowHighClose(b), b)
    ensures PathResult(p, plan, f, OpenLowHighClose(b), b) == BarStep(p, plan, f, b)
  {
    var path := OpenLowHighClose(b);
    OpenLowHighCloseIsAPath(b);
    assert path[..3][..2] == path[..2] && path[..2][..1] == path[..1] && path[..1][..0] == [];
    assert Follow(p, plan, f, path[..1], b.date) == p;
    assert Follow(p, plan, f, path[..2], b.date) == BarStep(p, plan, f, b);
    assert Follow(p, plan, f, path[..3], b.date) == BarStep(p, plan, f, b);
  }

  /** Both verdicts apply to every bar of every walk. */
  lemma EveryWalkBarIsJudged(plan: TradePlan, f: real, filled: nat, bars: seq<Bar>, b: Bar)
    requires Levels(plan, f) && Splits(plan, filled) && AllWellFormed(bars) && WellFormed(b)
    requires !Walk(plan, f, filled, bars).closed
    ensures var p, next := Walk(plan, f, filled, bars), Walk(plan, f, filled, bars + [b]);
            && Live(p, plan, f)
            && (NeverOverstates(next, p, plan, f, b) <==> !Optimistic(p, plan, f, b))
            && (NeverOverstates(next, p, plan, f, b) && MatchesSomePath(next, p, plan, f, b)
                <==> !Optimistic(p, plan, f, b) && !HeldBelowBreakeven(p, plan, f, b))
  {
    hide NeverOverstates, MatchesSomePath, Optimistic, HeldBelowBreakeven, BarStep, ScaleToFilledLots;
    assert (bars + [b])[..|bars + [b]| - 1] == bars;
    WalkKeepsInvariant(plan, f, filled, bars);
    BookedIsPessimisticIff(Walk(plan, f, filled, bars), plan, f, b);
    BookedIsTheMinimumIff(Walk(plan, f, filled, bars), plan, f, b);
  }

  // ----- both families arise, from plans of the engine, fills of the simulator and its first bar -----

  /** A path over four points, the first two of them met in an untouched position below its first target. */
  lemma FollowFour(p: Position, plan: TradePlan, f: real, b: Bar, path: seq<real>)
    requires Waiting(p, plan, f, b) && |path| >= 3 && path[0] == b.open
    ensures |path| == 3 ==>
              PathResult(p, plan, f, path, b) == MoveTo(MoveTo(p, plan, f, path[1], b.date), plan, f, path[2], b.date)
    ensures |path| == 4 ==>
              PathResult(p, plan, f, path, b)
              == MoveTo(MoveTo(MoveTo(p, plan, f, path[1], b.date), plan, f, path[2], b.date), plan, f, path[3], b.date)
  {
    assert path[..3][..2] == path[..2] && path[..2][..1] == path[..1] && path[..1][..0] == [];
    assert Follow(p, plan, f, path[..1], b.date) == p;
    assert Follow(p, plan, f, path[..2], b.date) == MoveTo(p, plan, f, path[1], b.date);
    assert Follow(p, plan, f, path[..3], b.date)
        == MoveTo(MoveTo(p, plan, f, path[1], b.date), plan, f, path[2], b.date);
    assert |path| == 3 ==> path[..3] == path;
  }

  const EARLY_DIP := Bar(2, 1050.0, 1120.0, 990.0, 1080.0, 100_000.0, None)

  /**
   * A fill at the trigger; the next day turns down at 1120, through breakeven, and closes above it. Counted in shares
   * per lot, the rule books 5460 and the path is worth 5300.
   */
  lemma BreakevenCanBeMissed()
    ensures var plan := BuildRiskPlan(AtOneThousand(950.0, StrongBuy), DEFAULT_RISK);
            var entryBar, b, path :=
                Bar(1, 1000.0, 1010.0, 990.0, 1000.0, 100_000.0, None), EARLY_DIP, [1050.0, 1120.0, 990.0, 1080.0];
            && !plan.isNoTrade
                && SimulateEntry(plan, entryBar, DEFAULT_RISK, DEFAULT_FILL_FRACTION) == Filled(1000.0, 5, 1, false)
            && BreakevenNotRechecked(Start(plan, 5), plan, 1000.0, b) && PathOf(path, b)
            && Value(Walk(plan, 1000.0, 5, [b]), b.close) == 5460.0
            && Value(PathResult(Start(plan, 5), plan, 1000.0, path, b), b.close) == 5300.0
  {
    hide BuildRiskPlan;
    PlanWithStop950(StrongBuy);
    DipIsMissed(BuildRiskPlan(AtOneThousand(950.0, StrongBuy), DEFAULT_RISK));
  }

  lemma DipIsMissed(plan: TradePlan)
    requires plan.slPrice == 950.0 && plan.tp1Price == 1100.0 && plan.tp2Price == 1150.0
    requires plan.totalLots == 5 && plan.tp1Lots == 3 && plan.tp2Lots == 2
    ensures var b, path := EARLY_DIP, [1050.0, 1120.0, 990.0, 1080.0];
            && BreakevenNotRechecked(Start(plan, 5), plan, 1000.0, b) && PathOf(path, b)
            && Value(Walk(plan, 1000.0, 5, [b]), b.close) == 5460.0
            && Value(PathResult(Start(plan, 5), plan, 1000.0, path, b), b.close) == 5300.0
  {
    var b, path := EARLY_DIP, [1050.0, 1120.0, 990.0, 1080.0];
    assert path[1] == b.high && path[2] == b.low;
    WalkOfOne(plan, 1000.0, 5, b);
    FollowFour(Start(plan, 5), plan, 1000.0, b, path);
    ProceedsOfOne(ExitLeg(Tp1, 1100.0, 3, 2, false));
    ProceedsOfTwo(ExitLeg(Tp1, 1100.0, 3, 2, false), ExitLeg(StopLoss, 1000.0, 2, 2, false));
  }

  const TURN_AT_TP1 := Bar(2, 1000.0, 1060.0, 845.0, 845.0, 100_000.0, None)

  /**
   * A fill at an open far below the stop; the next day turns down at the first target and closes just above the fill.
   * The stop is touched as well, and selling everything there, 6790 in shares per lot, beats the path's 6775.
   */
  lemma StopFirstCanFlatter()
    ensures var plan := BuildRiskPlan(AtOneThousand(970.0, StrongBuy), DEFAULT_RISK);
            var entryBar, b, path :=
                Bar(1, 840.0, 1000.0, 840.0, 1000.0, 100_000.0, None), TURN_AT_TP1, [1000.0, 1060.0, 845.0];
            && !plan.isNoTrade
                && SimulateEntry(plan, entryBar, DEFAULT_RISK, DEFAULT_FILL_FRACTION) == Filled(840.0, 7, 1, false)
            && StopFirstFlatters(Start(plan, 7), plan, 840.0, b) && PathOf(path, b)
            && Value(Walk(plan, 840.0, 7, [b]), b.close) == 6790.0
            && Value(PathResult(Start(plan, 7), plan, 840.0, path, b), b.close) == 6775.0
  {
    hide BuildRiskPlan;
    PlanWithStop970(StrongBuy);
    TurnIsFlattered(BuildRiskPlan(AtOneThousand(970.0, StrongBuy), DEFAULT_RISK));
  }

  lemma TurnIsFlattered(plan: TradePlan)
    requires plan.slPrice == 970.0 && plan.tp1Price == 1060.0 && plan.tp2Price == 1090.0
    requires plan.totalLots == 7 && plan.tp1Lots == 4 && plan.tp2Lots == 3
    ensures var b, path := TURN_AT_TP1, [1000.0, 1060.0, 845.0];
            && StopFirstFlatters(Start(plan, 7), plan, 840.0, b) && PathOf(path, b)
            && Value(Walk(plan, 840.0, 7, [b]), b.close) == 6790.0
            && Value(PathResult(Start(plan, 7), plan, 840.0, path, b), b.close) == 6775.0
  {
    var b, path := TURN_AT_TP1, [1000.0, 1060.0, 845.0];
    assert path[1] == b.high && path[2] == b.low;
    WalkOfOne(plan, 840.0, 7, b);
    FollowFour(Start(plan, 7), plan, 840.0, b, path);
    ProceedsOfOne(ExitLeg(StopLoss, 970.0, 7, 2, false));
    ProceedsOfOne(ExitLeg(Tp1, 1060.0, 4, 2, false));
  }

  lemma WalkOfOne(plan: TradePlan, f: real, filled: nat, b: Bar)
    ensures Walk(plan, f, filled, [b]) == BarStep(Start(plan, filled), plan, f, b)
  {
    assert [b][..0] == [];
    assert Walk(plan, f, filled, [b][..0]) == Start(plan, filled);
  }

  lemma ProceedsOfOne(leg: ExitLeg)
    ensures Proceeds([leg]) == Times(leg.lots, leg.price)
  {
    assert [leg][..0] == [];
  }

  lemma ProceedsOfTwo(first: ExitLeg, second: ExitLeg)
    ensures Proceeds([first, second]) == Times(first.lots, first.price) + Times(second.lots, second.price)
  {
    assert [first, second][..1] == [first];
    ProceedsOfOne(first);
  }
}
