/** Whole runs of the bar rule, day by day, beside runs in which every day follows a path of its own. */
module RunPaths {
  import opened Options
  import opened Reals
  import opened RiskEngine
  import opened FillSimulation
  import opened ExitTraces
  import opened IntradayPaths

  /** One path for every bar. */
  ghost predicate PathsOf(days: seq<seq<real>>, bars: seq<Bar>) {
    |days| == |bars| && forall k :: 0 <= k < |bars| ==> PathOf(days[k], bars[k])
  }

  /** What the bar rule makes of a position over some bars. */
  function RuleFrom(p: Position, plan: TradePlan, f: real, bars: seq<Bar>): Position
    decreases |bars|
  {
    if bars == [] || p.closed then p else RuleFrom(BarStep(p, plan, f, bars[0]), plan, f, bars[1..])
  }

  /** What it becomes when every day follows its path. */
  function DaysFrom(p: Position, plan: TradePlan, f: real, days: seq<seq<real>>, bars: seq<Bar>): Position
    requires |days| == |bars|
    decreases |bars|
  {
    if bars == [] || p.closed then p
    else DaysFrom(PathResult(p, plan, f, days[0], bars[0]), plan, f, days[1..], bars[1..])
  }

  /** The price at which lots still held are valued in the end. */
  function LastMark(mark: real, bars: seq<Bar>): real {
    if bars == [] then mark else bars[|bars| - 1].close
  }

  // ----- what a run can still be worth -----

  /** Nothing is left. */
  predicate Flat(q: Position, money: real) {
    q.lots1 == 0 && q.lots2 == 0 && Proceeds(q.legs) == money
  }

  /** The first target is done and n lots run with their stop at breakeven. */
  predicate Runner(q: Position, n: int, money: real, f: real) {
    !q.closed && q.tp1Done && q.stop == f && q.lots1 == 0 && q.lots2 == n && n > 0 && Proceeds(q.legs) == money
  }

  lemma FlatIsWorth(q: Position, money: real, mark: real)
    requires Flat(q, money)
    ensures Value(q, mark) == money
  {
  }

  lemma RunnerIsWorth(q: Position, n: int, money: real, f: real, mark: real)
    requires Runner(q, n, money, f)
    ensures Value(q, mark) == money + Times(n, mark)
  {
  }

  lemma {:induction false} FlatForever(
      q: Position, money: real, plan: TradePlan, f: real, days: seq<seq<real>>, bars: seq<Bar>)
    requires Flat(q, money) && |days| == |bars|
    ensures Flat(RuleFrom(q, plan, f, bars), money) && Flat(DaysFrom(q, plan, f, days, bars), money)
    decreases |bars|
  {
    if bars != [] && !q.closed {
      FlatStaysFlat(AtOpen(q, plan, f, bars[0]), days[0], plan, f, bars[0].date);
      FlatForever(BarStep(q, plan, f, bars[0]), money, plan, f, days[1..], bars[1..]);
      FlatForever(PathResult(q, plan, f, days[0], bars[0]), money, plan, f, days[1..], bars[1..]);
    }
  }

  /** Where a runner leaves on this bar, the stop first. */
  function SoldOn(b: Bar, plan: TradePlan, f: real): Option<real> {
    if b.open <= f || b.open >= plan.tp2Price then Some(b.open)
    else if b.low <= f then Some(f)
    else if b.high >= plan.tp2Price then Some(plan.tp2Price)
    else None
  }

  /** Where it leaves in the end. */
  function RunnerExit(mark: real, bars: seq<Bar>, plan: TradePlan, f: real): real
    decreases |bars|
  {
    if bars == [] then mark
    else match SoldOn(bars[0], plan, f)
         case Some(price) => price
         case None => RunnerExit(bars[0].close, bars[1..], plan, f)
  }

  /** The opening, and after it the fates of the lots that are left. */
  lemma DayShows(p: Position, plan: TradePlan, f: real, b: Bar, path: seq<real>)
    requires Live(p, plan, f) && WellFormed(b) && PathOf(path, b)
    ensures var q, booked, followed := AtOpen(p, plan, f, b), BarStep(p, plan, f, b), PathResult(p, plan, f, path, b);
            if q.lots1 == 0 && q.lots2 == 0 then Flat(booked, Proceeds(q.legs)) && Flat(followed, Proceeds(q.legs))
            else
              && Waiting(q, plan, f, b)
              && Shows(q, booked, BookedFate(q, plan, b), plan, f)
              && Shows(q, followed, PathFate(q, path, plan, f), plan, f)
              && Explains(PathFate(q, path, plan, f), StartFate(q), path, b, NextTarget(q, plan), plan, f)
  {
    hide BarStep, WithinBar, AtOpen, PathFate, BookedFate, Shows, Proceeds;
    var q := AtOpen(p, plan, f, b);
    OpeningAgrees(p, plan, f, b);
    if q.lots1 == 0 && q.lots2 == 0 {
      FlatStaysFlat(q, path, plan, f, b.date);
    } else {
      BarShowsBookedFate(q, plan, f, b);
      PathShowsFate(q, path, plan, f, b.date);
      DefOfPathFate(q, path, plan, f);
      FateIsExplained(StartFate(q), path, b, NextTarget(q, plan), plan, f);
    }
  }

  lemma DefOfPathFate(p: Position, path: seq<real>, plan: TradePlan, f: real)
    ensures PathFate(p, path, plan, f) == FateAlong(StartFate(p), path, NextTarget(p, plan), plan, f)
  {
  }

  /** One day of a runner: both sides leave or both stay, and no path sells for less than the rule. */
  lemma RunnerDay(p: Position, n: int, money: real, plan: TradePlan, f: real, b: Bar, path: seq<real>)
    requires Runner(p, n, money, f) && Live(p, plan, f) && WellFormed(b) && PathOf(path, b)
    ensures var booked, followed := BarStep(p, plan, f, b), PathResult(p, plan, f, path, b);
            match SoldOn(b, plan, f)
            case None => Runner(booked, n, money, f) && Runner(followed, n, money, f)
            case Some(price) =>
              && Flat(booked, money + Times(n, price))
              && (Flat(followed, money + Times(n, price))
                  || (price <= plan.tp2Price && Flat(followed, money + Times(n, plan.tp2Price))))
              && (path == OpenLowHighClose(b) ==> Flat(followed, money + Times(n, price)))
  {
    hide Times, Proceeds, BarStep, Follow, PathFate;
    DayShows(p, plan, f, b, path);
    SaleProceeds(p.legs);
    NothingSold(plan.tp1Price);
    var lo, hi :| 0 <= lo < |path| && path[lo] == b.low && 0 <= hi < |path| && path[hi] == b.high;
    if path == OpenLowHighClose(b) && f < b.open < plan.tp2Price && b.low <= f {
      LowFirst(p, plan, f, b);
    }
  }

  /** A runner that goes down first is stopped out at breakeven. */
  lemma LowFirst(p: Position, plan: TradePlan, f: real, b: Bar)
    requires p.tp1Done && f < b.open < plan.tp2Price && b.low <= f
    ensures PathFate(p, OpenLowHighClose(b), plan, f) == Breakeven
  {
    var path, t := OpenLowHighClose(b), NextTarget(p, plan);
    assert path[..3][..2] == path[..2] && path[..2][..1] == path[..1] && path[..1][..0] == [];
    assert FateAlong(Half, path[..1], t, plan, f) == Half;
    assert FateAlong(Half, path[..2], t, plan, f) == Breakeven;
    assert FateAlong(Half, path[..3], t, plan, f) == Breakeven;
  }

  predicate AlwaysLowFirst(days: seq<seq<real>>, bars: seq<Bar>)
    requires |days| == |bars|
  {
    forall k :: 0 <= k < |bars| ==> days[k] == OpenLowHighClose(bars[k])
  }

  /** A runner's whole future: the rule sells at its exit price, no choice of paths for less, and one for the same. */
  lemma {:induction false} RunnerRun(
      p: Position, p': Position, n: int, money: real, plan: TradePlan, f: real, mark: real,
      days: seq<seq<real>>, bars: seq<Bar>)
    requires Levels(plan, f) && Runner(p, n, money, f) && Runner(p', n, money, f)
    requires AllWellFormed(bars) && PathsOf(days, bars)
    ensures var exit, last := money + Times(n, RunnerExit(mark, bars, plan, f)), LastMark(mark, bars);
            && Value(RuleFrom(p, plan, f, bars), last) == exit
            && Value(DaysFrom(p', plan, f, days, bars), last) >= exit
            && (AlwaysLowFirst(days, bars) ==> Value(DaysFrom(p', plan, f, days, bars), last) == exit)
    decreases |bars|
  {
    hide Times, BarStep, PathResult, Value;
    RunnerIsWorth(p, n, money, f, mark);
    RunnerIsWorth(p', n, money, f, mark);
    if bars != [] {
      var b, rest, last := bars[0], bars[1..], LastMark(mark, bars);
      RunnerDay(p, n, money, plan, f, b, days[0]);
      RunnerDay(p', n, money, plan, f, b, days[0]);
      var booked, followed := BarStep(p, plan, f, b), PathResult(p', plan, f, days[0], b);
      if SoldOn(b, plan, f).Some? {
        var price := SoldOn(b, plan, f).value;
        if price <= plan.tp2Price { TimesOrder(n, price, plan.tp2Price); }
        FlatForever(booked, money + Times(n, price), plan, f, days[1..], rest);
        FlatForever(followed, Proceeds(followed.legs), plan, f, days[1..], rest);
        FlatIsWorth(RuleFrom(booked, plan, f, rest), money + Times(n, price), last);
        FlatIsWorth(DaysFrom(followed, plan, f, days[1..], rest), Proceeds(followed.legs), last);
      } else {
        RunnerRun(booked, followed, n, money, plan, f, b.close, days[1..], rest);
      }
    }
  }

  // ----- the day that decides an untouched position -----

  /** Sold at the first target, or not yet, the worth of what both lots would bring. */
  function BothAt(p: Position, price1: real, price2: real): real {
    Proceeds(p.legs) + (Times(p.lots1, price1) + Times(p.lots2, price2))
  }

  /** Both sides flat with the path at least as rich, both the same runner, or both still untouched. */
  predicate Coupled(p: Position, booked: Position, followed: Position, f: real) {
    || (Flat(booked, Proceeds(booked.legs)) && Flat(followed, Proceeds(followed.legs))
        && Proceeds(booked.legs) <= Proceeds(followed.legs))
    || (Runner(booked, p.lots2, Proceeds(booked.legs), f) && Runner(followed, p.lots2, Proceeds(booked.legs), f))
    || (booked == p && followed == p)
  }

  /** A day that does not reach TP1 from below with lots on both targets leaves no room for doubt. */
  lemma UndisputedDay(p: Position, plan: TradePlan, f: real, b: Bar, path: seq<real>)
    requires Live(p, plan, f) && !p.tp1Done && WellFormed(b) && PathOf(path, b) && !ReachesTp1(p, plan, b)
    ensures Coupled(p, BarStep(p, plan, f, b), PathResult(p, plan, f, path, b), f)
  {
    hide Times, Proceeds, BarStep, Follow, PathFate;
    DayShows(p, plan, f, b, path);
    SaleProceeds(p.legs);
    var q := AtOpen(p, plan, f, b);
    NothingSold(plan.slPrice);
    NothingSold(plan.tp1Price);
    NothingSold(plan.tp2Price);
    NothingSold(f);
    if q.lots1 + q.lots2 > 0 {
      TimesAdd(q.lots1, q.lots2, plan.slPrice);
      TimesOrder(q.lots1, plan.slPrice, plan.tp1Price);
      TimesOrder(q.lots2, plan.slPrice, plan.tp2Price);
      TimesOrder(q.lots2, f, plan.tp2Price);
      var lo, hi :| 0 <= lo < |path| && path[lo] == b.low && 0 <= hi < |path| && path[hi] == b.high;
    }
  }

  /** A day that does: what the rule books, and what paths can make of it. */
  lemma DisputedDay(p: Position, plan: TradePlan, f: real, b: Bar, path: seq<real>)
    requires Live(p, plan, f) && WellFormed(b) && PathOf(path, b) && ReachesTp1(p, plan, b)
    ensures var booked := BarStep(p, plan, f, b);
            if b.low <= p.stop then Flat(booked, BothAt(p, p.stop, p.stop))
            else if b.high >= plan.tp2Price then Flat(booked, BothAt(p, plan.tp1Price, plan.tp2Price))
            else Runner(booked, p.lots2, Proceeds(p.legs) + Times(p.lots1, plan.tp1Price), f)
    ensures var followed := PathResult(p, plan, f, path, b);
            || (b.low <= p.stop && Flat(followed, BothAt(p, p.stop, p.stop)))
            || (b.low <= f && Flat(followed, BothAt(p, plan.tp1Price, f)))
            || (b.high >= plan.tp2Price && Flat(followed, BothAt(p, plan.tp1Price, plan.tp2Price)))
            || ((p.stop < b.low || f < b.low) && b.high < plan.tp2Price && f < b.close
                && Runner(followed, p.lots2, Proceeds(p.legs) + Times(p.lots1, plan.tp1Price), f))
    ensures path == TurnAtTp1(plan, b) ==>
              var followed := PathResult(p, plan, f, path, b);
              if b.low <= f then Flat(followed, BothAt(p, plan.tp1Price, f))
              else if b.high >= plan.tp2Price then Flat(followed, BothAt(p, plan.tp1Price, plan.tp2Price))
              else Runner(followed, p.lots2, Proceeds(p.legs) + Times(p.lots1, plan.tp1Price), f)
  {
    hide Times, Proceeds, BarStep, Follow, PathFate;
    DayShows(p, plan, f, b, path);
    TimesAdd(p.lots1, p.lots2, p.stop);
    var lo, hi :| 0 <= lo < |path| && path[lo] == b.low && 0 <= hi < |path| && path[hi] == b.high;
    if path == TurnAtTp1(plan, b) {
      TurnDecides(p, plan, f, b);
    }
  }

  /** The day turns down as soon as it has touched TP1. */
  function TurnAtTp1(plan: TradePlan, b: Bar): seq<real> {
    [b.open, plan.tp1Price, b.low, b.high, b.close]
  }

  lemma TurnIsAPath(p: Position, plan: TradePlan, b: Bar)
    requires ReachesTp1(p, plan, b) && WellFormed(b)
    ensures PathOf(TurnAtTp1(plan, b), b)
  {
    assert TurnAtTp1(plan, b)[3] == b.high && TurnAtTp1(plan, b)[2] == b.low;
  }

  lemma TurnDecides(p: Position, plan: TradePlan, f: real, b: Bar)
    requires Live(p, plan, f) && ReachesTp1(p, plan, b) && WellFormed(b)
    ensures PathFate(p, TurnAtTp1(plan, b), plan, f) ==
            if b.low <= f then Breakeven else if b.high >= plan.tp2Price then BothTargets else Half
  {
    var path, t := TurnAtTp1(plan, b), plan.tp1Price;
    assert path[..4][..3] == path[..3] && path[..3][..2] == path[..2] && path[..2][..1] == path[..1]
        && path[..1][..0] == [];
    assert FateAlong(Held, path[..1], t, plan, f) == Held;
    assert FateAlong(Held, path[..2], t, plan, f) == Half;
    assert FateAlong(Held, path[..3], t, plan, f) == FateAfter(Half, path[2], t, plan, f);
    assert FateAlong(Held, path[..4], t, plan, f)
        == FateAfter(FateAfter(Half, path[2], t, plan, f), path[3], t, plan, f);
  }

  // ----- the whole run -----

  /** Neither the first target's lots nor the untouched stop come back. */
  predicate Decided(p: Position) {
    p.tp1Done || p.lots1 == 0
  }

  /** The price of the second half when a day has turned at TP1: at breakeven if it got there, else like any runner. */
  function AfterTheTurn(b: Bar, rest: seq<Bar>, plan: TradePlan, f: real): real {
    if b.low <= f then f else AfterTheTarget(b, rest, plan, f)
  }

  /** The price of the second half when nobody looks back at breakeven on the day TP1 is reached. */
  function AfterTheTarget(b: Bar, rest: seq<Bar>, plan: TradePlan, f: real): real {
    if b.high >= plan.tp2Price then plan.tp2Price else RunnerExit(b.close, rest, plan, f)
  }

  /**
   * A day, with the days after it, on which the rule books too much. Either the stop holds, breakeven is reached, and
   * the second half is later sold above it; or the stop is touched, and selling all of it there beats a turn at TP1.
   */
  predicate Flatters(p: Position, plan: TradePlan, f: real, b: Bar, rest: seq<Bar>) {
    && !p.closed && ReachesTp1(p, plan, b)
    && if p.stop < b.low then b.low <= f < AfterTheTarget(b, rest, plan, f)
       else BothAt(p, plan.tp1Price, AfterTheTurn(b, rest, plan, f)) < BothAt(p, p.stop, p.stop)
  }

  predicate FlattersSomewhere(p: Position, plan: TradePlan, f: real, bars: seq<Bar>)
    decreases |bars|
  {
    && bars != []
    && (Flatters(p, plan, f, bars[0], bars[1..])
        || (!p.closed && FlattersSomewhere(BarStep(p, plan, f, bars[0]), plan, f, bars[1..])))
  }

  lemma {:induction false} RunnersAreNotFlattered(p: Position, plan: TradePlan, f: real, bars: seq<Bar>)
    requires Decided(p)
    ensures !FlattersSomewhere(p, plan, f, bars)
    decreases |bars|
  {
    if bars != [] && !p.closed {
      RunnersAreNotFlattered(BarStep(p, plan, f, bars[0]), plan, f, bars[1..]);
    }
  }

  lemma CoupledRun(
      p: Position, booked: Position, followed: Position, plan: TradePlan, f: real, mark: real,
      days: seq<seq<real>>, bars: seq<Bar>)
    requires Levels(plan, f) && Coupled(p, booked, followed, f) && (booked != p || followed != p)
    requires AllWellFormed(bars) && PathsOf(days, bars)
    ensures Value(RuleFrom(booked, plan, f, bars), LastMark(mark, bars))
            <= Value(DaysFrom(followed, plan, f, days, bars), LastMark(mark, bars))
  {
    hide Times, Value, Proceeds, WellFormed;
    if Runner(booked, p.lots2, Proceeds(booked.legs), f) && Runner(followed, p.lots2, Proceeds(booked.legs), f) {
      RunnerRun(booked, followed, p.lots2, Proceeds(booked.legs), plan, f, mark, days, bars);
    } else {
      FlatForever(booked, Proceeds(booked.legs), plan, f, days, bars);
      FlatForever(followed, Proceeds(followed.legs), plan, f, days, bars);
      FlatIsWorth(RuleFrom(booked, plan, f, bars), Proceeds(booked.legs), LastMark(mark, bars));
      FlatIsWorth(DaysFrom(followed, plan, f, days, bars), Proceeds(followed.legs), LastMark(mark, bars));
    }
  }

  function BookedWorth(p: Position, plan: TradePlan, f: real, b: Bar, rest: seq<Bar>): real {
    if b.low <= p.stop then BothAt(p, p.stop, p.stop) else BothAt(p, plan.tp1Price, AfterTheTarget(b, rest, plan, f))
  }

  function TurnWorth(p: Position, plan: TradePlan, f: real, b: Bar, rest: seq<Bar>): real {
    BothAt(p, plan.tp1Price, AfterTheTurn(b, rest, plan, f))
  }

  /** From a disputed day on the rule books BookedWorth. */
  lemma DisputedRunBooks(p: Position, plan: TradePlan, f: real, b: Bar, days: seq<seq<real>>, rest: seq<Bar>)
    requires Live(p, plan, f) && WellFormed(b) && ReachesTp1(p, plan, b) && AllWellFormed(rest) && PathsOf(days, rest)
    ensures Value(RuleFrom(BarStep(p, plan, f, b), plan, f, rest), LastMark(b.close, rest))
            == BookedWorth(p, plan, f, b, rest)
  {
    hide Times, Value, Proceeds, WellFormed, BarStep, PathResult;
    var booked, last := BarStep(p, plan, f, b), LastMark(b.close, rest);
    assert WellFormed(b);
    OpenLowHighCloseIsAPath(b);
    DisputedDay(p, plan, f, b, OpenLowHighClose(b));
    if b.low <= p.stop || b.high >= plan.tp2Price {
      FlatForever(booked, Proceeds(booked.legs), plan, f, days, rest);
      FlatIsWorth(RuleFrom(booked, plan, f, rest), Proceeds(booked.legs), last);
    } else {
      RunnerRun(booked, booked, p.lots2, Proceeds(booked.legs), plan, f, b.close, days, rest);
    }
  }

  /** No path ends below both BookedWorth and TurnWorth, and the turn itself is worth TurnWorth. */
  lemma DisputedRunFollows(
      p: Position, plan: TradePlan, f: real, b: Bar, path: seq<real>, days: seq<seq<real>>, rest: seq<Bar>)
    requires Live(p, plan, f) && WellFormed(b) && ReachesTp1(p, plan, b) && AllWellFormed(rest)
    requires PathOf(path, b) && PathsOf(days, rest)
    ensures var worth := Value(DaysFrom(PathResult(p, plan, f, path, b), plan, f, days, rest), LastMark(b.close, rest));
            && (worth >= BookedWorth(p, plan, f, b, rest) || worth >= TurnWorth(p, plan, f, b, rest))
            && (path == TurnAtTp1(plan, b) && AlwaysLowFirst(days, rest) ==> worth == TurnWorth(p, plan, f, b, rest))
  {
    hide Times, Value, Proceeds, PathResult, TurnAtTp1;
    var followed, last := PathResult(p, plan, f, path, b), LastMark(b.close, rest);
    var money := Proceeds(followed.legs);
    DisputedDay(p, plan, f, b, path);
    TimesOrder(p.lots2, f, plan.tp2Price);
    if Flat(followed, money) {
      FlatForever(followed, money, plan, f, days, rest);
      FlatIsWorth(DaysFrom(followed, plan, f, days, rest), money, last);
    } else {
      RunnerRun(followed, followed, p.lots2, money, plan, f, b.close, days, rest);
    }
  }

  function LowFirstDays(bars: seq<Bar>): (days: seq<seq<real>>)
    ensures |days| == |bars| && AlwaysLowFirst(days, bars)
  {
    seq(|bars|, k requires 0 <= k < |bars| => OpenLowHighClose(bars[k]))
  }

  lemma LowFirstDaysArePaths(bars: seq<Bar>)
    requires AllWellFormed(bars)
    ensures PathsOf(LowFirstDays(bars), bars)
  {
    forall k | 0 <= k < |bars| ensures PathOf(LowFirstDays(bars)[k], bars[k]) {
      OpenLowHighCloseIsAPath(bars[k]);
    }
  }

  /** What the run would bring if the day that reaches TP1 turned there, if there is such a day. */
  function Turn(p: Position, plan: TradePlan, f: real, bars: seq<Bar>): Option<real>
    decreases |bars|
  {
    if bars == [] || p.closed then None
    else if ReachesTp1(p, plan, bars[0]) then Some(TurnWorth(p, plan, f, bars[0], bars[1..]))
    else Turn(BarStep(p, plan, f, bars[0]), plan, f, bars[1..])
  }

  lemma {:induction false} DecidedDoesNotTurn(p: Position, plan: TradePlan, f: real, bars: seq<Bar>)
    requires Decided(p)
    ensures Turn(p, plan, f, bars).None?
    decreases |bars|
  {
    if bars != [] && !p.closed {
      DecidedDoesNotTurn(BarStep(p, plan, f, bars[0]), plan, f, bars[1..]);
    }
  }

  /** No choice of paths is worth less than both the booked run and the turn. */
  lemma {:induction false} PathsEndNoLower(
      p: Position, plan: TradePlan, f: real, mark: real, days: seq<seq<real>>, bars: seq<Bar>)
    requires Live(p, plan, f) && !p.tp1Done && AllWellFormed(bars) && PathsOf(days, bars)
    ensures var worth, turn := Value(DaysFrom(p, plan, f, days, bars), LastMark(mark, bars)), Turn(p, plan, f, bars);
            worth >= Value(RuleFrom(p, plan, f, bars), LastMark(mark, bars)) || (turn.Some? && worth >= turn.value)
    decreases |bars|
  {
    hide Times, BarStep, PathResult, Value, Proceeds, BothAt, WellFormed, ReachesTp1;
    if bars != [] {
      var b, rest := bars[0], bars[1..];
      var booked, followed := BarStep(p, plan, f, b), PathResult(p, plan, f, days[0], b);
      if ReachesTp1(p, plan, b) {
        DisputedRunBooks(p, plan, f, b, days[1..], rest);
        DisputedRunFollows(p, plan, f, b, days[0], days[1..], rest);
      } else {
        UndisputedDay(p, plan, f, b, days[0]);
        if booked == p && followed == p {
          PathsEndNoLower(p, plan, f, b.close, days[1..], rest);
        } else {
          CoupledRun(p, booked, followed, plan, f, b.close, days[1..], rest);
        }
      }
    }
  }

  /** Some choice of paths is worth what the turn is. */
  lemma {:induction false} TurnIsReached(
      p: Position, plan: TradePlan, f: real, mark: real, bars: seq<Bar>) returns (days: seq<seq<real>>)
    requires Live(p, plan, f) && !p.tp1Done && AllWellFormed(bars) && Turn(p, plan, f, bars).Some?
    ensures PathsOf(days, bars)
    ensures Value(DaysFrom(p, plan, f, days, bars), LastMark(mark, bars)) == Turn(p, plan, f, bars).value
    decreases |bars|
  {
    hide Times, BarStep, PathResult, Value, Proceeds, BothAt, WellFormed, ReachesTp1, PathOf, OpenLowHighClose,
        TurnAtTp1;
    var b, rest := bars[0], bars[1..];
    if ReachesTp1(p, plan, b) {
      var calm := LowFirstDays(rest);
      LowFirstDaysArePaths(rest);
      TurnIsAPath(p, plan, b);
      DisputedRunFollows(p, plan, f, b, TurnAtTp1(plan, b), calm, rest);
      days := [TurnAtTp1(plan, b)] + calm;
    } else {
      OpenLowHighCloseIsAPath(b);
      UndisputedDay(p, plan, f, b, OpenLowHighClose(b));
      if BarStep(p, plan, f, b) != p { DecidedDoesNotTurn(BarStep(p, plan, f, b), plan, f, rest); }
      var later := TurnIsReached(p, plan, f, b.close, rest);
      days := [OpenLowHighClose(b)] + later;
    }
  }

  /** A day flatters exactly when turning on it is worth less than what is booked. */
  lemma FlattersIffTurnIsWorse(p: Position, plan: TradePlan, f: real, b: Bar, rest: seq<Bar>)
    requires !p.closed && ReachesTp1(p, plan, b)
    ensures Flatters(p, plan, f, b, rest) <==> TurnWorth(p, plan, f, b, rest) < BookedWorth(p, plan, f, b, rest)
  {
    hide Times, Proceeds;
    var exit := AfterTheTarget(b, rest, plan, f);
    if f <= exit { TimesOrder(p.lots2, f, exit); } else { TimesOrder(p.lots2, exit, f); }
  }

  lemma {:induction false} FlattersIffTurnIsCheaper(p: Position, plan: TradePlan, f: real, mark: real, bars: seq<Bar>)
    requires Live(p, plan, f) && !p.tp1Done && AllWellFormed(bars)
    ensures var turn := Turn(p, plan, f, bars);
            FlattersSomewhere(p, plan, f, bars) <==>
            turn.Some? && turn.value < Value(RuleFrom(p, plan, f, bars), LastMark(mark, bars))
    decreases |bars|
  {
    hide Times, BarStep, Value, Proceeds, BothAt, WellFormed, ReachesTp1, PathOf, OpenLowHighClose, Flatters;
    if bars != [] {
      var b, rest := bars[0], bars[1..];
      LowFirstDaysArePaths(rest);
      if ReachesTp1(p, plan, b) {
        DisputedRunBooks(p, plan, f, b, LowFirstDays(rest), rest);
        DecidedIsNotFlattered(p, plan, f, b, rest);
        FlattersIffTurnIsWorse(p, plan, f, b, rest);
      } else {
        assert !Flatters(p, plan, f, b, rest) by { FlatteringReaches(p, plan, f, b, rest); }
        OpenLowHighCloseIsAPath(b);
        UndisputedDay(p, plan, f, b, OpenLowHighClose(b));
        if BarStep(p, plan, f, b) == p {
          FlattersIffTurnIsCheaper(p, plan, f, b.close, rest);
        } else {
          DecidedDoesNotTurn(BarStep(p, plan, f, b), plan, f, rest);
          RunnersAreNotFlattered(BarStep(p, plan, f, b), plan, f, rest);
        }
      }
    }
  }

  lemma FlatteringReaches(p: Position, plan: TradePlan, f: real, b: Bar, rest: seq<Bar>)
    ensures Flatters(p, plan, f, b, rest) ==> ReachesTp1(p, plan, b)
  {
  }

  /** The day that reaches TP1 is the only one on which an untouched position can be flattered. */
  lemma DecidedIsNotFlattered(p: Position, plan: TradePlan, f: real, b: Bar, rest: seq<Bar>)
    requires Live(p, plan, f) && WellFormed(b) && ReachesTp1(p, plan, b)
    ensures !FlattersSomewhere(BarStep(p, plan, f, b), plan, f, rest)
  {
    OpenLowHighCloseIsAPath(b);
    DisputedDay(p, plan, f, b, OpenLowHighClose(b));
    RunnersAreNotFlattered(BarStep(p, plan, f, b), plan, f, rest);
  }
}
