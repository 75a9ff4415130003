/** The fixture data source, what it serves as of an instant, and the guard that rejects data from the future. */
module MarketData {
  import opened Options
  import opened Sequences
  import opened RiskEngine
  import opened FillSimulation

  /** A day that traded: positive prices within the day's range. */
  type DayBar = b: Bar | WellFormed(b) && b.close > 0.0 witness Bar(0, 1.0, 1.0, 1.0, 1.0, 0.0, None)

  datatype SymbolData = SymbolData(symbol: string, bars: seq<DayBar>, plan: TradePlan)

  type Fixture = seq<SymbolData>

  /** An ISO instant: the date, then the time of day; a bare date stands for its first instant. */
  datatype Instant = Instant(day: Day, ms: nat)

  const MARKET_DATA_TIME := 57_600_000  // 16:00
  const LAST_MS := 86_399_999

  function StartOf(day: Day): Instant { Instant(day, 0) }
  function EndOf(day: Day): Instant { Instant(day, LAST_MS) }

  predicate IsAfter(t: Instant, asOf: Instant) {
    t.day > asOf.day || (t.day == asOf.day && t.ms > asOf.ms)
  }

  // ----- bars in date order -----

  predicate Earlier(a: DayBar, b: DayBar) {
    a.date < b.date
  }

  /** Stable: bars of one date keep their order. */
  function SortByDate(bars: seq<DayBar>): seq<DayBar> {
    Sort(bars, Earlier)
  }

  function UpTo(bars: seq<DayBar>, d: Day): seq<DayBar> {
    if bars == [] then [] else (if bars[0].date <= d then [bars[0]] else []) + UpTo(bars[1..], d)
  }

  function Later(bars: seq<DayBar>, d: Day): seq<DayBar> {
    if bars == [] then [] else (if bars[0].date > d then [bars[0]] else []) + Later(bars[1..], d)
  }

  predicate InDateOrder(bars: seq<DayBar>) {
    forall i, j :: 0 <= i < j < |bars| ==> bars[i].date <= bars[j].date
  }

  predicate NotBefore(bars: seq<DayBar>, d: Day) {
    forall k :: 0 <= k < |bars| ==> d <= bars[k].date
  }

  lemma SortedInDateOrder(bars: seq<DayBar>)
    ensures InDateOrder(SortByDate(bars))
  {
    SortSorts(bars, Earlier);
    assert forall i, j :: 0 <= i < j < |SortByDate(bars)| ==> !Earlier(SortByDate(bars)[j], SortByDate(bars)[i]);
  }

  lemma {:induction false} UpToInserted(b: DayBar, bars: seq<DayBar>, d: Day)
    requires InDateOrder(bars)
    ensures UpTo(Insert(b, bars, Earlier), d) == if b.date <= d then Insert(b, UpTo(bars, d), Earlier)
            else UpTo(bars, d)
    decreases |bars|
  {
    if bars == [] {
      assert [b][1..] == [] && UpTo([], d) == [];
    } else if b.date < bars[0].date {
      assert Insert(b, bars, Earlier)[1..] == bars;
      UpToKeepsBound(bars, d, bars[0].date);
    } else {
      UpToInserted(b, bars[1..], d);
      assert Insert(b, bars, Earlier)[1..] == Insert(b, bars[1..], Earlier);
    }
  }

  lemma {:induction false} UpToKeepsBound(bars: seq<DayBar>, d: Day, low: Day)
    requires NotBefore(bars, low)
    ensures NotBefore(UpTo(bars, d), low)
    decreases |bars|
  {
    if bars != [] { UpToKeepsBound(bars[1..], d, low); }
  }

  lemma {:induction false} UpToAppended(bars: seq<DayBar>, b: DayBar, d: Day)
    ensures UpTo(bars + [b], d) == UpTo(bars, d) + if b.date <= d then [b] else []
    decreases |bars|
  {
    if bars == [] {
      assert [b][1..] == [];
      assert bars + [b] == [b];
    } else {
      var rest, more := bars[1..], bars + [b];
      var head, last := if bars[0].date <= d then [bars[0]] else [], if b.date <= d then [b] else [];
      assert more[1..] == rest + [b] && more[0] == bars[0];
      UpToAppended(rest, b, d);
      assert UpTo(more, d) == head + (UpTo(rest, d) + last) == head + UpTo(rest, d) + last;
    }
  }

  /** Sorting and cutting off the future commute, so order can be restored before or after. */
  lemma {:induction false} CutCommutesWithSort(bars: seq<DayBar>, d: Day)
    ensures UpTo(SortByDate(bars), d) == SortByDate(UpTo(bars, d))
    decreases |bars|
  {
    if bars != [] {
      var b, init := bars[|bars| - 1], bars[..|bars| - 1];
      assert bars == init + [b];
      CutCommutesWithSort(init, d);
      SortedInDateOrder(init);
      hide Insert;
      UpToInserted(b, SortByDate(init), d);
      UpToAppended(init, b, d);
      var cut := UpTo(init, d);
      assert (cut + [b])[..|cut|] == cut && cut + [] == cut;
      assert SortByDate(cut + [b]) == Insert(b, SortByDate(cut), Earlier);
    }
  }

  // ----- queries -----

  /** A later entry for a symbol replaces an earlier one. */
  function BarsOf(fx: Fixture, symbol: string): Option<seq<DayBar>> {
    if fx == [] then None
    else
      var last := fx[|fx| - 1];
      if last.symbol == symbol then Some(SortByDate(last.bars)) else BarsOf(fx[..|fx| - 1], symbol)
  }

  /** Symbols in order of first appearance. */
  function Symbols(fx: Fixture): seq<string> {
    if fx == [] then []
    else
      var before, last := Symbols(fx[..|fx| - 1]), fx[|fx| - 1].symbol;
      if last in before then before else before + [last]
  }

  function BarsUpTo(fx: Fixture, symbol: string, d: Day): seq<DayBar> {
    match BarsOf(fx, symbol)
    case None => []
    case Some(bars) => UpTo(bars, d)
  }

  datatype Envelope = Envelope(
    symbol: string, tradingDate: Day, publishedAt: Option<Instant>, receivedAt: Instant, bars: seq<DayBar>)

  function HistoryAsOf(fx: Fixture, symbol: string, asOf: Instant): Option<Envelope> {
    var visible := BarsUpTo(fx, symbol, asOf.day);
    if visible == [] then None
    else
      var last := visible[|visible| - 1].date;
      Some(Envelope(symbol, last, Some(Instant(last, MARKET_DATA_TIME)), Instant(last, MARKET_DATA_TIME), visible))
  }

  function BarOn(fx: Fixture, symbol: string, d: Day): Option<DayBar> {
    match BarsOf(fx, symbol)
    case None => None
    case Some(bars) => FirstOn(bars, d)
  }

  function FirstOn(bars: seq<DayBar>, d: Day): Option<DayBar> {
    if bars == [] then None else if bars[0].date == d then Some(bars[0]) else FirstOn(bars[1..], d)
  }

  function SimulationBars(fx: Fixture, symbol: string, afterDate: Day, maxBars: int): seq<DayBar> {
    match BarsOf(fx, symbol)
    case None => []
    case Some(bars) => Slice(Later(bars, afterDate), maxBars)
  }

  // ----- two fixtures that share a past -----

  /** The same symbols, and for each the same bars up to the date, in the order they were given. */
  predicate SameEntries(fx: Fixture, fx': Fixture, d: Day) {
    |fx| == |fx'| && forall i :: 0 <= i < |fx| ==>
        fx[i].symbol == fx'[i].symbol && UpTo(fx[i].bars, d) == UpTo(fx'[i].bars, d)
  }

  predicate DistinctSymbols(fx: Fixture) {
    forall i, j :: 0 <= i < j < |fx| ==> fx[i].symbol != fx[j].symbol
  }

  /** The symbols that have traded by the date. */
  function Listed(fx: Fixture, d: Day): Fixture {
    if fx == [] then []
    else
      var last := fx[|fx| - 1];
      Listed(fx[..|fx| - 1], d) + if UpTo(last.bars, d) == [] then [] else [last]
  }

  /**
   * Indistinguishable by date d: entry by entry, or, with one entry a symbol, after leaving out what has not traded
   * yet.
   */
  predicate SamePast(fx: Fixture, fx': Fixture, d: Day) {
    || SameEntries(fx, fx', d)
    || (DistinctSymbols(fx) && DistinctSymbols(fx') && SameEntries(Listed(fx, d), Listed(fx', d), d))
  }

  lemma {:induction false} SameEntriesSameBars(fx: Fixture, fx': Fixture, symbol: string, d: Day)
    requires SameEntries(fx, fx', d)
    ensures BarsUpTo(fx, symbol, d) == BarsUpTo(fx', symbol, d)
    ensures Symbols(fx) == Symbols(fx')
    decreases |fx|
  {
    if fx != [] {
      var n := |fx| - 1;
      SameEntriesSameBars(fx[..n], fx'[..n], symbol, d);
      CutCommutesWithSort(fx[n].bars, d);
      CutCommutesWithSort(fx'[n].bars, d);
    }
  }

  predicate Mentions(fx: Fixture, symbol: string) {
    exists k :: 0 <= k < |fx| && fx[k].symbol == symbol
  }

  lemma {:induction false} UnmentionedHasNoBars(fx: Fixture, symbol: string, d: Day)
    requires !Mentions(fx, symbol)
    ensures BarsOf(fx, symbol).None? && symbol !in Symbols(fx) && !Mentions(Listed(fx, d), symbol)
    decreases |fx|
  {
    if fx != [] {
      var init := fx[..|fx| - 1];
      assert forall k :: 0 <= k < |init| ==> init[k] == fx[k];
      UnmentionedHasNoBars(init, symbol, d);
    }
  }

  lemma OneMoreEntry(fx: Fixture, last: SymbolData, symbol: string, d: Day)
    ensures BarsOf(fx + [last], symbol) == if last.symbol == symbol then Some(SortByDate(last.bars))
            else BarsOf(fx, symbol)
    ensures Listed(fx + [last], d) == if UpTo(last.bars, d) == [] then Listed(fx, d) else Listed(fx, d) + [last]
    ensures !Mentions(fx, last.symbol) ==> Symbols(fx + [last]) == Symbols(fx) + [last.symbol]
  {
    hide SortByDate, UpTo;
    assert (fx + [last])[..|fx|] == fx;
    assert Listed(fx, d) + [] == Listed(fx, d);
    if !Mentions(fx, last.symbol) { UnmentionedHasNoBars(fx, last.symbol, d); }
  }

  /** Leaving out what has not traded yet changes no query about the past. */
  lemma {:induction false} ListedServesTheSame(fx: Fixture, symbol: string, d: Day)
    requires DistinctSymbols(fx)
    ensures BarsUpTo(fx, symbol, d) == BarsUpTo(Listed(fx, d), symbol, d)
    decreases |fx|
  {
    if fx != [] {
      var init, last := fx[..|fx| - 1], fx[|fx| - 1];
      assert fx == init + [last];
      ListedServesTheSame(init, symbol, d);
      OneMoreEntry(init, last, symbol, d);
      OneMoreEntry(Listed(init, d), last, symbol, d);
      CutCommutesWithSort(last.bars, d);
      if last.symbol == symbol && UpTo(last.bars, d) == [] {
        assert !Mentions(init, symbol);
        UnmentionedHasNoBars(init, symbol, d);
        UnmentionedHasNoBars(Listed(init, d), symbol, d);
        hide BarsOf, Listed;
        assert SortByDate([]) == [];
      }
    }
  }

  lemma SamePastSameBars(fx: Fixture, fx': Fixture, symbol: string, d: Day)
    requires SamePast(fx, fx', d)
    ensures BarsUpTo(fx, symbol, d) == BarsUpTo(fx', symbol, d)
  {
    if SameEntries(fx, fx', d) {
      SameEntriesSameBars(fx, fx', symbol, d);
    } else {
      ListedServesTheSame(fx, symbol, d);
      ListedServesTheSame(fx', symbol, d);
      SameEntriesSameBars(Listed(fx, d), Listed(fx', d), symbol, d);
    }
  }

  // ----- the guard -----

  /** Nothing in the envelope is later than the instant of the decision. */
  predicate Clean(envelope: Envelope, asOf: Instant) {
    && !IsAfter(envelope.receivedAt, asOf)
    && (envelope.publishedAt.Some? ==> !IsAfter(envelope.publishedAt.value, asOf))
    && forall k :: 0 <= k < |envelope.bars| ==> !IsAfter(StartOf(envelope.bars[k].date), asOf)
  }

  method NotFromFuture(envelope: Envelope, asOf: Instant) returns (ok: bool)
    ensures ok <==> Clean(envelope, asOf)
  {
    if IsAfter(envelope.receivedAt, asOf) { return false; }
    if envelope.publishedAt.Some? && IsAfter(envelope.publishedAt.value, asOf) { return false; }
    for i := 0 to |envelope.bars|
      invariant forall k :: 0 <= k < i ==> !IsAfter(StartOf(envelope.bars[k].date), asOf)
    {
      if IsAfter(StartOf(envelope.bars[i].date), asOf) { return false; }
    }
    return true;
  }

  lemma {:induction false} UpToIsBounded(bars: seq<DayBar>, d: Day)
    ensures forall k :: 0 <= k < |UpTo(bars, d)| ==> UpTo(bars, d)[k].date <= d
    decreases |bars|
  {
    if bars != [] { UpToIsBounded(bars[1..], d); }
  }

  /**
   * The fixture serves a day's bar at any hour of that day, though it stamps it 16:00: the guard lets a history through
   * exactly when its last bar is of an earlier day or that hour has come, so at the end of the day always.
   */
  lemma GuardIsTransparentIff(fx: Fixture, symbol: string, asOf: Instant)
    requires HistoryAsOf(fx, symbol, asOf).Some?
    ensures var envelope := HistoryAsOf(fx, symbol, asOf).value;
            && (Clean(envelope, asOf) <==> envelope.tradingDate < asOf.day || asOf.ms >= MARKET_DATA_TIME)
            && (asOf == EndOf(asOf.day) ==> Clean(envelope, asOf))
  {
    var visible := BarsUpTo(fx, symbol, asOf.day);
    if BarsOf(fx, symbol).Some? { UpToIsBounded(BarsOf(fx, symbol).value, asOf.day); }
  }

  // ----- what the queries serve -----

  /** The symbols are those of the entries, each once. */
  lemma {:induction false} SymbolsAreThoseMentioned(fx: Fixture)
    ensures forall symbol :: symbol in Symbols(fx) <==> Mentions(fx, symbol)
    ensures forall i, j :: 0 <= i < j < |Symbols(fx)| ==> Symbols(fx)[i] != Symbols(fx)[j]
    decreases |fx|
  {
    if fx != [] {
      var n := |fx| - 1;
      SymbolsAreThoseMentioned(fx[..n]);
      forall symbol ensures symbol in Symbols(fx) <==> Mentions(fx, symbol) {
        MentionsOneMore(fx, symbol);
      }
    }
  }

  lemma MentionsOneMore(fx: Fixture, symbol: string)
    requires fx != []
    ensures Mentions(fx, symbol) <==> Mentions(fx[..|fx| - 1], symbol) || fx[|fx| - 1].symbol == symbol
  {
    var n := |fx| - 1;
    if j :| 0 <= j < |fx[..n]| && fx[..n][j].symbol == symbol { assert fx[j].symbol == symbol; }
    if j :| 0 <= j < |fx| && fx[j].symbol == symbol && j < n { assert fx[..n][j].symbol == symbol; }
  }

  /** Cutting off the future keeps every other bar as often as it occurs. */
  lemma {:induction false} PastIsKept(bars: seq<DayBar>, d: Day, b: DayBar)
    ensures multiset(UpTo(bars, d))[b] == if b.date <= d then multiset(bars)[b] else 0
    decreases |bars|
  {
    if bars != [] {
      var n := |bars| - 1;
      PastIsKept(bars[..n], d, b);
      UpToAppended(bars[..n], bars[n], d);
      assert bars == bars[..n] + [bars[n]];
      hide UpTo;
    }
  }

  lemma {:induction false} UpToKeepsDateOrder(bars: seq<DayBar>, d: Day)
    requires InDateOrder(bars)
    ensures InDateOrder(UpTo(bars, d))
    decreases |bars|
  {
    if bars != [] {
      UpToKeepsDateOrder(bars[1..], d);
      UpToKeepsBound(bars[1..], d, bars[0].date);
    }
  }

  /** The last entry given for a symbol serves its bars, sorted; a symbol never given has none. */
  lemma {:induction false} LastEntryServesBars(fx: Fixture, symbol: string) returns (k: nat)
    ensures BarsOf(fx, symbol).Some? <==> Mentions(fx, symbol)
    ensures BarsOf(fx, symbol).Some? ==>
              && k < |fx| && fx[k].symbol == symbol && (forall j :: k < j < |fx| ==> fx[j].symbol != symbol)
              && BarsOf(fx, symbol).value == SortByDate(fx[k].bars)
    decreases |fx|
  {
    hide SortByDate;
    if fx == [] {
      k := 0;
    } else {
      var n := |fx| - 1;
      var before := LastEntryServesBars(fx[..n], symbol);
      k := if fx[n].symbol == symbol then n else before;
      if fx[n].symbol == symbol {
        assert Mentions(fx, symbol);
      } else {
        MentionsOneMore(fx, symbol);
      }
    }
  }

  /**
   * A history as of an instant is every bar of the symbol up to that day, in date order, stamped 16:00 of the last one;
   * there is none exactly if there is no such bar.
   */
  lemma HistoryIsThePast(fx: Fixture, symbol: string, asOf: Instant, b: DayBar)
    ensures var all := if BarsOf(fx, symbol).Some? then BarsOf(fx, symbol).value else [];
            match HistoryAsOf(fx, symbol, asOf)
            case None => b in all ==> b.date > asOf.day
            case Some(envelope) =>
              && multiset(envelope.bars)[b] == (if b.date <= asOf.day then multiset(all)[b] else 0)
              && InDateOrder(envelope.bars) && envelope.bars != [] && envelope.symbol == symbol
              && envelope.tradingDate == envelope.bars[|envelope.bars| - 1].date
              && envelope.receivedAt == Instant(envelope.tradingDate, 57_600_000)
              && envelope.publishedAt == Some(envelope.receivedAt)
  {
    hide UpTo, SortByDate;
    var k := LastEntryServesBars(fx, symbol);
    if BarsOf(fx, symbol).Some? {
      var all := BarsOf(fx, symbol).value;
      SortedInDateOrder(fx[k].bars);
      UpToKeepsDateOrder(all, asOf.day);
      PastIsKept(all, asOf.day, b);
      hide BarsOf, InDateOrder;
      assert b in all ==> b in multiset(all);
      assert UpTo(all, asOf.day) == [] ==> multiset(UpTo(all, asOf.day))[b] == 0;
    }
  }

  predicate IsFirstOn(bars: seq<DayBar>, b: DayBar, k: nat) {
    k < |bars| && bars[k] == b && forall j :: 0 <= j < k ==> bars[j].date != b.date
  }

  /** The bar on a date is the first one of that date. */
  lemma {:induction false} FirstOnIsFirst(bars: seq<DayBar>, d: Day)
    ensures match FirstOn(bars, d)
            case None => forall k :: 0 <= k < |bars| ==> bars[k].date != d
            case Some(b) => b.date == d && exists k: nat :: IsFirstOn(bars, b, k)
    decreases |bars|
  {
    if bars != [] {
      var rest := bars[1..];
      FirstOnIsFirst(rest, d);
      assert forall k :: 1 <= k < |bars| ==> bars[k] == rest[k - 1];
      if bars[0].date == d {
        assert IsFirstOn(bars, bars[0], 0);
      } else if FirstOn(rest, d).Some? {
        var k: nat :| IsFirstOn(rest, FirstOn(rest, d).value, k);
        assert IsFirstOn(bars, FirstOn(bars, d).value, k + 1);
      }
    }
  }
}
