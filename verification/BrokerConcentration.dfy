/** How concentrated a day's net buying is, and what that forces on the concentration gate. */
module BrokerConcentration {
  import opened Reals
  import opened Sequences

  datatype BrokerRow = BrokerRow(brokerCode: string, netVolume: real)

  type DaySummary = seq<BrokerRow>

  datatype Concentration = Concentration(
    top1Share: real, top3Share: real, hhi: real, meaningfulBuyerCount: nat, buyerBreadthCount: nat)

  datatype Limits = Limits(
    meaningfulBuyerMinShare: real, minMeaningfulBuyers: int, top1ShareMax: real, top3ShareMax: real, hhiMax: real,
    persistenceMinDays: int, persistenceWindowDays: int)

  const DEFAULT_LIMITS := Limits(0.05, 4, 0.35, 0.7, 0.25, 3, 5)

  function PositiveVolumes(brokers: seq<BrokerRow>): seq<real> {
    if brokers == [] then []
    else (if brokers[0].netVolume > 0.0 then [brokers[0].netVolume] else []) + PositiveVolumes(brokers[1..])
  }

  function Sum(xs: seq<real>): real {
    if xs == [] then 0.0 else xs[0] + Sum(xs[1..])
  }

  function Square(x: real): real { x * x }

  function SumOfSquares(xs: seq<real>): real {
    if xs == [] then 0.0 else Square(xs[0]) + SumOfSquares(xs[1..])
  }

  function CountAtLeast(xs: seq<real>, bound: real): nat {
    if xs == [] then 0 else (if xs[0] >= bound then 1 else 0) + CountAtLeast(xs[1..], bound)
  }

  function Normalised(xs: seq<real>, total: real): seq<real>
    requires total != 0.0
  {
    if xs == [] then [] else [xs[0] / total] + Normalised(xs[1..], total)
  }

  predicate Larger(x: real, y: real) {
    x > y
  }

  /** Largest first. */
  function Sorted(xs: seq<real>): seq<real> {
    if xs == [] then [] else Insert(xs[0], Sorted(xs[1..]), Larger)
  }

  function Shares(brokers: seq<BrokerRow>): seq<real>
    requires Sum(PositiveVolumes(brokers)) > 0.0
  {
    var volumes := PositiveVolumes(brokers);
    Sorted(Normalised(volumes, Sum(volumes)))
  }

  function BuyerConcentration(brokers: seq<BrokerRow>, minShare: real): Concentration {
    var volumes := PositiveVolumes(brokers);
    if Sum(volumes) <= 0.0 then Concentration(0.0, 0.0, 0.0, 0, 0)
    else
      var shares := Shares(brokers);
      Concentration(if shares == [] then 0.0 else shares[0], Sum(shares[..Min(3, |shares|)]), SumOfSquares(shares),
                    CountAtLeast(shares, minShare), |volumes|)
  }

  // ----- sorting -----

  predicate Descending(xs: seq<real>) {
    forall i, j :: 0 <= i < j < |xs| ==> xs[i] >= xs[j]
  }

  lemma InsertKeepsDescending(x: real, xs: seq<real>)
    requires Descending(xs)
    ensures Descending(Insert(x, xs, Larger))
  {
    InsertKeepsOrder(x, xs, Larger);
    var r := Insert(x, xs, Larger);
    assert forall i, j :: 0 <= i < j < |r| ==> !Larger(r[j], r[i]);
  }

  lemma {:induction false} SortedDescends(xs: seq<real>)
    ensures Descending(Sorted(xs))
    decreases |xs|
  {
    if xs != [] {
      hide Insert, Descending;
      SortedDescends(xs[1..]);
      InsertKeepsDescending(xs[0], Sorted(xs[1..]));
    }
  }

  lemma {:induction false} SortedPermutes(xs: seq<real>)
    ensures multiset(Sorted(xs)) == multiset(xs) && |Sorted(xs)| == |xs|
    decreases |xs|
  {
    if xs != [] {
      hide Insert;
      SortedPermutes(xs[1..]);
      InsertAdds(xs[0], Sorted(xs[1..]), Larger);
      assert xs == [xs[0]] + xs[1..];
    }
  }

  lemma SortedKeeps(xs: seq<real>)
    ensures Descending(Sorted(xs)) && multiset(Sorted(xs)) == multiset(xs) && |Sorted(xs)| == |xs|
  {
    SortedDescends(xs);
    SortedPermutes(xs);
  }

  lemma FirstIsLargest(xs: seq<real>, y: real)
    requires Descending(xs) && xs != []
    ensures y in multiset(xs) ==> y <= xs[0]
    ensures xs[0] in multiset(xs)
  {
  }

  lemma SameMembersSameFirst(xs: seq<real>, ys: seq<real>)
    requires Descending(xs) && Descending(ys) && multiset(xs) == multiset(ys) && xs != [] && ys != []
    ensures xs[0] == ys[0]
  {
    FirstIsLargest(xs, ys[0]);
    FirstIsLargest(ys, xs[0]);
  }

  lemma WithoutFirst(xs: seq<real>)
    requires xs != []
    ensures multiset(xs[1..]) == multiset(xs) - multiset{xs[0]}
  {
    assert xs == [xs[0]] + xs[1..];
  }

  lemma {:induction false} DescendingIsUnique(xs: seq<real>, ys: seq<real>)
    requires Descending(xs) && Descending(ys) && multiset(xs) == multiset(ys)
    ensures xs == ys
    decreases |xs|
  {
    assert |multiset(xs)| == |xs| && |multiset(ys)| == |ys|;
    if xs != [] {
      SameMembersSameFirst(xs, ys);
      WithoutFirst(xs);
      WithoutFirst(ys);
      TailDescends(xs);
      TailDescends(ys);
      hide Descending;
      DescendingIsUnique(xs[1..], ys[1..]);
      assert xs == [xs[0]] + xs[1..] && ys == [ys[0]] + ys[1..];
    }
  }

  lemma TailDescends(xs: seq<real>)
    requires Descending(xs) && xs != []
    ensures Descending(xs[1..])
  {
  }

  // ----- reordering the rows changes nothing -----

  lemma {:induction false} VolumesOfConcat(a: seq<BrokerRow>, b: seq<BrokerRow>)
    ensures PositiveVolumes(a + b) == PositiveVolumes(a) + PositiveVolumes(b)
    decreases |a|
  {
    if a == [] {
      assert a + b == b;
    } else {
      assert (a + b)[1..] == a[1..] + b;
      VolumesOfConcat(a[1..], b);
    }
  }

  /** Taking out one row takes out its volume. */
  lemma VolumesWithout(rows: seq<BrokerRow>, i: nat)
    requires i < |rows|
    ensures var rest := rows[..i] + rows[i + 1..];
            && multiset(rows) == multiset(rest) + multiset{rows[i]}
            && multiset(PositiveVolumes(rows)) == multiset(PositiveVolumes(rest)) + multiset(PositiveVolumes([rows[i]]))
  {
    var front, one, back := rows[..i], [rows[i]], rows[i + 1..];
    assert rows == front + one + back;
    VolumesOfConcat(front + one, back);
    VolumesOfConcat(front, one);
    VolumesOfConcat(front, back);
  }

  lemma {:induction false} VolumesOfReordering(a: seq<BrokerRow>, b: seq<BrokerRow>)
    requires multiset(a) == multiset(b)
    ensures multiset(PositiveVolumes(a)) == multiset(PositiveVolumes(b))
    decreases |a|
  {
    hide PositiveVolumes;
    SameSize(a, b);
    if a == [] {
      assert a == b;
    } else {
      var i := PlaceOf(a[0], a, b);
      VolumesWithout(a, 0);
      VolumesWithout(b, i);
      VolumesOfReordering(a[..0] + a[1..], b[..i] + b[i + 1..]);
    }
  }

  lemma SameSize(a: seq<BrokerRow>, b: seq<BrokerRow>)
    requires multiset(a) == multiset(b)
    ensures |a| == |b|
  {
    assert |multiset(a)| == |a| && |multiset(b)| == |b|;
  }

  lemma PlaceOf(row: BrokerRow, a: seq<BrokerRow>, b: seq<BrokerRow>) returns (i: nat)
    requires multiset(a) == multiset(b) && a != [] && row == a[0]
    ensures i < |b| && b[i] == row && multiset(a[..0] + a[1..]) == multiset(b[..i] + b[i + 1..])
  {
    assert row in multiset(b);
    i :| 0 <= i < |b| && b[i] == row;
    TakenOut(a, 0);
    TakenOut(b, i);
  }

  lemma TakenOut(rows: seq<BrokerRow>, i: nat)
    requires i < |rows|
    ensures multiset(rows[..i] + rows[i + 1..]) == multiset(rows) - multiset{rows[i]}
  {
    assert rows == rows[..i] + [rows[i]] + rows[i + 1..];
  }

  lemma {:induction false} SumOfInsert(x: real, xs: seq<real>)
    ensures Sum(Insert(x, xs, Larger)) == x + Sum(xs)
    decreases |xs|
  {
    if xs != [] && x <= xs[0] {
      SumOfInsert(x, xs[1..]);
      assert Insert(x, xs, Larger)[1..] == Insert(x, xs[1..], Larger);
    } else {
      assert Insert(x, xs, Larger)[1..] == xs;
    }
  }

  lemma {:induction false} SumOfSorted(xs: seq<real>)
    ensures Sum(Sorted(xs)) == Sum(xs)
    decreases |xs|
  {
    if xs != [] {
      SumOfSorted(xs[1..]);
      SumOfInsert(xs[0], Sorted(xs[1..]));
    }
  }

  lemma {:induction false} InsertNormalised(x: real, xs: seq<real>, total: real)
    requires total > 0.0
    ensures Insert(x / total, Normalised(xs, total), Larger) == Normalised(Insert(x, xs, Larger), total)
    decreases |xs|
  {
    if xs != [] {
      QuotientOrder(xs[0], x, total);
      assert Normalised(xs, total)[1..] == Normalised(xs[1..], total);
      InsertNormalised(x, xs[1..], total);
      assert Insert(x, xs, Larger)[1..] == if x > xs[0] then xs else Insert(x, xs[1..], Larger);
    }
  }

  lemma QuotientOrder(x: real, y: real, total: real)
    requires total > 0.0
    ensures x >= y <==> x / total >= y / total
  {
    var p, q := x / total, y / total;
    assert p * total == x && q * total == y;
    if p >= q { Scale(q, p, total); } else { ScaleStrict(p, q, total); }
  }

  lemma {:induction false} SortNormalised(xs: seq<real>, total: real)
    requires total > 0.0
    ensures Sorted(Normalised(xs, total)) == Normalised(Sorted(xs), total)
    decreases |xs|
  {
    if xs != [] {
      SortNormalised(xs[1..], total);
      assert Normalised(xs, total)[1..] == Normalised(xs[1..], total);
      InsertNormalised(xs[0], Sorted(xs[1..]), total);
    }
  }

  /** The rows may come in any order. */
  lemma OrderOfRowsIsIrrelevant(a: seq<BrokerRow>, b: seq<BrokerRow>, minShare: real)
    requires multiset(a) == multiset(b)
    ensures BuyerConcentration(a, minShare) == BuyerConcentration(b, minShare)
  {
    var va, vb := PositiveVolumes(a), PositiveVolumes(b);
    VolumesOfReordering(a, b);
    SortedKeeps(va);
    SortedKeeps(vb);
    DescendingIsUnique(Sorted(va), Sorted(vb));
    SumOfSorted(va);
    SumOfSorted(vb);
    if Sum(va) > 0.0 {
      SortNormalised(va, Sum(va));
      SortNormalised(vb, Sum(vb));
    }
  }

  // ----- the inequalities -----

  lemma {:induction false} VolumesArePositive(brokers: seq<BrokerRow>)
    ensures forall k :: 0 <= k < |PositiveVolumes(brokers)| ==> PositiveVolumes(brokers)[k] > 0.0
    ensures PositiveVolumes(brokers) != [] ==> Sum(PositiveVolumes(brokers)) > 0.0
    ensures Sum(PositiveVolumes(brokers)) >= 0.0
    decreases |brokers|
  {
    if brokers != [] {
      VolumesArePositive(brokers[1..]);
      if brokers[0].netVolume > 0.0 {
        assert PositiveVolumes(brokers)[1..] == PositiveVolumes(brokers[1..]);
      } else {
        assert PositiveVolumes(brokers) == PositiveVolumes(brokers[1..]);
      }
    }
  }

  lemma {:induction false} NormalisedSum(xs: seq<real>, total: real)
    requires total > 0.0 && forall k :: 0 <= k < |xs| ==> xs[k] > 0.0
    ensures |Normalised(xs, total)| == |xs|
    ensures Product(Sum(Normalised(xs, total)), total) == Sum(xs)
    ensures forall k :: 0 <= k < |xs| ==> Normalised(xs, total)[k] > 0.0
    decreases |xs|
  {
    if xs != [] {
      NormalisedSum(xs[1..], total);
      var q, rest := xs[0] / total, Normalised(xs[1..], total);
      assert Normalised(xs, total)[1..] == rest;
      assert q * total == xs[0];
      assert (q + Sum(rest)) * total == q * total + Sum(rest) * total;
      assert q > 0.0;
    }
  }

  /** Shares are positive, in descending order, one to a buyer, and make up the whole. */
  lemma SharesMakeOne(brokers: seq<BrokerRow>)
    requires PositiveVolumes(brokers) != []
    ensures Sum(PositiveVolumes(brokers)) > 0.0
    ensures var shares := Shares(brokers);
            ArePositiveShares(shares) && |shares| == |PositiveVolumes(brokers)|
  {
    var volumes := PositiveVolumes(brokers);
    VolumesArePositive(brokers);
    assert forall k :: 0 <= k < |volumes| ==> volumes[k] > 0.0;
    var total := Sum(volumes);
    var normalised := Normalised(volumes, total);
    NormalisedSum(volumes, total);
    assert Sum(normalised) == 1.0 by {
      hide Product;
      OnlyOneScales(Sum(normalised), total);
    }
    SortedKeeps(normalised);
    SumOfSorted(normalised);
    forall k | 0 <= k < |Shares(brokers)| ensures Shares(brokers)[k] > 0.0 {
      assert Shares(brokers)[k] in multiset(normalised);
    }
  }

  lemma OnlyOneScales(x: real, t: real)
    requires t > 0.0 && Product(x, t) == t
    ensures x == 1.0
  {
    if x < 1.0 { ScaleStrict(x, 1.0, t); }
    if x > 1.0 { ScaleStrict(1.0, x, t); }
  }

  lemma {:induction false} SumBounds(xs: seq<real>, low: real, high: real)
    requires forall k :: 0 <= k < |xs| ==> low <= xs[k] <= high
    ensures |xs| as real * low <= Sum(xs) <= |xs| as real * high
    decreases |xs|
  {
    if xs != [] {
      SumBounds(xs[1..], low, high);
      var n := |xs[1..]| as real;
      assert |xs| as real == n + 1.0;
      assert (n + 1.0) * low == n * low + low && (n + 1.0) * high == n * high + high;
    }
  }

  lemma {:induction false} SumSplit(xs: seq<real>, k: nat)
    requires k <= |xs|
    ensures Sum(xs) == Sum(xs[..k]) + Sum(xs[k..])
    decreases k
  {
    if k > 0 {
      SumSplit(xs[1..], k - 1);
      assert xs[..k][1..] == xs[1..][..k - 1] && xs[1..][k - 1..] == xs[k..];
    }
  }

  /** n points of sum s under the tangent of the square at a. */
  function Tangent(a: real, n: real, s: real): real {
    2.0 * a * s - n * Square(a)
  }

  /** Squares lie above the tangent at any point, and under the chord to the largest share. */
  lemma {:induction false} SquaresBetweenLines(xs: seq<real>, top: real, a: real)
    requires forall k :: 0 <= k < |xs| ==> 0.0 <= xs[k] <= top
    ensures Tangent(a, |xs| as real, Sum(xs)) <= SumOfSquares(xs) <= Product(top, Sum(xs))
    decreases |xs|
  {
    if xs != [] {
      hide Square, Tangent, Product;
      SquaresBetweenLines(xs[1..], top, a);
      OneSquare(xs[0], top, a, |xs[1..]| as real, Sum(xs[1..]));
    }
  }

  lemma OneSquare(x: real, top: real, a: real, n: real, s: real)
    requires 0.0 <= x <= top
    ensures Tangent(a, n + 1.0, x + s) <= Square(x) + Tangent(a, n, s)
    ensures Square(x) + Product(top, s) <= Product(top, x + s)
  {
    Scale(x, top, x);
    assert Square(x - a) >= 0.0;
    assert Square(x - a) == x * x - 2.0 * a * x + a * a;
    assert 2.0 * a * (x + s) == 2.0 * a * x + 2.0 * a * s && (n + 1.0) * (a * a) == n * (a * a) + a * a;
    assert top * (x + s) == top * x + top * s;
  }

  /** Dominance, the top three and the Herfindahl index of n buyers bound one another. */
  lemma ConcentrationInequalities(brokers: seq<BrokerRow>, minShare: real)
    requires PositiveVolumes(brokers) != []
    ensures var c := BuyerConcentration(brokers, minShare);
            var n := c.buyerBreadthCount as real;
            && c.buyerBreadthCount == |PositiveVolumes(brokers)|
            && 0.0 < c.top1Share <= c.top3Share <= 1.0
            && Square(c.top1Share) <= c.hhi <= c.top1Share
            && n * c.hhi >= 1.0 && n * c.top1Share >= 1.0
            && (c.buyerBreadthCount >= 3 ==> n * c.top3Share >= 3.0)
            && c.meaningfulBuyerCount <= c.buyerBreadthCount
  {
    hide Square, SumOfSquares, Sum, CountAtLeast, PositiveVolumes;
    SharesMakeOne(brokers);
    SharesInequalities(Shares(brokers));
    hide Shares;
    CountBounds(Shares(brokers), minShare);
  }

  predicate ArePositiveShares(xs: seq<real>) {
    xs != [] && Sum(xs) == 1.0 && Descending(xs) && forall k :: 0 <= k < |xs| ==> xs[k] > 0.0
  }

  lemma SharesInequalities(xs: seq<real>)
    requires ArePositiveShares(xs)
    ensures var top1, top3, hhi, n := xs[0], Sum(xs[..Min(3, |xs|)]), SumOfSquares(xs), |xs| as real;
            && 0.0 < top1 <= top3 <= 1.0
            && Square(top1) <= hhi <= top1
            && n * hhi >= 1.0 && n * top1 >= 1.0
            && (|xs| >= 3 ==> n * top3 >= 3.0)
  {
    hide Square, SumOfSquares, Sum;
    TopThree(xs);
    Herfindahl(xs);
    assert |xs| as real * xs[0] >= 1.0 by { SumBounds(xs, 0.0, xs[0]); }
  }

  lemma Herfindahl(xs: seq<real>)
    requires ArePositiveShares(xs)
    ensures Square(xs[0]) <= SumOfSquares(xs) <= xs[0] && |xs| as real * SumOfSquares(xs) >= 1.0
  {
    hide Square, Tangent, Product;
    var n := |xs| as real;
    SquaresBetweenLines(xs, xs[0], 1.0 / n);
    SquaresAreNonNegative(xs[1..]);
    assert Product(xs[0], 1.0) == xs[0] by { TimesOne(xs[0]); }
    MeanOfSquares(n, SumOfSquares(xs));
  }

  lemma TimesOne(x: real)
    ensures Product(x, 1.0) == x
  {
  }

  /** The tangent at the mean 1/n of n shares of sum one. */
  lemma MeanOfSquares(n: real, squares: real)
    requires n > 0.0 && Tangent(1.0 / n, n, 1.0) <= squares
    ensures n * squares >= 1.0
  {
    var a := 1.0 / n;
    assert n * a == 1.0;
    assert n * Square(a) == (n * a) * a;
    assert Tangent(a, n, 1.0) == a;
    Scale(a, squares, n);
  }

  lemma {:induction false} SquaresAreNonNegative(xs: seq<real>)
    ensures SumOfSquares(xs) >= 0.0
    decreases |xs|
  {
    if xs != [] { SquaresAreNonNegative(xs[1..]); }
  }

  /** With three or more buyers the three largest hold at least three n-ths. */
  lemma TopThree(xs: seq<real>)
    requires ArePositiveShares(xs)
    ensures var top3 := Sum(xs[..Min(3, |xs|)]);
            xs[0] <= top3 <= 1.0 && (|xs| >= 3 ==> |xs| as real * top3 >= 3.0)
  {
    var k := Min(3, |xs|);
    TopIsSplit(xs, k);
    if |xs| >= 3 {
      hide Sum;
      var m, head, tail := xs[2], xs[..3], xs[3..];
      assert 3.0 * m <= Sum(head) by { SumBounds(head, m, xs[0]); }
      assert Sum(tail) <= |tail| as real * m by { SumBounds(tail, 0.0, m); }
      TopThreeOfOne(Sum(head), Sum(tail), m, |tail| as real, |xs| as real);
    }
  }

  /** The head of some shares holds at least the first one, and with the rest the whole. */
  lemma TopIsSplit(xs: seq<real>, k: nat)
    requires ArePositiveShares(xs) && 1 <= k <= |xs|
    ensures xs[0] <= Sum(xs[..k]) <= 1.0 && Sum(xs[..k]) + Sum(xs[k..]) == 1.0
  {
    hide Sum;
    var head, tail := xs[..k], xs[k..];
    assert forall j :: 0 <= j < |head[1..]| ==> head[1..][j] == xs[j + 1];
    assert forall j :: 0 <= j < |tail| ==> tail[j] == xs[k + j];
    SumSplit(xs, k);
    NonNegativeSum(head[1..]);
    NonNegativeSum(tail);
    FirstAndRest(head);
  }

  lemma FirstAndRest(xs: seq<real>)
    requires xs != []
    ensures Sum(xs) == xs[0] + Sum(xs[1..])
  {
  }

  lemma {:induction false} NonNegativeSum(xs: seq<real>)
    requires forall k :: 0 <= k < |xs| ==> xs[k] >= 0.0
    ensures Sum(xs) >= 0.0
    decreases |xs|
  {
    if xs != [] { NonNegativeSum(xs[1..]); }
  }

  lemma TopThreeOfOne(top3: real, rest: real, m: real, r: real, n: real)
    requires top3 + rest == 1.0 && rest <= r * m && 3.0 * m <= top3 && r >= 0.0 && n == r + 3.0
    ensures n * top3 >= 3.0
  {
    Scale(3.0 * m, top3, r);
    assert 3.0 * m * r == 3.0 * (r * m);
    assert n * top3 == top3 * r + 3.0 * top3;
  }

  lemma {:induction false} CountBounds(xs: seq<real>, bound: real)
    ensures CountAtLeast(xs, bound) <= |xs|
    ensures CountAtLeast(xs, bound) >= 1 <==> exists k :: 0 <= k < |xs| && xs[k] >= bound
    decreases |xs|
  {
    if xs != [] {
      CountBounds(xs[1..], bound);
      assert forall k :: 1 <= k < |xs| ==> xs[k] == xs[1..][k - 1];
      if k :| 0 <= k < |xs| && xs[k] >= bound && k > 0 { assert xs[1..][k - 1] >= bound; }
    }
  }

  // ----- persistence -----

  /** The last w days; a window of zero or less counts from the front instead. */
  function Window<T>(days: seq<T>, w: int): seq<T> {
    if w > 0 then days[Max(0, |days| - w)..] else days[Min(-w, |days|)..]
  }

  predicate DayQualifies(day: DaySummary, minShare: real) {
    BuyerConcentration(day, minShare).meaningfulBuyerCount >= 1
  }

  function CountQualifying(days: seq<DaySummary>, minShare: real): nat {
    if days == [] then 0 else (if DayQualifies(days[0], minShare) then 1 else 0) + CountQualifying(days[1..], minShare)
  }

  function Persistence(days: seq<DaySummary>, windowDays: int, minShare: real): nat {
    CountQualifying(Window(days, windowDays), minShare)
  }

  /** A day counts exactly when its largest net buyer is meaningful. */
  lemma DayQualifiesIff(day: DaySummary, minShare: real)
    ensures DayQualifies(day, minShare) <==>
            PositiveVolumes(day) != [] && BuyerConcentration(day, minShare).top1Share >= minShare
  {
    VolumesArePositive(day);
    if PositiveVolumes(day) != [] {
      SharesMakeOne(day);
      CountBounds(Shares(day), minShare);
    }
  }

  lemma {:induction false} QualifyingAtMostDays(days: seq<DaySummary>, minShare: real)
    ensures CountQualifying(days, minShare) <= |days|
    decreases |days|
  {
    if days != [] { QualifyingAtMostDays(days[1..], minShare); }
  }

  lemma PersistenceBounded(days: seq<DaySummary>, windowDays: int, minShare: real)
    ensures Persistence(days, windowDays, minShare) <= |days|
    ensures windowDays > 0 ==> Persistence(days, windowDays, minShare) <= windowDays
  {
    QualifyingAtMostDays(Window(days, windowDays), minShare);
  }

  // ----- the gate -----

  predicate GatePasses(c: Concentration, persistenceDays: int, limits: Limits) {
    && c.top1Share <= limits.top1ShareMax
    && c.top3Share <= limits.top3ShareMax
    && c.hhi <= limits.hhiMax
    && c.meaningfulBuyerCount >= limits.minMeaningfulBuyers
    && persistenceDays >= limits.persistenceMinDays
  }

  /**
   * A gate that asks for a meaningful buyer forces a breadth of buyers: one over each ceiling, three over the top-three
   * one.
   */
  lemma GateForcesBreadth(day: DaySummary, persistenceDays: int, limits: Limits)
    requires limits.minMeaningfulBuyers >= 1
    requires GatePasses(BuyerConcentration(day, limits.meaningfulBuyerMinShare), persistenceDays, limits)
    ensures var n := |PositiveVolumes(day)|;
            && n >= limits.minMeaningfulBuyers && n as real * limits.top1ShareMax >= 1.0
                && n as real * limits.hhiMax >= 1.0
            && (n >= 3 ==> n as real * limits.top3ShareMax >= 3.0)
  {
    hide BuyerConcentration, PositiveVolumes;
    var c, n := BuyerConcentration(day, limits.meaningfulBuyerMinShare), |PositiveVolumes(day)| as real;
    NoBuyersNoShares(day, limits.meaningfulBuyerMinShare);
    ConcentrationInequalities(day, limits.meaningfulBuyerMinShare);
    CeilingCarriesOver(c.top1Share, limits.top1ShareMax, n, 1.0);
    CeilingCarriesOver(c.hhi, limits.hhiMax, n, 1.0);
    CeilingCarriesOver(c.top3Share, limits.top3ShareMax, n, 3.0);
  }

  lemma NoBuyersNoShares(day: DaySummary, minShare: real)
    ensures PositiveVolumes(day) == [] ==> BuyerConcentration(day, minShare) == Concentration(0.0, 0.0, 0.0, 0, 0)
  {
  }

  lemma CeilingCarriesOver(share: real, max: real, n: real, bound: real)
    requires share <= max && n >= 0.0
    ensures n * share >= bound ==> n * max >= bound
  {
    var low, high := share * n, max * n;
    assert low <= high by { Scale(share, max, n); }
    assert n * share == low && n * max == high;
  }

  /** At the default limits that is at least five net buyers and three days of data. */
  lemma DefaultGateNeedsFiveBuyers(days: seq<DaySummary>)
    requires days != []
    requires GatePasses(BuyerConcentration(days[|days| - 1], DEFAULT_LIMITS.meaningfulBuyerMinShare),
                        Persistence(days, DEFAULT_LIMITS.persistenceWindowDays, DEFAULT_LIMITS.meaningfulBuyerMinShare),
                        DEFAULT_LIMITS)
    ensures |PositiveVolumes(days[|days| - 1])| >= 5
    ensures |days| >= 3
  {
    hide BuyerConcentration, Persistence;
    PersistenceBounded(days, DEFAULT_LIMITS.persistenceWindowDays, DEFAULT_LIMITS.meaningfulBuyerMinShare);
    GateForcesBreadth(days[|days| - 1],
                      Persistence(days, DEFAULT_LIMITS.persistenceWindowDays, DEFAULT_LIMITS.meaningfulBuyerMinShare),
                      DEFAULT_LIMITS);
  }

  /**
   * Given a single day, as the deep funnel gives it, a gate that wants more than one day of persistence never passes.
   */
  lemma OneDayNeverPersists(day: DaySummary, limits: Limits)
    requires limits.persistenceMinDays > 1
    ensures !GatePasses(BuyerConcentration(day, limits.meaningfulBuyerMinShare),
                        Persistence([day], limits.persistenceWindowDays, limits.meaningfulBuyerMinShare), limits)
  {
    PersistenceBounded([day], limits.persistenceWindowDays, limits.meaningfulBuyerMinShare);
  }

  const FIVE_EQUAL: DaySummary := [
    BrokerRow("A", 100.0), BrokerRow("B", 100.0), BrokerRow("C", 100.0), BrokerRow("D", 100.0), BrokerRow("E", 100.0)]

  /** Repetitions of one number. */
  function Copies(n: nat, x: real): seq<real> {
    if n == 0 then [] else [x] + Copies(n - 1, x)
  }

  lemma {:induction false} CopiesAre(n: nat, x: real)
    ensures |Copies(n, x)| == n && forall k :: 0 <= k < n ==> Copies(n, x)[k] == x
    decreases n
  {
    if n > 0 { CopiesAre(n - 1, x); }
  }

  lemma {:induction false} CopiesAddUp(n: nat, x: real, total: real, bound: real)
    requires total != 0.0 && bound <= x
    ensures Sum(Copies(n, x)) == n as real * x && SumOfSquares(Copies(n, x)) == n as real * Square(x)
    ensures Normalised(Copies(n, x), total) == Copies(n, x / total)
    ensures Sorted(Copies(n, x)) == Copies(n, x) && CountAtLeast(Copies(n, x), bound) == n
    decreases n
  {
    hide Square;
    if n > 0 {
      var rest := Copies(n - 1, x);
      CopiesAddUp(n - 1, x, total, bound);
      assert Copies(n, x)[1..] == rest && Copies(n, x)[0] == x;
      InsertCopy(n - 1, x);
      assert n as real == (n - 1) as real + 1.0;
      var m, square := (n - 1) as real, Square(x);
      assert (m + 1.0) * square == m * square + square && (m + 1.0) * x == m * x + x;
    }
  }

  lemma {:induction false} InsertCopy(n: nat, x: real)
    ensures Insert(x, Copies(n, x), Larger) == [x] + Copies(n, x)
    decreases n
  {
    if n > 0 {
      InsertCopy(n - 1, x);
      assert Copies(n, x)[1..] == Copies(n - 1, x);
    }
  }

  lemma FiveShares()
    ensures PositiveVolumes(FIVE_EQUAL) == Copies(5, 100.0) && Sum(Copies(5, 100.0)) == 500.0
    ensures Sorted(Normalised(Copies(5, 100.0), 500.0)) == Copies(5, 0.2)
  {
    hide PositiveVolumes, Copies, Normalised, Sorted, Sum;
    FiveVolumes();
    CopiesAddUp(5, 100.0, 500.0, 100.0);
    CopiesAddUp(5, 0.2, 1.0, 0.05);
  }

  lemma FiveFifths()
    ensures var shares := Copies(5, 0.2);
            && |shares| == 5 && shares[0] == 0.2 && Sum(shares[..3]) == 0.6
            && SumOfSquares(shares) == 0.2 && CountAtLeast(shares, 0.05) == 5
  {
    CopiesAddUp(5, 0.2, 1.0, 0.05);
    CopiesAddUp(3, 0.2, 1.0, 0.05);
    CopiesAre(5, 0.2);
    CopiesAre(3, 0.2);
    hide Copies, Sum, SumOfSquares, CountAtLeast;
    assert Copies(5, 0.2)[..3] == Copies(3, 0.2);
    assert Square(0.2) == 0.04;
  }

  /** Five buyers of the same size hold a fifth each, on a day that counts. */
  lemma FiveEqualBuyers()
    ensures BuyerConcentration(FIVE_EQUAL, 0.05) == Concentration(0.2, 0.6, 0.2, 5, 5)
    ensures Persistence([FIVE_EQUAL], 5, 0.05) == 1
  {
    hide PositiveVolumes, Copies, Normalised, Sorted, Sum, SumOfSquares, CountAtLeast, Persistence;
    FiveShares();
    FiveFifths();
    CopiesAre(5, 100.0);
    OneDayCounts(FIVE_EQUAL, 5, 0.05);
  }

  lemma OneDayCounts(day: DaySummary, windowDays: int, minShare: real)
    requires windowDays > 0 && DayQualifies(day, minShare)
    ensures Persistence([day], windowDays, minShare) == 1
  {
    hide DayQualifies;
    assert Window([day], windowDays) == [day] && [day][1..] == [];
    assert CountQualifying([], minShare) == 0;
  }

  lemma FiveVolumes()
    ensures PositiveVolumes(FIVE_EQUAL) == Copies(5, 100.0)
  {
    assert PositiveVolumes(FIVE_EQUAL[5..]) == Copies(0, 100.0);
    assert FIVE_EQUAL[4..][1..] == FIVE_EQUAL[5..] && PositiveVolumes(FIVE_EQUAL[4..]) == Copies(1, 100.0);
    assert FIVE_EQUAL[3..][1..] == FIVE_EQUAL[4..] && PositiveVolumes(FIVE_EQUAL[3..]) == Copies(2, 100.0);
    assert FIVE_EQUAL[2..][1..] == FIVE_EQUAL[3..] && PositiveVolumes(FIVE_EQUAL[2..]) == Copies(3, 100.0);
    assert FIVE_EQUAL[1..][1..] == FIVE_EQUAL[2..] && PositiveVolumes(FIVE_EQUAL[1..]) == Copies(4, 100.0);
    assert FIVE_EQUAL[0..] == FIVE_EQUAL;
  }

  // ----- the figures, told from the rows -----

  /** Positions of the rows that bought this much. */
  function RowsWith(brokers: seq<BrokerRow>, v: real): set<nat> {
    set i | 0 <= i < |brokers| && brokers[i].netVolume == v
  }

  /** The net buyers are the rows with a positive volume, each as often as it occurs. */
  lemma {:induction false} BuyersAreThePositiveRows(brokers: seq<BrokerRow>, v: real)
    ensures multiset(PositiveVolumes(brokers))[v] == if v > 0.0 then |RowsWith(brokers, v)| else 0
    decreases |brokers|
  {
    if brokers == [] {
      assert RowsWith(brokers, v) == {};
    } else {
      var n := |brokers| - 1;
      BuyersAreThePositiveRows(brokers[..n], v);
      VolumesOfLast(brokers);
      RowsOfLast(brokers, v);
      hide PositiveVolumes, RowsWith;
    }
  }

  lemma RowsOfLast(brokers: seq<BrokerRow>, v: real)
    requires brokers != []
    ensures var n := |brokers| - 1;
            |RowsWith(brokers, v)| == |RowsWith(brokers[..n], v)| + if brokers[n].netVolume == v then 1 else 0
  {
    var n := |brokers| - 1;
    assert RowsWith(brokers, v) == RowsWith(brokers[..n], v) + if brokers[n].netVolume == v then {n} else {};
  }

  lemma VolumesOfLast(brokers: seq<BrokerRow>)
    requires brokers != []
    ensures var init, last := brokers[..|brokers| - 1], brokers[|brokers| - 1].netVolume;
            multiset(PositiveVolumes(brokers))
            == multiset(PositiveVolumes(init)) + if last > 0.0 then multiset{last} else multiset{}
  {
    var init, last := brokers[..|brokers| - 1], brokers[|brokers| - 1];
    assert brokers == init + [last];
    VolumesOfConcat(init, [last]);
    VolumeOfOne(last);
  }

  lemma VolumeOfOne(row: BrokerRow)
    ensures PositiveVolumes([row]) == if row.netVolume > 0.0 then [row.netVolume] else []
  {
    assert [row][1..] == [] && PositiveVolumes([]) == [];
  }

  lemma {:induction false} SquaresOfInsert(x: real, xs: seq<real>, bound: real)
    ensures SumOfSquares(Insert(x, xs, Larger)) == Square(x) + SumOfSquares(xs)
    ensures CountAtLeast(Insert(x, xs, Larger), bound) == (if x >= bound then 1 else 0) + CountAtLeast(xs, bound)
    decreases |xs|
  {
    hide Square;
    if xs != [] && x <= xs[0] {
      SquaresOfInsert(x, xs[1..], bound);
      assert Insert(x, xs, Larger)[1..] == Insert(x, xs[1..], Larger);
    } else {
      assert Insert(x, xs, Larger)[1..] == xs;
    }
  }

  lemma {:induction false} SquaresOfSorted(xs: seq<real>, bound: real)
    ensures SumOfSquares(Sorted(xs)) == SumOfSquares(xs) && CountAtLeast(Sorted(xs), bound) == CountAtLeast(xs, bound)
    decreases |xs|
  {
    hide Square;
    if xs != [] {
      SquaresOfSorted(xs[1..], bound);
      SquaresOfInsert(xs[0], Sorted(xs[1..]), bound);
    }
  }

  /** Dividing by the total scales sums once, squares twice, and bounds along. */
  lemma {:induction false} ScaledFigures(xs: seq<real>, total: real, bound: real)
    requires total > 0.0
    ensures Product(Sum(Normalised(xs, total)), total) == Sum(xs)
    ensures Product(SumOfSquares(Normalised(xs, total)), Square(total)) == SumOfSquares(xs)
    ensures CountAtLeast(Normalised(xs, total), bound) == CountAtLeast(xs, Product(bound, total))
    decreases |xs|
  {
    if xs != [] {
      var q, rest := xs[0] / total, Normalised(xs[1..], total);
      ScaledFigures(xs[1..], total, bound);
      assert Normalised(xs, total)[1..] == rest;
      ScaledOne(xs[0], total, bound);
      hide Product, Square;
      ProductOfSum(q, Sum(rest), total);
      ProductOfSum(Square(q), SumOfSquares(rest), Square(total));
    }
  }

  lemma ProductOfSum(a: real, b: real, c: real)
    ensures Product(a + b, c) == Product(a, c) + Product(b, c)
  {
  }

  lemma ScaledOne(x: real, total: real, bound: real)
    requires total > 0.0
    ensures Product(x / total, total) == x && Product(Square(x / total), Square(total)) == Square(x)
    ensures x / total >= bound <==> x >= Product(bound, total)
  {
    var q := x / total;
    assert q * total == x;
    assert q * q * (total * total) == q * total * (q * total);
    if q >= bound { Scale(bound, q, total); } else { ScaleStrict(q, bound, total); }
  }

  lemma {:induction false} HeadOfNormalised(xs: seq<real>, total: real, k: nat)
    requires total != 0.0 && k <= |xs|
    ensures |Normalised(xs, total)| == |xs| && Normalised(xs, total)[..k] == Normalised(xs[..k], total)
    decreases k
  {
    if k == 0 {
      NormalisedSize(xs, total);
    } else {
      HeadOfNormalised(xs[1..], total, k - 1);
      assert xs[..k][1..] == xs[1..][..k - 1];
      assert Normalised(xs, total)[..k] == [xs[0] / total] + Normalised(xs[1..], total)[..k - 1];
    }
  }

  lemma {:induction false} NormalisedSize(xs: seq<real>, total: real)
    requires total != 0.0
    ensures |Normalised(xs, total)| == |xs|
    decreases |xs|
  {
    if xs != [] { NormalisedSize(xs[1..], total); }
  }

  /**
   * Multiplied out by the day's net buying, the shares are volumes: of the largest buyer, of the three largest, and,
   * for the index, the sum of all squares. A buyer counts as meaningful from that part of the whole on.
   */
  lemma FiguresOfVolumes(brokers: seq<BrokerRow>, minShare: real)
    requires PositiveVolumes(brokers) != []
    ensures var v, c := PositiveVolumes(brokers), BuyerConcentration(brokers, minShare);
            var total, ranked := Sum(v), Sorted(v);
            && total > 0.0 && Descending(ranked) && multiset(ranked) == multiset(v) && |ranked| == |v|
            && Product(c.top1Share, total) == ranked[0]
            && Product(c.top3Share, total) == Sum(ranked[..Min(3, |v|)])
            && Product(c.hhi, Square(total)) == SumOfSquares(v)
            && c.meaningfulBuyerCount == CountAtLeast(v, Product(minShare, total))
            && c.buyerBreadthCount == |v|
  {
    var v := PositiveVolumes(brokers);
    var total, ranked := Sum(v), Sorted(v);
    VolumesArePositive(brokers);
    SortedKeeps(v);
    SortNormalised(v, total);
    SquaresOfSorted(v, Product(minShare, total));
    ScaledFigures(ranked, total, minShare);
    var k := Min(3, |v|);
    HeadOfNormalised(ranked, total, k);
    ScaledFigures(ranked[..k], total, minShare);
    ScaledOne(ranked[0], total, minShare);
    hide Product, Square, Sum, SumOfSquares, CountAtLeast, Sorted, Descending, PositiveVolumes;
  }

  /** Positions of the days that count, from this one on. */
  function CountingDays(days: seq<DaySummary>, from: nat, minShare: real): set<nat> {
    set i | from <= i < |days| && DayQualifies(days[i], minShare)
  }

  lemma {:induction false} CountIsOfTail(days: seq<DaySummary>, from: nat, minShare: real)
    requires from <= |days|
    ensures CountQualifying(days[from..], minShare) == |CountingDays(days, from, minShare)|
    decreases |days| - from
  {
    hide DayQualifies;
    if from == |days| {
      assert CountingDays(days, from, minShare) == {};
    } else {
      CountIsOfTail(days, from + 1, minShare);
      assert days[from..][1..] == days[from + 1..];
      assert CountingDays(days, from, minShare)
          == CountingDays(days, from + 1, minShare) + if DayQualifies(days[from], minShare) then {from} else {};
    }
  }

  /**
   * Persistence counts the qualifying days among the most recent ones; a window that is not positive skips first days.
   */
  lemma PersistenceIsOfRecentDays(days: seq<DaySummary>, windowDays: int, minShare: real)
    ensures var from := if windowDays > 0 then Max(0, |days| - windowDays) else Min(-windowDays, |days|);
            Persistence(days, windowDays, minShare) == |CountingDays(days, from, minShare)|
  {
    hide DayQualifies;
    CountIsOfTail(days, if windowDays > 0 then Max(0, |days| - windowDays) else Min(-windowDays, |days|), minShare);
  }
}
