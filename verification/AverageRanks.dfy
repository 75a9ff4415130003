/** Average ranks with ties, written group by group into an array, and the quintile a rank falls into. */
module AverageRanks {
  import opened Reals

  // ----- the reference definition -----

  function Below(xs: seq<real>, v: real): nat {
    if xs == [] then 0 else Below(xs[..|xs| - 1], v) + if xs[|xs| - 1] < v then 1 else 0
  }

  function Equal(xs: seq<real>, v: real): nat {
    if xs == [] then 0 else Equal(xs[..|xs| - 1], v) + if xs[|xs| - 1] == v then 1 else 0
  }

  function Above(xs: seq<real>, v: real): nat {
    if xs == [] then 0 else Above(xs[..|xs| - 1], v) + if xs[|xs| - 1] > v then 1 else 0
  }

  /** One more than the values below, averaged over the values equal to it. */
  function RankOf(xs: seq<real>, v: real): real {
    Below(xs, v) as real + (Equal(xs, v) as real + 1.0) / 2.0
  }

  // ----- sorting positions by value -----

  function InsertPosition(xs: seq<real>, i: nat, order: seq<nat>): seq<nat>
    requires i < |xs| && forall k :: 0 <= k < |order| ==> order[k] < |xs|
  {
    if order == [] || xs[i] < xs[order[0]] then [i] + order
    else [order[0]] + InsertPosition(xs, i, order[1..])
  }

  predicate InRange(xs: seq<real>, order: seq<nat>) {
    forall k :: 0 <= k < |order| ==> order[k] < |xs|
  }

  predicate Ascending(xs: seq<real>, order: seq<nat>)
    requires InRange(xs, order)
  {
    forall j, k :: 0 <= j < k < |order| ==> xs[order[j]] <= xs[order[k]]
  }

  /** Positions 0 to n - 1 in ascending order of value, ties in order of position. */
  function SortedPositions(xs: seq<real>, n: nat): (order: seq<nat>)
    requires n <= |xs|
    ensures InRange(xs, order)
  {
    if n == 0 then [] else
      var order := SortedPositions(xs, n - 1);
      InsertInRange(xs, n - 1, order);
      InsertPosition(xs, n - 1, order)
  }

  lemma {:induction false} InsertInRange(xs: seq<real>, i: nat, order: seq<nat>)
    requires i < |xs| && InRange(xs, order)
    ensures InRange(xs, InsertPosition(xs, i, order))
    decreases |order|
  {
    if order != [] && xs[i] >= xs[order[0]] { InsertInRange(xs, i, order[1..]); }
  }

  predicate AllAtLeast(xs: seq<real>, order: seq<nat>, low: real)
    requires InRange(xs, order)
  {
    forall k :: 0 <= k < |order| ==> low <= xs[order[k]]
  }

  lemma {:induction false} InsertAscends(xs: seq<real>, i: nat, order: seq<nat>, low: real)
    requires i < |xs| && InRange(xs, order) && Ascending(xs, order) && AllAtLeast(xs, order, low) && low <= xs[i]
    ensures var r := InsertPosition(xs, i, order); InRange(xs, r) && Ascending(xs, r) && AllAtLeast(xs, r, low)
    decreases |order|
  {
    InsertInRange(xs, i, order);
    if order != [] && xs[i] >= xs[order[0]] {
      InsertAscends(xs, i, order[1..], xs[order[0]]);
    }
  }

  lemma InsertKeepsAscending(xs: seq<real>, i: nat, order: seq<nat>)
    requires i < |xs| && InRange(xs, order) && Ascending(xs, order)
    ensures var r := InsertPosition(xs, i, order); InRange(xs, r) && Ascending(xs, r)
  {
    hide InsertPosition;
    InsertAscends(xs, i, order, if order == [] || xs[i] < xs[order[0]] then xs[i] else xs[order[0]]);
  }

  lemma {:induction false} InsertAddsPosition(xs: seq<real>, i: nat, order: seq<nat>)
    requires i < |xs| && InRange(xs, order)
    ensures var r := InsertPosition(xs, i, order); multiset(r) == multiset(order) + multiset{i} && |r| == |order| + 1
    decreases |order|
  {
    if order != [] && xs[i] >= xs[order[0]] {
      InsertAddsPosition(xs, i, order[1..]);
      assert order == [order[0]] + order[1..];
    }
  }

  function Upto(n: nat): multiset<nat> {
    if n == 0 then multiset{} else Upto(n - 1) + multiset{n - 1}
  }

  lemma {:induction false} UptoCounts(n: nat, i: nat)
    ensures Upto(n)[i] == if i < n then 1 else 0
    decreases n
  {
    if n > 0 { UptoCounts(n - 1, i); }
  }

  lemma {:induction false} SortingAscends(xs: seq<real>, n: nat)
    requires n <= |xs|
    ensures Ascending(xs, SortedPositions(xs, n))
    decreases n
  {
    if n > 0 {
      hide InsertPosition, Ascending;
      SortingAscends(xs, n - 1);
      InsertKeepsAscending(xs, n - 1, SortedPositions(xs, n - 1));
    } else {
      assert SortedPositions(xs, 0) == [];
    }
  }

  lemma OneMorePosition(xs: seq<real>, n: nat)
    requires n < |xs|
    ensures var order, more := SortedPositions(xs, n), SortedPositions(xs, n + 1);
            |more| == |order| + 1 && multiset(more) == multiset(order) + multiset{n}
  {
    hide InsertPosition;
    InsertAddsPosition(xs, n, SortedPositions(xs, n));
  }

  lemma {:induction false} SortingKeeps(xs: seq<real>, n: nat)
    requires n <= |xs|
    ensures var order := SortedPositions(xs, n); |order| == n && multiset(order) == Upto(n)
    decreases n
  {
    if n > 0 {
      hide SortedPositions;
      SortingKeeps(xs, n - 1);
      OneMorePosition(xs, n - 1);
    }
  }

  predicate NoRepeats(order: seq<nat>) {
    forall j, k :: 0 <= j < k < |order| ==> order[j] != order[k]
  }

  predicate Covers(xs: seq<real>, order: seq<nat>) {
    forall i :: 0 <= i < |xs| ==> i in order
  }

  /** Every position occurs exactly once. */
  lemma SortingPermutes(xs: seq<real>)
    ensures var order := SortedPositions(xs, |xs|);
            && |order| == |xs| && Ascending(xs, order)
            && NoRepeats(order) && Covers(xs, order)
  {
    var order := SortedPositions(xs, |xs|);
    SortingAscends(xs, |xs|);
    SortingKeeps(xs, |xs|);
    forall i | 0 <= i < |xs| ensures i in order {
      UptoCounts(|xs|, i);
      assert i in multiset(order);
    }
    forall j, k | 0 <= j < k < |order| ensures order[j] != order[k] {
      UptoCounts(|xs|, order[j]);
      assert order == order[..k] + order[k..] && order[j] in order[..k] && order[k] in order[k..];
      assert multiset(order)[order[j]] == multiset(order[..k])[order[j]] + multiset(order[k..])[order[j]];
    }
  }

  // ----- counting along the sorted order -----

  function PositionsBelow(xs: seq<real>, v: real): set<nat> {
    set j | 0 <= j < |xs| && xs[j] < v
  }

  function PositionsEqual(xs: seq<real>, v: real): set<nat> {
    set j | 0 <= j < |xs| && xs[j] == v
  }

  lemma {:induction false} BelowIsSize(xs: seq<real>, v: real)
    ensures Below(xs, v) == |PositionsBelow(xs, v)|
    decreases |xs|
  {
    if xs == [] {
      assert PositionsBelow(xs, v) == {};
    } else {
      var n := |xs| - 1;
      BelowIsSize(xs[..n], v);
      assert PositionsBelow(xs, v) == PositionsBelow(xs[..n], v) + if xs[n] < v then {n} else {};
    }
  }

  lemma {:induction false} EqualIsSize(xs: seq<real>, v: real)
    ensures Equal(xs, v) == |PositionsEqual(xs, v)|
    decreases |xs|
  {
    if xs == [] {
      assert PositionsEqual(xs, v) == {};
    } else {
      var n := |xs| - 1;
      EqualIsSize(xs[..n], v);
      assert PositionsEqual(xs, v) == PositionsEqual(xs[..n], v) + if xs[n] == v then {n} else {};
    }
  }

  function Taken(order: seq<nat>, lo: nat, hi: nat): set<nat>
    requires lo <= hi <= |order|
  {
    set k | lo <= k < hi :: order[k]
  }

  lemma {:induction false} TakenSize(order: seq<nat>, lo: nat, hi: nat)
    requires lo <= hi <= |order| && NoRepeats(order)
    ensures |Taken(order, lo, hi)| == hi - lo
    decreases hi
  {
    if lo < hi {
      TakenSize(order, lo, hi - 1);
      assert Taken(order, lo, hi) == Taken(order, lo, hi - 1) + {order[hi - 1]};
    } else {
      assert Taken(order, lo, hi) == {};
    }
  }

  /** Positions s to e of the sorted order hold one value, and no others do. */
  predicate IsTieGroup(xs: seq<real>, order: seq<nat>, s: nat, e: nat)
    requires InRange(xs, order)
  {
    && s <= e < |order|
    && (forall k :: s <= k <= e ==> xs[order[k]] == xs[order[s]])
    && (forall k :: 0 <= k < s ==> xs[order[k]] < xs[order[s]])
    && (forall k :: e < k < |order| ==> xs[order[k]] > xs[order[s]])
  }

  lemma GroupRank(xs: seq<real>, order: seq<nat>, s: nat, e: nat)
    requires InRange(xs, order) && NoRepeats(order) && Covers(xs, order) && IsTieGroup(xs, order, s, e)
    ensures RankOf(xs, xs[order[s]]) == (s + e) as real / 2.0 + 1.0
  {
    hide NoRepeats, Below, Equal;
    var v := xs[order[s]];
    BelowIsSize(xs, v);
    EqualIsSize(xs, v);
    TakenSize(order, 0, s);
    TakenSize(order, s, e + 1);
    forall j | 0 <= j < |xs|
      ensures j in PositionsBelow(xs, v) <==> j in Taken(order, 0, s)
      ensures j in PositionsEqual(xs, v) <==> j in Taken(order, s, e + 1)
    {
      assert j in order;
      var k :| 0 <= k < |order| && order[k] == j;
    }
    assert PositionsBelow(xs, v) == Taken(order, 0, s);
    assert PositionsEqual(xs, v) == Taken(order, s, e + 1);
  }

  /** Starting where a new value starts and stopping before the next one makes a tie group. */
  lemma ScanFindsTieGroup(xs: seq<real>, order: seq<nat>, s: nat, e: nat)
    requires InRange(xs, order) && Ascending(xs, order) && s <= e < |order|
    requires s > 0 ==> xs[order[s - 1]] < xs[order[s]]
    requires xs[order[e]] == xs[order[s]]
    requires e + 1 < |order| ==> xs[order[e + 1]] != xs[order[s]]
    ensures IsTieGroup(xs, order, s, e)
    ensures e + 1 < |order| ==> xs[order[e]] < xs[order[e + 1]]
  {
  }

  /** The first s sorted positions have their ranks. */
  predicate Written(out: seq<real>, xs: seq<real>, order: seq<nat>, s: nat)
    requires InRange(xs, order) && |out| == |xs| && s <= |order|
  {
    forall k :: 0 <= k < s ==> out[order[k]] == RankOf(xs, xs[order[k]])
  }

  lemma WriteOne(out: seq<real>, xs: seq<real>, order: seq<nat>, k: nat, r: real)
    requires InRange(xs, order) && |out| == |xs| && k < |order| && NoRepeats(order)
    requires Written(out, xs, order, k) && r == RankOf(xs, xs[order[k]])
    ensures Written(out[order[k] := r], xs, order, k + 1)
  {
    hide RankOf;
  }

  method Ranks(xs: seq<real>) returns (out: array<real>)
    ensures fresh(out) && out.Length == |xs|
    ensures forall i :: 0 <= i < |xs| ==> out[i] == RankOf(xs, xs[i])
  {
    hide RankOf, SortedPositions, Ascending, NoRepeats, Covers, Written, IsTieGroup;
    var order := SortedPositions(xs, |xs|);
    SortingPermutes(xs);
    out := new real[|xs|];
    var s := 0;
    assert Written(out[..], xs, order, 0) by { NothingWritten(out[..], xs, order); }
    while s < |order|
      invariant 0 <= s <= |order|
      invariant 0 < s < |order| ==> xs[order[s - 1]] < xs[order[s]]
      invariant Written(out[..], xs, order, s)
    {
      var e := s;
      while e + 1 < |order| && xs[order[e + 1]] == xs[order[s]]
        invariant s <= e < |order| && xs[order[e]] == xs[order[s]]
        decreases |order| - e
      {
        e := e + 1;
      }
      var r := (s + e) as real / 2.0 + 1.0;
      ScanFindsTieGroup(xs, order, s, e);
      GroupRank(xs, order, s, e);
      for k := s to e + 1
        invariant Written(out[..], xs, order, k)
      {
        SameRankInGroup(xs, order, s, e, k);
        WriteOne(out[..], xs, order, k, r);
        out[order[k]] := r;
      }
      s := e + 1;
    }
    AllWritten(out[..], xs, order);
  }

  lemma SameRankInGroup(xs: seq<real>, order: seq<nat>, s: nat, e: nat, k: nat)
    requires InRange(xs, order) && IsTieGroup(xs, order, s, e) && s <= k <= e
    ensures RankOf(xs, xs[order[k]]) == RankOf(xs, xs[order[s]])
  {
  }

  lemma NothingWritten(out: seq<real>, xs: seq<real>, order: seq<nat>)
    requires InRange(xs, order) && |out| == |xs|
    ensures Written(out, xs, order, 0)
  {
  }

  lemma AllWritten(out: seq<real>, xs: seq<real>, order: seq<nat>)
    requires InRange(xs, order) && |out| == |xs| && Covers(xs, order) && Written(out, xs, order, |order|)
    ensures forall i :: 0 <= i < |xs| ==> out[i] == RankOf(xs, xs[i])
  {
    hide RankOf;
    forall i | 0 <= i < |xs| ensures out[i] == RankOf(xs, xs[i]) {
      assert i in order;
      var k :| 0 <= k < |order| && order[k] == i;
    }
  }

  // ----- what average ranks are for -----

  lemma {:induction false} CountsPartition(xs: seq<real>, v: real)
    ensures Below(xs, v) + Equal(xs, v) + Above(xs, v) == |xs|
    ensures v in xs ==> Equal(xs, v) >= 1
    decreases |xs|
  {
    if xs != [] {
      CountsPartition(xs[..|xs| - 1], v);
      assert xs == xs[..|xs| - 1] + [xs[|xs| - 1]];
    }
  }

  lemma {:induction false} BelowCoversSmallerTies(xs: seq<real>, v: real, w: real)
    requires v < w
    ensures Below(xs, v) + Equal(xs, v) <= Below(xs, w)
    decreases |xs|
  {
    if xs != [] { BelowCoversSmallerTies(xs[..|xs| - 1], v, w); }
  }

  /** Ranks keep the order of the values strictly, ties share a rank, and all lie between 1 and n. */
  lemma RanksKeepOrder(xs: seq<real>, v: real, w: real)
    requires v in xs && w in xs
    ensures v < w <==> RankOf(xs, v) < RankOf(xs, w)
    ensures v == w <==> RankOf(xs, v) == RankOf(xs, w)
    ensures 1.0 <= RankOf(xs, v) <= |xs| as real
  {
    CountsPartition(xs, v);
    CountsPartition(xs, w);
    if v < w { BelowCoversSmallerTies(xs, v, w); }
    if w < v { BelowCoversSmallerTies(xs, w, v); }
  }

  function SumOfRanks(xs: seq<real>, ys: seq<real>): real {
    if ys == [] then 0.0 else SumOfRanks(xs, ys[..|ys| - 1]) + RankOf(xs, ys[|ys| - 1])
  }

  /** A newcomer pushes up everything above it by one and everything equal to it by a half. */
  lemma {:induction false} NewcomerShiftsRanks(xs: seq<real>, x: real, ys: seq<real>)
    ensures SumOfRanks(xs + [x], ys) == SumOfRanks(xs, ys) + Above(ys, x) as real + Equal(ys, x) as real / 2.0
    decreases |ys|
  {
    if ys != [] {
      var y := ys[|ys| - 1];
      NewcomerShiftsRanks(xs, x, ys[..|ys| - 1]);
      assert (xs + [x])[..|xs + [x]| - 1] == xs;
      assert RankOf(xs + [x], y) == RankOf(xs, y) + if y > x then 1.0 else if y == x then 0.5 else 0.0;
    }
  }

  /** Ties move ranks around but never their sum. */
  lemma {:induction false} RanksSumUp(xs: seq<real>)
    ensures SumOfRanks(xs, xs) == (|xs| * (|xs| + 1)) as real / 2.0
    decreases |xs|
  {
    if xs != [] {
      var init, x := xs[..|xs| - 1], xs[|xs| - 1];
      assert xs == init + [x];
      RanksSumUp(init);
      NewcomerShiftsRanks(init, x, init);
      CountsPartition(init, x);
      assert RankOf(xs, x) == Below(init, x) as real + (Equal(init, x) as real + 2.0) / 2.0;
      NextTriangle(|init|);
    }
  }

  lemma NextTriangle(n: int)
    ensures ((n + 1) * (n + 2)) as real / 2.0 == (n * (n + 1)) as real / 2.0 + n as real + 1.0
  {
    assert (n + 1) * (n + 2) == n * (n + 1) + 2 * (n + 1);
  }

  function Quintile(rank: real, n: nat): int
    requires n > 0
  {
    Min(4, ((rank - 1.0) / n as real * 5.0).Floor)
  }

  /** The bucket of a ranked value is one of five and follows the order of the values. */
  lemma QuintilesFollowValues(xs: seq<real>, v: real, w: real)
    requires v in xs && w in xs && v <= w
    ensures 0 <= Quintile(RankOf(xs, v), |xs|) <= Quintile(RankOf(xs, w), |xs|) <= 4
  {
    hide RankOf;
    RanksKeepOrder(xs, v, w);
    var n, p, q := |xs| as real, RankOf(xs, v) - 1.0, RankOf(xs, w) - 1.0;
    QuotientKeepsOrder(0.0, p, n);
    QuotientKeepsOrder(p, q, n);
    assert 0.0 / n == 0.0;
  }

  lemma QuotientKeepsOrder(p: real, q: real, n: real)
    requires p <= q && n > 0.0
    ensures p / n <= q / n
  {
    var a, b := p / n, q / n;
    assert a * n == p && b * n == q;
    if a > b { ScaleStrict(b, a, n); }
  }

  /** The bucket holds the ranks of one fifth of the scale. */
  lemma QuintileIsAFifth(rank: real, n: nat)
    requires 1.0 <= rank <= n as real
    ensures var q := Quintile(rank, n); 0 <= q <= 4 && (q * n) as real <= 5.0 * (rank - 1.0) < ((q + 1) * n) as real
  {
    var w, y := n as real, (rank - 1.0) / n as real * 5.0;
    var p, q := 5.0 * (rank - 1.0), y.Floor;
    assert Quintile(rank, n) == Min(4, q);
    FiveTimes(rank - 1.0, w, p);
    AtMostFour(q, y, p, w);
    WholeProduct(q, n);
    WholeProduct(q + 1, n);
    hide Product;
  }

  lemma WholeProduct(q: int, n: int)
    ensures (q * n) as real == Product(q as real, n as real)
  {
  }

  lemma FiveTimes(r: real, w: real, p: real)
    requires w > 0.0 && p == 5.0 * r
    ensures Product(r / w * 5.0, w) == p
  {
    var x := r / w;
    assert x * w == r;
    assert x * 5.0 * w == 5.0 * (x * w);
  }

  lemma AtMostFour(q: int, y: real, p: real, w: real)
    requires w > 0.0 && 0.0 <= p < 5.0 * w && Product(y, w) == p && q == y.Floor
    ensures 0 <= q <= 4 && Product(q as real, w) <= p < Product(q as real + 1.0, w)
  {
    assert Product(5.0, w) == 5.0 * w && Product(0.0, w) == 0.0;
    hide Product;
    if y < 0.0 { ProductStrict(y, 0.0, w); }
    if y >= 5.0 { ProductOrder(5.0, y, w); }
    ProductOrder(q as real, y, w);
    ProductStrict(y, q as real + 1.0, w);
  }

  /** How many of the ranks 1 to k fall into a bucket. */
  function BucketSize(n: nat, k: nat, q: int): nat
    requires n > 0
  {
    if k == 0 then 0 else BucketSize(n, k - 1, q) + if Quintile(k as real, n) == q then 1 else 0
  }

  lemma {:induction false} BucketIsInterval(n: nat, k: nat, q: int, lo: int, hi: int)
    requires n > 0 && k <= n && 0 <= lo <= hi && lo == (q * n + 4) / 5 && hi == ((q + 1) * n + 4) / 5
    ensures BucketSize(n, k, q) == Max(0, Min(k, hi) - lo)
    decreases k
  {
    hide Quintile;
    if k > 0 {
      BucketIsInterval(n, k - 1, q, lo, hi);
      QuintileIsAFifth(k as real, n);
      InFifth(k, n, q, Quintile(k as real, n));
    }
  }

  /** Without ties the ranks are 1 to n, and each bucket gets a fifth of them, up to rounding. */
  lemma QuintilesAreEven(n: nat, q: int)
    requires n > 0 && 0 <= q <= 4
    ensures n / 5 <= BucketSize(n, n, q) <= n / 5 + 1
  {
    Fifths(n, q);
    BucketIsInterval(n, n, q, (q * n + 4) / 5, ((q + 1) * n + 4) / 5);
  }

  lemma Fifths(n: nat, q: int)
    requires 0 <= q <= 4
    ensures var lo, hi := (q * n + 4) / 5, ((q + 1) * n + 4) / 5;
            0 <= lo <= hi <= n && n / 5 <= hi - lo <= n / 5 + 1
  {
    if q == 0 {
    } else if q == 1 {
    } else if q == 2 {
    } else if q == 3 {
    } else {
    }
  }

  /** The fifth a rank lies in is the only one whose bounds it meets. */
  lemma InFifth(r: int, n: nat, q: int, own: int)
    requires n > 0 && (own * n) as real <= 5.0 * (r as real - 1.0) < ((own + 1) * n) as real
    ensures own == q <==> (q * n + 4) / 5 < r <= ((q + 1) * n + 4) / 5
  {
    var x := 5 * (r - 1);
    assert own * n <= x < (own + 1) * n;
    if own < q {
      assert (own + 1) * n <= q * n by { Multiples(own + 1, q, n); }
    } else if own > q {
      assert (q + 1) * n <= own * n by { Multiples(q + 1, own, n); }
    }
  }

  lemma Multiples(a: int, b: int, n: nat)
    requires a <= b
    ensures a * n <= b * n
  {
    assert (b - a) * n >= 0;
  }
}
