/** The exchange's own table: its valid prices numbered in order, and rounding in those numbers. */
module IdxGrid {
  import opened PriceTicks

  function Tick(price: real): int {
    TickSizeFor(price, IDX_TABLE)
  }

  ghost predicate Valid(price: real) {
    IdxTableAligned();
    OnGrid(price, IDX_TABLE)
  }

  function RoundDownToTick(price: real): real {
    IdxTableAligned();
    RoundDown(price, IDX_TABLE)
  }

  function RoundUpToTick(price: real): real {
    IdxTableAligned();
    RoundUp(price, IDX_TABLE)
  }

  /** The i-th valid price; number i is also the price itself in the one-rupiah tier. */
  function PriceAt(i: int): int {
    if i <= 200 then i
    else if i <= 350 then 200 + 2 * (i - 200)
    else if i <= 650 then 500 + 5 * (i - 350)
    else if i <= 950 then 2000 + 10 * (i - 650)
    else 5000 + 25 * (i - 950)
  }

  function IndexOf(price: int): int {
    if price <= 200 then price
    else if price <= 500 then 200 + (price - 200) / 2
    else if price <= 2000 then 350 + (price - 500) / 5
    else if price <= 5000 then 650 + (price - 2000) / 10
    else 950 + (price - 5000) / 25
  }

  /** Number of the greatest valid price at or below p. */
  function IndexBelow(p: real): int {
    IndexOf(RoundDownToTick(p).Floor)
  }

  lemma TickByTier(price: real)
    ensures Tick(price) ==
            if price <= 200.0 then 1 else if price <= 500.0 then 2 else if price <= 2000.0 then 5
            else if price <= 5000.0 then 10 else 25
  {
    assert TickSizeFor(price, IDX_TABLE[1..][1..][1..][1..]) == 25;
    assert TickSizeFor(price, IDX_TABLE[1..][1..][1..]) == if price <= 5000.0 then 10 else 25;
    assert TickSizeFor(price, IDX_TABLE[1..][1..]) ==
           if price <= 2000.0 then 5 else if price <= 5000.0 then 10 else 25;
    assert TickSizeFor(price, IDX_TABLE[1..]) ==
           if price <= 500.0 then 2 else if price <= 2000.0 then 5 else if price <= 5000.0 then 10 else 25;
  }

  lemma PriceAtValid(i: int)
    ensures Valid(PriceAt(i) as real) && IndexOf(PriceAt(i)) == i
  {
    TickByTier(PriceAt(i) as real);
  }

  lemma ValidIsPriceAt(q: real)
    requires Valid(q)
    ensures q == PriceAt(IndexOf(q.Floor)) as real
  {
    TickByTier(q);
  }

  lemma IndexOrder(i: int, j: int)
    ensures i < j <==> PriceAt(i) < PriceAt(j)
    ensures i <= j ==> j - i <= PriceAt(j) - PriceAt(i)
  {
  }

  /** Numbers are order-faithful: the i-th price is at or below p exactly when i is at most the number of p. */
  lemma IndexBelowIsAdjoint(i: int, p: real)
    ensures PriceAt(i) as real <= p <==> i <= IndexBelow(p)
    ensures RoundDownToTick(p) == PriceAt(IndexBelow(p)) as real
  {
    IdxTableAligned();
    PriceAtValid(i);
    RoundDownOnGrid(p, IDX_TABLE);
    ValidIsPriceAt(RoundDownToTick(p));
    RoundingIsAdjoint(p, PriceAt(i) as real, IDX_TABLE);
    IndexOrder(i, IndexBelow(p));
    IndexOrder(IndexBelow(p), i);
  }

  /** One pass of the stop loop lands on the previous valid price, in whatever tier that is. */
  lemma StepDownIsPredecessor(i: int)
    ensures var q := PriceAt(i) as real; RoundDownToTick(q - Tick(q) as real) == PriceAt(i - 1) as real
  {
    var q := PriceAt(i) as real;
    TickByTier(q);
    var p := q - Tick(q) as real;
    IndexBelowIsAdjoint(i - 1, p);
    IndexBelowIsAdjoint(i, p);
  }

  lemma StepUpIsSuccessor(i: int)
    ensures var q := PriceAt(i) as real; RoundUpToTick(q + Tick(q) as real) == PriceAt(i + 1) as real
  {
    var q := PriceAt(i) as real;
    TickByTier(q);
    var p := q + Tick(q) as real;
    IdxTableAligned();
    PriceAtValid(i + 1);
    RoundUpOnGrid(p, IDX_TABLE);
    RoundUpLeast(p, PriceAt(i + 1) as real, IDX_TABLE);
    var r := RoundUpToTick(p);
    ValidIsPriceAt(r);
    IndexOrder(i, IndexOf(r.Floor));
    IndexOrder(i + 1, IndexOf(r.Floor));
  }

  lemma GapBelow(p: real)
    ensures p - 25.0 < RoundDownToTick(p) <= p
  {
    IdxTableAligned();
    TickByTier(p);
    FloorMultipleBounds(p, Tick(p));
  }

  lemma RoundUpAbove(p: real, p': real)
    requires p <= p'
    ensures p <= RoundUpToTick(p) <= RoundUpToTick(p')
  {
    IdxTableAligned();
    RoundUpOnGrid(p, IDX_TABLE);
    RoundingIsMonotone(p, p', IDX_TABLE);
  }
}
