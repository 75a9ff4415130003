/** The exchange's tiered price grid and the two rounding operations on it. */
module PriceTicks {
  import opened Reals

  /** Upper bound of a tier, inclusive. */
  datatype Bound = UpTo(price: int) | Unbounded

  datatype Tier = Tier(max: Bound, tick: int)

  const IDX_TABLE: seq<Tier> :=
    [Tier(UpTo(200), 1), Tier(UpTo(500), 2), Tier(UpTo(2000), 5), Tier(UpTo(5000), 10), Tier(Unbounded, 25)]

  predicate Within(price: real, bound: Bound) {
    bound.Unbounded? || price <= bound.price as real
  }

  /** The first tier that contains the price decides; past the last bound the last tier does. */
  function TickSizeFor(price: real, table: seq<Tier>): int
    requires table != []
  {
    if |table| == 1 || Within(price, table[0].max) then table[0].tick
    else TickSizeFor(price, table[1..])
  }

  /** Neighbouring tiers agree on their common boundary: it is a multiple of both ticks. */
  ghost predicate Aligned(table: seq<Tier>)
  {
    && table != []
    && table[0].tick > 0
    && (|table| > 1 ==>
          && Aligned(table[1..])
          && table[0].max.UpTo?
          && table[0].max.price % table[0].tick == 0
          && table[0].max.price % table[1].tick == 0
          && (|table| > 2 ==> Within(table[0].max.price as real, table[1].max)))
  }

  lemma AlignedTickPositive(price: real, table: seq<Tier>)
    requires Aligned(table)
    ensures TickSizeFor(price, table) > 0
  {
  }

  /** A price an order may carry: a whole multiple of the tick at its own level. */
  ghost predicate OnGrid(price: real, table: seq<Tier>)
    requires Aligned(table)
  {
    AlignedTickPositive(price, table);
    price == price.Floor as real && price.Floor % TickSizeFor(price, table) == 0
  }

  function FloorMultiple(x: real, tick: int): real
    requires tick > 0
  {
    ((x / tick as real).Floor * tick) as real
  }

  function CeilMultiple(x: real, tick: int): real
    requires tick > 0
  {
    (-((-x / tick as real).Floor) * tick) as real
  }

  function RoundDown(price: real, table: seq<Tier>): real
    requires Aligned(table)
  {
    AlignedTickPositive(price, table);
    FloorMultiple(price, TickSizeFor(price, table))
  }

  function RoundUp(price: real, table: seq<Tier>): real
    requires Aligned(table)
  {
    AlignedTickPositive(price, table);
    CeilMultiple(price, TickSizeFor(price, table))
  }

  // ----- multiples of one tick -----

  lemma FloorMultipleBounds(x: real, tick: int)
    requires tick > 0
    ensures FloorMultiple(x, tick) <= x < FloorMultiple(x, tick) + tick as real
    ensures FloorMultiple(x, tick).Floor % tick == 0
  {
    var k := (x / tick as real).Floor;
    FloorOfQuotient(x, tick as real);
    assert (k * tick) as real == k as real * tick as real;
    assert FloorMultiple(x, tick) == k as real * tick as real;
    MultipleHasNoRemainder(k, tick);
  }

  lemma MultipleHasNoRemainder(k: int, tick: int)
    requires tick > 0
    ensures (k * tick) % tick == 0
  {
    assert k * tick == tick * k + 0;
    var q, r := (k * tick) / tick, (k * tick) % tick;
    assert (k - q) * tick == r;
    assert k - q >= 1 ==> (k - q) * tick >= tick;
    assert k - q <= -1 ==> (k - q) * tick <= -tick;
  }

  /** Two multiples of a tick that differ, differ by at least one tick. */
  lemma MultiplesApart(a: int, b: int, tick: int)
    requires tick > 0 && a % tick == 0 && b % tick == 0 && a < b
    ensures a + tick <= b
  {
    var i, j := a / tick, b / tick;
    if i < j {
      WholeTicksOrder(i + 1, j, tick);
      assert a + tick == (i + 1) * tick;
    } else {
      WholeTicksOrder(j, i, tick);
    }
  }

  lemma WholeTicksOrder(i: int, j: int, tick: int)
    requires i <= j && tick > 0
    ensures i * tick <= j * tick
  {
    assert (j - i) * tick >= 0;
  }

  lemma FloorMultipleGreatest(x: real, tick: int, q: int)
    requires tick > 0 && q % tick == 0 && q as real <= x
    ensures q as real <= FloorMultiple(x, tick)
  {
    FloorMultipleBounds(x, tick);
    var r := FloorMultiple(x, tick).Floor;
    if r < q { MultiplesApart(r, q, tick); }
  }

  lemma CeilIsNegatedFloor(x: real, tick: int)
    requires tick > 0
    ensures CeilMultiple(x, tick) == -FloorMultiple(-x, tick)
    ensures CeilMultiple(x, tick).Floor % tick == 0
  {
    var k := (-x / tick as real).Floor;
    assert -k * tick == -(k * tick);
    MultipleHasNoRemainder(-k, tick);
  }

  lemma CeilMultipleLeast(x: real, tick: int, q: int)
    requires tick > 0 && q % tick == 0 && x <= q as real
    ensures CeilMultiple(x, tick) <= q as real
  {
    CeilIsNegatedFloor(x, tick);
    NegatedMultiple(q, tick);
    FloorMultipleGreatest(-x, tick, -q);
  }

  lemma NegatedMultiple(q: int, tick: int)
    requires tick > 0 && q % tick == 0
    ensures -q % tick == 0
  {
    assert -q == -(q / tick) * tick;
    MultipleHasNoRemainder(-(q / tick), tick);
  }

  // ----- the adjunction, across every tier boundary -----

  lemma {:induction false} RoundDownOnGrid(p: real, table: seq<Tier>)
    requires Aligned(table)
    ensures OnGrid(RoundDown(p, table), table)
    ensures RoundDown(p, table) <= p
    decreases |table|
  {
    AlignedTickPositive(p, table);
    FloorMultipleBounds(p, TickSizeFor(p, table));
    if |table| > 1 && !Within(p, table[0].max) {
      RoundDownOnGrid(p, table[1..]);
      var edge := table[0].max.price as real;
      assert OnGrid(edge, table[1..]);
      RoundDownGreatest(p, edge, table[1..]);
    }
  }

  /** Rounding down never passes over a valid price. */
  lemma {:induction false} RoundDownGreatest(p: real, q: real, table: seq<Tier>)
    requires Aligned(table) && OnGrid(q, table) && q <= p
    ensures q <= RoundDown(p, table)
    decreases |table|
  {
    if |table| == 1 || Within(p, table[0].max) {
      FloorMultipleGreatest(p, table[0].tick, q.Floor);
    } else {
      var edge := table[0].max.price as real;
      assert OnGrid(edge, table[1..]);
      RoundDownGreatest(p, if q > edge then q else edge, table[1..]);
    }
  }

  lemma {:induction false} RoundUpOnGrid(p: real, table: seq<Tier>)
    requires Aligned(table)
    ensures OnGrid(RoundUp(p, table), table)
    ensures p <= RoundUp(p, table)
    decreases |table|
  {
    var tick := TickSizeFor(p, table);
    AlignedTickPositive(p, table);
    CeilIsNegatedFloor(p, tick);
    FloorMultipleBounds(-p, tick);
    if |table| > 1 {
      if Within(p, table[0].max) {
        CeilMultipleLeast(p, tick, table[0].max.price);
      } else {
        RoundUpOnGrid(p, table[1..]);
      }
    }
  }

  lemma {:induction false} RoundUpLeast(p: real, q: real, table: seq<Tier>)
    requires Aligned(table) && OnGrid(q, table) && p <= q
    ensures RoundUp(p, table) <= q
    decreases |table|
  {
    if |table| == 1 {
      CeilMultipleLeast(p, table[0].tick, q.Floor);
    } else if Within(p, table[0].max) {
      CeilMultipleLeast(p, table[0].tick, if Within(q, table[0].max) then q.Floor else table[0].max.price);
    } else {
      RoundUpLeast(p, q, table[1..]);
    }
  }

  /** Galois connection with the grid: q <= p iff q <= down(p), and p <= q iff up(p) <= q. */
  lemma RoundingIsAdjoint(p: real, q: real, table: seq<Tier>)
    requires Aligned(table) && OnGrid(q, table)
    ensures q <= p <==> q <= RoundDown(p, table)
    ensures p <= q <==> RoundUp(p, table) <= q
  {
    RoundDownOnGrid(p, table);
    RoundUpOnGrid(p, table);
    if q <= p { RoundDownGreatest(p, q, table); }
    if p <= q { RoundUpLeast(p, q, table); }
  }

  lemma RoundingIsMonotone(p: real, p': real, table: seq<Tier>)
    requires Aligned(table) && p <= p'
    ensures RoundDown(p, table) <= RoundDown(p', table)
    ensures RoundUp(p, table) <= RoundUp(p', table)
  {
    RoundDownOnGrid(p, table);
    RoundUpOnGrid(p', table);
    RoundDownGreatest(p', RoundDown(p, table), table);
    RoundUpLeast(p, RoundUp(p', table), table);
  }

  lemma RoundingFixesGrid(q: real, table: seq<Tier>)
    requires Aligned(table)
    ensures OnGrid(q, table) <==> RoundDown(q, table) == q
    ensures OnGrid(q, table) <==> RoundUp(q, table) == q
  {
    RoundDownOnGrid(q, table);
    RoundUpOnGrid(q, table);
    if OnGrid(q, table) { RoundingIsAdjoint(q, q, table); }
  }

  // ----- the exchange's own table -----

  lemma IdxTableAligned()
    ensures Aligned(IDX_TABLE)
  {
    assert Aligned([Tier(Unbounded, 25)]);
    assert IDX_TABLE[1..][1..][1..][1..] == [Tier(Unbounded, 25)];
    assert Aligned(IDX_TABLE[1..][1..][1..]);
    assert Aligned(IDX_TABLE[1..][1..]);
    assert Aligned(IDX_TABLE[1..]);
  }
}
