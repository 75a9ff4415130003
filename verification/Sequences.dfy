/** Cutting sequences to length, and the stable sort that ranks, orders and dates everything else. */
module Sequences {
  import opened Reals

  /** The first n elements; a negative n counts from the end. */
  function Slice<T>(s: seq<T>, n: int): seq<T> {
    s[..if n < 0 then Max(0, |s| + n) else Min(n, |s|)]
  }

  /** Cutting twice cuts once, also past a first element. */
  lemma SliceOfSlice<T>(s: seq<T>, n: nat)
    ensures Slice(Slice(s, n), n) == Slice(s, n)
    ensures s != [] ==> Slice(s, n + 1) != [] && Slice(s, n + 1)[0] == s[0]
    ensures s != [] ==> Slice(Slice(s, n + 1)[1..], n) == Slice(s[1..], n)
    ensures s == [] ==> Slice(s, n + 1) == []
  {
  }

  /** Behind every element that x does not come before. */
  function Insert<T>(x: T, sorted: seq<T>, before: (T, T) -> bool): seq<T> {
    if sorted == [] || before(x, sorted[0]) then [x] + sorted else [sorted[0]] + Insert(x, sorted[1..], before)
  }

  /** Stable: elements that come before neither of each other keep their order. */
  function Sort<T>(s: seq<T>, before: (T, T) -> bool): seq<T> {
    if s == [] then [] else Insert(s[|s| - 1], Sort(s[..|s| - 1], before), before)
  }

  ghost predicate WeakOrder<T(!new)>(before: (T, T) -> bool) {
    && (forall a, b :: before(a, b) ==> !before(b, a))
    && (forall a, b, c :: !before(b, a) && !before(c, b) ==> !before(c, a))
  }

  /** Nothing stands behind an element it comes before. */
  predicate InOrder<T>(s: seq<T>, before: (T, T) -> bool) {
    forall i, j :: 0 <= i < j < |s| ==> !before(s[j], s[i])
  }

  lemma {:induction false} InsertAdds<T>(x: T, sorted: seq<T>, before: (T, T) -> bool)
    ensures multiset(Insert(x, sorted, before)) == multiset(sorted) + multiset{x}
    ensures |Insert(x, sorted, before)| == |sorted| + 1
    decreases |sorted|
  {
    if sorted != [] && !before(x, sorted[0]) {
      InsertAdds(x, sorted[1..], before);
      assert sorted == [sorted[0]] + sorted[1..];
    }
  }

  lemma {:induction false} InsertKeepsOrder<T(!new)>(x: T, sorted: seq<T>, before: (T, T) -> bool)
    requires WeakOrder(before) && InOrder(sorted, before)
    ensures InOrder(Insert(x, sorted, before), before)
    decreases |sorted|
  {
    if sorted != [] && !before(x, sorted[0]) {
      var rest := Insert(x, sorted[1..], before);
      InsertKeepsOrder(x, sorted[1..], before);
      InsertAdds(x, sorted[1..], before);
      forall k | 0 <= k < |rest| ensures !before(rest[k], sorted[0]) {
        assert rest[k] in multiset(rest);
        assert rest[k] == x || rest[k] in sorted[1..];
      }
    }
  }

  /** Sorting loses nothing and leaves nothing out of order. */
  lemma {:induction false} SortSorts<T(!new)>(s: seq<T>, before: (T, T) -> bool)
    requires WeakOrder(before)
    ensures InOrder(Sort(s, before), before) && multiset(Sort(s, before)) == multiset(s) && |Sort(s, before)| == |s|
    decreases |s|
  {
    if s != [] {
      var init, last := s[..|s| - 1], s[|s| - 1];
      SortSorts(init, before);
      InsertKeepsOrder(last, Sort(init, before), before);
      InsertAdds(last, Sort(init, before), before);
      assert s == init + [last];
    }
  }

  lemma {:induction false} InsertPlaces<T(!new)>(x: T, sorted: seq<T>, before: (T, T) -> bool) returns (p: nat)
    requires WeakOrder(before) && InOrder(sorted, before)
    ensures p <= |sorted| && Insert(x, sorted, before) == sorted[..p] + [x] + sorted[p..]
    ensures forall k :: 0 <= k < p ==> !before(x, sorted[k])
    ensures forall k :: p <= k < |sorted| ==> before(x, sorted[k])
    decreases |sorted|
  {
    if sorted == [] || before(x, sorted[0]) {
      p := 0;
      assert forall k :: 0 < k < |sorted| ==> !before(sorted[k], sorted[0]);
    } else {
      var rest := sorted[1..];
      var q := InsertPlaces(x, rest, before);
      p := q + 1;
      assert forall k :: 1 <= k < |sorted| ==> sorted[k] == rest[k - 1];
      assert sorted[..p] == [sorted[0]] + rest[..q] && sorted[p..] == rest[q..];
    }
  }

  /** Every position once. */
  predicate IsPermutation(at: seq<nat>, n: nat) {
    && |at| == n
    && (forall i :: 0 <= i < n ==> at[i] < n)
    && (forall i, j :: 0 <= i < j < n ==> at[i] != at[j])
  }

  /** Sorted, each element with the position it comes from; in a tie the earlier position goes first. */
  ghost predicate ComesFrom<T>(sorted: seq<T>, s: seq<T>, at: seq<nat>, before: (T, T) -> bool) {
    IsPermutation(at, |s|) && TakenFrom(sorted, s, at) && TiesInOrder(sorted, at, before)
  }

  ghost predicate TakenFrom<T>(sorted: seq<T>, s: seq<T>, at: seq<nat>) {
    |sorted| == |at| == |s| && forall i :: 0 <= i < |s| ==> at[i] < |s| && sorted[i] == s[at[i]]
  }

  predicate TiesInOrder<T>(sorted: seq<T>, at: seq<nat>, before: (T, T) -> bool)
    requires |sorted| == |at|
  {
    forall i, j :: 0 <= i < j < |sorted| ==>
      before(sorted[i], sorted[j]) || (!before(sorted[j], sorted[i]) && at[i] < at[j])
  }

  lemma PermutationWithOneMore(at: seq<nat>, p: nat)
    requires IsPermutation(at, |at|) && p <= |at|
    ensures IsPermutation(at[..p] + [|at|] + at[p..], |at| + 1)
  {
    var more := at[..p] + [|at|] + at[p..];
    assert forall i :: 0 <= i < |more| ==> more[i] == if i < p then at[i] else if i == p then |at| else at[i - 1];
  }

  lemma OneMoreComesFrom<T>(sorted: seq<T>, s: seq<T>, at: seq<nat>, before: (T, T) -> bool, x: T, p: nat)
    requires ComesFrom(sorted, s, at, before) && p <= |s|
    requires forall k :: 0 <= k < p ==> !before(x, sorted[k])
    requires forall k :: p <= k < |sorted| ==> before(x, sorted[k])
    ensures ComesFrom(sorted[..p] + [x] + sorted[p..], s + [x], at[..p] + [|s|] + at[p..], before)
  {
    PermutationWithOneMore(at, p);
    OneMoreTaken(sorted, s, at, x, p);
    TiesWithOneMore(sorted, at, before, x, p);
  }

  lemma OneMoreTaken<T>(sorted: seq<T>, s: seq<T>, at: seq<nat>, x: T, p: nat)
    requires TakenFrom(sorted, s, at) && p <= |s|
    ensures TakenFrom(sorted[..p] + [x] + sorted[p..], s + [x], at[..p] + [|s|] + at[p..])
  {
    var n := |s|;
    var more, places := sorted[..p] + [x] + sorted[p..], at[..p] + [n] + at[p..];
    assert forall i :: 0 <= i <= n ==> more[i] == if i < p then sorted[i] else if i == p then x else sorted[i - 1];
    assert forall i :: 0 <= i <= n ==> places[i] == if i < p then at[i] else if i == p then n else at[i - 1];
  }

  lemma TiesWithOneMore<T>(sorted: seq<T>, at: seq<nat>, before: (T, T) -> bool, x: T, p: nat)
    requires |sorted| == |at| && TiesInOrder(sorted, at, before) && p <= |at|
    requires forall i :: 0 <= i < |at| ==> at[i] < |at|
    requires forall k :: 0 <= k < p ==> !before(x, sorted[k])
    requires forall k :: p <= k < |sorted| ==> before(x, sorted[k])
    ensures TiesInOrder(sorted[..p] + [x] + sorted[p..], at[..p] + [|at|] + at[p..], before)
  {
    var n := |at|;
    var more, places := sorted[..p] + [x] + sorted[p..], at[..p] + [n] + at[p..];
    forall i, j | 0 <= i < j <= n
      ensures before(more[i], more[j]) || (!before(more[j], more[i]) && places[i] < places[j])
    {
      if i != p && j != p {
        var i', j' := if i < p then i else i - 1, if j < p then j else j - 1;
        assert more[i] == sorted[i'] && more[j] == sorted[j'] && places[i] == at[i'] && places[j] == at[j'];
      }
    }
  }

  lemma InRange(at: seq<nat>, n: nat)
    requires IsPermutation(at, n)
    ensures |at| == n && forall i :: 0 <= i < n ==> at[i] < n
  {
  }

  /** The sort is stable, and so settled completely by the order. */
  lemma {:induction false} SortIsStable<T(!new)>(s: seq<T>, before: (T, T) -> bool) returns (at: seq<nat>)
    requires WeakOrder(before)
    ensures ComesFrom(Sort(s, before), s, at, before)
    decreases |s|
  {
    if s == [] {
      at := [];
    } else {
      var n := |s| - 1;
      var init, x := s[..n], s[n];
      assert init + [x] == s;
      var part := SortIsStable(init, before);
      SortSorts(init, before);
      var p := InsertPlaces(x, Sort(init, before), before);
      OneMoreComesFrom(Sort(init, before), init, part, before, x, p);
      at := part[..p] + [n] + part[p..];
    }
  }
}
