/** The daily request counter: one caller at a time as code, and any number of callers as interleaved key operations. */
module RequestBudget {
  import opened Options
  import opened Reals

  datatype Limits = Limits(daily: int, reserve: int)
  {
    /** Only callers allowed into the reserve may use the whole budget. */
    function Ceiling(allowReserve: bool): int {
      if allowReserve then daily else daily - reserve
    }

    /** The whole budget, unless a negative reserve lifts the other ceiling above it. */
    function Most(): int {
      Max(daily, daily - reserve)
    }
  }

  datatype Reservation = Admitted(count: int) | Exceeded(requested: int, limit: int)

  datatype Status = Status(allowed: bool, currentCount: int, limit: int, reserveRemaining: int)

  /** Read-only view used for the budget display. */
  function BudgetStatus(count: int, limits: Limits): Status {
    var left := limits.daily - count;
    Status(count < limits.daily - limits.reserve, count, limits.daily, if left < 0 then 0 else left)
  }

  // ----- one caller, undisturbed -----

  class DayCounters {
    var count: int
    var byEndpoint: map<string, int>

    constructor ()
      ensures count == 0 && byEndpoint == map[]
    {
      count, byEndpoint := 0, map[];
    }

    method ReserveRequest(limits: Limits, endpoint: string, allowReserve: bool) returns (r: Reservation)
      modifies this
      ensures r.Admitted? <==> old(count) < limits.Ceiling(allowReserve)
      ensures r == if old(count) < limits.Ceiling(allowReserve) then Admitted(old(count) + 1)
                   else Exceeded(old(count) + 1, limits.Ceiling(allowReserve))
      ensures count == old(count) + if r.Admitted? then 1 else 0
      ensures byEndpoint
              == old(byEndpoint)[endpoint := (if endpoint in old(byEndpoint) then old(byEndpoint)[endpoint] else 0) + 1]
    {
      var ceiling := limits.Ceiling(allowReserve);
      count := count + 1;
      var newCount := count;
      byEndpoint := byEndpoint[endpoint := (if endpoint in byEndpoint then byEndpoint[endpoint] else 0) + 1];
      if newCount > ceiling {
        count := count - 1;
        return Exceeded(newCount, ceiling);
      }
      return Admitted(newCount);
    }
  }

  // ----- many callers at once -----

  type Caller = nat

  datatype Stage =
    | Counted(allowReserve: bool, newCount: int)      // total incremented, endpoint counter not yet
    | Comparing(allowReserve: bool, newCount: int)    // both counters incremented
    | RollingBack                                     // found itself over its ceiling
    | Refused
    | Allowed(allowReserve: bool)

  datatype State = State(count: int, endpointCount: int, callers: map<Caller, Stage>)

  datatype Action = Increment(c: Caller, allowReserve: bool) | Proceed(c: Caller)

  const START := State(0, 0, map[])

  predicate Enabled(s: State, a: Action) {
    match a
    case Increment(c, _) => c !in s.callers
    case Proceed(c) => c in s.callers && !s.callers[c].Refused? && !s.callers[c].Allowed?
  }

  function Goto(s: State, c: Caller, stage: Stage): State {
    s.(callers := s.callers[c := stage])
  }

  function Apply(s: State, a: Action, limits: Limits): State
    requires Enabled(s, a)
  {
    match a
    case Increment(c, allowReserve) => Goto(s, c, Counted(allowReserve, s.count + 1)).(count := s.count + 1)
    case Proceed(c) =>
      match s.callers[c]
      case Counted(allowReserve, n) => Goto(s, c, Comparing(allowReserve, n)).(endpointCount := s.endpointCount + 1)
      case Comparing(allowReserve, n) =>
        Goto(s, c, if n > limits.Ceiling(allowReserve) then RollingBack else Allowed(allowReserve))
      case RollingBack => Goto(s, c, Refused).(count := s.count - 1)
      case _ => s
  }

  /** The state after a run, if every action of it was possible. */
  function After(run: seq<Action>, limits: Limits): Option<State> {
    if run == [] then Some(START)
    else
      var before := After(run[..|run| - 1], limits);
      var a := run[|run| - 1];
      if before.Some? && Enabled(before.value, a) then Some(Apply(before.value, a, limits)) else None
  }

  // ----- counting callers by what they stand for -----

  /** Callers of a kind; a kind is a set of stages. */
  ghost function Those(s: State, kind: Stage -> bool): set<Caller> {
    set c | c in s.callers && kind(s.callers[c])
  }

  predicate IsAllowed(stage: Stage) { stage.Allowed? }
  predicate IsAllowedNormal(stage: Stage) { stage.Allowed? && !stage.allowReserve }
  predicate IsPending(stage: Stage) { stage.Counted? || stage.Comparing? || stage.RollingBack? }
  predicate IsPastEndpoint(stage: Stage) { !stage.Counted? }

  /** Sure to be admitted: already allowed, or incremented to a value within its ceiling. */
  function IsCommitted(limits: Limits): Stage -> bool {
    (stage: Stage) => match stage
      case Counted(allowReserve, n) => n <= limits.Ceiling(allowReserve)
      case Comparing(allowReserve, n) => n <= limits.Ceiling(allowReserve)
      case Allowed(_) => true
      case _ => false
  }

  function IsCommittedNormal(limits: Limits): Stage -> bool {
    (stage: Stage) => IsCommitted(limits)(stage) && !stage.allowReserve
  }

  function One(b: bool): int { if b then 1 else 0 }

  lemma CountAfterMove(s: State, t: State, c: Caller, kind: Stage -> bool)
    requires c in t.callers && t.callers == s.callers[c := t.callers[c]]
    ensures |Those(t, kind)| == |Those(s, kind)| - One(c in s.callers && kind(s.callers[c])) + One(kind(t.callers[c]))
  {
    var rest := Those(s, kind) - {c};
    assert Those(s, kind) == if c in Those(s, kind) then rest + {c} else rest;
    assert Those(t, kind) == if c in Those(t, kind) then rest + {c} else rest;
  }

  /** The counter is exactly the admissions plus the increments not yet settled. */
  ghost predicate Balanced(s: State) {
    && s.count == |Those(s, IsAllowed)| + |Those(s, IsPending)|
    && s.endpointCount == |Those(s, IsPastEndpoint)|
  }

  /** Whoever is sure to be admitted fits the budget. */
  ghost predicate WithinBudget(s: State, limits: Limits) {
    && |Those(s, IsCommitted(limits))| <= Max(0, limits.Most())
    && |Those(s, IsCommittedNormal(limits))| <= Max(0, limits.daily - limits.reserve)
  }

  lemma StepIsBalanced(s: State, a: Action, limits: Limits)
    requires Enabled(s, a) && Balanced(s)
    ensures Balanced(Apply(s, a, limits))
  {
    var t := Apply(s, a, limits);
    CountAfterMove(s, t, a.c, IsAllowed);
    CountAfterMove(s, t, a.c, IsPending);
    CountAfterMove(s, t, a.c, IsPastEndpoint);
  }

  lemma SmallerKind(s: State, small: Stage -> bool, large: Stage -> bool)
    requires forall stage :: small(stage) ==> large(stage)
    ensures |Those(s, small)| <= |Those(s, large)|
  {
    SubsetSize(Those(s, small), Those(s, large));
  }

  lemma {:induction false} SubsetSize(a: set<Caller>, b: set<Caller>)
    requires a <= b
    ensures |a| <= |b|
    decreases |a|
  {
    if a != {} {
      var x :| x in a;
      SubsetSize(a - {x}, b - {x});
    }
  }

  /** Nobody is committed who is not also counted. */
  lemma CommittedAreCounted(s: State, limits: Limits)
    requires Balanced(s)
    ensures |Those(s, IsCommittedNormal(limits))| <= |Those(s, IsCommitted(limits))| <= s.count
  {
    SmallerKind(s, IsCommittedNormal(limits), IsCommitted(limits));
    var allowed, pending, committed := Those(s, IsAllowed), Those(s, IsPending), Those(s, IsCommitted(limits));
    SubsetSize(committed, allowed + pending);
    assert allowed * pending == {};
  }

  lemma StepIsWithinBudget(s: State, a: Action, limits: Limits)
    requires Enabled(s, a) && Balanced(s) && WithinBudget(s, limits)
    ensures WithinBudget(Apply(s, a, limits), limits)
  {
    var t := Apply(s, a, limits);
    CountAfterMove(s, t, a.c, IsCommitted(limits));
    CountAfterMove(s, t, a.c, IsCommittedNormal(limits));
    CommittedAreCounted(s, limits);
  }

  lemma {:induction false} EveryStateIsBalanced(run: seq<Action>, limits: Limits)
    ensures After(run, limits).Some?
            ==> Balanced(After(run, limits).value) && WithinBudget(After(run, limits).value, limits)
    decreases |run|
  {
    if run == [] {
      assert forall kind: Stage -> bool :: Those(START, kind) == {};
    } else if After(run, limits).Some? {
      var s := After(run[..|run| - 1], limits).value;
      EveryStateIsBalanced(run[..|run| - 1], limits);
      StepIsBalanced(s, run[|run| - 1], limits);
      StepIsWithinBudget(s, run[|run| - 1], limits);
    }
  }

  /**
   * Whatever the interleaving: admissions never exceed the budget, nor normal ones the budget less the reserve;
   * once everyone has settled the counter is the number of admissions, while the endpoint counter still counts
   * refusals.
   */
  lemma BudgetIsSafe(run: seq<Action>, limits: Limits)
    requires After(run, limits).Some?
    ensures var s := After(run, limits).value;
            && s.count == |Those(s, IsAllowed)| + |Those(s, IsPending)|
            && |Those(s, IsAllowed)| <= Max(0, limits.Most())
            && (limits.reserve >= 0 ==> |Those(s, IsAllowed)| <= Max(0, limits.daily))
            && |Those(s, IsAllowedNormal)| <= Max(0, limits.daily - limits.reserve)
            && (Those(s, IsPending) == {} ==>
                  && s.count == |Those(s, IsAllowed)|
                  && s.endpointCount == |s.callers|)
  {
    var s := After(run, limits).value;
    EveryStateIsBalanced(run, limits);
    SmallerKind(s, IsAllowed, IsCommitted(limits));
    SmallerKind(s, IsAllowedNormal, IsCommittedNormal(limits));
    if Those(s, IsPending) == {} {
      assert forall c :: c in s.callers ==> c !in Those(s, IsPending);
      assert Those(s, IsPastEndpoint) == s.callers.Keys;
    }
  }

  function Alone(c: Caller, limits: Limits, s: State, allowReserve: bool): seq<Action> {
    [Increment(c, allowReserve), Proceed(c), Proceed(c)] + if s.count < limits.Ceiling(allowReserve) then []
        else [Proceed(c)]
  }

  lemma AfterOneMore(run: seq<Action>, a: Action, limits: Limits)
    requires After(run, limits).Some? && Enabled(After(run, limits).value, a)
    ensures After(run + [a], limits) == Some(Apply(After(run, limits).value, a, limits))
  {
    assert (run + [a])[..|run + [a]| - 1] == run;
  }

  /**
   * Undisturbed, the key operations do what the method does; the display is right exactly about such a normal caller.
   */
  lemma AloneIsTheMethod(run: seq<Action>, c: Caller, limits: Limits, allowReserve: bool)
    requires After(run, limits).Some? && c !in After(run, limits).value.callers
    ensures var s := After(run, limits).value;
            var after := After(run + Alone(c, limits, s, allowReserve), limits);
            && after.Some?
            && after.value.callers
                == s.callers[c := if s.count < limits.Ceiling(allowReserve) then Allowed(allowReserve) else Refused]
            && after.value.count == s.count + One(s.count < limits.Ceiling(allowReserve))
            && after.value.endpointCount == s.endpointCount + 1
            && var status := BudgetStatus(s.count, limits);
               && status.currentCount == s.count && status.limit == limits.daily
               && (!allowReserve ==> (status.allowed <==> after.value.callers[c].Allowed?))
               && (allowReserve ==> (status.reserveRemaining > 0 <==> after.value.callers[c].Allowed?))
               && (s.count <= limits.daily ==> status.currentCount + status.reserveRemaining == status.limit)
               && status.reserveRemaining >= 0
  {
    hide After;
    var s := After(run, limits).value;
    var r1 := run + [Increment(c, allowReserve)];
    AfterOneMore(run, Increment(c, allowReserve), limits);
    AfterOneMore(r1, Proceed(c), limits);
    AfterOneMore(r1 + [Proceed(c)], Proceed(c), limits);
    var r3 := r1 + [Proceed(c)] + [Proceed(c)];
    if s.count < limits.Ceiling(allowReserve) {
      assert run + Alone(c, limits, s, allowReserve) == r3;
    } else {
      AfterOneMore(r3, Proceed(c), limits);
      assert run + Alone(c, limits, s, allowReserve) == r3 + [Proceed(c)];
    }
  }

  /** What a caller that incremented the counter to n can have come to. */
  predicate Sealed(stage: Stage, n: int, allowReserve: bool, limits: Limits) {
    match stage
    case Counted(reserve, m) => reserve == allowReserve && m == n
    case Comparing(reserve, m) => reserve == allowReserve && m == n
    case RollingBack => n > limits.Ceiling(allowReserve)
    case Refused => n > limits.Ceiling(allowReserve)
    case Allowed(reserve) => reserve == allowReserve && n <= limits.Ceiling(allowReserve)
  }

  lemma {:induction false} FateIsSealed(
      run: seq<Action>, c: Caller, limits: Limits, allowReserve: bool, more: seq<Action>)
    requires After(run, limits).Some? && c !in After(run, limits).value.callers
    ensures var after := After(run + [Increment(c, allowReserve)] + more, limits);
            after.Some? ==>
              c in after.value.callers
                  && Sealed(after.value.callers[c], After(run, limits).value.count + 1, allowReserve, limits)
    decreases |more|
  {
    var taken := run + [Increment(c, allowReserve)];
    if more == [] {
      AfterOneMore(run, Increment(c, allowReserve), limits);
      assert taken + more == taken;
    } else {
      assert (taken + more)[..|taken + more| - 1] == taken + more[..|more| - 1];
      FateIsSealed(run, c, limits, allowReserve, more[..|more| - 1]);
    }
  }

  /**
   * A caller's fate is sealed when it increments: however the run goes on, once the caller has settled it is refused
   * exactly when admissions and unsettled increments filled its ceiling at that moment, and admitted otherwise.
   */
  lemma RefusedIffCounterFull(run: seq<Action>, c: Caller, limits: Limits, allowReserve: bool, more: seq<Action>)
    requires After(run, limits).Some? && c !in After(run, limits).value.callers
    requires After(run + [Increment(c, allowReserve)] + more, limits).Some?
    ensures var s, t := After(run, limits).value, After(run + [Increment(c, allowReserve)] + more, limits).value;
            var full := |Those(s, IsAllowed)| + |Those(s, IsPending)| >= limits.Ceiling(allowReserve);
            && c in t.callers
            && (!IsPending(t.callers[c]) ==> t.callers[c] == if full then Refused else Allowed(allowReserve))
  {
    hide After;
    EveryStateIsBalanced(run, limits);
    FateIsSealed(run, c, limits, allowReserve, more);
  }

  /** So a pending rollback can turn a caller away although nothing was admitted and the whole budget is free. */
  lemma RefusalCanBeSpurious()
    ensures var limits := Limits(1, 1);
            var run := [Increment(0, false), Increment(1, true), Proceed(1), Proceed(1), Proceed(1)];
            && After(run, limits).Some?
            && var s := After(run, limits).value;
               s.callers[1].Refused? && Those(s, IsAllowed) == {} && |Those(s, IsAllowed)| < limits.daily
  {
    hide After;
    var limits := Limits(1, 1);
    assert After([], limits) == Some(START) by { AfterNothing(limits); }
    AfterOneMore([], Increment(0, false), limits);
    assert [] + [Increment(0, false)] == [Increment(0, false)];
    AfterOneMore([Increment(0, false)], Increment(1, true), limits);
    var run := [Increment(0, false), Increment(1, true)];
    assert [Increment(0, false)] + [Increment(1, true)] == run;
    AfterOneMore(run, Proceed(1), limits);
    AfterOneMore(run + [Proceed(1)], Proceed(1), limits);
    AfterOneMore(run + [Proceed(1)] + [Proceed(1)], Proceed(1), limits);
    assert run + [Proceed(1)] + [Proceed(1)] + [Proceed(1)]
        == [Increment(0, false), Increment(1, true), Proceed(1), Proceed(1), Proceed(1)];
  }

  lemma AfterNothing(limits: Limits)
    ensures After([], limits) == Some(START)
  {
  }
}
