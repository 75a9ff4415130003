/** The breaker as it is coded, against what its log of outcomes says. */
module CircuitBreaker {
  import opened Options

  datatype Settings = Settings(failureThreshold: int, cooldown: int)

  datatype Event = Success | Failure(at: int)

  datatype Circuit = Closed | Open | HalfOpen

  // ----- the stateless specification -----

  function FailuresSinceSuccess(log: seq<Event>): nat {
    if log == [] || log[|log| - 1].Success? then 0 else 1 + FailuresSinceSuccess(log[..|log| - 1])
  }

  /** Calls are cut off while the last failure of a long enough streak is recent. */
  predicate Tripped(log: seq<Event>, settings: Settings, now: int) {
    && FailuresSinceSuccess(log) >= settings.failureThreshold
    && log != [] && log[|log| - 1].Failure?
    && now - log[|log| - 1].at < settings.cooldown
  }

  predicate NoLaterThan(log: seq<Event>, now: int) {
    forall k :: 0 <= k < |log| && log[k].Failure? ==> log[k].at <= now
  }

  /** No failure has been recorded since the last success, or the last one is a whole cooldown ago. */
  predicate CooledDown(log: seq<Event>, settings: Settings, now: int) {
    log == [] || log[|log| - 1].Success? || now - log[|log| - 1].at >= settings.cooldown
  }

  /**
   * Once the cooldown has elapsed every caller passes, not only one trial, at every later time until a failure is
   * recorded; and before that, a streak that reaches the threshold stops every caller.
   */
  lemma CooldownAdmitsEveryone(log: seq<Event>, settings: Settings, now: int)
    ensures CooledDown(log, settings, now) ==> forall later :: now <= later ==> !Tripped(log, settings, later)
    ensures FailuresSinceSuccess(log) >= settings.failureThreshold
            ==> (Tripped(log, settings, now) <==> !CooledDown(log, settings, now))
  {
  }

  lemma {:induction false} FailuresAddUp(log: seq<Event>, more: seq<Event>)
    requires forall k :: 0 <= k < |more| ==> more[k].Failure?
    ensures FailuresSinceSuccess(log + more) == FailuresSinceSuccess(log) + |more|
    decreases |more|
  {
    if more == [] {
      assert log + more == log;
    } else {
      assert (log + more)[..|log + more| - 1] == log + more[..|more| - 1];
      FailuresAddUp(log, more[..|more| - 1]);
    }
  }

  // ----- the breaker -----

  class Breaker {
    var state: Circuit
    var consecutiveFailures: nat
    var openedAt: Option<int>
    const settings: Settings
    ghost var log: seq<Event>
    ghost var clock: int

    ghost predicate Valid()
      reads this
    {
      && consecutiveFailures == FailuresSinceSuccess(log)
      && NoLaterThan(log, clock)
      && var failing := consecutiveFailures > 0 && consecutiveFailures >= settings.failureThreshold;
         match state
         case Closed => !failing
         case Open => failing && openedAt == Some(log[|log| - 1].at)
         case HalfOpen => failing && clock - log[|log| - 1].at >= settings.cooldown
    }

    constructor (settings: Settings, ghost now: int)
      ensures Valid() && this.settings == settings && log == [] && clock == now
    {
      this.settings := settings;
      state, consecutiveFailures, openedAt := Closed, 0, None;
      log, clock := [], now;
    }

    method IsOpen(now: int) returns (open: bool)
      requires Valid() && clock <= now
      modifies this
      ensures Valid() && log == old(log) && clock == now
      ensures open <==> Tripped(log, settings, now)
    {
      clock := now;
      if state != Open {
        return false;
      }
      if openedAt.Some? && now - openedAt.value >= settings.cooldown {
        state := HalfOpen;
        return false;
      }
      return true;
    }

    method RecordSuccess()
      requires Valid()
      modifies this
      ensures Valid() && log == old(log) + [Success] && clock == old(clock)
    {
      consecutiveFailures := 0;
      state := Closed;
      openedAt := None;
      log := log + [Success];
    }

    method RecordFailure(now: int)
      requires Valid() && clock <= now
      modifies this
      ensures Valid() && log == old(log) + [Failure(now)] && clock == now
    {
      consecutiveFailures := consecutiveFailures + 1;
      ghost var before := log;
      log := log + [Failure(now)];
      clock := now;
      assert log[..|log| - 1] == before;
      if state == HalfOpen {
        state := Open;
        openedAt := Some(now);
        return;
      }
      if consecutiveFailures >= settings.failureThreshold {
        state := Open;
        openedAt := Some(now);
      }
    }
  }
}
