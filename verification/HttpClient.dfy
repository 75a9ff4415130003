/** One upstream call: bounded retries with growing delays, every try reported to the breaker once. */
module HttpClient {
  import opened Options
  import opened Reals
  import opened CircuitBreaker

  datatype Response = Answered(status: int, bodyParses: bool) | NetworkError

  datatype Verdict = Delivered | Transient | Rejected

  datatype CallResult = Ok(status: int) | CircuitOpen | Failed(code: Option<int>, transient: bool)

  /** What one try amounts to: a body that does not parse counts as a network error. */
  function Judge(r: Response): Verdict {
    if r.NetworkError? then Transient
    else if 500 <= r.status < 600 then Transient
    else if r.status >= 400 then Rejected
    else if r.bodyParses then Delivered
    else Transient
  }

  /** Tries made: up to the first answer that settles the call, or all of them. */
  function Tries(responses: seq<Response>): (n: nat)
    ensures n <= |responses|
  {
    if responses == [] then 0
    else if !Judge(responses[0]).Transient? then 1
    else 1 + Tries(responses[1..])
  }

  function Reported(r: Response, at: int): Event {
    if Judge(r).Delivered? then Success else Failure(at)
  }

  function ReportedAll(responses: seq<Response>, times: seq<int>): seq<Event>
    requires |responses| <= |times|
  {
    seq(|responses|, i requires 0 <= i < |responses| => Reported(responses[i], times[i]))
  }

  function StatusOf(r: Response): Option<int> {
    if r.Answered? && 500 <= r.status < 600 then Some(r.status) else None
  }

  /** The caller is told about the last try. */
  function ResultOf(tried: seq<Response>): CallResult {
    if tried == [] then Failed(None, true)
    else
      var last := tried[|tried| - 1];
      match Judge(last)
      case Delivered => Ok(last.status)
      case Rejected => Failed(Some(last.status), false)
      case Transient => Failed(StatusOf(last), true)
  }

  function Pow2(n: nat): nat {
    if n == 0 then 1 else 2 * Pow2(n - 1)
  }

  function BackoffDelay(base: real, attempt: nat, random: real): real
    requires attempt >= 1
  {
    base * Pow2(attempt - 1) as real + random * base
  }

  /** The delays before tries 2, 3, ... n. */
  function Delays(base: real, n: nat, randoms: seq<real>): seq<real>
    requires n <= |randoms| + 1
  {
    seq(if n == 0 then 0 else n - 1, i requires 0 <= i < n - 1 => BackoffDelay(base, i + 1, randoms[i]))
  }

  /** Tries stop at the first answer that is not transient: nothing rejected is ever retried. */
  lemma {:induction false} TriesStopAtFirstAnswer(responses: seq<Response>)
    ensures var n := Tries(responses);
            && (forall k :: 0 <= k < n - 1 ==> Judge(responses[k]).Transient?)
            && (n < |responses| ==> n >= 1 && !Judge(responses[n - 1]).Transient?)
    decreases |responses|
  {
    if responses != [] && Judge(responses[0]).Transient? {
      TriesStopAtFirstAnswer(responses[1..]);
      var n := Tries(responses);
      forall k | 0 <= k < n - 1 ensures Judge(responses[k]).Transient? {
        if k > 0 { assert responses[k] == responses[1..][k - 1]; }
      }
    }
  }

  /** Every prefix of transient answers shorter than the whole is followed by another try. */
  lemma {:induction false} TriesContinue(responses: seq<Response>, k: nat)
    requires k < |responses| && forall j :: 0 <= j < k ==> Judge(responses[j]).Transient?
    ensures Tries(responses) >= k + 1
    ensures !Judge(responses[k]).Transient? || k + 1 == |responses| ==> Tries(responses) == k + 1
    decreases |responses|
  {
    if k > 0 {
      assert forall j :: 0 <= j < k - 1 ==> responses[1..][j] == responses[j + 1];
      TriesContinue(responses[1..], k - 1);
    }
  }

  /** What k tries report, and what the caller is told after them. */
  function ReportsOf(responses: seq<Response>, k: nat, times: seq<int>): seq<Event>
    requires k <= |responses| <= |times|
  {
    ReportedAll(responses[..k], times)
  }

  function ToldAfter(responses: seq<Response>, k: nat): CallResult
    requires k <= |responses|
  {
    ResultOf(responses[..k])
  }

  lemma NothingTried(responses: seq<Response>, times: seq<int>, base: real, randoms: seq<real>)
    requires |responses| <= |times|
    ensures ReportsOf(responses, 0, times) == [] && Delays(base, 0, randoms) == Delays(base, 1, randoms) == []
    ensures responses == [] ==> Tries(responses) == 0 && ToldAfter(responses, 0) == Failed(None, true)
  {
  }

  /**
   * What try k + 1 adds to the reports, to the sleeping before the next one, and what the caller would then be told.
   */
  lemma OneMoreTry(responses: seq<Response>, times: seq<int>, k: nat, base: real, randoms: seq<real>)
    requires k < |responses| <= |times| && |randoms| == |responses|
    ensures ReportsOf(responses, k + 1, times) == ReportsOf(responses, k, times) + [Reported(responses[k], times[k])]
    ensures Delays(base, k + 2, randoms) == Delays(base, k + 1, randoms) + [BackoffDelay(base, k + 1, randoms[k])]
    ensures ToldAfter(responses, k + 1) ==
            match Judge(responses[k])
            case Delivered => Ok(responses[k].status)
            case Rejected => Failed(Some(responses[k].status), false)
            case Transient => Failed(StatusOf(responses[k]), true)
  {
    hide BackoffDelay, Judge, StatusOf;
  }

  /**
   * After transient answers only, try k + 1 goes on if it is transient too and not the last, and settles the call else.
   */
  lemma TryDecides(responses: seq<Response>, times: seq<int>, k: nat, base: real, randoms: seq<real>)
    requires k < |responses| <= |times| && |randoms| == |responses|
    requires forall j :: 0 <= j < k ==> Judge(responses[j]).Transient?
    ensures !Judge(responses[k]).Transient? ==> responses[k].Answered?
    ensures var reports := ReportsOf(responses, k, times);
            if Judge(responses[k]).Transient? && k + 1 < |responses| then
              && ReportsOf(responses, k + 1, times) == reports + [Failure(times[k])]
              && Delays(base, k + 2, randoms) == Delays(base, k + 1, randoms) + [BackoffDelay(base, k + 1, randoms[k])]
            else
              && Tries(responses) == k + 1
              && match Judge(responses[k])
                 case Delivered =>
                   && ToldAfter(responses, k + 1) == Ok(responses[k].status)
                   && ReportsOf(responses, k + 1, times) == reports + [Success]
                 case Rejected =>
                   && ToldAfter(responses, k + 1) == Failed(Some(responses[k].status), false)
                   && ReportsOf(responses, k + 1, times) == reports + [Failure(times[k])]
                 case Transient =>
                   && ToldAfter(responses, k + 1) == Failed(StatusOf(responses[k]), true)
                   && ReportsOf(responses, k + 1, times) == reports + [Failure(times[k])]
  {
    OneMoreTry(responses, times, k, base, randoms);
    TriesContinue(responses, k);
    hide ReportsOf, ToldAfter, Delays, BackoffDelay, StatusOf, Tries;
  }

  // ----- the call in terms of statuses -----

  /** No answer, an answer that blames the server, or one that should have been a body and is not. */
  predicate MayPass(r: Response) {
    r.NetworkError? || 500 <= r.status <= 599 || (r.status <= 399 && !r.bodyParses)
  }

  predicate AllFailures(events: seq<Event>, times: seq<int>) {
    |events| <= |times| && forall i :: 0 <= i < |events| ==> events[i] == Failure(times[i])
  }

  /** What a call comes to once try k + 1 is made: all before it may pass, so it was made. */
  predicate ComesTo(
      responses: seq<Response>, k: nat, times: seq<int>, result: CallResult, delays: nat, added: seq<Event>)
    requires k < |responses|
  {
    var r := responses[k];
    if MayPass(r) && k + 1 < |responses| then delays >= k + 1 && |added| >= k + 2
    else
      && delays == k && |added| == k + 1
      && if MayPass(r) then
           && AllFailures(added, times)
           && result == Failed(if r.Answered? && r.status >= 500 then Some(r.status) else None, true)
         else if r.status >= 400 then AllFailures(added, times) && result == Failed(Some(r.status), false)
         else AllFailures(added[..k], times) && added[k] == Success && result == Ok(r.status)
  }

  /**
   * Answers decide: an error of the client is final at once, whatever tries are left, an error of the server or of the
   * network is followed by a sleep and another try while one is left, and the first good body is the result. Every try
   * is reported once, as a failure unless it delivered.
   */
  predicate Obeys(responses: seq<Response>, times: seq<int>, result: CallResult, delays: nat, added: seq<Event>) {
    && (responses == [] ==> result == Failed(None, true) && delays == 0 && added == [])
    && forall k: nat :: k < |responses| && (forall j :: 0 <= j < k ==> MayPass(responses[j])) ==>
         ComesTo(responses, k, times, result, delays, added)
  }

  lemma StatusesDecide(responses: seq<Response>, times: seq<int>, base: real, randoms: seq<real>)
    requires |responses| <= |times| && |randoms| == |responses|
    ensures var n := Tries(responses);
            Obeys(responses, times, ToldAfter(responses, n), |Delays(base, n, randoms)|,
                ReportsOf(responses, n, times))
  {
    NothingTried(responses, times, base, randoms);
    hide Tries;
    var n := Tries(responses);
    forall k: nat | k < |responses| && (forall j :: 0 <= j < k ==> MayPass(responses[j]))
      ensures ComesTo(responses, k, times, ToldAfter(responses, n), |Delays(base, n, randoms)|,
              ReportsOf(responses, n, times))
    {
      TriesContinue(responses, k);
      if MayPass(responses[k]) && k + 1 < |responses| { TriesContinue(responses, k + 1); }
    }
  }

  /** The tries of a call that the breaker let through; every one is reported when it ends. */
  method TryRepeatedly(breaker: Breaker, responses: seq<Response>, base: real, times: seq<int>, randoms: seq<real>)
    returns (result: CallResult, slept: seq<real>)
    requires breaker.Valid()
    requires |times| == |randoms| == |responses|
    requires forall i :: 0 <= i < |times| ==> breaker.clock <= times[i]
    requires forall i, j :: 0 <= i <= j < |times| ==> times[i] <= times[j]
    modifies breaker
    ensures breaker.Valid()
    ensures var n := Tries(responses);
            && result == ToldAfter(responses, n)
            && slept == Delays(base, n, randoms)
            && breaker.log == old(breaker.log) + ReportsOf(responses, n, times)
  {
    hide BackoffDelay, Tries, Delays, ReportsOf, ToldAfter, StatusOf, Judge;
    slept, result := [], Failed(None, true);
    NothingTried(responses, times, base, randoms);
    var attempt := 1;
    while attempt <= |responses|
      invariant 1 <= attempt <= |responses| + 1
      invariant attempt == |responses| + 1 ==> |responses| == 0
      invariant breaker.Valid() && (attempt <= |responses| ==> breaker.clock <= times[attempt - 1])
      invariant forall j :: 0 <= j < attempt - 1 ==> Judge(responses[j]).Transient?
      invariant slept == Delays(base, attempt, randoms)
      invariant breaker.log == old(breaker.log) + ReportsOf(responses, attempt - 1, times)
      invariant result == Failed(None, true)
    {
      var response := responses[attempt - 1];
      TryDecides(responses, times, attempt - 1, base, randoms);
      match Judge(response) {
        case Delivered =>
          breaker.RecordSuccess();
          return Ok(response.status), slept;
        case Rejected =>
          breaker.RecordFailure(times[attempt - 1]);
          return Failed(Some(response.status), false), slept;
        case Transient =>
          breaker.RecordFailure(times[attempt - 1]);
          if attempt < |responses| {
            slept := slept + [BackoffDelay(base, attempt, randoms[attempt - 1])];
          } else {
            return Failed(StatusOf(response), true), slept;
          }
      }
      attempt := attempt + 1;
    }
  }

  /**
   * The upstream's answers, the clock readings and the random draws are given; at most |responses| tries are allowed.
   */
  method CallUpstream(breaker: Breaker, responses: seq<Response>, base: real, clock: seq<int>, randoms: seq<real>)
    returns (result: CallResult, slept: seq<real>)
    requires breaker.Valid()
    requires |clock| == |responses| + 1 && |randoms| == |responses|
    requires breaker.clock <= clock[0] && forall i, j :: 0 <= i <= j < |clock| ==> clock[i] <= clock[j]
    modifies breaker
    ensures breaker.Valid()
    ensures Tripped(old(breaker.log), breaker.settings, clock[0]) ==>
              result == CircuitOpen && slept == [] && breaker.log == old(breaker.log)
    ensures !Tripped(old(breaker.log), breaker.settings, clock[0]) ==>
              var n := Tries(responses);
              var added := ReportsOf(responses, n, clock[1..]);
              && result == ToldAfter(responses, n)
              && slept == Delays(base, n, randoms)
              && breaker.log == old(breaker.log) + added
              && Obeys(responses, clock[1..], result, |slept|, added)
  {
    hide Tripped, Tries, Delays, ReportsOf, ToldAfter, Obeys;
    var open := breaker.IsOpen(clock[0]);
    if open {
      return CircuitOpen, [];
    }
    StatusesDecide(responses, clock[1..], base, randoms);
    result, slept := TryRepeatedly(breaker, responses, base, clock[1..], randoms);
  }

  // ----- how long a call can sleep -----

  /** The delays double from one base on, with a random part of the same base on top. */
  lemma DelaysDouble(base: real, attempt: nat, random: real)
    requires attempt >= 1
    ensures BackoffDelay(base, 1, random) == base + random * base
    ensures BackoffDelay(base, attempt + 1, random) - random * base
            == 2.0 * (BackoffDelay(base, attempt, random) - random * base)
  {
    var p := Pow2(attempt - 1);
    assert Pow2(attempt) == 2 * p && Pow2(0) == 1;
    assert (2 * p) as real == 2.0 * p as real;
    assert base * (2.0 * p as real) == 2.0 * (base * p as real);
  }

  function Total(xs: seq<real>): real {
    if xs == [] then 0.0 else Total(xs[..|xs| - 1]) + xs[|xs| - 1]
  }

  /** The delays of n tries without their random part. */
  function LeastSleep(base: real, n: nat): real
    requires n >= 1
  {
    base * (Pow2(n - 1) - 1) as real
  }

  function Jitter(base: real, delays: nat): real {
    delays as real * base
  }

  /** n tries sleep for base times 2^(n-1) - 1, plus less than one base per delay. */
  lemma {:induction false} SleepIsBounded(base: real, n: nat, randoms: seq<real>)
    requires base > 0.0 && 1 <= n <= |randoms| && forall i :: 0 <= i < |randoms| ==> 0.0 <= randoms[i] < 1.0
    ensures LeastSleep(base, n) <= Total(Delays(base, n, randoms)) <= LeastSleep(base, n) + Jitter(base, n - 1)
    ensures n >= 2 ==> Total(Delays(base, n, randoms)) < LeastSleep(base, n) + Jitter(base, n - 1)
    decreases n
  {
    hide LeastSleep, Jitter, BackoffDelay;
    var delays := Delays(base, n, randoms);
    if n == 1 {
      assert delays == [];
      NoDelayYet(base);
    } else {
      SleepIsBounded(base, n - 1, randoms);
      assert delays[..|delays| - 1] == Delays(base, n - 1, randoms);
      OneMoreDelay(base, n, randoms[n - 2]);
    }
  }

  lemma NoDelayYet(base: real)
    ensures LeastSleep(base, 1) == 0.0 && Jitter(base, 0) == 0.0
  {
  }

  lemma OneMoreDelay(base: real, n: nat, random: real)
    requires base > 0.0 && 0.0 <= random < 1.0 && n >= 2
    ensures var step, delay := LeastSleep(base, n) - LeastSleep(base, n - 1), BackoffDelay(base, n - 1, random);
            step <= delay < step + (Jitter(base, n - 1) - Jitter(base, n - 2))
  {
    var p, jitter := Pow2(n - 2), random * base;
    assert 0.0 <= jitter < base by { ScaleStrict(random, 1.0, base); }
    Doubling(base, p);
    assert Pow2(n - 1) == 2 * p;
    assert (n - 1) as real * base == (n - 2) as real * base + base;
  }

  lemma Doubling(base: real, p: int)
    ensures base * (2 * p - 1) as real == base * (p - 1) as real + base * p as real
  {
    var q := p as real;
    assert (2 * p - 1) as real == (q - 1.0) + q && (p - 1) as real == q - 1.0;
  }

  /** A call that meets only transient answers trips the breaker as soon as the streak is long enough. */
  lemma OutageTrips(log: seq<Event>, settings: Settings, responses: seq<Response>, times: seq<int>, now: int)
    requires responses != [] && |responses| <= |times|
    requires forall k :: 0 <= k < |responses| ==> Judge(responses[k]).Transient?
    requires now - times[|responses| - 1] < settings.cooldown
    ensures Tripped(log + ReportedAll(responses, times), settings, now) <==>
            FailuresSinceSuccess(log) + |responses| >= settings.failureThreshold
  {
    FailuresAddUp(log, ReportedAll(responses, times));
  }
}
