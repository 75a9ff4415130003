/**
 * The shared cache with its single-flight lease, as a machine whose steps are the individual key operations
 * of any number of callers, interleaved with the passing of time.
 */
module SingleFlight {
  import opened Options

  type Caller = nat
  type Value = int

  /** Times in milliseconds; a ttl of zero means single-flight without caching. */
  datatype Settings = Settings(ttl: nat, staleTtl: nat, leaseTtl: nat, leaseWait: nat, pollInterval: nat)
  {
    predicate Sane() { staleTtl > 0 && leaseTtl > 0 && pollInterval > 0 }
  }

  datatype Entry = Entry(value: Value, setAt: int, expiresAt: int)

  datatype Source = FromCache | OwnFetch | StaleCopy
  datatype Reply = Returned(value: Value, source: Source, age: int) | Threw

  /** Where a caller stands between two key operations. */
  datatype Stage =
    | ReadingCache
    | Acquiring
    | Fetching
    | Storing(value: Value)
    | StoringStale(value: Value)
    | FallingBack
    | Releasing(reply: Reply)
    | Polling(since: int, polls: nat)
    | Sleeping(since: int, polls: nat, wakeAt: int)
    | PollingCache(since: int, polls: nat)
    | PollingLease(since: int, polls: nat)
    | FetchingAlone(polls: nat)
    | Done(reply: Reply)

  /** The three keys, the clock, every caller, and a history: values fetched, failed leaders, and two lease counters. */
  datatype State = State(
    now: int, cache: Option<Entry>, stale: Option<Entry>, lease: Option<int>, callers: map<Caller, Stage>,
    produced: set<Value>, failedLeaders: set<Caller>, leaseExpiries: nat, emptyReleases: nat)

  datatype Action =
    | Wait(ms: nat)
    | Purge
    | Call(c: Caller)
    | Proceed(c: Caller)
    | FetchOk(c: Caller, value: Value)
    | FetchFail(c: Caller)

  const START := State(0, None, None, None, map[], {}, {}, 0, 0)

  predicate InFetchSection(stage: Stage) {
    stage.Fetching? || stage.Storing? || stage.StoringStale? || stage.FallingBack? || stage.Releasing?
  }

  function Leaders(s: State): set<Caller> {
    set c | c in s.callers && InFetchSection(s.callers[c])
  }

  function Alive(entry: Option<Entry>, now: int): Option<Entry> {
    if entry.Some? && now < entry.value.expiresAt then entry else None
  }

  predicate Enabled(s: State, a: Action) {
    match a
    case Wait(_) => true
    case Purge => true
    case Call(c) => c !in s.callers
    case Proceed(c) =>
      && c in s.callers
      && var stage := s.callers[c];
         !stage.Fetching? && !stage.FetchingAlone? && !stage.Done? && (stage.Sleeping? ==> stage.wakeAt <= s.now)
    case FetchOk(c, _) => c in s.callers && (s.callers[c].Fetching? || s.callers[c].FetchingAlone?)
    case FetchFail(c) => c in s.callers && (s.callers[c].Fetching? || s.callers[c].FetchingAlone?)
  }

  function Goto(s: State, c: Caller, stage: Stage): State {
    s.(callers := s.callers[c := stage])
  }

  /** Time passes, and each key whose lifetime is over is gone. */
  function Elapse(s: State, ms: nat): State {
    var now := s.now + ms;
    var expired := s.lease.Some? && s.lease.value <= now;
    s.(now := now, cache := Alive(s.cache, now), stale := Alive(s.stale, now),
       lease := if expired then None else s.lease, leaseExpiries := s.leaseExpiries + if expired then 1 else 0)
  }

  function Hit(entry: Entry, now: int, source: Source): Reply {
    Returned(entry.value, source, now - entry.setAt)
  }

  /** One key operation of a caller that is not waiting for the upstream. */
  function Advance(s: State, c: Caller, cfg: Settings): State
    requires Enabled(s, Proceed(c))
  {
    match s.callers[c]
    case ReadingCache =>
      Goto(s, c, if s.cache.Some? then Done(Hit(s.cache.value, s.now, FromCache)) else Acquiring)
    case Acquiring =>
      if s.lease.None? then Goto(s, c, Fetching).(lease := Some(s.now + cfg.leaseTtl))
      else Goto(s, c, Polling(s.now, 0))
    case Storing(v) => Goto(s, c, StoringStale(v)).(cache := Some(Entry(v, s.now, s.now + cfg.ttl)))
    case StoringStale(v) =>
      Goto(s, c, Releasing(Returned(v, OwnFetch, 0))).(stale := Some(Entry(v, s.now, s.now + cfg.staleTtl)))
    case FallingBack =>
      Goto(s, c, Releasing(if s.stale.Some? then Hit(s.stale.value, s.now, StaleCopy) else Threw))
    case Releasing(reply) =>
      Goto(s, c, Done(reply)).(lease := None, emptyReleases := s.emptyReleases + if s.lease.None? then 1 else 0)
    case Polling(since, polls) =>
      Goto(s, c, if s.now < since + cfg.leaseWait then Sleeping(since, polls, s.now + cfg.pollInterval)
          else FetchingAlone(polls))
    case Sleeping(since, polls, _) =>
      Goto(s, c, if cfg.ttl > 0 then PollingCache(since, polls + 1) else PollingLease(since, polls + 1))
    case PollingCache(since, polls) =>
      Goto(s, c, if s.cache.Some? then Done(Hit(s.cache.value, s.now, FromCache)) else PollingLease(since, polls))
    case PollingLease(since, polls) =>
      Goto(s, c, if s.lease.None? then FetchingAlone(polls) else Polling(since, polls))
    case _ => s
  }

  function Apply(s: State, a: Action, cfg: Settings): State
    requires Enabled(s, a)
  {
    match a
    case Wait(ms) => Elapse(s, ms)
    case Purge => s.(cache := None)
    case Call(c) => Goto(s, c, if cfg.ttl > 0 then ReadingCache else Acquiring)
    case Proceed(c) => Advance(s, c, cfg)
    case FetchOk(c, v) =>
      var done := Returned(v, OwnFetch, 0);
      var next := if s.callers[c].FetchingAlone? then Done(done) else if cfg.ttl > 0 then Storing(v)
          else Releasing(done);
      Goto(s, c, next).(produced := s.produced + {v})
    case FetchFail(c) =>
      if s.callers[c].FetchingAlone? then Goto(s, c, Done(Threw))
      else Goto(s, c, FallingBack).(failedLeaders := s.failedLeaders + {c})
  }

  /** The state after a run, if every action of it was possible. */
  function After(run: seq<Action>, cfg: Settings): Option<State> {
    if run == [] then Some(START)
    else
      var before := After(run[..|run| - 1], cfg);
      var a := run[|run| - 1];
      if before.Some? && Enabled(before.value, a) then Some(Apply(before.value, a, cfg)) else None
  }

  // ----- lease accounting -----

  function Held(s: State): int {
    if s.lease.Some? then 1 else 0
  }

  /**
   * Every caller in the fetch section is paid for by the lease key, or by an expiry not yet used up by an empty
   * release.
   */
  predicate Accounted(s: State) {
    |Leaders(s)| == Held(s) + s.leaseExpiries - s.emptyReleases
  }

  function IsLeader(s: State, c: Caller): int {
    if c in s.callers && InFetchSection(s.callers[c]) then 1 else 0
  }

  /** Moving one caller moves the count of leaders by that caller alone. */
  lemma LeadersAfterMove(s: State, t: State, c: Caller)
    requires c in t.callers && t.callers == s.callers[c := t.callers[c]]
    ensures |Leaders(t)| == |Leaders(s)| - IsLeader(s, c) + IsLeader(t, c)
    ensures IsLeader(s, c) == 1 ==> |Leaders(s)| >= 1
  {
    var rest := Leaders(s) - {c};
    assert Leaders(s) == if c in Leaders(s) then rest + {c} else rest;
    assert Leaders(t) == if c in Leaders(t) then rest + {c} else rest;
  }

  lemma StepIsAccounted(s: State, a: Action, cfg: Settings)
    requires Enabled(s, a) && Accounted(s)
    ensures Accounted(Apply(s, a, cfg))
  {
    var t := Apply(s, a, cfg);
    if a.Wait? || a.Purge? {
      assert Leaders(t) == Leaders(s);
    } else {
      hide Leaders;
      LeadersAfterMove(s, t, a.c);
    }
  }

  lemma {:induction false} EveryStateIsAccounted(run: seq<Action>, cfg: Settings)
    ensures After(run, cfg).Some? ==> Accounted(After(run, cfg).value)
    decreases |run|
  {
    if run == [] {
      assert Leaders(START) == {};
    } else {
      var init, a := run[..|run| - 1], run[|run| - 1];
      EveryStateIsAccounted(init, cfg);
      if After(run, cfg).Some? { StepIsAccounted(After(init, cfg).value, a, cfg); }
    }
  }

  /** Under every interleaving at most one caller more than the leases lost so far is fetching. */
  lemma ConcurrentLeadersBounded(run: seq<Action>, cfg: Settings)
    requires After(run, cfg).Some?
    ensures var s := After(run, cfg).value;
            && |Leaders(s)| <= Held(s) + s.leaseExpiries <= 1 + s.leaseExpiries
            && s.emptyReleases <= s.leaseExpiries
            && (s.leaseExpiries == 0 ==> |Leaders(s)| == Held(s) <= 1)
  {
    EveryStateIsAccounted(run, cfg);
    ReleasesNeverOutnumberExpiries(run, cfg);
  }

  lemma {:induction false} ReleasesNeverOutnumberExpiries(run: seq<Action>, cfg: Settings)
    ensures After(run, cfg).Some? ==> After(run, cfg).value.emptyReleases <= After(run, cfg).value.leaseExpiries
    decreases |run|
  {
    if run != [] && After(run, cfg).Some? {
      var s, a := After(run[..|run| - 1], cfg).value, run[|run| - 1];
      ReleasesNeverOutnumberExpiries(run[..|run| - 1], cfg);
      EveryStateIsAccounted(run[..|run| - 1], cfg);
      if a.Proceed? && s.callers[a.c].Releasing? {
        LeadersAfterMove(s, Apply(s, a, cfg), a.c);
      }
    }
  }

  /** What a newcomer does to become a leader when the cache is empty and the lease is free. */
  function Entering(c: Caller, cfg: Settings): seq<Action> {
    if cfg.ttl > 0 then [Call(c), Proceed(c), Proceed(c)] else [Call(c), Proceed(c)]
  }

  /** Run by which one more caller enters while every earlier leader's lease has run out under it. */
  function Pileup(n: nat, cfg: Settings): seq<Action> {
    if n == 0 then Entering(0, cfg) else Pileup(n - 1, cfg) + [Wait(cfg.leaseTtl)] + Entering(n, cfg)
  }

  lemma AfterOneMore(run: seq<Action>, a: Action, cfg: Settings)
    requires After(run, cfg).Some? && Enabled(After(run, cfg).value, a)
    ensures After(run + [a], cfg) == Some(Apply(After(run, cfg).value, a, cfg))
  {
    assert (run + [a])[..|run + [a]| - 1] == run;
  }

  lemma NewcomerBecomesLeader(run: seq<Action>, c: Caller, cfg: Settings)
    requires After(run, cfg).Some?
    requires var s := After(run, cfg).value; s.lease.None? && s.cache.None? && c !in s.callers
    ensures var s := After(run, cfg).value;
            After(run + Entering(c, cfg), cfg) == Some(Goto(s, c, Fetching).(lease := Some(s.now + cfg.leaseTtl)))
  {
    hide After;
    var s, called := After(run, cfg).value, run + [Call(c)];
    AfterOneMore(run, Call(c), cfg);
    AfterOneMore(called, Proceed(c), cfg);
    if cfg.ttl > 0 {
      AfterOneMore(called + [Proceed(c)], Proceed(c), cfg);
      assert run + Entering(c, cfg) == called + [Proceed(c)] + [Proceed(c)];
      assert s.callers[c := ReadingCache][c := Acquiring][c := Fetching] == s.callers[c := Fetching];
    } else {
      assert run + Entering(c, cfg) == called + [Proceed(c)];
      assert s.callers[c := Acquiring][c := Fetching] == s.callers[c := Fetching];
    }
  }

  /** The bound is attained: after n expiries n + 1 callers can be fetching at once. */
  lemma {:induction false} BoundIsAttained(n: nat, cfg: Settings)
    requires cfg.Sane()
    ensures After(Pileup(n, cfg), cfg).Some?
    ensures var s := After(Pileup(n, cfg), cfg).value;
            && s.leaseExpiries == n && |Leaders(s)| == n + 1
            && s.cache.None? && s.emptyReleases == 0 && s.lease == Some(s.now + cfg.leaseTtl)
            && forall c :: c in s.callers ==> c <= n
    decreases n
  {
    hide After, Leaders, Entering;
    if n == 0 {
      assert After([], cfg) == Some(START) by { AfterNothing(cfg); }
      assert [] + Entering(0, cfg) == Pileup(0, cfg);
      NewcomerBecomesLeader([], 0, cfg);
    } else {
      BoundIsAttained(n - 1, cfg);
      var run := Pileup(n - 1, cfg) + [Wait(cfg.leaseTtl)];
      AfterOneMore(Pileup(n - 1, cfg), Wait(cfg.leaseTtl), cfg);
      NewcomerBecomesLeader(run, n, cfg);
    }
    EveryStateIsAccounted(Pileup(n, cfg), cfg);
  }

  lemma AfterNothing(cfg: Settings)
    ensures After([], cfg) == Some(START)
  {
  }

  // ----- what replies are made of -----

  predicate GoodEntry(entry: Option<Entry>, lifetime: nat, s: State) {
    entry.Some? ==>
      && entry.value.value in s.produced
      && entry.value.setAt <= s.now < entry.value.expiresAt == entry.value.setAt + lifetime
  }

  predicate GoodReply(c: Caller, reply: Reply, s: State, cfg: Settings) {
    reply.Returned? ==>
      && reply.value in s.produced
      && match reply.source
         case FromCache => 0 <= reply.age < cfg.ttl
         case OwnFetch => reply.age == 0
         case StaleCopy => 0 <= reply.age < cfg.staleTtl && c in s.failedLeaders
  }

  function MaxPolls(cfg: Settings): nat
    requires cfg.Sane()
  {
    (cfg.leaseWait + cfg.pollInterval - 1) / cfg.pollInterval
  }

  /** Enough time has passed for this many sleeps. */
  predicate Slept(since: int, polls: nat, now: int, cfg: Settings) {
    since + polls * cfg.pollInterval <= now
  }

  predicate GoodStage(c: Caller, stage: Stage, s: State, cfg: Settings)
    requires cfg.Sane()
  {
    match stage
    case Storing(v) => cfg.ttl > 0 && v in s.produced
    case StoringStale(v) => cfg.ttl > 0 && v in s.produced
    case FallingBack => c in s.failedLeaders
    case Releasing(reply) => GoodReply(c, reply, s, cfg)
    case Polling(since, polls) => Slept(since, polls, s.now, cfg) && polls <= MaxPolls(cfg)
    case Sleeping(since, polls, wakeAt) => Slept(since, polls + 1, wakeAt, cfg) && polls < MaxPolls(cfg)
    case PollingCache(since, polls) => Slept(since, polls, s.now, cfg) && polls <= MaxPolls(cfg)
    case PollingLease(since, polls) => Slept(since, polls, s.now, cfg) && polls <= MaxPolls(cfg)
    case FetchingAlone(polls) => polls <= MaxPolls(cfg)
    case Done(reply) => GoodReply(c, reply, s, cfg)
    case _ => true
  }

  ghost predicate Good(s: State, cfg: Settings)
    requires cfg.Sane()
  {
    && GoodEntry(s.cache, cfg.ttl, s) && GoodEntry(s.stale, cfg.staleTtl, s)
    && forall c :: c in s.callers ==> GoodStage(c, s.callers[c], s, cfg)
  }

  /** Waiting less than the budget after that many sleeps leaves room for one more poll. */
  lemma RoomForAPoll(since: int, polls: nat, now: int, cfg: Settings)
    requires cfg.Sane() && Slept(since, polls, now, cfg) && now < since + cfg.leaseWait
    ensures polls < MaxPolls(cfg) && Slept(since, polls + 1, now + cfg.pollInterval, cfg)
  {
    var w, d, m := cfg.leaseWait, cfg.pollInterval, MaxPolls(cfg);
    assert (polls + 1) * d == polls * d + d;
    assert w <= m * d by {
      var r := (w + d - 1) % d;
      assert w + d - 1 == d * m + r;
    }
    MulOrder(m, polls, d);
  }

  lemma MulOrder(a: int, b: int, d: int)
    requires d >= 0
    ensures a <= b ==> a * d <= b * d
  {
    assert b * d - a * d == (b - a) * d;
    assert a <= b ==> (b - a) * d >= 0;
  }

  /** Time and other callers' fetches never spoil where a caller stands. */
  lemma StageStaysGood(c: Caller, stage: Stage, s: State, t: State, cfg: Settings)
    requires cfg.Sane() && GoodStage(c, stage, s, cfg)
    requires s.now <= t.now && s.produced <= t.produced && s.failedLeaders <= t.failedLeaders
    ensures GoodStage(c, stage, t, cfg)
  {
    hide Slept, MaxPolls;
    match stage
    case Polling(since, polls) => SleptLonger(since, polls, s.now, t.now, cfg);
    case PollingCache(since, polls) => SleptLonger(since, polls, s.now, t.now, cfg);
    case PollingLease(since, polls) => SleptLonger(since, polls, s.now, t.now, cfg);
    case _ =>
  }

  lemma AdvanceIsGood(s: State, c: Caller, cfg: Settings)
    requires cfg.Sane() && Good(s, cfg) && Enabled(s, Proceed(c))
    ensures var t := Advance(s, c, cfg);
            && GoodEntry(t.cache, cfg.ttl, t) && GoodEntry(t.stale, cfg.staleTtl, t)
            && GoodStage(c, t.callers[c], t, cfg)
  {
    hide Slept, MaxPolls;
    assert GoodStage(c, s.callers[c], s, cfg);
    match s.callers[c]
    case Acquiring => NoPollsYet(s.now, cfg);
    case Polling(since, polls) => if s.now < since + cfg.leaseWait { RoomForAPoll(since, polls, s.now, cfg); }
    case Sleeping(since, polls, wakeAt) => SleptLonger(since, polls + 1, wakeAt, s.now, cfg);
    case _ =>
  }

  lemma StepIsGood(s: State, a: Action, cfg: Settings)
    requires cfg.Sane() && Good(s, cfg) && Enabled(s, a)
    ensures Good(Apply(s, a, cfg), cfg)
  {
    hide Slept, MaxPolls;
    var t := Apply(s, a, cfg);
    if a.Proceed? { AdvanceIsGood(s, a.c, cfg); }
    hide Advance, GoodStage;
    OnlyMovesItsCaller(s, a, cfg);
    forall c | c in t.callers ensures GoodStage(c, t.callers[c], t, cfg) {
      if c in s.callers && t.callers[c] == s.callers[c] {
        StageStaysGood(c, s.callers[c], s, t, cfg);
      } else if !a.Proceed? {
        NewStageIsGood(s, a, cfg);
      }
    }
  }

  /** An action touches only its own caller; time and the histories only grow. */
  lemma OnlyMovesItsCaller(s: State, a: Action, cfg: Settings)
    requires Enabled(s, a)
    ensures var t := Apply(s, a, cfg);
            && s.now <= t.now && s.produced <= t.produced && s.failedLeaders <= t.failedLeaders
            && (a.Wait? || a.Purge? ==> t.callers == s.callers)
            && (!a.Wait? && !a.Purge? ==> t.callers.Keys == s.callers.Keys + {a.c})
            && (forall c :: c in s.callers && (a.Wait? || a.Purge? || a.c != c) ==>
                c in t.callers && t.callers[c] == s.callers[c])
  {
  }

  lemma NewStageIsGood(s: State, a: Action, cfg: Settings)
    requires cfg.Sane() && Good(s, cfg) && Enabled(s, a) && !a.Proceed? && !a.Wait? && !a.Purge?
    ensures var t := Apply(s, a, cfg); GoodStage(a.c, t.callers[a.c], t, cfg)
  {
    hide MaxPolls;
    NoPollsYet(s.now, cfg);
  }

  lemma NoPollsYet(now: int, cfg: Settings)
    requires cfg.Sane()
    ensures Slept(now, 0, now, cfg) && 0 <= MaxPolls(cfg)
  {
  }

  lemma SleptLonger(since: int, polls: nat, now: int, later: int, cfg: Settings)
    requires Slept(since, polls, now, cfg) && now <= later
    ensures Slept(since, polls, later, cfg)
  {
  }

  lemma {:induction false} EveryStateIsGood(run: seq<Action>, cfg: Settings)
    requires cfg.Sane()
    ensures After(run, cfg).Some? ==> Good(After(run, cfg).value, cfg)
    decreases |run|
  {
    if run != [] && After(run, cfg).Some? {
      EveryStateIsGood(run[..|run| - 1], cfg);
      StepIsGood(After(run[..|run| - 1], cfg).value, run[|run| - 1], cfg);
    }
  }

  /**
   * Every value handed out was fetched by someone; a cache hit is younger than the ttl, so a ttl of zero never hits;
   * the stale copy reaches only a leader whose own fetch failed, and within its own lifetime.
   */
  lemma RepliesHaveProvenance(run: seq<Action>, c: Caller, cfg: Settings)
    requires cfg.Sane() && After(run, cfg).Some?
    requires c in After(run, cfg).value.callers && After(run, cfg).value.callers[c].Done?
    ensures var s := After(run, cfg).value;
            var reply := s.callers[c].reply;
            reply.Returned? ==>
              && reply.value in s.produced
              && (reply.source.FromCache? ==> cfg.ttl > 0 && 0 <= reply.age < cfg.ttl)
              && (reply.source.StaleCopy? ==> c in s.failedLeaders && 0 <= reply.age < cfg.staleTtl)
  {
    EveryStateIsGood(run, cfg);
  }

  function PollsOf(stage: Stage): nat {
    match stage
    case Polling(_, polls) => polls
    case Sleeping(_, polls, _) => polls
    case PollingCache(_, polls) => polls
    case PollingLease(_, polls) => polls
    case FetchingAlone(polls) => polls
    case _ => 0
  }

  /** A follower looks for the leader's result at most ceil(leaseWait / pollInterval) times before it fetches alone. */
  lemma PollsAreBounded(run: seq<Action>, c: Caller, cfg: Settings)
    requires cfg.Sane() && After(run, cfg).Some? && c in After(run, cfg).value.callers
    ensures PollsOf(After(run, cfg).value.callers[c]) <= MaxPolls(cfg)
    ensures (MaxPolls(cfg) - 1) * cfg.pollInterval < cfg.leaseWait <= MaxPolls(cfg) * cfg.pollInterval
            || cfg.leaseWait == 0
  {
    hide After, Slept;
    EveryStateIsGood(run, cfg);
    assert GoodStage(c, After(run, cfg).value.callers[c], After(run, cfg).value, cfg);
    CeilingOfQuotient(cfg.leaseWait, cfg.pollInterval);
  }

  lemma CeilingOfQuotient(w: nat, d: nat)
    requires d > 0
    ensures var m := (w + d - 1) / d; (m - 1) * d < w <= m * d || w == 0
  {
    var m, r := (w + d - 1) / d, (w + d - 1) % d;
    assert w + d - 1 == d * m + r;
    assert (m - 1) * d == m * d - d;
  }

  // ----- every call ends -----

  /** Own steps a caller can still take; four to a poll. */
  function Remaining(stage: Stage, cfg: Settings): int
    requires cfg.Sane()
  {
    var m := MaxPolls(cfg);
    match stage
    case ReadingCache => 4 * m + 8
    case Acquiring => 4 * m + 7
    case Polling(_, polls) => 4 * (m - polls) + 6
    case Sleeping(_, polls, _) => 4 * (m - polls) + 5
    case PollingCache(_, polls) => 4 * (m - polls) + 8
    case PollingLease(_, polls) => 4 * (m - polls) + 7
    case Fetching => 4
    case Storing(_) => 3
    case StoringStale(_) => 2
    case FallingBack => 2
    case Releasing(_) => 1
    case FetchingAlone(_) => 1
    case Done(_) => 0
  }

  /**
   * Its own steps bring a caller strictly nearer to its reply, and nobody else's steps move it: at most 4 * polls + 8
   * of them.
   */
  lemma OwnStepsRunOut(s: State, a: Action, c: Caller, cfg: Settings)
    requires cfg.Sane() && Good(s, cfg) && Enabled(s, a) && c in s.callers
    ensures var t := Apply(s, a, cfg);
            && c in t.callers
            && 0 <= Remaining(t.callers[c], cfg) <= Remaining(s.callers[c], cfg) <= 4 * MaxPolls(cfg) + 8
            && (if (a.Proceed? || a.FetchOk? || a.FetchFail?) && a.c == c
                then Remaining(t.callers[c], cfg) < Remaining(s.callers[c], cfg)
                else t.callers[c] == s.callers[c])
  {
    hide Slept, MaxPolls, GoodEntry, GoodReply, Remaining, Apply, GoodStage;
    StepIsGood(s, a, cfg);
    var t := Apply(s, a, cfg);
    OnlyMovesItsCaller(s, a, cfg);
    RemainingIsBounded(c, s.callers[c], s, cfg);
    RemainingIsBounded(c, t.callers[c], t, cfg);
    if (a.Proceed? || a.FetchOk? || a.FetchFail?) && a.c == c {
      OwnStepLowers(s, a, cfg);
    }
  }

  lemma RemainingIsBounded(c: Caller, stage: Stage, s: State, cfg: Settings)
    requires cfg.Sane() && GoodStage(c, stage, s, cfg)
    ensures 0 <= Remaining(stage, cfg) <= 4 * MaxPolls(cfg) + 8
  {
    hide Slept, MaxPolls, GoodReply;
  }

  lemma OwnStepLowers(s: State, a: Action, cfg: Settings)
    requires cfg.Sane() && Enabled(s, a) && (a.Proceed? || a.FetchOk? || a.FetchFail?)
    requires GoodStage(a.c, s.callers[a.c], s, cfg)
    ensures Remaining(Apply(s, a, cfg).callers[a.c], cfg) < Remaining(s.callers[a.c], cfg)
  {
    hide Slept, MaxPolls, GoodReply;
  }

  /** An own step of an unfinished caller, whoever else is around; a sleeper first needs time to pass. */
  function OwnStep(s: State, c: Caller): Action
    requires c in s.callers
  {
    if s.callers[c].Fetching? || s.callers[c].FetchingAlone? then FetchFail(c) else Proceed(c)
  }

  function NapLeft(s: State, c: Caller): nat
    requires c in s.callers
  {
    if s.callers[c].Sleeping? && s.now < s.callers[c].wakeAt then s.callers[c].wakeAt - s.now else 0
  }

  /** No caller is ever stuck: its next step becomes possible by the passing of time alone. */
  lemma NobodyIsStuck(s: State, c: Caller, cfg: Settings)
    requires c in s.callers && !s.callers[c].Done?
    ensures var t := Elapse(s, NapLeft(s, c)); t.callers == s.callers && Enabled(t, OwnStep(s, c))
  {
  }

  /** From every reachable state any caller gets its reply by waiting and by steps of its own, with nobody's help. */
  lemma {:induction false} EveryCallEnds(run: seq<Action>, c: Caller, cfg: Settings) returns (more: seq<Action>)
    requires cfg.Sane() && After(run, cfg).Some? && c in After(run, cfg).value.callers
    ensures forall k :: 0 <= k < |more| ==> more[k].Wait? || (!more[k].Purge? && !more[k].Call? && more[k].c == c)
    ensures After(run + more, cfg).Some?
    ensures var t := After(run + more, cfg).value;
            && t.callers.Keys == After(run, cfg).value.callers.Keys && t.callers[c].Done?
            && forall d :: d in t.callers && d != c ==> t.callers[d] == After(run, cfg).value.callers[d]
    decreases Remaining(After(run, cfg).value.callers[c], cfg)
  {
    hide After, Advance, GoodEntry, GoodStage, Remaining, MaxPolls, Elapse;
    var s := After(run, cfg).value;
    if s.callers[c].Done? {
      more := [];
      assert run + more == run;
    } else {
      var nap, step := Wait(NapLeft(s, c)), OwnStep(s, c);
      NobodyIsStuck(s, c, cfg);
      EveryStateIsGood(run, cfg);
      AfterOneMore(run, nap, cfg);
      AfterOneMore(run + [nap], step, cfg);
      var rested := After(run + [nap], cfg).value;
      EveryStateIsGood(run + [nap], cfg);
      OnlyMovesItsCaller(rested, step, cfg);
      OwnStepsRunOut(rested, step, c, cfg);
      var rest := EveryCallEnds(run + [nap] + [step], c, cfg);
      more := [nap, step] + rest;
      assert run + more == run + [nap] + [step] + rest;
    }
  }

  // ----- what the keys hold, told from the run -----

  /** Time that has passed. */
  function Clock(run: seq<Action>): int {
    if run == [] then 0
    else
      var a := run[|run| - 1];
      Clock(run[..|run| - 1]) + if a.Wait? then a.ms else 0
  }

  datatype Stored = Stored(value: Value, at: int)

  /** The caller of an own step, with the stage it takes it from. */
  function StepFrom(before: Option<State>, a: Action): Option<Stage> {
    if before.Some? && a.Proceed? && a.c in before.value.callers then Some(before.value.callers[a.c]) else None
  }

  /** The last value written to the main entry and not purged since, with the time of writing. */
  function LastMain(run: seq<Action>, cfg: Settings): Option<Stored> {
    if run == [] then None
    else
      var init, a := run[..|run| - 1], run[|run| - 1];
      NextMain(LastMain(init, cfg), StepFrom(After(init, cfg), a), a, Clock(init))
  }

  function NextMain(write: Option<Stored>, step: Option<Stage>, a: Action, now: int): Option<Stored> {
    if a.Purge? then None
    else if step.Some? && step.value.Storing? then Some(Stored(step.value.value, now))
    else write
  }

  /** The last value written to the stale copy, which no purge removes. */
  function LastStale(run: seq<Action>, cfg: Settings): Option<Stored> {
    if run == [] then None
    else
      var init, a := run[..|run| - 1], run[|run| - 1];
      NextStale(LastStale(init, cfg), StepFrom(After(init, cfg), a), Clock(init))
  }

  function NextStale(write: Option<Stored>, step: Option<Stage>, now: int): Option<Stored> {
    if step.Some? && step.value.StoringStale? then Some(Stored(step.value.value, now)) else write
  }

  /** When the lease was last granted, unless it was given back since; whoever gives it back gives back any lease. */
  function LastGrant(run: seq<Action>, cfg: Settings): Option<int> {
    if run == [] then None
    else
      var init, a := run[..|run| - 1], run[|run| - 1];
      NextGrant(LastGrant(init, cfg), StepFrom(After(init, cfg), a), Clock(init), cfg)
  }

  function NextGrant(grant: Option<int>, step: Option<Stage>, now: int, cfg: Settings): Option<int> {
    if step.Some? && step.value.Releasing? then None
    else if step.Some? && step.value.Acquiring? && !Runs(grant, now, cfg) then Some(now)
    else grant
  }

  predicate Runs(grant: Option<int>, now: int, cfg: Settings) {
    grant.Some? && now - grant.value < cfg.leaseTtl
  }

  predicate LeaseAlive(run: seq<Action>, cfg: Settings) {
    Runs(LastGrant(run, cfg), Clock(run), cfg)
  }

  /** What is left of a write after so much time: the value and its age. */
  function Fresh(write: Option<Stored>, lifetime: nat, now: int): Option<Stored> {
    if write.Some? && now - write.value.at < lifetime then write else None
  }

  function Kept(write: Option<Stored>, lifetime: nat, now: int): Option<Entry> {
    match Fresh(write, lifetime, now)
    case None => None
    case Some(w) => Some(Entry(w.value, w.at, w.at + lifetime))
  }

  /** A key holds this write, as far as it is still alive. */
  predicate Holds(entry: Option<Entry>, write: Option<Stored>, lifetime: nat, now: int) {
    entry == Kept(write, lifetime, now) && (write.Some? ==> write.value.at <= now)
  }

  predicate Leased(lease: Option<int>, grant: Option<int>, now: int, cfg: Settings) {
    && (grant.Some? ==> grant.value <= now)
    && lease == if Runs(grant, now, cfg) then Some(grant.value + cfg.leaseTtl) else None
  }

  lemma MainStep(s: State, a: Action, write: Option<Stored>, cfg: Settings)
    requires Enabled(s, a) && Holds(s.cache, write, cfg.ttl, s.now)
    requires a.Proceed? && s.callers[a.c].Storing? ==> cfg.ttl > 0
    ensures var t := Apply(s, a, cfg); Holds(t.cache, NextMain(write, StepFrom(Some(s), a), a, s.now), cfg.ttl, t.now)
  {
  }

  lemma StaleStep(s: State, a: Action, write: Option<Stored>, cfg: Settings)
    requires cfg.Sane() && Enabled(s, a) && Holds(s.stale, write, cfg.staleTtl, s.now)
    ensures var t :=
            Apply(s, a, cfg); Holds(t.stale, NextStale(write, StepFrom(Some(s), a), s.now), cfg.staleTtl, t.now)
  {
  }

  lemma LeaseStep(s: State, a: Action, grant: Option<int>, cfg: Settings)
    requires cfg.Sane() && Enabled(s, a) && Leased(s.lease, grant, s.now, cfg)
    ensures var t := Apply(s, a, cfg); Leased(t.lease, NextGrant(grant, StepFrom(Some(s), a), s.now, cfg), t.now, cfg)
  {
  }

  lemma ClockStep(s: State, a: Action, cfg: Settings)
    requires Enabled(s, a)
    ensures Apply(s, a, cfg).now == s.now + if a.Wait? then a.ms else 0
  {
  }

  /** The keys are their histories: each holds its last write until that is removed or has outlived itself. */
  lemma {:induction false} KeysAreTheirHistory(run: seq<Action>, cfg: Settings)
    requires cfg.Sane() && After(run, cfg).Some?
    ensures var s := After(run, cfg).value;
            && s.now == Clock(run)
            && Holds(s.cache, LastMain(run, cfg), cfg.ttl, Clock(run))
            && Holds(s.stale, LastStale(run, cfg), cfg.staleTtl, Clock(run))
            && Leased(s.lease, LastGrant(run, cfg), Clock(run), cfg)
    decreases |run|
  {
    if run != [] {
      var init, a := run[..|run| - 1], run[|run| - 1];
      KeysAreTheirHistory(init, cfg);
      var s := After(init, cfg).value;
      MayStore(init, a, cfg);
      hide Holds, Leased, Apply;
      MainStep(s, a, LastMain(init, cfg), cfg);
      StaleStep(s, a, LastStale(init, cfg), cfg);
      LeaseStep(s, a, LastGrant(init, cfg), cfg);
      ClockStep(s, a, cfg);
    }
  }

  lemma MayStore(run: seq<Action>, a: Action, cfg: Settings)
    requires cfg.Sane() && After(run, cfg).Some? && Enabled(After(run, cfg).value, a)
    ensures a.Proceed? && After(run, cfg).value.callers[a.c].Storing? ==> cfg.ttl > 0
  {
    EveryStateIsGood(run, cfg);
    if a.Proceed? { assert GoodStage(a.c, After(run, cfg).value.callers[a.c], After(run, cfg).value, cfg); }
  }

  function ServedFrom(write: Option<Stored>, lifetime: nat, source: Source, now: int): Option<Reply> {
    match Fresh(write, lifetime, now)
    case None => None
    case Some(w) => Some(Returned(w.value, source, now - w.at))
  }

  /** The stage after an own step, told from the last writes, the last grant and the time. */
  predicate Decides(
      stage: Stage, next: Stage, main: Option<Stored>, stale: Option<Stored>, leased: bool, now: int, cfg: Settings)
  {
    var hit := ServedFrom(main, cfg.ttl, FromCache, now);
    var copy := ServedFrom(stale, cfg.staleTtl, StaleCopy, now);
    match stage
    case ReadingCache => next == if hit.Some? then Done(hit.value) else Acquiring
    case Acquiring => next == if leased then Polling(now, 0) else Fetching
    case FallingBack => next == Releasing(if copy.Some? then copy.value else Threw)
    case Polling(since, polls) =>
      next ==
        if now < since + cfg.leaseWait then Sleeping(since, polls, now + cfg.pollInterval) else FetchingAlone(polls)
    case Sleeping(since, polls, wakeAt) =>
      wakeAt <= now && next == if cfg.ttl > 0 then PollingCache(since, polls + 1) else PollingLease(since, polls + 1)
    case PollingCache(since, polls) => next == if hit.Some? then Done(hit.value) else PollingLease(since, polls)
    case PollingLease(since, polls) => next == if leased then Polling(since, polls) else FetchingAlone(polls)
    case Releasing(reply) => next == Done(reply)
    case _ => next.StoringStale? || next.Releasing?
  }

  lemma StepDecides(
      s: State, c: Caller, main: Option<Stored>, stale: Option<Stored>, grant: Option<int>, cfg: Settings)
    requires Enabled(s, Proceed(c)) && Holds(s.cache, main, cfg.ttl, s.now)
            && Holds(s.stale, stale, cfg.staleTtl, s.now)
    requires Leased(s.lease, grant, s.now, cfg)
    ensures var t := Apply(s, Proceed(c), cfg);
            c in t.callers && Decides(s.callers[c], t.callers[c], main, stale, Runs(grant, s.now, cfg), s.now, cfg)
  {
  }

  /**
   * Every decision a caller takes at a key is the one the history of the run calls for: a fresh main entry is served, a
   * free lease is taken, a living stale copy is served after a failure, and a follower polls until the lease is gone
   * or its time is up.
   */
  lemma DecisionsFollowHistory(run: seq<Action>, c: Caller, cfg: Settings)
    requires cfg.Sane() && After(run, cfg).Some? && Enabled(After(run, cfg).value, Proceed(c))
    ensures After(run + [Proceed(c)], cfg).Some? && c in After(run + [Proceed(c)], cfg).value.callers
    ensures Decides(After(run, cfg).value.callers[c], After(run + [Proceed(c)], cfg).value.callers[c],
                    LastMain(run, cfg), LastStale(run, cfg), LeaseAlive(run, cfg), Clock(run), cfg)
  {
    hide Decides, Apply, Holds, Leased, After, LastMain, LastStale, LastGrant, Clock;
    AfterOneMore(run, Proceed(c), cfg);
    KeysAreTheirHistory(run, cfg);
    StepDecides(After(run, cfg).value, c, LastMain(run, cfg), LastStale(run, cfg), LastGrant(run, cfg), cfg);
  }

  predicate Acts(a: Action, c: Caller) {
    !a.Wait? && !a.Purge? && a.c == c
  }

  /** Nobody else moves a caller. */
  lemma {:induction false} OthersLeaveAlone(run: seq<Action>, more: seq<Action>, c: Caller, cfg: Settings)
    requires After(run + more, cfg).Some? && After(run, cfg).Some? && c in After(run, cfg).value.callers
    requires forall k :: 0 <= k < |more| ==> !Acts(more[k], c)
    ensures var t := After(run + more, cfg).value;
            c in t.callers && t.callers[c] == After(run, cfg).value.callers[c]
    decreases |more|
  {
    if more == [] {
      assert run + more == run;
    } else {
      var init := more[..|more| - 1];
      assert (run + more)[..|run + more| - 1] == run + init;
      OthersLeaveAlone(run, init, c, cfg);
      OnlyMovesItsCaller(After(run + init, cfg).value, more[|more| - 1], cfg);
      hide Apply;
    }
  }

  /** On its way out with this reply, or out with it. */
  predicate Leaves(stage: Stage, reply: Reply) {
    stage == Releasing(reply) || stage == Done(reply)
  }

  lemma {:induction false} LeavesWithIt(run: seq<Action>, more: seq<Action>, c: Caller, reply: Reply, cfg: Settings)
    requires After(run + more, cfg).Some? && After(run, cfg).Some? && c in After(run, cfg).value.callers
    requires Leaves(After(run, cfg).value.callers[c], reply)
    ensures var t := After(run + more, cfg).value; c in t.callers && Leaves(t.callers[c], reply)
    decreases |more|
  {
    if more == [] {
      assert run + more == run;
    } else {
      var init := more[..|more| - 1];
      assert (run + more)[..|run + more| - 1] == run + init;
      LeavesWithIt(run, init, c, reply, cfg);
      OnlyMovesItsCaller(After(run + init, cfg).value, more[|more| - 1], cfg);
    }
  }

  lemma {:induction false} PrefixIsPossible(run: seq<Action>, more: seq<Action>, cfg: Settings)
    requires After(run + more, cfg).Some?
    ensures After(run, cfg).Some?
    decreases |more|
  {
    if more == [] {
      assert run + more == run;
    } else {
      assert (run + more)[..|run + more| - 1] == run + more[..|more| - 1];
      PrefixIsPossible(run, more[..|more| - 1], cfg);
    }
  }

  /**
   * A leader whose own fetch failed is answered from the stale copy: with the last value any caller stored there, if
   * that is less than the stale lifetime ago when it looks, and with an error exactly if there is none.
   */
  lemma FailedLeaderIsServedStale(
      run: seq<Action>, c: Caller, mid: seq<Action>, more: seq<Action>, cfg: Settings)
    requires cfg.Sane() && After(run, cfg).Some?
    requires c in After(run, cfg).value.callers && After(run, cfg).value.callers[c].Fetching?
    requires forall k :: 0 <= k < |mid| ==> !Acts(mid[k], c)
    requires After(run + [FetchFail(c)] + mid + [Proceed(c)] + more, cfg).Some?
    ensures var looks := run + [FetchFail(c)] + mid;
            var t := After(looks + [Proceed(c)] + more, cfg).value;
            var served := ServedFrom(LastStale(looks, cfg), cfg.staleTtl, StaleCopy, Clock(looks));
            c in t.callers && Leaves(t.callers[c], if served.Some? then served.value else Threw)
  {
    var failed := run + [FetchFail(c)];
    var looks := failed + mid;
    PrefixIsPossible(looks + [Proceed(c)], more, cfg);
    PrefixIsPossible(looks, [Proceed(c)], cfg);
    PrefixIsPossible(failed, mid, cfg);
    AfterOneMore(run, FetchFail(c), cfg);
    OthersLeaveAlone(failed, mid, c, cfg);
    DecisionsFollowHistory(looks, c, cfg);
    hide After, LastStale;
    var served := ServedFrom(LastStale(looks, cfg), cfg.staleTtl, StaleCopy, Clock(looks));
    LeavesWithIt(looks + [Proceed(c)], more, c, if served.Some? then served.value else Threw, cfg);
  }

  /** A write of this value to the main entry by this caller, and one to the stale copy. */
  predicate StoredBoth(run: seq<Action>, c: Caller, v: Value, cfg: Settings) {
    && StoredMain(run, c, v, cfg)
    && exists k ::
         && 0 <= k < |run| && run[k] == Proceed(c)
         && StepFrom(After(run[..k], cfg), run[k]) == Some(StoringStale(v))
  }

  predicate StoredMain(run: seq<Action>, c: Caller, v: Value, cfg: Settings) {
    exists k :: 0 <= k < |run| && run[k] == Proceed(c) && StepFrom(After(run[..k], cfg), run[k]) == Some(Storing(v))
  }

  lemma StoresStay(run: seq<Action>, a: Action, c: Caller, v: Value, cfg: Settings)
    ensures StoredMain(run, c, v, cfg) ==> StoredMain(run + [a], c, v, cfg)
    ensures StoredBoth(run, c, v, cfg) ==> StoredBoth(run + [a], c, v, cfg)
    ensures a == Proceed(c) && StepFrom(After(run, cfg), a) == Some(Storing(v)) ==> StoredMain(run + [a], c, v, cfg)
    ensures StoredMain(run, c, v, cfg) && a == Proceed(c) && StepFrom(After(run, cfg), a) == Some(StoringStale(v)) ==>
              StoredBoth(run + [a], c, v, cfg)
  {
    hide After;
    var all := run + [a];
    assert all[..|run|] == run && all[|run|] == a;
    forall k | 0 <= k < |run| ensures all[k] == run[k] && all[..k] == run[..k] {
    }
  }

  /** Where a leader that fetched v can be, and what it has stored by then. */
  predicate Delivering(stage: Stage, run: seq<Action>, c: Caller, v: Value, cfg: Settings) {
    match stage
    case Storing(w) => cfg.ttl > 0 && w == v
    case StoringStale(w) => cfg.ttl > 0 && w == v && StoredMain(run, c, v, cfg)
    case Releasing(reply) => reply == Returned(v, OwnFetch, 0) && (cfg.ttl > 0 ==> StoredBoth(run, c, v, cfg))
    case Done(reply) => reply == Returned(v, OwnFetch, 0) && (cfg.ttl > 0 ==> StoredBoth(run, c, v, cfg))
    case _ => false
  }

  /** A leader that fetched v returns v, and with caching on it has stored v in both entries by then. */
  lemma {:induction false} LeaderDelivers(run: seq<Action>, c: Caller, v: Value, more: seq<Action>, cfg: Settings)
    requires After(run, cfg).Some? && c in After(run, cfg).value.callers && After(run, cfg).value.callers[c].Fetching?
    requires After(run + [FetchOk(c, v)] + more, cfg).Some?
    ensures var all := run + [FetchOk(c, v)] + more;
            var t := After(all, cfg).value;
            c in t.callers && Delivering(t.callers[c], all, c, v, cfg)
    decreases |more|
  {
    var fetched := run + [FetchOk(c, v)];
    if more == [] {
      AfterOneMore(run, FetchOk(c, v), cfg);
      assert fetched + more == fetched;
    } else {
      var init, a := more[..|more| - 1], more[|more| - 1];
      assert (fetched + more)[..|fetched + more| - 1] == fetched + init;
      assert fetched + more == fetched + init + [a];
      LeaderDelivers(run, c, v, init, cfg);
      StillDelivering(fetched + init, a, c, v, cfg);
    }
  }

  lemma StillDelivering(run: seq<Action>, a: Action, c: Caller, v: Value, cfg: Settings)
    requires After(run + [a], cfg).Some? && After(run, cfg).Some? && c in After(run, cfg).value.callers
    requires Delivering(After(run, cfg).value.callers[c], run, c, v, cfg)
    ensures var t := After(run + [a], cfg).value; c in t.callers && Delivering(t.callers[c], run + [a], c, v, cfg)
  {
    assert (run + [a])[..|run + [a]| - 1] == run;
    StoresStay(run, a, c, v, cfg);
    var s := After(run, cfg).value;
    assert Enabled(s, a) && After(run + [a], cfg).value == Apply(s, a, cfg);
    hide StoredMain, StoredBoth, After;
    OnlyMovesItsCaller(s, a, cfg);
    if !Acts(a, c) { hide Apply; }
  }

  /**
   * A caller that fetches for itself passes on what it gets: its value, or its error without a look at the stale copy.
   */
  lemma FetchingAloneEnds(run: seq<Action>, c: Caller, v: Value, cfg: Settings)
    requires After(run, cfg).Some? && c in After(run, cfg).value.callers
            && After(run, cfg).value.callers[c].FetchingAlone?
    ensures var ok := After(run + [FetchOk(c, v)], cfg);
            ok.Some? && c in ok.value.callers && ok.value.callers[c] == Done(Returned(v, OwnFetch, 0))
    ensures var failed := After(run + [FetchFail(c)], cfg);
            failed.Some? && c in failed.value.callers && failed.value.callers[c] == Done(Threw)
  {
    AfterOneMore(run, FetchOk(c, v), cfg);
    AfterOneMore(run, FetchFail(c), cfg);
  }

  /** A newcomer is served the last value stored in the main entry if it is fresh when it looks; only then. */
  lemma NewcomerIsServedFresh(run: seq<Action>, c: Caller, mid: seq<Action>, cfg: Settings)
    requires cfg.Sane() && After(run, cfg).Some? && c !in After(run, cfg).value.callers && cfg.ttl > 0
    requires forall k :: 0 <= k < |mid| ==> !Acts(mid[k], c)
    requires After(run + [Call(c)] + mid, cfg).Some?
    ensures var looks := run + [Call(c)] + mid;
            var t := After(looks + [Proceed(c)], cfg);
            var served := ServedFrom(LastMain(looks, cfg), cfg.ttl, FromCache, Clock(looks));
            && t.Some? && c in t.value.callers
            && t.value.callers[c] == if served.Some? then Done(served.value) else Acquiring
  {
    AfterOneMore(run, Call(c), cfg);
    PrefixIsPossible(run + [Call(c)], mid, cfg);
    OthersLeaveAlone(run + [Call(c)], mid, c, cfg);
    DecisionsFollowHistory(run + [Call(c)] + mid, c, cfg);
  }
}
