/** The readiness and metrics cache of the operational API: staleness windows, fallbacks and the
    single background refresh, under every interleaving of request handlers and refreshers.
    Times are seconds; every reading of the clock is a step of its own, and the clock never runs
    backwards. */
module ProbeCache {
  import opened Wrappers

  const FRESH_AGE := 45
  const MAX_STALE_AGE := 300
  const REFRESH_TIMEOUT := 10

  datatype Cached = Cached(value: nat, at: int)

  /** The fields the mutex guards. */
  datatype Cache = Cache(readiness: Option<Cached>, metrics: Option<Cached>, refreshing: bool)

  predicate RecentHit(now: int, at: int, maxAge: int) { 0 <= now - at <= maxAge }

  function Recent(entry: Option<Cached>, now: int, maxAge: int): Option<Cached> {
    if entry.Some? && RecentHit(now, entry.value.at, maxAge) then entry else None
  }

  // ---------------------------------------------------------------- the critical sections

  class OperationalProbeCache {
    var readiness: Option<Cached>
    var metrics: Option<Cached>
    var metricsRefreshing: bool

    ghost function Value(): Cache
      reads this
    {
      Cache(readiness, metrics, metricsRefreshing)
    }

    constructor ()
      ensures Value() == Cache(None, None, false)
    {
      readiness, metrics, metricsRefreshing := None, None, false;
    }

    /** Only a ready report is worth remembering. */
    method StoreReadiness(at: int, report: nat, ready: bool)
      modifies this
      ensures Value() == if ready then old(Value()).(readiness := Some(Cached(report, at))) else old(Value())
    {
      if ready {
        readiness := Some(Cached(report, at));
      }
    }

    method RecentReadiness(now: int, maxAge: int) returns (hit: Option<Cached>)
      ensures hit == Recent(readiness, now, maxAge)
    {
      if readiness.None? || !RecentHit(now, readiness.value.at, maxAge) {
        return None;
      }
      return readiness;
    }

    method StoreMetrics(at: int, snapshot: nat)
      modifies this
      ensures Value() == old(Value()).(metrics := Some(Cached(snapshot, at)))
    {
      metrics := Some(Cached(snapshot, at));
    }

    method RecentMetrics(now: int, maxAge: int) returns (hit: Option<Cached>)
      ensures hit == Recent(metrics, now, maxAge)
    {
      if metrics.None? || !RecentHit(now, metrics.value.at, maxAge) {
        return None;
      }
      return metrics;
    }

    /** Claims the refresh; only the caller that finds the flag down may start one. */
    method ClaimRefresh() returns (claimed: bool)
      modifies this
      ensures claimed == !old(metricsRefreshing)
      ensures Value() == old(Value()).(refreshing := true)
    {
      if metricsRefreshing {
        return false;
      }
      metricsRefreshing := true;
      return true;
    }

    method EndRefresh()
      modifies this
      ensures Value() == old(Value()).(refreshing := false)
    {
      metricsRefreshing := false;
    }

    /** The /readyz handler with nothing in between.  `report` is what its own probe finds, `ok` whether
        the probe succeeds. */
    method ServeReadiness(clock: int, report: nat, ok: bool, ready: bool) returns (reply: Reply)
      modifies this
      ensures (reply, Value()) == ReadyAnswer(old(Value()), clock, report, ok, ready)
      ensures forall s: State, id: Id | Starts(s, id, ReadyStart, old(Value()), clock) && |s.log.probes| == report ::
                Gives(Handled(s, id, ok, ready), id, (reply, Value()))
    {
      forall s: State, id: Id | Starts(s, id, ReadyStart, Value(), clock) && |s.log.probes| == report
        ensures Gives(Handled(s, id, ok, ready), id, ReadyAnswer(Value(), clock, report, ok, ready))
      {
        ReadinessHandled(s, id, ok, ready);
      }
      hide Handled, Gives;
      var hit := RecentReadiness(clock, FRESH_AGE);
      if hit.Some? {
        return Ready200(hit.value.value, FromCache(hit.value.at, clock, false));
      }
      if !ok {
        hit := RecentReadiness(clock, MAX_STALE_AGE);
        if hit.Some? {
          return Ready200(hit.value.value, FromCache(hit.value.at, clock, true));
        }
        return Unavailable;
      }
      StoreReadiness(clock, report, ready);
      return if ready then Ready200(report, Own) else Unavailable;
    }

    /** The /metrics handler with nothing in between.  Claiming the refresh raises the flag; the refresh that
        then runs in the background, and lowers it, is the model's own `Background` steps. */
    method ServeMetrics(clock: int, snapshot: nat, ok: bool) returns (reply: Reply)
      modifies this
      ensures (reply, Value()) == MetricsAnswer(old(Value()), clock, snapshot, ok)
      ensures forall s: State, id: Id | Starts(s, id, MetricsStart, old(Value()), clock) && |s.log.collected| == snapshot ::
                Gives(Handled(s, id, ok, true), id, (reply, Value()))
    {
      forall s: State, id: Id | Starts(s, id, MetricsStart, Value(), clock) && |s.log.collected| == snapshot
        ensures Gives(Handled(s, id, ok, true), id, MetricsAnswer(Value(), clock, snapshot, ok))
      {
        MetricsHandled(s, id, ok);
      }
      hide Handled, Gives;
      var hit := RecentMetrics(clock, FRESH_AGE);
      if hit.Some? {
        return Metrics200(hit.value.value, FromCache(hit.value.at, clock, false));
      }
      hit := RecentMetrics(clock, MAX_STALE_AGE);
      if hit.Some? {
        var claimed := ClaimRefresh();
        return Metrics200(hit.value.value, FromCache(hit.value.at, clock, false));
      }
      if !ok {
        hit := RecentMetrics(clock, MAX_STALE_AGE);
        assert hit.None?;
        return Unavailable;
      }
      StoreMetrics(clock, snapshot);
      return Metrics200(snapshot, Own);
    }
  }

  function ReadyAnswer(cache: Cache, clock: int, report: nat, ok: bool, ready: bool): (Reply, Cache) {
    var recent, stale := Recent(cache.readiness, clock, FRESH_AGE), Recent(cache.readiness, clock, MAX_STALE_AGE);
    if recent.Some? then (Ready200(recent.value.value, FromCache(recent.value.at, clock, false)), cache)
    else if ok then
      if ready then (Ready200(report, Own), cache.(readiness := Some(Cached(report, clock)))) else (Unavailable, cache)
    else if stale.Some? then (Ready200(stale.value.value, FromCache(stale.value.at, clock, true)), cache)
    else (Unavailable, cache)
  }

  /** With nothing in between a failed collection finds no entry: a stale one has been served already. */
  function MetricsAnswer(cache: Cache, clock: int, snapshot: nat, ok: bool): (Reply, Cache) {
    var recent, stale := Recent(cache.metrics, clock, FRESH_AGE), Recent(cache.metrics, clock, MAX_STALE_AGE);
    if recent.Some? then (Metrics200(recent.value.value, FromCache(recent.value.at, clock, false)), cache)
    else if stale.Some? then
      (Metrics200(stale.value.value, FromCache(stale.value.at, clock, false)), cache.(refreshing := true))
    else if ok then (Metrics200(snapshot, Own), cache.(metrics := Some(Cached(snapshot, clock))))
    else (Unavailable, cache)
  }

  /** The entry was stored at most so many seconds ago. */
  predicate HeldFor(entry: Option<Cached>, clock: int, seconds: int) {
    entry.Some? && 0 <= clock - entry.value.at <= seconds
  }

  /** `/readyz`, case by case: an entry of the last 45 seconds is served without a probe; a probe decides otherwise,
    * and a ready one is stored; a failed probe falls back on an entry of the last 5 minutes. */
  lemma {:induction false} ReadyAnswerExact(cache: Cache, clock: int, report: nat, ok: bool, ready: bool)
    ensures var (reply, after) := ReadyAnswer(cache, clock, report, ok, ready);
            && after == (if reply == Ready200(report, Own) then cache.(readiness := Some(Cached(report, clock))) else cache)
            && (reply == Ready200(report, Own) <==> !HeldFor(cache.readiness, clock, 45) && ok && ready)
            && (HeldFor(cache.readiness, clock, 45) ==>
                  reply == Ready200(cache.readiness.value.value, FromCache(cache.readiness.value.at, clock, false)))
            && (HeldFor(cache.readiness, clock, 300) && !HeldFor(cache.readiness, clock, 45) && !ok ==>
                  reply == Ready200(cache.readiness.value.value, FromCache(cache.readiness.value.at, clock, true)))
            && (reply == Unavailable <==> if ok then !ready && !HeldFor(cache.readiness, clock, 45)
                                          else !HeldFor(cache.readiness, clock, 300))
  {
  }

  /** `/metrics`, case by case: an entry of the last 5 minutes is served without collecting, and starts a refresh if
    * it is older than 45 seconds; otherwise the collection decides, and is stored. */
  lemma {:induction false} MetricsAnswerExact(cache: Cache, clock: int, snapshot: nat, ok: bool)
    ensures var (reply, after) := MetricsAnswer(cache, clock, snapshot, ok);
            if HeldFor(cache.metrics, clock, 300) then
              && reply == Metrics200(cache.metrics.value.value, FromCache(cache.metrics.value.at, clock, false))
              && after == (if HeldFor(cache.metrics, clock, 45) then cache else cache.(refreshing := true))
            else if ok then reply == Metrics200(snapshot, Own) && after == cache.(metrics := Some(Cached(snapshot, clock)))
            else reply == Unavailable && after == cache
  {
  }

  // ---------------------------------------------------------------- the interleaved system

  type Id = nat

  /** Why an answer may be given: the request's own probe, or an entry stored at `at` and found
      with the clock reading `now`, possibly only after the request's own probe failed. */
  datatype Basis = Own | FromCache(at: int, now: int, probeFailed: bool)

  datatype Reply = Ready200(report: nat, basis: Basis) | Metrics200(snapshot: nat, basis: Basis) | Unavailable

  /** Where a request handler is. */
  datatype Pc =
    | ReadyStart | ReadyLookup(now: int) | ReadyProbe
    | ReadyFailed | ReadyFallback(now: int)
    | ReadyGot(report: nat) | ReadyStore(report: nat, now: int)
    | MetricsStart | MetricsFresh(now: int) | MetricsNotFresh | MetricsStale(now: int)
    | MetricsServeStale(snapshot: nat, basis: Basis)
    | MetricsCollect | MetricsFailed | MetricsFallback(now: int)
    | MetricsGot(snapshot: nat) | MetricsStore(snapshot: nat, now: int)
    | Replied(reply: Reply)

  /** Where a background refresh is. */
  datatype Refresh = Collecting(started: int) | Collected(snapshot: nat) | Storing(snapshot: nat, now: int) | Ending

  datatype Probe = Probe(owner: Id, ready: bool)

  /** The time, and every readiness probe and metrics collection ever made: a report or snapshot
      is identified by its place in `probes` or `collected`. */
  datatype Log = Log(
    clock: int, probes: seq<Probe>, collected: seq<Id>,
    readyStored: set<Cached>, metricsStored: set<Cached>,   // every entry ever stored
    failed: set<Id>,                                        // requests whose own probe or collection failed
    arrived: map<Id, int>)                                  // when each request came in

  datatype State = State(log: Log, cache: Cache, requests: map<Id, Pc>, refreshes: map<Id, Refresh>)

  datatype Step =
    | Tick(seconds: nat)
    | ArriveReady(id: Id) | ArriveMetrics(id: Id)
    | Go(id: Id, ok: bool, ready: bool)   // one step of a request; its probe succeeds or finds ready
    | Background(id: Id, ok: bool)        // one step of a refresh

  function Goto(s: State, id: Id, pc: Pc): State { s.(requests := s.requests[id := pc]) }

  function Send(s: State, id: Id, reply: Reply): State { Goto(s, id, Replied(reply)) }

  function GoReady(s: State, id: Id, pc: Pc, ok: bool, ready: bool): State {
    match pc
    case ReadyStart => Goto(s, id, ReadyLookup(s.log.clock))
    case ReadyLookup(now) =>
      var hit := Recent(s.cache.readiness, now, FRESH_AGE);
      if hit.Some? then Send(s, id, Ready200(hit.value.value, FromCache(hit.value.at, now, false)))
      else Goto(s, id, ReadyProbe)
    case ReadyProbe =>
      if !ok then Goto(s, id, ReadyFailed).(log := s.log.(failed := s.log.failed + {id}))
      else Goto(s, id, ReadyGot(|s.log.probes|)).(log := s.log.(probes := s.log.probes + [Probe(id, ready)]))
    case ReadyFailed => Goto(s, id, ReadyFallback(s.log.clock))
    case ReadyFallback(now) =>
      var hit := Recent(s.cache.readiness, now, MAX_STALE_AGE);
      if hit.Some? then Send(s, id, Ready200(hit.value.value, FromCache(hit.value.at, now, true)))
      else Send(s, id, Unavailable)
    case ReadyGot(report) => Goto(s, id, ReadyStore(report, s.log.clock))
    case ReadyStore(report, now) =>
      if report < |s.log.probes| && s.log.probes[report].ready then
        Send(s, id, Ready200(report, Own)).(
          cache := s.cache.(readiness := Some(Cached(report, now))),
          log := s.log.(readyStored := s.log.readyStored + {Cached(report, now)}))
      else Send(s, id, Unavailable)
    case _ => s
  }

  function GoMetrics(s: State, id: Id, pc: Pc, ok: bool): State {
    match pc
    case MetricsStart => Goto(s, id, MetricsFresh(s.log.clock))
    case MetricsFresh(now) =>
      var hit := Recent(s.cache.metrics, now, FRESH_AGE);
      if hit.Some? then Send(s, id, Metrics200(hit.value.value, FromCache(hit.value.at, now, false)))
      else Goto(s, id, MetricsNotFresh)
    case MetricsNotFresh => Goto(s, id, MetricsStale(s.log.clock))
    case MetricsStale(now) =>
      var hit := Recent(s.cache.metrics, now, MAX_STALE_AGE);
      if hit.Some? then Goto(s, id, MetricsServeStale(hit.value.value, FromCache(hit.value.at, now, false)))
      else Goto(s, id, MetricsCollect)
    case MetricsServeStale(snapshot, basis) =>
      var t := Send(s, id, Metrics200(snapshot, basis));
      if s.cache.refreshing then t
      else t.(cache := s.cache.(refreshing := true), refreshes := s.refreshes[id := Collecting(s.log.clock)])
    case MetricsCollect =>
      if !ok then Goto(s, id, MetricsFailed).(log := s.log.(failed := s.log.failed + {id}))
      else Goto(s, id, MetricsGot(|s.log.collected|)).(log := s.log.(collected := s.log.collected + [id]))
    case MetricsFailed => Goto(s, id, MetricsFallback(s.log.clock))
    case MetricsFallback(now) =>
      var hit := Recent(s.cache.metrics, now, MAX_STALE_AGE);
      if hit.Some? then Send(s, id, Metrics200(hit.value.value, FromCache(hit.value.at, now, true)))
      else Send(s, id, Unavailable)
    case MetricsGot(snapshot) => Goto(s, id, MetricsStore(snapshot, s.log.clock))
    case MetricsStore(snapshot, now) =>
      Send(s, id, Metrics200(snapshot, Own)).(
        cache := s.cache.(metrics := Some(Cached(snapshot, now))),
        log := s.log.(metricsStored := s.log.metricsStored + {Cached(snapshot, now)}))
    case _ => s
  }

  function GoBackground(s: State, id: Id, r: Refresh, ok: bool): State {
    match r
    case Collecting(_) =>
      if !ok then s.(refreshes := s.refreshes[id := Ending])
      else s.(refreshes := s.refreshes[id := Collected(|s.log.collected|)], log := s.log.(collected := s.log.collected + [id]))
    case Collected(snapshot) => s.(refreshes := s.refreshes[id := Storing(snapshot, s.log.clock)])
    case Storing(snapshot, now) =>
      s.(refreshes := s.refreshes[id := Ending],
         cache := s.cache.(metrics := Some(Cached(snapshot, now))),
         log := s.log.(metricsStored := s.log.metricsStored + {Cached(snapshot, now)}))
    case Ending => s.(refreshes := s.refreshes - {id}, cache := s.cache.(refreshing := false))
  }

  predicate IsReady(pc: Pc) {
    pc.ReadyStart? || pc.ReadyLookup? || pc.ReadyProbe? || pc.ReadyFailed? || pc.ReadyFallback?
    || pc.ReadyGot? || pc.ReadyStore?
  }

  /** A request comes in. */
  function Arrive(s: State, id: Id, pc: Pc): State {
    if id in s.requests then s
    else Goto(s, id, pc).(log := s.log.(arrived := s.log.arrived[id := s.log.clock]))
  }

  function Do(s: State, step: Step): State {
    match step
    case Tick(seconds) => s.(log := s.log.(clock := s.log.clock + seconds))
    case ArriveReady(id) => Arrive(s, id, ReadyStart)
    case ArriveMetrics(id) => Arrive(s, id, MetricsStart)
    case Go(id, ok, ready) =>
      if id !in s.requests then s
      else if IsReady(s.requests[id]) then GoReady(s, id, s.requests[id], ok, ready)
      else GoMetrics(s, id, s.requests[id], ok)
    case Background(id, ok) =>
      if id !in s.refreshes then s else GoBackground(s, id, s.refreshes[id], ok)
  }

  /** Each kind of request begins at its own start, and time passes as it will. */
  lemma {:induction false} ArrivalStarts(s: State, id: Id, seconds: nat)
    ensures id !in s.requests ==> Do(s, ArriveReady(id)).requests == s.requests[id := ReadyStart]
    ensures id !in s.requests ==> Do(s, ArriveMetrics(id)).requests == s.requests[id := MetricsStart]
    ensures Do(s, Tick(seconds)).log.clock == s.log.clock + seconds
  {
  }

  function Init(clock: int): State { State(Log(clock, [], [], {}, {}, {}, map[]), Cache(None, None, false), map[], map[]) }

  function Exec(s: State, steps: seq<Step>): State {
    if steps == [] then s else Do(Exec(s, steps[..|steps| - 1]), steps[|steps| - 1])
  }

  /** A refresh left alone: it stores what it collected, or nothing if that failed, and lets the next one begin. */
  lemma {:induction false} RefreshEnds(s: State, id: Id, ok: bool)
    requires id in s.refreshes && s.refreshes[id].Collecting?
    ensures var go := Background(id, ok);
            var t := Do(Do(Do(Do(s, go), go), go), go);
            && t.refreshes == s.refreshes - {id} && t.requests == s.requests
            && t.cache == Cache(s.cache.readiness,
                 if ok then Some(Cached(|s.log.collected|, s.log.clock)) else s.cache.metrics, false)
  {
    var go := Background(id, ok);
    var s1 := Do(s, go);
    if ok {
      assert s1.refreshes == s.refreshes[id := Collected(|s.log.collected|)];
      var s2 := Do(s1, go);
      assert s2.refreshes == s.refreshes[id := Storing(|s.log.collected|, s.log.clock)];
      var s3 := Do(s2, go);
      assert s3.refreshes == s.refreshes[id := Ending];
      assert s.refreshes[id := Ending] - {id} == s.refreshes - {id};
    } else {
      assert s1.refreshes == s.refreshes[id := Ending];
      assert s.refreshes[id := Ending] - {id} == s.refreshes - {id};
    }
  }

  /** The request has not yet found or made a snapshot. */
  predicate Looking(pc: Pc) {
    pc.MetricsStart? || pc.MetricsFresh? || pc.MetricsNotFresh? || pc.MetricsStale? || pc.MetricsCollect?
    || pc.MetricsFailed? || pc.MetricsFallback?
  }

  /** Steps that a request has still to make, at most. */
  function StepsLeft(pc: Pc): nat {
    match pc
    case ReadyStart => 5
    case ReadyLookup(_) => 4
    case ReadyProbe => 3
    case ReadyFailed => 2
    case ReadyFallback(_) => 1
    case ReadyGot(_) => 2
    case ReadyStore(_, _) => 1
    case MetricsStart => 8
    case MetricsFresh(_) => 7
    case MetricsNotFresh => 6
    case MetricsStale(_) => 5
    case MetricsServeStale(_, _) => 1
    case MetricsCollect => 4
    case MetricsFailed => 2
    case MetricsFallback(_) => 1
    case MetricsGot(_) => 2
    case MetricsStore(_, _) => 1
    case Replied(_) => 0
  }

  /** A request handled to its reply with nothing in between. */
  function Handled(s: State, id: Id, ok: bool, ready: bool): (t: State)
    requires id in s.requests
    ensures id in t.requests
    decreases StepsLeft(s.requests[id])
  {
    if s.requests[id].Replied? then s else Handled(Do(s, Go(id, ok, ready)), id, ok, ready)
  }

  /** The request comes to this cache at this time. */
  predicate Starts(s: State, id: Id, pc: Pc, cache: Cache, clock: int) {
    id in s.requests && s.requests[id] == pc && s.cache == cache && s.log.clock == clock
  }

  predicate Gives(t: State, id: Id, answer: (Reply, Cache)) {
    id in t.requests && t.requests[id] == Replied(answer.0) && t.cache == answer.1
  }

  lemma {:induction false} HandledStep(s: State, id: Id, ok: bool, ready: bool)
    requires id in s.requests && !s.requests[id].Replied?
    ensures Handled(s, id, ok, ready) == Handled(Do(s, Go(id, ok, ready)), id, ok, ready)
  {
  }

  lemma {:induction false} HandledProbe(s: State, id: Id, ok: bool, ready: bool)
    requires id in s.requests && s.requests[id] == ReadyProbe && Recent(s.cache.readiness, s.log.clock, FRESH_AGE).None?
    ensures Gives(Handled(s, id, ok, ready), id, ReadyAnswer(s.cache, s.log.clock, |s.log.probes|, ok, ready))
  {
    var go := Go(id, ok, ready);
    var s1 := Do(s, go);
    var s2 := Do(s1, go);
    HandledStep(s, id, ok, ready);
    HandledStep(s1, id, ok, ready);
    HandledStep(s2, id, ok, ready);
  }

  /** The /readyz handler of the class is the request's steps, carried through. */
  lemma {:induction false} ReadinessHandled(s: State, id: Id, ok: bool, ready: bool)
    requires id in s.requests && s.requests[id] == ReadyStart
    ensures Gives(Handled(s, id, ok, ready), id, ReadyAnswer(s.cache, s.log.clock, |s.log.probes|, ok, ready))
  {
    var go := Go(id, ok, ready);
    var s1 := Do(s, go);
    var s2 := Do(s1, go);
    assert s1 == Goto(s, id, ReadyLookup(s.log.clock));
    HandledStep(s, id, ok, ready);
    HandledStep(s1, id, ok, ready);
    hide Handled;
    if s2.requests[id].ReadyProbe? {
      assert s2 == Goto(s1, id, ReadyProbe);
      HandledProbe(s2, id, ok, ready);
    } else {
      AlreadyHandled(s2, id, ok, ready);
    }
  }

  lemma {:induction false} AlreadyHandled(s: State, id: Id, ok: bool, ready: bool)
    requires id in s.requests && s.requests[id].Replied?
    ensures Handled(s, id, ok, ready) == s
  {
  }

  lemma {:induction false} HandledCollect(s: State, id: Id, ok: bool)
    requires id in s.requests && s.requests[id] == MetricsCollect
    requires Recent(s.cache.metrics, s.log.clock, MAX_STALE_AGE).None?
    ensures Gives(Handled(s, id, ok, true), id, MetricsAnswer(s.cache, s.log.clock, |s.log.collected|, ok))
  {
    var go := Go(id, ok, true);
    var s1 := Do(s, go);
    assert s1.cache == s.cache && s1.log.clock == s.log.clock && id in s1.requests
        && s1.requests[id] == if ok then MetricsGot(|s.log.collected|) else MetricsFailed;
    HandledStep(s, id, ok, true);
    HandledCollected(s1, id, ok, |s.log.collected|);
  }

  lemma {:induction false} HandledCollected(s: State, id: Id, ok: bool, snapshot: nat)
    requires id in s.requests && s.requests[id] == (if ok then MetricsGot(snapshot) else MetricsFailed)
    requires Recent(s.cache.metrics, s.log.clock, MAX_STALE_AGE).None?
    ensures Gives(Handled(s, id, ok, true), id, MetricsAnswer(s.cache, s.log.clock, snapshot, ok))
  {
    var go := Go(id, ok, true);
    var s1 := Do(s, go);
    assert s1 == Goto(s, id, if ok then MetricsStore(snapshot, s.log.clock) else MetricsFallback(s.log.clock));
    HandledStep(s, id, ok, true);
    HandledStep(s1, id, ok, true);
    AlreadyHandled(Do(s1, go), id, ok, true);
    hide Handled;
  }

  lemma {:induction false} HandledNotFresh(s: State, id: Id, ok: bool)
    requires id in s.requests && s.requests[id] == MetricsNotFresh
    requires Recent(s.cache.metrics, s.log.clock, FRESH_AGE).None?
    ensures Gives(Handled(s, id, ok, true), id, MetricsAnswer(s.cache, s.log.clock, |s.log.collected|, ok))
  {
    var go := Go(id, ok, true);
    var s1 := Do(s, go);
    var s2 := Do(s1, go);
    assert s1 == Goto(s, id, MetricsStale(s.log.clock));
    HandledStep(s, id, ok, true);
    HandledStep(s1, id, ok, true);
    hide Handled;
    if s2.requests[id].MetricsCollect? {
      assert s2 == Goto(s1, id, MetricsCollect);
      HandledCollect(s2, id, ok);
    } else {
      HandledStep(s2, id, ok, true);
      AlreadyHandled(Do(s2, go), id, ok, true);
    }
  }

  /** The /metrics handler of the class is the request's steps, carried through. */
  lemma {:induction false} MetricsHandled(s: State, id: Id, ok: bool)
    requires id in s.requests && s.requests[id] == MetricsStart
    ensures Gives(Handled(s, id, ok, true), id, MetricsAnswer(s.cache, s.log.clock, |s.log.collected|, ok))
  {
    var go := Go(id, ok, true);
    var s1 := Do(s, go);
    var s2 := Do(s1, go);
    assert s1 == Goto(s, id, MetricsFresh(s.log.clock));
    HandledStep(s, id, ok, true);
    HandledStep(s1, id, ok, true);
    hide Handled;
    if s2.requests[id].MetricsNotFresh? {
      assert s2 == Goto(s1, id, MetricsNotFresh);
      HandledNotFresh(s2, id, ok);
    } else {
      AlreadyHandled(s2, id, ok, true);
    }
  }

  // ---------------------------------------------------------------- what every step keeps

  /** A clock reading that the request made while it was handled. */
  predicate ReadBy(log: Log, id: Id, now: int) {
    id in log.arrived && log.arrived[id] <= now <= log.clock
  }

  /** The answer was stored at the time it says, found by the request itself, young enough, and if it
      stands in for a failed call, that call was this request's own. */
  predicate BasisOk(log: Log, id: Id, stored: set<Cached>, value: nat, basis: Basis, freshAge: int) {
    basis.FromCache? ==>
      && Cached(value, basis.at) in stored && ReadBy(log, id, basis.now)
      && RecentHit(basis.now, basis.at, if basis.probeFailed then MAX_STALE_AGE else freshAge)
      && (basis.probeFailed ==> id in log.failed)
  }

  predicate ReplyOk(log: Log, id: Id, reply: Reply) {
    match reply
    case Ready200(report, basis) =>
      && report < |log.probes| && log.probes[report].ready
      && (basis.Own? ==> log.probes[report].owner == id)
      && BasisOk(log, id, log.readyStored, report, basis, FRESH_AGE)
    case Metrics200(snapshot, basis) =>
      && snapshot < |log.collected| && (basis.Own? ==> log.collected[snapshot] == id)
      && BasisOk(log, id, log.metricsStored, snapshot, basis, MAX_STALE_AGE)
    case Unavailable => true
  }

  predicate PcOk(log: Log, id: Id, pc: Pc) {
    id in log.arrived && log.arrived[id] <= log.clock &&
    match pc
    case ReadyLookup(now) => ReadBy(log, id, now)
    case ReadyFailed => id in log.failed
    case ReadyFallback(now) => ReadBy(log, id, now) && id in log.failed
    case ReadyGot(report) => report < |log.probes| && log.probes[report].owner == id
    case ReadyStore(report, now) => report < |log.probes| && log.probes[report].owner == id && now <= log.clock
    case MetricsFresh(now) => ReadBy(log, id, now)
    case MetricsStale(now) => ReadBy(log, id, now)
    case MetricsServeStale(snapshot, basis) =>
      snapshot < |log.collected| && basis.FromCache? && !basis.probeFailed
      && BasisOk(log, id, log.metricsStored, snapshot, basis, MAX_STALE_AGE)
    case MetricsFailed => id in log.failed
    case MetricsFallback(now) => ReadBy(log, id, now) && id in log.failed
    case MetricsGot(snapshot) => snapshot < |log.collected| && log.collected[snapshot] == id
    case MetricsStore(snapshot, now) => snapshot < |log.collected| && log.collected[snapshot] == id && now <= log.clock
    case Replied(reply) => ReplyOk(log, id, reply)
    case _ => true
  }

  predicate RefreshOk(log: Log, r: Refresh) {
    match r
    case Collected(snapshot) => snapshot < |log.collected|
    case Storing(snapshot, now) => snapshot < |log.collected| && now <= log.clock
    case _ => true
  }

  predicate CacheOk(log: Log, cache: Cache) {
    && (cache.readiness.Some? ==>
          var c := cache.readiness.value; c.value < |log.probes| && log.probes[c.value].ready && c.at <= log.clock && c in log.readyStored)
    && (cache.metrics.Some? ==>
          var c := cache.metrics.value; c.value < |log.collected| && c.at <= log.clock && c in log.metricsStored)
  }

  /** One refresh at most, and the flag is up exactly while there is one. */
  predicate SingleFlight(cache: Cache, refreshes: map<Id, Refresh>) {
    && (cache.refreshing <==> refreshes.Keys != {})
    && (forall a, b | a in refreshes && b in refreshes :: a == b)
  }

  predicate Inv(s: State) {
    && s.log.arrived.Keys == s.requests.Keys
    && CacheOk(s.log, s.cache) && SingleFlight(s.cache, s.refreshes)
    && (forall id | id in s.requests :: PcOk(s.log, id, s.requests[id]))
    && (forall id | id in s.refreshes :: RefreshOk(s.log, s.refreshes[id]))
  }

  /** Time passes and more is recorded; nothing established before is undone by that. */
  predicate Later(a: Log, b: Log) {
    && a.clock <= b.clock && a.probes <= b.probes && a.collected <= b.collected
    && a.readyStored <= b.readyStored && a.metricsStored <= b.metricsStored && a.failed <= b.failed
    && forall id | id in a.arrived :: id in b.arrived && b.arrived[id] == a.arrived[id]
  }

  lemma {:induction false} LaterKeeps(a: Log, b: Log, cache: Cache, id: Id, pc: Pc, r: Refresh)
    requires Later(a, b)
    ensures PcOk(a, id, pc) ==> PcOk(b, id, pc)
    ensures RefreshOk(a, r) ==> RefreshOk(b, r)
    ensures CacheOk(a, cache) ==> CacheOk(b, cache)
  {
  }

  /** It is enough to look at the request or refresh that moved, and at the cache. */
  lemma {:induction false} Framed(s: State, t: State, id: Id)
    requires Inv(s) && Later(s.log, t.log)
    requires CacheOk(t.log, t.cache) && SingleFlight(t.cache, t.refreshes) && t.log.arrived.Keys == t.requests.Keys
    requires id in t.requests ==> PcOk(t.log, id, t.requests[id])
    requires forall d | d in t.requests && d != id :: d in s.requests && t.requests[d] == s.requests[d]
    requires forall d | d in t.refreshes ::
               RefreshOk(t.log, t.refreshes[d]) || (d in s.refreshes && t.refreshes[d] == s.refreshes[d])
    ensures Inv(t)
  {
    hide PcOk, RefreshOk, CacheOk, SingleFlight;
    forall d | d in t.requests
      ensures PcOk(t.log, d, t.requests[d])
    {
      if d != id {
        LaterKeeps(s.log, t.log, s.cache, d, s.requests[d], Ending);
      }
    }
    forall d | d in t.refreshes
      ensures RefreshOk(t.log, t.refreshes[d])
    {
      LaterKeeps(s.log, t.log, s.cache, 0, ReadyStart, t.refreshes[d]);
    }
  }

  /** Only request `id` has moved, and it and the cache are in order. */
  predicate Moved(s: State, t: State, id: Id) {
    && Later(s.log, t.log) && t.requests.Keys == s.requests.Keys
    && (forall d | d in t.requests && d != id :: t.requests[d] == s.requests[d])
    && id in t.requests && PcOk(t.log, id, t.requests[id]) && CacheOk(t.log, t.cache)
  }

  lemma {:induction false} GotoMoves(s: State, id: Id, pc: Pc, log: Log, cache: Cache)
    requires id in s.requests && Later(s.log, log) && PcOk(log, id, pc) && CacheOk(log, cache)
    ensures Moved(s, Goto(s, id, pc).(log := log, cache := cache), id)
  {
    hide PcOk, CacheOk;
  }

  lemma {:induction false} GoReadyCache(s: State, id: Id, ok: bool, ready: bool)
    requires id in s.requests && PcOk(s.log, id, s.requests[id]) && CacheOk(s.log, s.cache)
    ensures var t := GoReady(s, id, s.requests[id], ok, ready);
            Later(s.log, t.log) && CacheOk(t.log, t.cache)
  {
  }

  predicate Answers(pc: Pc) { pc.ReadyLookup? || pc.ReadyFallback? || pc.ReadyStore? }

  lemma {:induction false} GoReadyAnswer(s: State, id: Id, ok: bool, ready: bool)
    requires id in s.requests && PcOk(s.log, id, s.requests[id]) && CacheOk(s.log, s.cache) && Answers(s.requests[id])
    ensures var t := GoReady(s, id, s.requests[id], ok, ready);
            id in t.requests && PcOk(t.log, id, t.requests[id])
  {
  }

  lemma {:induction false} GoReadyOn(s: State, id: Id, ok: bool, ready: bool)
    requires id in s.requests && PcOk(s.log, id, s.requests[id]) && !Answers(s.requests[id])
    ensures var t := GoReady(s, id, s.requests[id], ok, ready);
            id in t.requests && PcOk(t.log, id, t.requests[id])
  {
    hide ReplyOk;
    assert s.requests[id].Replied? ==> GoReady(s, id, s.requests[id], ok, ready) == s;
  }

  lemma {:induction false} GoReadyPc(s: State, id: Id, ok: bool, ready: bool)
    requires id in s.requests && PcOk(s.log, id, s.requests[id]) && CacheOk(s.log, s.cache)
    ensures var t := GoReady(s, id, s.requests[id], ok, ready);
            id in t.requests && PcOk(t.log, id, t.requests[id])
  {
    hide PcOk, CacheOk, GoReady, Answers;
    if Answers(s.requests[id]) { GoReadyAnswer(s, id, ok, ready); } else { GoReadyOn(s, id, ok, ready); }
  }

  lemma {:induction false} GoReadyMoves(s: State, id: Id, ok: bool, ready: bool)
    requires id in s.requests && PcOk(s.log, id, s.requests[id]) && CacheOk(s.log, s.cache)
    ensures Moved(s, GoReady(s, id, s.requests[id], ok, ready), id)
  {
    var t := GoReady(s, id, s.requests[id], ok, ready);
    GoReadyCache(s, id, ok, ready);
    GoReadyPc(s, id, ok, ready);
    assert t == Goto(s, id, t.requests[id]).(log := t.log, cache := t.cache);
    hide Moved, GoReady, PcOk, CacheOk;
    GotoMoves(s, id, t.requests[id], t.log, t.cache);
  }

  lemma {:induction false} GoReadyKeeps(s: State, id: Id, ok: bool, ready: bool)
    requires Inv(s) && id in s.requests
    ensures Inv(GoReady(s, id, s.requests[id], ok, ready))
  {
    GoReadyMoves(s, id, ok, ready);
    var t := GoReady(s, id, s.requests[id], ok, ready);
    assert t.cache.refreshing == s.cache.refreshing && t.refreshes == s.refreshes;
    hide GoReady, PcOk, CacheOk;
    Framed(s, t, id);
  }

  lemma {:induction false} GoMetricsMoves(s: State, id: Id, ok: bool)
    requires id in s.requests && PcOk(s.log, id, s.requests[id]) && CacheOk(s.log, s.cache)
    ensures var t := GoMetrics(s, id, s.requests[id], ok);
            Moved(s, t.(refreshes := s.refreshes), id)
  {
    var t := GoMetrics(s, id, s.requests[id], ok);
    GoMetricsCache(s, id, ok);
    GoMetricsPc(s, id, ok);
    assert t.(refreshes := s.refreshes) == Goto(s, id, t.requests[id]).(log := t.log, cache := t.cache);
    hide Moved, GoMetrics, PcOk, CacheOk;
    GotoMoves(s, id, t.requests[id], t.log, t.cache);
  }

  lemma {:induction false} GoMetricsCache(s: State, id: Id, ok: bool)
    requires id in s.requests && PcOk(s.log, id, s.requests[id]) && CacheOk(s.log, s.cache)
    ensures var t := GoMetrics(s, id, s.requests[id], ok);
            Later(s.log, t.log) && CacheOk(t.log, t.cache)
  {
  }

  lemma {:induction false} GoMetricsPcEarly(s: State, id: Id, ok: bool)
    requires id in s.requests && PcOk(s.log, id, s.requests[id]) && CacheOk(s.log, s.cache) && Looking(s.requests[id])
    ensures var t := GoMetrics(s, id, s.requests[id], ok);
            id in t.requests && PcOk(t.log, id, t.requests[id])
  {
  }

  lemma {:induction false} GoMetricsPcLate(s: State, id: Id, ok: bool)
    requires id in s.requests && PcOk(s.log, id, s.requests[id]) && CacheOk(s.log, s.cache) && !Looking(s.requests[id])
    ensures var t := GoMetrics(s, id, s.requests[id], ok);
            id in t.requests && PcOk(t.log, id, t.requests[id])
  {
  }

  lemma {:induction false} GoMetricsPc(s: State, id: Id, ok: bool)
    requires id in s.requests && PcOk(s.log, id, s.requests[id]) && CacheOk(s.log, s.cache)
    ensures var t := GoMetrics(s, id, s.requests[id], ok);
            id in t.requests && PcOk(t.log, id, t.requests[id])
  {
    hide PcOk, CacheOk, GoMetrics, Looking;
    if Looking(s.requests[id]) { GoMetricsPcEarly(s, id, ok); } else { GoMetricsPcLate(s, id, ok); }
  }

  lemma {:induction false} GoMetricsFlight(s: State, id: Id, ok: bool)
    requires id in s.requests && SingleFlight(s.cache, s.refreshes)
    ensures var t := GoMetrics(s, id, s.requests[id], ok);
      && SingleFlight(t.cache, t.refreshes)
      && (forall d | d in t.refreshes :: t.refreshes[d].Collecting? || (d in s.refreshes && t.refreshes[d] == s.refreshes[d]))
  {
    var pc := s.requests[id];
    var t := GoMetrics(s, id, pc, ok);
    if pc.MetricsServeStale? && !s.cache.refreshing {
      assert t.refreshes.Keys == {id};
    } else {
      assert t.refreshes == s.refreshes && t.cache.refreshing == s.cache.refreshing;
    }
  }

  lemma {:induction false} GoMetricsKeeps(s: State, id: Id, ok: bool)
    requires Inv(s) && id in s.requests
    ensures Inv(GoMetrics(s, id, s.requests[id], ok))
  {
    GoMetricsMoves(s, id, ok);
    GoMetricsFlight(s, id, ok);
    var t := GoMetrics(s, id, s.requests[id], ok);
    hide GoMetrics, PcOk, CacheOk, SingleFlight;
    Framed(s, t, id);
  }

  lemma {:induction false} BackgroundKeeps(s: State, id: Id, ok: bool)
    requires Inv(s) && id in s.refreshes
    ensures Inv(GoBackground(s, id, s.refreshes[id], ok))
  {
    var t := GoBackground(s, id, s.refreshes[id], ok);
    assert RefreshOk(s.log, s.refreshes[id]);
    forall d | d in s.requests
      ensures PcOk(t.log, d, s.requests[d])
    {
      LaterKeeps(s.log, t.log, s.cache, d, s.requests[d], Ending);
    }
    Framed(s, t, id);
  }

  lemma {:induction false} StepKeeps(s: State, step: Step)
    requires Inv(s)
    ensures Inv(Do(s, step))
  {
    match step
    case Tick(seconds) =>
      var t := Do(s, step);
      LaterKeeps(s.log, t.log, s.cache, 0, ReadyStart, Ending);
      forall d | d in s.requests
        ensures PcOk(t.log, d, s.requests[d])
      {
        LaterKeeps(s.log, t.log, s.cache, d, s.requests[d], Ending);
      }
      hide PcOk, CacheOk, RefreshOk, SingleFlight;
      Framed(s, t, 0);
    case ArriveReady(id) => Framed(s, Do(s, step), id);
    case ArriveMetrics(id) => Framed(s, Do(s, step), id);
    case Go(id, ok, ready) =>
      if id in s.requests {
        GoReadyKeeps(s, id, ok, ready);
        GoMetricsKeeps(s, id, ok);
        hide Inv, GoReady, GoMetrics;
      }
    case Background(id, ok) =>
      if id in s.refreshes {
        BackgroundKeeps(s, id, ok);
        hide Inv, GoBackground;
      }
  }

  lemma {:induction false} RunsKeep(s: State, steps: seq<Step>)
    requires Inv(s)
    ensures Inv(Exec(s, steps))
  {
    if steps != [] {
      RunsKeep(s, steps[..|steps| - 1]);
      StepKeeps(Exec(s, steps[..|steps| - 1]), steps[|steps| - 1]);
      hide Inv, Do;
    }
  }

  // ---------------------------------------------------------------- the results over every run

  /** At most one background refresh is ever in flight, and the flag is up exactly meanwhile. */
  lemma {:induction false} SingleFlightAlways(clock: int, steps: seq<Step>)
    ensures var s := Exec(Init(clock), steps); SingleFlight(s.cache, s.refreshes)
  {
    RunsKeep(Init(clock), steps);
    hide Exec, SingleFlight;
  }

  /** Every /readyz 200 rests on a probe that found the system ready: this request's own; or one stored
      at most 45 s before the request, while it was handled, looked; or at most 5 min before, and then
      this request's own probe had failed. */
  lemma {:induction false} Ready200Justified(clock: int, steps: seq<Step>, id: Id, report: nat, basis: Basis)
    requires var s := Exec(Init(clock), steps);
             id in s.requests && s.requests[id] == Replied(Ready200(report, basis))
    ensures var log := Exec(Init(clock), steps).log;
      && report < |log.probes| && log.probes[report].ready
      && (match basis
          case Own => log.probes[report].owner == id
          case FromCache(at, now, failed) =>
            && Cached(report, at) in log.readyStored
            && id in log.arrived && log.arrived[id] <= now <= log.clock
            && at <= now <= at + (if failed then 300 else 45)
            && (failed ==> id in log.failed))
  {
    RunsKeep(Init(clock), steps);
    var s := Exec(Init(clock), steps);
    assert PcOk(s.log, id, s.requests[id]);
    hide Exec;
  }

  /** Every /metrics body was collected by this request, or stored at most 5 min before it looked. */
  lemma {:induction false} Metrics200Justified(clock: int, steps: seq<Step>, id: Id, snapshot: nat, basis: Basis)
    requires var s := Exec(Init(clock), steps);
             id in s.requests && s.requests[id] == Replied(Metrics200(snapshot, basis))
    ensures var log := Exec(Init(clock), steps).log;
      && snapshot < |log.collected|
      && (match basis
          case Own => log.collected[snapshot] == id
          case FromCache(at, now, failed) =>
            && Cached(snapshot, at) in log.metricsStored
            && id in log.arrived && log.arrived[id] <= now <= log.clock
            && at <= now <= at + 300
            && (failed ==> id in log.failed))
  {
    RunsKeep(Init(clock), steps);
    var s := Exec(Init(clock), steps);
    assert PcOk(s.log, id, s.requests[id]);
    hide Exec;
  }

  // ---------------------------------------------------------------- the second metrics fallback

  /** Requests one at a time: while `id` is handled no other request moves; time passes and a
      background refresh may go on. */
  predicate SequentialStep(step: Step, id: Id) {
    step.Tick? || step.Background? || (step.Go? && step.id == id)
  }

  /** A refresh's collection succeeds only within the refresh's time limit.  (A request's own limit only
      makes its collection fail, and that may happen here at any time.) */
  predicate Timely(s: State, step: Step) {
    step.Background? && step.ok && step.id in s.refreshes && s.refreshes[step.id].Collecting?
    ==> s.log.clock <= s.refreshes[step.id].started + REFRESH_TIMEOUT
  }

  predicate Sequential(s: State, steps: seq<Step>, id: Id) {
    if steps == [] then true
    else
      var before, step := steps[..|steps| - 1], steps[|steps| - 1];
      Sequential(s, before, id) && SequentialStep(step, id) && Timely(Exec(s, before), step)
  }

  /** A /metrics body taken from the cache after this request's own collection failed. */
  predicate TookFallback(pc: Pc) {
    pc.Replied? && pc.reply.Metrics200? && pc.reply.basis.FromCache? && pc.reply.basis.probeFailed
  }

  /** A refresh that can still store an entry the request would accept although it found the present
      one too old. */
  predicate Helpful(r: Refresh, metrics: Option<Cached>, clock: int) {
    match r
    case Collecting(started) => clock <= started + REFRESH_TIMEOUT
    case Collected(_) => true
    case Storing(_, at) => clock <= at + MAX_STALE_AGE && (metrics.Some? ==> metrics.value.at < at)
    case Ending => false
  }

  predicate HelpPending(s: State) {
    exists b | b in s.refreshes :: Helpful(s.refreshes[b], s.cache.metrics, s.log.clock)
  }

  /** The time that the request last read and will still act on, or the present. */
  function ActsOn(pc: Pc, clock: int): int {
    match pc
    case MetricsFresh(now) => now
    case MetricsStale(now) => now
    case MetricsFallback(now) => now
    case _ => clock
  }

  /** While no help can come, an entry that was found too old stays too old. */
  predicate AloneAt(clock: int, metrics: Option<Cached>, pc: Pc) {
    match pc
    case MetricsFresh(now) => now <= clock && (metrics.Some? ==> metrics.value.at <= now)
    case MetricsStale(now) => now <= clock && (metrics.Some? ==> metrics.value.at <= now)
    case MetricsCollect => metrics.Some? ==> metrics.value.at + MAX_STALE_AGE < clock
    case MetricsFailed => metrics.Some? ==> metrics.value.at + MAX_STALE_AGE < clock
    case MetricsFallback(now) => now <= clock && (metrics.Some? ==> metrics.value.at + MAX_STALE_AGE < now)
    case Replied(_) => !TookFallback(pc)
    case _ => true
  }

  predicate Alone(s: State, id: Id) {
    && id in s.requests
    && AloneAt(s.log.clock, s.cache.metrics, s.requests[id])
    && !IsReady(s.requests[id])
    && (Looking(s.requests[id]) ==>
          forall b | b in s.refreshes ::
            !Helpful(s.refreshes[b], s.cache.metrics, ActsOn(s.requests[id], s.log.clock)))
  }

  lemma {:induction false} AloneTicks(s: State, id: Id, seconds: nat)
    requires Inv(s) && Alone(s, id)
    ensures Alone(Do(s, Tick(seconds)), id)
  {
    hide Inv, PcOk, CacheOk;
  }

  predicate HasRead(pc: Pc) { pc.MetricsFresh? || pc.MetricsStale? || pc.MetricsFallback? }

  lemma {:induction false} AloneActs(s: State, id: Id, ok: bool)
    requires id in s.requests && Alone(s, id) && HasRead(s.requests[id]) && CacheOk(s.log, s.cache)
    ensures Alone(GoMetrics(s, id, s.requests[id], ok), id)
  {
  }

  lemma {:induction false} AloneMoves(s: State, id: Id, ok: bool)
    requires id in s.requests && Alone(s, id) && !HasRead(s.requests[id]) && CacheOk(s.log, s.cache)
    requires PcOk(s.log, id, s.requests[id])
    ensures Alone(GoMetrics(s, id, s.requests[id], ok), id)
  {
  }

  lemma {:induction false} AloneGoes(s: State, id: Id, ok: bool, ready: bool)
    requires Inv(s) && Alone(s, id)
    ensures Alone(Do(s, Go(id, ok, ready)), id)
  {
    assert PcOk(s.log, id, s.requests[id]) && CacheOk(s.log, s.cache) && !IsReady(s.requests[id]);
    hide Inv, PcOk, CacheOk, Alone, HasRead, GoMetrics;
    if HasRead(s.requests[id]) { AloneActs(s, id, ok); } else { AloneMoves(s, id, ok); }
  }

  lemma {:induction false} AloneBackground(s: State, id: Id, b: Id, ok: bool)
    requires Inv(s) && Alone(s, id) && Timely(s, Background(b, ok))
    ensures Alone(Do(s, Background(b, ok)), id)
  {
    if b in s.refreshes {
      assert RefreshOk(s.log, s.refreshes[b]) && SingleFlight(s.cache, s.refreshes);
      hide Inv, PcOk, CacheOk;
    }
  }

  lemma {:induction false} AloneStays(s: State, id: Id, step: Step)
    requires Inv(s) && Alone(s, id) && SequentialStep(step, id) && Timely(s, step)
    ensures Alone(Do(s, step), id)
  {
    hide Inv, Do, Alone, Timely;
    match step
    case Tick(n) => AloneTicks(s, id, n);
    case Go(_, ok, ready) => AloneGoes(s, id, ok, ready);
    case Background(b, ok) => AloneBackground(s, id, b, ok);
    case _ =>
  }

  /** From here on no sequence of steps makes the request take the fallback. */
  lemma {:induction false} NoFallbackAlone(s: State, id: Id, steps: seq<Step>)
    requires Inv(s) && Alone(s, id) && Sequential(s, steps, id)
    ensures Alone(Exec(s, steps), id)
  {
    hide Inv, Do, Alone, Timely, SequentialStep;
    if steps != [] {
      var before, step := steps[..|steps| - 1], steps[|steps| - 1];
      NoFallbackAlone(s, id, before);
      RunsKeep(s, before);
      AloneStays(Exec(s, before), id, step);
    }
  }

  lemma {:induction false} AloneNeverFallsBack(s: State, id: Id)
    requires Alone(s, id)
    ensures id in s.requests && !TookFallback(s.requests[id])
  {
  }

  // With help pending, the fallback can be reached: in three stretches.

  lemma {:induction false} ExecAppend(s: State, a: seq<Step>, b: seq<Step>)
    ensures Exec(s, a + b) == Exec(Exec(s, a), b)
  {
    if b == [] {
      assert a + b == a;
    } else {
      assert (a + b)[..|a + b| - 1] == a + b[..|b| - 1];
      ExecAppend(s, a, b[..|b| - 1]);
    }
  }

  lemma {:induction false} ExecThree(s: State, a: Step, b: Step, c: Step)
    ensures Exec(s, [a]) == Do(s, a) && Exec(s, [a, b]) == Do(Do(s, a), b) && Exec(s, [a, b, c]) == Do(Do(Do(s, a), b), c)
  {
    hide Do;
    ExecSnoc(s, [], a);
    ExecSnoc(s, [a], b);
    ExecSnoc(s, [a, b], c);
    assert [] + [a] == [a] && [a] + [b] == [a, b] && [a, b] + [c] == [a, b, c];
  }

  /** Seconds to wait until the present entry is too old. */
  function UntilTooOld(s: State): nat {
    if s.cache.metrics.Some? && s.cache.metrics.value.at + MAX_STALE_AGE >= s.log.clock
    then s.cache.metrics.value.at + MAX_STALE_AGE + 1 - s.log.clock else 0
  }

  lemma {:induction false} SequentialAppend(s: State, a: seq<Step>, b: seq<Step>, id: Id)
    requires Sequential(s, a, id) && Sequential(Exec(s, a), b, id)
    ensures Sequential(s, a + b, id)
  {
    hide Do, Timely;
    if b == [] {
      assert a + b == a;
    } else {
      var front := b[..|b| - 1];
      assert (a + b)[..|a + b| - 1] == a + front;
      SequentialAppend(s, a, front, id);
      ExecAppend(s, a, front);
    }
  }

  predicate Untimed(step: Step) { !step.Background? }

  lemma {:induction false} SequentialPlain(s: State, steps: seq<Step>, id: Id)
    requires forall i | 0 <= i < |steps| :: SequentialStep(steps[i], id) && Untimed(steps[i])
    ensures Sequential(s, steps, id)
  {
    if steps != [] { SequentialPlain(s, steps[..|steps| - 1], id); }
  }

  lemma {:induction false} SequentialOne(s: State, step: Step, id: Id)
    requires SequentialStep(step, id) && Timely(s, step)
    ensures Sequential(s, [step], id) && Exec(s, [step]) == Do(s, step)
  {
    assert [step][..0] == [] && Exec(s, []) == s && Sequential(s, [], id);
    hide Do, Timely;
  }

  lemma {:induction false} LooksTooOld(t: State, id: Id)
    requires id in t.requests && t.requests[id].MetricsStart?
    requires t.cache.metrics.Some? ==> t.cache.metrics.value.at + MAX_STALE_AGE < t.log.clock
    ensures var go := Go(id, true, true); Four(t, go, go, go, go) == Goto(t, id, MetricsCollect)
  {
    var go := Go(id, true, true);
    assert Do(t, go) == Goto(t, id, MetricsFresh(t.log.clock));
    assert Do(Do(t, go), go) == Goto(t, id, MetricsNotFresh);
    assert Do(Do(Do(t, go), go), go) == Goto(t, id, MetricsStale(t.log.clock));
  }

  /** The request finds the entry too old, after some time. */
  lemma {:induction false} FindsTooOld(s: State, id: Id) returns (steps: seq<Step>)
    requires id in s.requests && s.requests[id].MetricsStart?
    ensures Sequential(s, steps, id)
    ensures Exec(s, steps) == Goto(Do(s, Tick(UntilTooOld(s))), id, MetricsCollect)
  {
    var go, wait := Go(id, true, true), Tick(UntilTooOld(s));
    LooksTooOld(Do(s, wait), id);
    hide Do, Four;
    SequentialOne(s, wait, id);
    ExecFour(s, [wait], go, go, go, go);
    steps := [wait] + [go, go, go, go];
    hide Exec;
    SequentialPlain(s, steps, id);
  }

  /** A refresh that can still collect does so now. */
  lemma {:induction false} RefreshCollectsNow(s: State, id: Id, b: Id) returns (steps: seq<Step>)
    requires Inv(s) && b in s.refreshes && Helpful(s.refreshes[b], s.cache.metrics, s.log.clock)
    ensures Sequential(s, steps, id)
    ensures var t := Exec(s, steps);
            && t.requests == s.requests && t.log.clock == s.log.clock && t.cache == s.cache && t.refreshes.Keys == s.refreshes.Keys
            && (t.refreshes[b].Collected? || (t.refreshes[b].Storing? && t.refreshes[b] == s.refreshes[b]))
  {
    if s.refreshes[b].Collecting? {
      SequentialOne(s, Background(b, true), id);
      steps := [Background(b, true)];
    } else {
      steps := [];
    }
  }

  lemma {:induction false} RefreshStores(s: State, id: Id, b: Id) returns (steps: seq<Step>)
    requires b in s.refreshes && (s.refreshes[b].Collected? || s.refreshes[b].Storing?)
    ensures Sequential(s, steps, id)
    ensures var t := Exec(s, steps);
            && t.requests == s.requests && t.log.clock == s.log.clock && t.cache.metrics.Some?
            && t.cache.metrics.value.at == if s.refreshes[b].Storing? then s.refreshes[b].now else s.log.clock
  {
    var go := Background(b, true);
    SequentialOne(s, go, id);
    if s.refreshes[b].Storing? {
      steps := [go];
    } else {
      SequentialOne(Do(s, go), go, id);
      SequentialAppend(s, [go], [go], id);
      ExecAppend(s, [go], [go]);
      steps := [go] + [go];
    }
  }

  lemma {:induction false} FallsBack(s: State, id: Id) returns (steps: seq<Step>)
    requires id in s.requests && s.requests[id].MetricsCollect?
    requires s.cache.metrics.Some? && RecentHit(s.log.clock, s.cache.metrics.value.at, MAX_STALE_AGE)
    ensures Sequential(s, steps, id)
    ensures id in Exec(s, steps).requests && TookFallback(Exec(s, steps).requests[id])
  {
    var fails, go := Go(id, false, true), Go(id, true, true);
    ExecThree(s, fails, go, go);
    assert Do(s, fails).requests[id] == MetricsFailed && Do(s, fails).cache == s.cache && Do(s, fails).log.clock == s.log.clock;
    assert Do(Do(s, fails), go) == Goto(Do(s, fails), id, MetricsFallback(s.log.clock));
    steps := [fails, go, go];
    hide Exec;
    SequentialPlain(s, steps, id);
  }

  lemma {:induction false} HelpLeadsToFallback(s: State, id: Id) returns (steps: seq<Step>)
    requires Inv(s) && id in s.requests && s.requests[id].MetricsStart? && HelpPending(s)
    ensures Sequential(s, steps, id)
    ensures id in Exec(s, steps).requests && TookFallback(Exec(s, steps).requests[id])
  {
    var b :| b in s.refreshes && Helpful(s.refreshes[b], s.cache.metrics, s.log.clock);
    assert RefreshOk(s.log, s.refreshes[b]);
    var zero := RefreshCollectsNow(s, id, b);
    var r := Exec(s, zero);
    RunsKeep(s, zero);
    var one := FindsTooOld(r, id);
    var t := Exec(r, one);
    var two := RefreshStores(t, id, b);
    var u := Exec(t, two);
    hide Inv, Exec, PcOk, RefreshOk, Sequential;
    var three := FallsBack(u, id);
    ExecAppend(s, zero, one);
    SequentialAppend(s, zero, one, id);
    ExecAppend(s, zero + one, two);
    SequentialAppend(s, zero + one, two, id);
    ExecAppend(s, zero + one + two, three);
    SequentialAppend(s, zero + one + two, three, id);
    steps := zero + one + two + three;
  }

  ghost predicate CanFallBack(s: State, id: Id) {
    exists steps :: Sequential(s, steps, id) && id in Exec(s, steps).requests && TookFallback(Exec(s, steps).requests[id])
  }

  /** With requests one at a time, a request can reach the fallback after a failed collection exactly
      when, at its arrival, a background refresh is under way that has still to store its snapshot
      (or holds one newer than the cached entry and not yet too old). */
  lemma {:induction false} FallbackExactly(s: State, id: Id)
    requires Inv(s) && id in s.requests && s.requests[id].MetricsStart?
    ensures CanFallBack(s, id) <==> HelpPending(s)
  {
    if HelpPending(s) {
      var steps := HelpLeadsToFallback(s, id);
      assert Sequential(s, steps, id);
    } else {
      assert Alone(s, id);
      forall steps | Sequential(s, steps, id)
        ensures id in Exec(s, steps).requests && !TookFallback(Exec(s, steps).requests[id])
      {
        NoFallbackAlone(s, id, steps);
        AloneNeverFallsBack(Exec(s, steps), id);
      }
    }
  }

  lemma {:induction false} ExecSnoc(s: State, steps: seq<Step>, x: Step)
    ensures Exec(s, steps + [x]) == Do(Exec(s, steps), x)
  {
    assert (steps + [x])[..|steps|] == steps;
  }

  lemma {:induction false} ExecFour(s: State, steps: seq<Step>, a: Step, b: Step, c: Step, d: Step)
    ensures Exec(s, steps + [a, b, c, d]) == Four(Exec(s, steps), a, b, c, d)
  {
    hide Do;
    ExecSnoc(s, steps, a);
    ExecSnoc(s, steps + [a], b);
    ExecSnoc(s, steps + [a] + [b], c);
    ExecSnoc(s, steps + [a] + [b] + [c], d);
    assert steps + [a] + [b] + [c] + [d] == steps + [a, b, c, d];
  }

  function Four(s: State, a: Step, b: Step, c: Step, d: Step): State { Do(Do(Do(Do(s, a), b), c), d) }

  /** Requests that never overlap can reach it: request 0 stores an entry at second 0, request 1 is
      served from it at second 299 and starts a refresh, and request 2 comes in at second 301. */
  const ENTRY := Some(Cached(0, 0))
  const REPLY_0 := Replied(Metrics200(0, Own))
  const REPLY_1 := Replied(Metrics200(0, FromCache(0, 299, false)))
  const AFTER_1 := State(Log(0, [], [], {}, {}, {}, map[0 := 0]), Cache(None, None, false), map[0 := MetricsStale(0)], map[])
  const STORED := Log(0, [], [0], {}, {Cached(0, 0)}, {}, map[0 := 0])
  const AFTER_2 := State(STORED, Cache(None, ENTRY, false), map[0 := REPLY_0], map[])
  const LATER := STORED.(clock := 299, arrived := map[0 := 0, 1 := 299])
  const AFTER_3 := State(LATER, Cache(None, ENTRY, false), map[0 := REPLY_0, 1 := MetricsNotFresh], map[])
  const AFTER_4 := State(LATER.(clock := 301), Cache(None, ENTRY, true), map[0 := REPLY_0, 1 := REPLY_1], map[1 := Collecting(299)])

  lemma {:induction false} Request0Looks()
    ensures Four(Init(0), ArriveMetrics(0), Go(0, true, true), Go(0, true, true), Go(0, true, true)) == AFTER_1
  {
  }

  const COLLECTING_0 := AFTER_1.(requests := map[0 := MetricsCollect])
  const COLLECTED_0 := State(AFTER_1.log.(collected := [0]), AFTER_1.cache, map[0 := MetricsGot(0)], map[])

  lemma {:induction false} Request0Asks()
    ensures Do(AFTER_1, Go(0, true, true)) == COLLECTING_0 && Do(COLLECTING_0, Go(0, true, true)) == COLLECTED_0
  {
  }

  lemma {:induction false} Request0Keeps()
    ensures Do(Do(COLLECTED_0, Go(0, true, true)), Go(0, true, true)) == AFTER_2
  {
  }

  lemma {:induction false} Request0Collects()
    ensures Four(AFTER_1, Go(0, true, true), Go(0, true, true), Go(0, true, true), Go(0, true, true)) == AFTER_2
  {
    Request0Asks();
    Request0Keeps();
    hide Do;
  }

  lemma {:induction false} Request1Looks()
    ensures Four(AFTER_2, Tick(299), ArriveMetrics(1), Go(1, true, true), Go(1, true, true)) == AFTER_3
  {
  }

  lemma {:induction false} Request1Refreshes()
    ensures Four(AFTER_3, Go(1, true, true), Go(1, true, true), Go(1, true, true), Tick(2)) == AFTER_4
  {
  }

  lemma {:induction false} FallbackReachedSequentially() returns (before: seq<Step>)
    ensures var s := Exec(Init(0), before);
            && (forall id | id in s.requests && id != 2 :: s.requests[id].Replied?)
            && 2 in s.requests && s.requests[2].MetricsStart? && CanFallBack(s, 2)
  {
    hide Do;
    Request0Looks();
    Request0Collects();
    Request1Looks();
    Request1Refreshes();
    var g0, g1 := Go(0, true, true), Go(1, true, true);
    var p1 := [] + [ArriveMetrics(0), g0, g0, g0];
    var p2 := p1 + [g0, g0, g0, g0];
    var p3 := p2 + [Tick(299), ArriveMetrics(1), g1, g1];
    var p4 := p3 + [g1, g1, g1, Tick(2)];
    ExecFour(Init(0), [], ArriveMetrics(0), g0, g0, g0);
    ExecFour(Init(0), p1, g0, g0, g0, g0);
    ExecFour(Init(0), p2, Tick(299), ArriveMetrics(1), g1, g1);
    ExecFour(Init(0), p3, g1, g1, g1, Tick(2));
    before := p4 + [ArriveMetrics(2)];
    ExecSnoc(Init(0), p4, ArriveMetrics(2));
    RunsKeep(Init(0), before);
    Request2Arrives();
    FallbackExactly(Exec(Init(0), before), 2);
  }

  lemma {:induction false} Request2Arrives()
    ensures var s := Do(AFTER_4, ArriveMetrics(2));
            && (forall id | id in s.requests && id != 2 :: s.requests[id].Replied?)
            && 2 in s.requests && s.requests[2].MetricsStart? && HelpPending(s)
  {
    var s := Do(AFTER_4, ArriveMetrics(2));
    assert 1 in s.refreshes && Helpful(s.refreshes[1], s.cache.metrics, s.log.clock);
  }
}
