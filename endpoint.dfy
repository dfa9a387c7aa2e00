/** The health-check request handler: a GET-only endpoint that serves the
    last report from an in-memory cache for 30 seconds and otherwise runs a
    fresh pass over the service table, answering 200 when the report is
    `healthy` and 503 otherwise.

    The clock and the probes are parameters of each request: `now` is the
    millisecond clock sampled on entry, and `outcomes` is what the five
    probes would observe if a fresh pass is run. */
module Endpoint {
  import opened Probe
  import opened Report

  /** How long a cached report is served, in milliseconds. */
  const CacheTtlMs: int := 30000

  /** The `max-age` of a freshly computed response, in seconds. */
  const FreshMaxAge: nat := 30

  datatype Body = ReportBody(report: HealthReport) | MethodNotAllowed

  /** The parts of a response the model keeps: the HTTP status, the body and
      the `max-age` of the `Cache-Control` header (absent on the 405). */
  datatype Response = Response(status: int, body: Body, maxAge: Option<int>)

  /** The handler's two module-level variables. */
  datatype CacheState = CacheState(healthCache: Option<HealthReport>, lastHealthCheck: int)

  /** Before the first request: nothing cached, last check at time 0. */
  const InitialState: CacheState := CacheState(None, 0)

  /** A cached report is served when the request does not force a check, a
      report is cached and it is younger than the TTL. A forced request never
      uses the cache, and a report served at a time not before its check
      advertises a lifetime of 0..30 seconds. */
  predicate ServeFromCache(force: bool, st: CacheState, now: int)
    ensures force ==> !ServeFromCache(force, st, now)
    ensures ServeFromCache(force, st, now) && st.lastHealthCheck <= now ==>
      0 <= now - st.lastHealthCheck < CacheTtlMs && 0 <= MaxAgeSeconds(now - st.lastHealthCheck) <= FreshMaxAge
  {
    !force && st.healthCache.Some? && now - st.lastHealthCheck < CacheTtlMs
  }

  /** Seconds left before the cached report expires, rounded down. The
      elapsed time is below the TTL whenever the cache is served, so the
      remaining milliseconds are positive and rounding down is Euclidean
      division. When the clock has not gone backwards the result lies in
      0..30; it is still 30 after a backwards jump of less than a second, and
      exceeds 30 once the clock has gone back by 1000 ms or more. */
  function MaxAgeSeconds(elapsed: int): (r: int)
    requires elapsed < CacheTtlMs
    ensures r * 1000 <= CacheTtlMs - elapsed < r * 1000 + 1000
    ensures 0 <= elapsed ==> 0 <= r <= 30
    ensures -1000 < elapsed <= 0 ==> r == 30
    ensures elapsed <= -1000 ==> r > 30
  {
    (CacheTtlMs - elapsed) / 1000
  }

  /** The advertised lifetime never grows as time elapses. */
  lemma MaxAgeNonIncreasing(elapsed: int, elapsed': int)
    requires elapsed <= elapsed' < CacheTtlMs
    ensures MaxAgeSeconds(elapsed') <= MaxAgeSeconds(elapsed)
  {
  }

  /** 200 for a `healthy` report, 503 for `warning` and `unhealthy`. */
  function HttpStatus(s: OverallStatus): (code: int)
    ensures code == 200 <==> s == Healthy
    ensures code == 503 <==> s != Healthy
  {
    if s == Healthy then 200 else 503
  }

  /** The reports a cache can hold: the key set of a pass over the service
      table, `self` passing, every message agreeing with its status, and the
      overall status reduced from the map's own counts. */
  ghost predicate WellFormedReport(r: HealthReport)
  {
    && (forall k :: k in r.checks <==> k == SelfKey || k in Aliases(HealthCheckServices))
    && SelfKey in r.checks && r.checks[SelfKey] == SelfCheck
    && (forall k :: k in r.checks ==> Coherent(r.checks[k]))
    && r.status == Overall(StatusCount(r.checks, Fail), StatusCount(r.checks, Warn), |HealthCheckServices|)
  }

  ghost predicate WellFormedState(st: CacheState)
  {
    st.healthCache.Some? ==> WellFormedReport(st.healthCache.value)
  }

  /** Every pass over the service table yields a well-formed report. */
  lemma TablePassIsWellFormed(outcomes: seq<ProbeOutcome>)
    requires |outcomes| == |HealthCheckServices|
    ensures WellFormedReport(HealthCheck(HealthCheckServices, outcomes))
  {
    TableAliasesAreFresh();
    HealthCheckShape(HealthCheckServices, outcomes);
  }

  /** One request: the new cache state and the response.
      A method other than GET is refused with 405 and touches nothing. A GET
      served from the cache returns the cached report with the remaining
      lifetime as `max-age` and leaves the state alone. Any other GET runs a
      fresh pass, caches it with the `now` sampled on entry, and answers with
      `max-age=30`. Both GET paths answer 200 exactly for a `healthy` report
      and 503 otherwise. */
  function Step(st: CacheState, verb: string, force: bool, now: int, outcomes: seq<ProbeOutcome>): (r: (CacheState, Response))
    requires |outcomes| == |HealthCheckServices|
    ensures verb != "GET" ==> r.0 == st && r.1 == Response(405, MethodNotAllowed, None)
    ensures verb == "GET" ==> r.1.body.ReportBody? && r.1.maxAge.Some?
    ensures verb == "GET" ==> (r.1.status == 200 <==> r.1.body.report.status == Healthy)
    ensures verb == "GET" ==> (r.1.status == 503 <==> r.1.body.report.status != Healthy)
    ensures verb == "GET" && ServeFromCache(force, st, now) ==>
      && r.0 == st
      && r.1.body.report == st.healthCache.value
      && r.1.maxAge == Some(MaxAgeSeconds(now - st.lastHealthCheck))
    ensures verb == "GET" && !ServeFromCache(force, st, now) ==>
      && r.0 == CacheState(Some(HealthCheck(HealthCheckServices, outcomes)), now)
      && r.1.body.report == HealthCheck(HealthCheckServices, outcomes)
      && r.1.maxAge == Some(FreshMaxAge)
  {
    if verb != "GET" then
      (st, Response(405, MethodNotAllowed, None))
    else if ServeFromCache(force, st, now) then
      var cached := st.healthCache.value;
      (st, Response(HttpStatus(cached.status), ReportBody(cached), Some(MaxAgeSeconds(now - st.lastHealthCheck))))
    else
      var report := HealthCheck(HealthCheckServices, outcomes);
      (CacheState(Some(report), now), Response(HttpStatus(report.status), ReportBody(report), Some(FreshMaxAge)))
  }

  /** Every request keeps the cache well formed. */
  lemma StepPreservesWellFormed(st: CacheState, verb: string, force: bool, now: int, outcomes: seq<ProbeOutcome>)
    requires |outcomes| == |HealthCheckServices| && WellFormedState(st)
    ensures WellFormedState(Step(st, verb, force, now, outcomes).0)
  {
    TablePassIsWellFormed(outcomes);
  }

  /** Serving from the cache runs no probe: the response and the new state do
      not depend on what the probes would have observed. */
  lemma CacheHitIgnoresProbes(st: CacheState, force: bool, now: int, outcomes: seq<ProbeOutcome>, outcomes': seq<ProbeOutcome>)
    requires |outcomes| == |HealthCheckServices| && |outcomes'| == |HealthCheckServices|
    requires ServeFromCache(force, st, now)
    ensures Step(st, "GET", force, now, outcomes) == Step(st, "GET", force, now, outcomes')
  {
  }

  /** After a fresh pass at time `t`, an unforced GET at any `t'` with
      `t <= t' < t + 30000` serves that same report with the same status code,
      runs no probe, changes nothing, and advertises a `max-age` of at most
      30 seconds (which never grows as `t'` advances, by `MaxAgeNonIncreasing`). */
  lemma FreshThenCached(st: CacheState, force: bool, t: int, t': int, outcomes: seq<ProbeOutcome>, later: seq<ProbeOutcome>)
    requires |outcomes| == |HealthCheckServices| && |later| == |HealthCheckServices|
    requires !ServeFromCache(force, st, t)
    requires t <= t' < t + CacheTtlMs
    ensures var (st1, first) := Step(st, "GET", force, t, outcomes);
      var (st2, second) := Step(st1, "GET", false, t', later);
      && st2 == st1
      && second.body == first.body
      && second.status == first.status
      && second.maxAge.Some? && 0 <= second.maxAge.value <= FreshMaxAge
  {
  }

  /** A cached report stops being served once the TTL has passed: a GET at
      `t + 30000` or later after a fresh pass at `t` runs a new pass over the
      new probe outcomes and caches it with the new time. */
  lemma FreshThenExpired(st: CacheState, force: bool, t: int, t': int, outcomes: seq<ProbeOutcome>, later: seq<ProbeOutcome>)
    requires |outcomes| == |HealthCheckServices| && |later| == |HealthCheckServices|
    requires !ServeFromCache(force, st, t)
    requires t' >= t + CacheTtlMs
    ensures var (st1, _) := Step(st, "GET", force, t, outcomes);
      var (st2, second) := Step(st1, "GET", false, t', later);
      && st2 == CacheState(Some(HealthCheck(HealthCheckServices, later)), t')
      && second.body == ReportBody(HealthCheck(HealthCheckServices, later))
  {
  }

  /** On the fresh path the status code is 200 exactly when every probe of
      the table passed, and a report is `unhealthy` (still 503) exactly when
      three or more probes failed. */
  lemma FreshStatusCode(st: CacheState, force: bool, now: int, outcomes: seq<ProbeOutcome>)
    requires |outcomes| == |HealthCheckServices|
    requires !ServeFromCache(force, st, now)
    ensures var (_, resp) := Step(st, "GET", force, now, outcomes);
      && (resp.status == 200 <==> ProbeCount(HealthCheckServices, outcomes, Fail) == 0 && ProbeCount(HealthCheckServices, outcomes, Warn) == 0)
      && (resp.body.report.status == Unhealthy <==> ProbeCount(HealthCheckServices, outcomes, Fail) >= 3)
  {
    TableVerdict(outcomes);
  }

  /** The handler with its two module-level cache variables. */
  class HealthEndpoint {
    var healthCache: Option<HealthReport>
    var lastHealthCheck: int

    function State(): CacheState
      reads this
    {
      CacheState(healthCache, lastHealthCheck)
    }

    ghost predicate Valid()
      reads this
    {
      WellFormedState(State())
    }

    constructor ()
      ensures Valid() && State() == InitialState
    {
      healthCache := None;
      lastHealthCheck := 0;
    }

    /** Handles one request; `force` says whether the query string carries
        `force`. */
    method Handle(verb: string, force: bool, now: int, outcomes: seq<ProbeOutcome>) returns (resp: Response)
      requires Valid() && |outcomes| == |HealthCheckServices|
      modifies this
      ensures Valid()
      ensures (State(), resp) == Step(old(State()), verb, force, now, outcomes)
    {
      StepPreservesWellFormed(State(), verb, force, now, outcomes);
      if verb != "GET" {
        resp := Response(405, MethodNotAllowed, None);
        return;
      }
      if !force && healthCache.Some? && now - lastHealthCheck < CacheTtlMs {
        var cached := healthCache.value;
        resp := Response(HttpStatus(cached.status), ReportBody(cached), Some(MaxAgeSeconds(now - lastHealthCheck)));
        return;
      }
      var report := PerformHealthCheck(HealthCheckServices, outcomes);
      healthCache := Some(report);
      lastHealthCheck := now;
      resp := Response(HttpStatus(report.status), ReportBody(report), Some(FreshMaxAge));
    }
  }
}
