/** The per-service probe of the health-check endpoint: the table of probed
    services, the request each probe sends, and the rule that turns what the
    probe observed into a `pass` / `fail` / `warn` check result.

    The network is not modelled: what `fetch` observed is given as a
    `ProbeOutcome` (a status code, an abort raised by the timeout, or any
    other exception). */
module Probe {

  datatype Option<T> = None | Some(value: T)

  /** One entry of the service table. `timeoutMs` is the abort deadline. */
  datatype ServiceCheck = ServiceCheck(
    name: string,
    alias: string,
    host: string,
    testEndpoint: Option<string>,
    timeoutMs: nat)

  /** The five probed services, in table order. */
  const HealthCheckServices: seq<ServiceCheck> := [
    ServiceCheck("OpenAI", "openai", "api.openai.com", Some("/v1/models"), 5000),
    ServiceCheck("Claude", "claude", "api.anthropic.com", Some("/v1/messages"), 5000),
    ServiceCheck("Gemini", "gemini", "generativelanguage.googleapis.com", Some("/v1beta/models"), 5000),
    ServiceCheck("Groq", "groq", "api.groq.com", Some("/openai/v1/models"), 5000),
    ServiceCheck("Cohere", "cohere", "api.cohere.ai", Some("/v1/models"), 5000)
  ]

  /** The key the endpoint reserves for its own entry in the checks map. */
  const SelfKey: string := "self"

  /** The aliases of a service list, in order. */
  function Aliases(services: seq<ServiceCheck>): (r: seq<string>)
    ensures |r| == |services|
    ensures forall i :: 0 <= i < |services| ==> r[i] == services[i].alias
  {
    if services == [] then [] else Aliases(services[..|services| - 1]) + [services[|services| - 1].alias]
  }

  /** No two entries share a key. */
  predicate Distinct(keys: seq<string>)
  {
    forall i, j :: 0 <= i < j < |keys| ==> keys[i] != keys[j]
  }

  /** The service table can be turned into a checks map without collisions:
      the aliases are pairwise distinct and none of them is the reserved key. */
  lemma TableAliasesAreFresh()
    ensures Distinct(Aliases(HealthCheckServices))
    ensures SelfKey !in Aliases(HealthCheckServices)
  {
    var a := Aliases(HealthCheckServices);
    assert a == ["openai", "claude", "gemini", "groq", "cohere"];
  }

  /** The HTTP request a probe sends. */
  datatype ProbeRequest = ProbeRequest(verb: string, url: string, userAgent: string)

  /** The probe targets `https://<host><testEndpoint>` (or the bare host when
      the entry has no test endpoint); Cohere is probed with GET, every other
      service with HEAD. */
  function ProbeRequestFor(service: ServiceCheck): (r: ProbeRequest)
    ensures |r.url| >= 8 + |service.host|
    ensures r.url[..8] == "https://"
    ensures r.url[8..8 + |service.host|] == service.host
    ensures service.testEndpoint.Some? ==> r.url[8 + |service.host|..] == service.testEndpoint.value
    ensures service.testEndpoint.None? ==> |r.url| == 8 + |service.host|
    ensures r.verb == "GET" <==> service.alias == "cohere"
    ensures r.verb == "GET" || r.verb == "HEAD"
  {
    var path := if service.testEndpoint.Some? then service.testEndpoint.value else "";
    ProbeRequest(
      if service.alias == "cohere" then "GET" else "HEAD",
      "https://" + service.host + path,
      "HealthCheck/1.0")
  }

  /** What the probe observed: an HTTP response with this status code, an
      abort raised by the timeout, or any other exception. */
  datatype ProbeOutcome = Responded(code: int) | Aborted | Threw

  datatype CheckStatus = Pass | Fail | Warn

  /** Which message the check result carries (the text itself is not modelled,
      only which of the source's messages it is and the numbers it quotes). */
  datatype Reason =
    | SelfRunning
    | Accessible(code: int)
    | ServiceError(code: int)
    | UnexpectedStatus(code: int)
    | Timeout(limitMs: nat)
    | Unreachable

  datatype CheckResult = CheckResult(status: CheckStatus, reason: Reason)

  /** The endpoint's entry for itself: always `pass`. */
  const SelfCheck: CheckResult := CheckResult(Pass, SelfRunning)

  /** A check result whose message agrees with its status. */
  predicate Coherent(c: CheckResult)
  {
    match c.reason
    case SelfRunning => c.status == Pass
    case Accessible(code) => c.status == Pass && IsReachableCode(code)
    case ServiceError(code) => c.status == Fail && code >= 500
    case UnexpectedStatus(code) => c.status == Warn && !IsReachableCode(code) && code < 500
    case Timeout(_) => c.status == Fail
    case Unreachable => c.status == Fail
  }

  /** Status codes that prove the service reachable: 200, and 401/403 (the
      probe carries no credentials, so an authorisation refusal still shows the
      service is up). */
  predicate IsReachableCode(code: int)
  {
    code == 200 || code == 401 || code == 403
  }

  /** Classifies one probe outcome. A response is `pass` for 200/401/403,
      `fail` for any code of 500 or more, and `warn` otherwise; every
      exception is `fail`, reported as a timeout (quoting the service's
      deadline) when it is the abort, and as unreachable otherwise. */
  function CheckServiceHealth(service: ServiceCheck, outcome: ProbeOutcome): (r: CheckResult)
    ensures Coherent(r)
    ensures r.status == Pass <==> outcome.Responded? && IsReachableCode(outcome.code)
    ensures r.status == Fail <==> !outcome.Responded? || outcome.code >= 500
    ensures r.status == Warn <==> outcome.Responded? && !IsReachableCode(outcome.code) && outcome.code < 500
    ensures outcome.Responded? ==> r.reason in {Accessible(outcome.code), ServiceError(outcome.code), UnexpectedStatus(outcome.code)}
    ensures outcome.Aborted? ==> r.reason == Timeout(service.timeoutMs)
    ensures outcome.Threw? ==> r.reason == Unreachable
  {
    match outcome
    case Responded(code) =>
      if IsReachableCode(code) then CheckResult(Pass, Accessible(code))
      else if code >= 500 then CheckResult(Fail, ServiceError(code))
      else CheckResult(Warn, UnexpectedStatus(code))
    case Aborted => CheckResult(Fail, Timeout(service.timeoutMs))
    case Threw => CheckResult(Fail, Unreachable)
  }
}
