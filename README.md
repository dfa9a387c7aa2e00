# Health-check endpoint of the AI proxy gateway

This project models the gateway's health-check endpoint (`functions/health.ts`)
and proves properties of the model. The endpoint probes five upstream AI
services, classifies each probe as `pass`, `fail` or `warn`, and reduces the
results to an overall `healthy`, `warning` or `unhealthy`. It then answers 200
or 503 and caches the report in memory for 30 seconds.

The network and the clock become parameters. A probe's result is given as a
`ProbeOutcome`, which is one of:

- `Responded(code)`: the server answered with an HTTP status code.
- `Aborted`: the timeout's `AbortError`.
- `Threw`: any other exception.

Each request receives `now`, the millisecond clock read on entry.

- `probe.dfy`, module `Probe`: the service table, the request each probe
  sends, and the classifier `CheckServiceHealth`.
- `report.dfy`, module `Report`: one health-check pass.
  - `PerformHealthCheck` is a method with two loops. The first fills the
    checks map: `self` goes in first, then each alias in table order, and a
    repeated alias overwrites the earlier entry, as it would in a JavaScript
    object. The second loop counts failures and warnings over the map in
    insertion order.
  - The method is proved equal to the specification function `HealthCheck`,
    which is built from `BuildChecks`, `StatusCount` and `Overall`.
  - The lemmas describe the map's keys and values and relate the counts to
    the probe outcomes.
- `endpoint.dfy`, module `Endpoint`: the request handler.
  - The class `HealthEndpoint` holds the two module-level variables
    `healthCache` and `lastHealthCheck`.
  - Its method `Handle` is proved equal to the transition function `Step`.
  - The lemmas about `Step` cover: the cache is served only while fresh and
    without probing, it expires, and the status code matches the report.

Some modelling choices:

- The source compares `failCount > healthCheckServices.length / 2` in
  floating point. On integers this is exactly `2 * failCount > serviceCount`,
  which is how `Overall` states it.
- `Math.floor((30000 - elapsed) / 1000)` is modelled as Dafny's integer
  division. On the cache path `elapsed < 30000`, so the numerator is
  positive, and flooring equals Euclidean division there.
- If the clock goes backwards (`now < lastHealthCheck`), the cache is still
  served. `max-age` stays 30 for a backwards jump of under one second and can
  exceed 30 once the clock has gone back by 1000 ms or more. The model keeps
  this behaviour. `MaxAgeSeconds` bounds the value to 0..30 only when
  `elapsed >= 0`.

## Model

| member | source | states |
|---|---|---|
| `Probe.TableAliasesAreFresh` | functions/health.ts:28-64 | the five aliases of the service table are pairwise distinct and none is the reserved key `self`, so building the checks map never overwrites an entry |
| `Probe.ProbeRequestFor` | functions/health.ts:82-99 | a probe targets `https://` + host + test endpoint (the bare host when there is none); it uses GET exactly for the `cohere` alias and HEAD otherwise |
| `Probe.CheckServiceHealth` | functions/health.ts:104-147 | a response is `pass` iff its code is 200, 401 or 403, `fail` iff the code is 500 or more, and `warn` otherwise; every exception is `fail` and never `pass` or `warn`; an abort is reported as a timeout quoting the service's deadline, and any other exception as unreachable; the message always agrees with the status |
| `Report.StatusCount` | functions/health.ts:179-182 | the number of entries with a given status is at most the size of the map, and zero exactly when no entry has that status |
| `Report.StatusCountInsertFresh` | functions/health.ts:170-171 | writing a new key into the checks map raises the count of that entry's status by one and leaves the other counts alone |
| `Report.BuildChecks` | functions/health.ts:152-172 | the checks map built by recording `self` and then each service always contains `self` and every alias |
| `Report.HealthCheck` | functions/health.ts:150-196 | a report always has a `self` entry; it is `healthy` exactly when every entry passes, and `unhealthy` only when some entry fails |
| `Report.BuildChecksKeys` | functions/health.ts:152-172 | the checks map has exactly the keys `self` plus the service aliases |
| `Report.BuildChecksEntry` | functions/health.ts:169-172 | each alias maps to the classified outcome of the last service carrying that alias |
| `Report.BuildChecksSelf` | functions/health.ts:154-159 | `self` maps to a passing entry unless some service carries the alias `self` |
| `Report.BuildChecksCoherent` | functions/health.ts:152-172 | every entry of the checks map carries a message consistent with its status: an "accessible" message quotes 200, 401 or 403, a "service error" quotes a code of 500 or more, and an "unexpected status" quotes any other code |
| `Report.Overall` | functions/health.ts:175-188 | `healthy` iff there are no failures and no warnings; `unhealthy` iff there is a failure and `2*failCount > number of services`; `warning` in every other case (warnings without failures, or failures that are at most half the services) |
| `Report.OverallMonotone` | functions/health.ts:184-188 | more failures or more warnings never give a less severe overall status |
| `Report.TableThreshold` | functions/health.ts:184-188 | with the five services of the table, `unhealthy` means three or more failures |
| `Report.StatusCountIsProbeCount` | functions/health.ts:179-182 | when the aliases are distinct and none is `self`, the number of map entries with a given status equals the number of probes with that status; `self` adds one more `pass` |
| `Report.CountsBounded` | functions/health.ts:179-182 | `failCount + warnCount` never exceeds the number of entries in the checks map |
| `Report.SelfCountsForNothing` | functions/health.ts:179-182 | since `self` passes, counting failures or warnings over the service entries alone gives the same numbers |
| `Report.TableVerdict` | functions/health.ts:162-188 | for the service table, a report is `healthy` iff every probe passes, and `unhealthy` iff three or more probes fail |
| `Report.HealthCheckShape` | functions/health.ts:150-196 | a pass reports exactly the keys `self` plus the aliases. Each alias maps to its last classified outcome. `self` passes when no service carries the alias `self`. Every message matches its status. Failures plus warnings are bounded by the map size. The overall status is reduced from the map's own counts |
| `Report.PerformHealthCheck` | functions/health.ts:150-196 | the two loops (filling the map in insertion order, then counting failures and warnings over its values) compute exactly the specified report `HealthCheck` |
| `Endpoint.MaxAgeSeconds` | functions/health.ts:228 | the cached `max-age` is the remaining lifetime rounded down to whole seconds; it lies in 0..30 when the elapsed time is not negative, is 30 after a backwards clock jump of under a second, and exceeds 30 after a jump of 1000 ms or more |
| `Endpoint.ServeFromCache` | functions/health.ts:222 | a forced request never uses the cache; a report served at a time not before its check is younger than 30000 ms and advertises a lifetime of 0..30 seconds |
| `Endpoint.MaxAgeNonIncreasing` | functions/health.ts:228 | the advertised `max-age` never grows as the elapsed time increases |
| `Endpoint.HttpStatus` | functions/health.ts:224 | 200 iff the overall status is `healthy`, and 503 otherwise |
| `Endpoint.TablePassIsWellFormed` | functions/health.ts:150-196 | every pass over the service table yields a report with the table's key set, a passing `self`, coherent messages and a status consistent with its counts |
| `Endpoint.Step` | functions/health.ts:199-247 | non-GET gets 405 and the state is unchanged. A cached report is served iff `force` is absent, a report is cached and `now - lastHealthCheck < 30000`; then the state is unchanged and `max-age` is the remaining lifetime. Otherwise a fresh pass is cached with the entry-time `now` and `max-age=30`. On both GET paths the status is 200 iff the report is `healthy`, else 503 |
| `Endpoint.StepPreservesWellFormed` | functions/health.ts:222-238 | every request leaves the cache holding either nothing or a well-formed report |
| `Endpoint.CacheHitIgnoresProbes` | functions/health.ts:222-231 | serving from cache runs no probe: the response and the new state do not depend on the probe outcomes |
| `Endpoint.FreshThenCached` | functions/health.ts:218-238 | after a fresh pass at `t`, an unforced GET at any `t'` in `t..t+29999` serves the same report with the same status. It changes no state and advertises `max-age` between 0 and 30 |
| `Endpoint.FreshThenExpired` | functions/health.ts:222-238 | after a fresh pass at `t`, a GET at `t + 30000` or later runs a new pass over the new outcomes and caches it with the new time |
| `Endpoint.FreshStatusCode` | functions/health.ts:234-247 | on the fresh path the response is 200 iff every probe passed, and the report is `unhealthy` iff three or more probes failed |
| `Endpoint.HealthEndpoint.constructor` | functions/health.ts:67-68 | the handler starts with no cached report and `lastHealthCheck = 0` |
| `Endpoint.HealthEndpoint.Handle` | functions/health.ts:199-247 | handling a request updates `healthCache` and `lastHealthCheck` and returns the response exactly as `Step` prescribes, and keeps the cache well formed |

## Left out

- `fetch`, `AbortController`, `setTimeout` and the timeout itself are network and timer I/O. Only the observed outcome is modelled, as `ProbeOutcome`. "The abort" stands for any exception named `AbortError`.
- Endpoint.HealthEndpoint.Handle: requests are serialised, each one an atomic `Step`. In the source, `onRequest` reads the cache before `await performHealthCheck()` and writes it afterwards, so overlapping requests can both find a stale or empty cache and both probe. The last one to finish then wins with its own entry-time `now`, which can be older than the other request's. `FreshThenCached`, `FreshThenExpired` and `StepPreservesWellFormed` are about one request at a time.
- The `Promise.all` fan-out is concurrency. The probes are taken as a given sequence of outcomes, one per table entry, in table order.
- `Date.now()`, `new Date().toISOString()`, `uptime`, `responseTime`, `lastChecked`, `timestamp` and the constant `version` are clock reads or constants. The clock is the `now` parameter, and the rest are dropped from the report.
- Message texts, `JSON.stringify`, and the `Content-Type`, CORS and `Cache-Control` headers other than the `max-age` number are formatting. Messages are kept only as the `Reason` datatype, with the numbers they quote.
- Parsing the request URL is not modelled. The presence of `force` in the query string is the boolean `force`.
- The catch-all 503 response (functions/health.ts:249-275) is left out. It is reached only by an unexpected runtime exception, which the model has no way to raise.
- `console.error` logging is output only.
