/** One health-check pass: the checks map (the endpoint's own `self` entry plus
    one classified entry per service alias) and the overall status reduced from
    the number of failing and warning entries. */
module Report {
  import opened Probe

  datatype OverallStatus = Healthy | Warning | Unhealthy

  /** The result of one pass. Timestamps, uptime, response times and the
      constant version string are not modelled. */
  datatype HealthReport = HealthReport(status: OverallStatus, checks: map<string, CheckResult>)

  /** Number of entries of `m` whose status is `st`: at most the size of the
      map, and zero exactly when no entry has that status. */
  function StatusCount(m: map<string, CheckResult>, st: CheckStatus): (r: nat)
    ensures r <= |m|
    ensures r == 0 <==> forall k :: k in m ==> m[k].status != st
  {
    var s := set k | k in m && m[k].status == st;
    SubsetCard(s, m.Keys);
    NoneWithStatus(m, st);
    |s|
  }

  /** The entries with status `st` form the empty set exactly when no entry
      has status `st`. */
  lemma NoneWithStatus(m: map<string, CheckResult>, st: CheckStatus)
    ensures |set k | k in m && m[k].status == st| == 0 <==> forall k :: k in m ==> m[k].status != st
  {
    var s := set k | k in m && m[k].status == st;
    if exists k :: k in m && m[k].status == st {
      var k :| k in m && m[k].status == st;
      assert k in s;
    }
  }

  /** The checks map after the first `|services|` probes have been recorded:
      it starts with `self`, and each service then writes its alias, a later
      entry with the same alias overwriting an earlier one. The map always
      holds `self` and every alias. */
  function BuildChecks(services: seq<ServiceCheck>, outcomes: seq<ProbeOutcome>): (r: map<string, CheckResult>)
    requires |outcomes| == |services|
    ensures SelfKey in r
    ensures forall i :: 0 <= i < |services| ==> services[i].alias in r
  {
    if services == [] then map[SelfKey := SelfCheck]
    else
      var n := |services| - 1;
      BuildChecks(services[..n], outcomes[..n])[services[n].alias := CheckServiceHealth(services[n], outcomes[n])]
  }

  /** Reduces the counts to the overall status: any failure makes the status
      `unhealthy` when failures are more than half of the services and
      `warning` otherwise; without failures, any warning gives `warning`.
      (The source compares `failCount > serviceCount / 2` in floating point,
      which is `2 * failCount > serviceCount` on integers.) */
  function Overall(failCount: nat, warnCount: nat, serviceCount: nat): (r: OverallStatus)
    ensures r == Healthy <==> failCount == 0 && warnCount == 0
    ensures r == Unhealthy <==> failCount > 0 && 2 * failCount > serviceCount
    ensures r == Warning <==> (failCount == 0 && warnCount > 0) || (failCount > 0 && 2 * failCount <= serviceCount)
  {
    if failCount > 0 then
      if 2 * failCount > serviceCount then Unhealthy else Warning
    else if warnCount > 0 then Warning
    else Healthy
  }

  /** A more severe status ranks higher. */
  function Severity(s: OverallStatus): nat
  {
    match s
    case Healthy => 0
    case Warning => 1
    case Unhealthy => 2
  }

  /** More failures or more warnings never make the overall status better. */
  lemma OverallMonotone(f: nat, w: nat, f': nat, w': nat, n: nat)
    requires f <= f' && w <= w'
    ensures Severity(Overall(f, w, n)) <= Severity(Overall(f', w', n))
  {
  }

  /** With the five services of the table, `unhealthy` means three or more
      failures. */
  lemma TableThreshold(f: nat, w: nat)
    ensures Overall(f, w, |HealthCheckServices|) == Unhealthy <==> f >= 3
  {
  }

  /** The specification of one pass over the given probe outcomes. The
      report always has a `self` entry; it is `healthy` exactly when no entry
      fails or warns, and `unhealthy` only when some entry fails. */
  function HealthCheck(services: seq<ServiceCheck>, outcomes: seq<ProbeOutcome>): (r: HealthReport)
    requires |outcomes| == |services|
    ensures SelfKey in r.checks
    ensures r.status == Healthy <==> forall k :: k in r.checks ==> r.checks[k].status == Pass
    ensures r.status == Unhealthy ==> exists k :: k in r.checks && r.checks[k].status == Fail
  {
    var checks := BuildChecks(services, outcomes);
    HealthReport(Overall(StatusCount(checks, Fail), StatusCount(checks, Warn), |services|), checks)
  }

  /** Number of services whose probe outcome classifies as `st`. */
  function ProbeCount(services: seq<ServiceCheck>, outcomes: seq<ProbeOutcome>, st: CheckStatus): (r: nat)
    requires |outcomes| == |services|
    ensures r <= |services|
  {
    if services == [] then 0
    else
      var n := |services| - 1;
      ProbeCount(services[..n], outcomes[..n], st) + (if CheckServiceHealth(services[n], outcomes[n]).status == st then 1 else 0)
  }

  /** The checks map has exactly the keys `self` and the service aliases. */
  lemma {:induction false} BuildChecksKeys(services: seq<ServiceCheck>, outcomes: seq<ProbeOutcome>)
    requires |outcomes| == |services|
    ensures forall k :: k in BuildChecks(services, outcomes) <==> k == SelfKey || k in Aliases(services)
  {
    if services != [] {
      var n := |services| - 1;
      BuildChecksKeys(services[..n], outcomes[..n]);
      assert Aliases(services) == Aliases(services[..n]) + [services[n].alias];
    }
  }

  /** The alias of service `i` maps to its classified outcome, provided no
      later service carries the same alias (a later one overwrites it). */
  lemma {:induction false} BuildChecksEntry(services: seq<ServiceCheck>, outcomes: seq<ProbeOutcome>, i: nat)
    requires |outcomes| == |services| && i < |services|
    requires forall j :: i < j < |services| ==> services[j].alias != services[i].alias
    ensures services[i].alias in BuildChecks(services, outcomes)
    ensures BuildChecks(services, outcomes)[services[i].alias] == CheckServiceHealth(services[i], outcomes[i])
  {
    var n := |services| - 1;
    if i < n {
      var s', o' := services[..n], outcomes[..n];
      assert s'[i] == services[i] && o'[i] == outcomes[i];
      assert forall j :: i < j < n ==> s'[j] == services[j];
      BuildChecksEntry(s', o', i);
    }
  }

  /** `self` stays `pass` when no service carries the alias `self`. */
  lemma {:induction false} BuildChecksSelf(services: seq<ServiceCheck>, outcomes: seq<ProbeOutcome>)
    requires |outcomes| == |services|
    requires SelfKey !in Aliases(services)
    ensures SelfKey in BuildChecks(services, outcomes)
    ensures BuildChecks(services, outcomes)[SelfKey] == SelfCheck
  {
    if services != [] {
      var n := |services| - 1;
      assert Aliases(services) == Aliases(services[..n]) + [services[n].alias];
      BuildChecksSelf(services[..n], outcomes[..n]);
    }
  }

  /** Adding an entry under a fresh key adds one to its status's count. */
  lemma StatusCountInsertFresh(m: map<string, CheckResult>, key: string, c: CheckResult, st: CheckStatus)
    requires key !in m
    ensures StatusCount(m[key := c], st) == StatusCount(m, st) + (if c.status == st then 1 else 0)
  {
    var m' := m[key := c];
    var before := set k | k in m && m[k].status == st;
    var after := set k | k in m' && m'[k].status == st;
    if c.status == st {
      assert after == before + {key};
    } else {
      assert after == before;
    }
  }

  /** The tally over the map treats `self` as one more `pass`: when the aliases
      are distinct and none of them is `self`, the entries with status `st`
      are exactly the services whose probe classifies as `st`, plus `self`
      when `st` is `pass`. */
  lemma {:induction false} StatusCountIsProbeCount(services: seq<ServiceCheck>, outcomes: seq<ProbeOutcome>, st: CheckStatus)
    requires |outcomes| == |services|
    requires Distinct(Aliases(services)) && SelfKey !in Aliases(services)
    ensures StatusCount(BuildChecks(services, outcomes), st) == ProbeCount(services, outcomes, st) + (if st == Pass then 1 else 0)
  {
    if services != [] {
      var n := |services| - 1;
      var a := Aliases(services);
      assert a == Aliases(services[..n]) + [services[n].alias];
      assert Aliases(services[..n]) == a[..n];
      StatusCountIsProbeCount(services[..n], outcomes[..n], st);
      BuildChecksKeys(services[..n], outcomes[..n]);
      var m := BuildChecks(services[..n], outcomes[..n]);
      var alias := services[n].alias;
      var c := CheckServiceHealth(services[n], outcomes[n]);
      assert alias !in m by {
        assert alias == a[n] && alias != SelfKey;
        forall k | k in a[..n] ensures k != alias { }
      }
      StatusCountInsertFresh(m, alias, c, st);
    } else {
      assert (set k | k in map[SelfKey := SelfCheck] && map[SelfKey := SelfCheck][k].status == st) ==
        (if st == Pass then {SelfKey} else {});
    }
  }

  /** Cardinality of a subset never exceeds that of the enclosing set. */
  lemma {:induction false} SubsetCard(a: set<string>, b: set<string>)
    requires a <= b
    ensures |a| <= |b|
    decreases |b|
  {
    if a != {} {
      var x :| x in a;
      SubsetCard(a - {x}, b - {x});
    }
  }

  /** Failing and warning entries together are at most the whole map. */
  lemma CountsBounded(m: map<string, CheckResult>)
    ensures StatusCount(m, Fail) + StatusCount(m, Warn) <= |m|
  {
    var f := set k | k in m && m[k].status == Fail;
    var w := set k | k in m && m[k].status == Warn;
    assert f * w == {};
    assert |f + w| == |f| + |w|;
    SubsetCard(f + w, m.Keys);
  }

  /** The `self` entry is `pass`, so it adds to neither counter: counting over
      the service entries alone gives the same failures and warnings. */
  lemma SelfCountsForNothing(m: map<string, CheckResult>, st: CheckStatus)
    requires SelfKey in m && m[SelfKey] == SelfCheck && st != Pass
    ensures StatusCount(m, st) == StatusCount(m - {SelfKey}, st)
  {
    var rest := m - {SelfKey};
    assert (set k | k in m && m[k].status == st) == (set k | k in rest && rest[k].status == st);
  }

  /** For the five services of the table: the report is `healthy` exactly when
      every probe passes, and `unhealthy` exactly when three or more probes
      fail. */
  lemma TableVerdict(outcomes: seq<ProbeOutcome>)
    requires |outcomes| == |HealthCheckServices|
    ensures HealthCheck(HealthCheckServices, outcomes).status == Healthy <==>
      ProbeCount(HealthCheckServices, outcomes, Fail) == 0 && ProbeCount(HealthCheckServices, outcomes, Warn) == 0
    ensures HealthCheck(HealthCheckServices, outcomes).status == Unhealthy <==>
      ProbeCount(HealthCheckServices, outcomes, Fail) >= 3
  {
    TableAliasesAreFresh();
    StatusCountIsProbeCount(HealthCheckServices, outcomes, Fail);
    StatusCountIsProbeCount(HealthCheckServices, outcomes, Warn);
  }

  /** Every entry of the checks map carries a message that agrees with its
      status. */
  lemma {:induction false} BuildChecksCoherent(services: seq<ServiceCheck>, outcomes: seq<ProbeOutcome>)
    requires |outcomes| == |services|
    ensures forall k :: k in BuildChecks(services, outcomes) ==> Coherent(BuildChecks(services, outcomes)[k])
  {
    if services != [] {
      var n := |services| - 1;
      BuildChecksCoherent(services[..n], outcomes[..n]);
    }
  }

  /** What one pass reports: the checks map has exactly the keys `self` and
      the service aliases, each alias maps to the classified outcome of the
      last service carrying it, `self` is `pass` when no service claims that
      key, failures and warnings together never exceed the number of entries,
      and the overall status is reduced from those two counts. */
  lemma HealthCheckShape(services: seq<ServiceCheck>, outcomes: seq<ProbeOutcome>)
    requires |outcomes| == |services|
    ensures var r := HealthCheck(services, outcomes);
      && (forall k :: k in r.checks <==> k == SelfKey || k in Aliases(services))
      && (forall i :: 0 <= i < |services| && (forall j :: i < j < |services| ==> services[j].alias != services[i].alias) ==>
            services[i].alias in r.checks && r.checks[services[i].alias] == CheckServiceHealth(services[i], outcomes[i]))
      && (SelfKey !in Aliases(services) ==> SelfKey in r.checks && r.checks[SelfKey] == SelfCheck)
      && (forall k :: k in r.checks ==> Coherent(r.checks[k]))
      && StatusCount(r.checks, Fail) + StatusCount(r.checks, Warn) <= |r.checks|
      && r.status == Overall(StatusCount(r.checks, Fail), StatusCount(r.checks, Warn), |services|)
  {
    BuildChecksKeys(services, outcomes);
    forall i | 0 <= i < |services| && (forall j :: i < j < |services| ==> services[j].alias != services[i].alias)
      ensures services[i].alias in BuildChecks(services, outcomes)
      ensures BuildChecks(services, outcomes)[services[i].alias] == CheckServiceHealth(services[i], outcomes[i])
    {
      BuildChecksEntry(services, outcomes, i);
    }
    if SelfKey !in Aliases(services) {
      BuildChecksSelf(services, outcomes);
    }
    BuildChecksCoherent(services, outcomes);
    CountsBounded(BuildChecks(services, outcomes));
  }

  /** Entries of `m` among the first `j` keys of `order` whose status is `st`. */
  ghost function PrefixCount(order: seq<string>, j: nat, m: map<string, CheckResult>, st: CheckStatus): nat
    requires j <= |order|
  {
    |set k | k in order[..j] && k in m && m[k].status == st|
  }

  /** Extending the prefix by one fresh key adds that key's entry to the count. */
  lemma PrefixCountStep(order: seq<string>, j: nat, m: map<string, CheckResult>, st: CheckStatus)
    requires j < |order| && Distinct(order) && order[j] in m
    ensures PrefixCount(order, j + 1, m, st) == PrefixCount(order, j, m, st) + (if m[order[j]].status == st then 1 else 0)
  {
    var before := set k | k in order[..j] && k in m && m[k].status == st;
    var after := set k | k in order[..j + 1] && k in m && m[k].status == st;
    assert order[..j + 1] == order[..j] + [order[j]];
    assert order[j] !in order[..j];
    if m[order[j]].status == st {
      assert after == before + {order[j]};
    } else {
      assert after == before;
    }
  }

  /** Runs one pass: records `self`, then each service's classified outcome in
      table order, then counts the failing and warning entries over the map in
      insertion order and reduces them to the overall status. */
  method PerformHealthCheck(services: seq<ServiceCheck>, outcomes: seq<ProbeOutcome>) returns (report: HealthReport)
    requires |outcomes| == |services|
    ensures report == HealthCheck(services, outcomes)
  {
    var checks: map<string, CheckResult> := map[SelfKey := SelfCheck];
    var order: seq<string> := [SelfKey];
    for i := 0 to |services|
      invariant checks == BuildChecks(services[..i], outcomes[..i])
      invariant Distinct(order)
      invariant forall k :: k in order <==> k in checks
    {
      assert services[..i + 1][..i] == services[..i];
      assert outcomes[..i + 1][..i] == outcomes[..i];
      var alias := services[i].alias;
      if alias !in checks {
        order := order + [alias];
      }
      checks := checks[alias := CheckServiceHealth(services[i], outcomes[i])];
    }
    assert services[..|services|] == services && outcomes[..|outcomes|] == outcomes;

    var failCount, warnCount := 0, 0;
    for j := 0 to |order|
      invariant failCount == PrefixCount(order, j, checks, Fail)
      invariant warnCount == PrefixCount(order, j, checks, Warn)
    {
      PrefixCountStep(order, j, checks, Fail);
      PrefixCountStep(order, j, checks, Warn);
      var check := checks[order[j]];
      if check.status == Fail { failCount := failCount + 1; }
      if check.status == Warn { warnCount := warnCount + 1; }
    }
    assert order[..|order|] == order;
    assert (set k | k in order && k in checks && checks[k].status == Fail) == (set k | k in checks && checks[k].status == Fail);
    assert (set k | k in order && k in checks && checks[k].status == Warn) == (set k | k in checks && checks[k].status == Warn);

    var overall := Overall(failCount, warnCount, |services|);
    report := HealthReport(overall, checks);
  }
}
