/**
 * The health check of src/utils/healthCheck.ts: a registry of per-component
 * metrics, a database ping, and the rule that turns component statuses into
 * one system status (any 'failed'/'unhealthy' beats any 'stopped'/'degraded',
 * which beats 'healthy').
 *
 * The database ping is the boolean `ping`, the clock is `now`, and whether the
 * metric collection throws is the boolean `collectionThrows`.
 */
module HealthChecks {
  import opened Wrappers

  datatype HealthStatus = Healthy | Degraded | Unhealthy

  /** The known fields of a component's metrics; every one is optional. */
  datatype ComponentMetrics = ComponentMetrics(
    lastProcessedSlot: Option<int>,
    lastProcessedTimestamp: Option<int>,
    status: Option<string>,
    updatedAt: Option<int>,
    ping: Option<bool>)

  datatype HealthReport = HealthReport(
    status: HealthStatus,
    components: map<string, ComponentMetrics>,
    lastCheck: int,
    uptime: int)

  const DatabaseComponent := "database"

  /** The component reports one of `words` as its (non-empty) status. */
  predicate Reports(c: ComponentMetrics, words: set<string>) {
    c.status.Some? && c.status.value != "" && c.status.value in words
  }

  const UnhealthyWords: set<string> := {"failed", "unhealthy"}
  const DegradedWords: set<string> := {"stopped", "degraded"}

  /** `determineSystemHealth`: the priority rule over the components' statuses. */
  function DetermineSystemHealth(components: map<string, ComponentMetrics>): (r: HealthStatus)
    ensures r == Unhealthy <==>
      exists k :: k in components && Reports(components[k], UnhealthyWords)
    ensures r == Degraded <==>
      (forall k :: k in components ==> !Reports(components[k], UnhealthyWords)) &&
      (exists k :: k in components && Reports(components[k], DegradedWords))
    ensures r == Healthy <==>
      forall k :: k in components ==>
        !Reports(components[k], UnhealthyWords) && !Reports(components[k], DegradedWords)
  {
    var statuses := set k | k in components && components[k].status.Some? && components[k].status.value != ""
                      :: components[k].status.value;
    if "failed" in statuses || "unhealthy" in statuses then
      Unhealthy
    else if "stopped" in statuses || "degraded" in statuses then
      Degraded
    else
      Healthy
  }

  /** A component with a missing or empty status does not affect the result. */
  lemma StatuslessComponentIgnored(components: map<string, ComponentMetrics>, name: string, c: ComponentMetrics)
    requires name !in components
    requires c.status.None? || c.status.value == ""
    ensures DetermineSystemHealth(components[name := c]) == DetermineSystemHealth(components)
  {
    NeutralComponentIgnored(components, name, c);
  }

  /** A new component that reports neither an unhealthy nor a degraded word does not affect the result. */
  lemma NeutralComponentIgnored(components: map<string, ComponentMetrics>, name: string, c: ComponentMetrics)
    requires name !in components
    requires !Reports(c, UnhealthyWords) && !Reports(c, DegradedWords)
    ensures DetermineSystemHealth(components[name := c]) == DetermineSystemHealth(components)
  {
    var grown := components[name := c];
    var r := DetermineSystemHealth(components);
    if r == Unhealthy {
      var k :| k in components && Reports(components[k], UnhealthyWords);
      assert grown[k] == components[k];
    } else if r == Degraded {
      var k :| k in components && Reports(components[k], DegradedWords);
      assert grown[k] == components[k];
    }
  }

  /** The entry the database ping contributes. */
  function DatabaseEntry(ping: bool, now: int): (c: ComponentMetrics)
    ensures c.status == Some(if ping then "healthy" else "unhealthy")
  {
    ComponentMetrics(None, None, Some(if ping then "healthy" else "unhealthy"), Some(now), Some(ping))
  }

  /** What `collectComponentMetrics` returns for the given registry. */
  function Collected(metrics: map<string, ComponentMetrics>, ping: bool, now: int): (components: map<string, ComponentMetrics>)
    ensures components.Keys == metrics.Keys + {DatabaseComponent}
    ensures components[DatabaseComponent] == DatabaseEntry(ping, now)
    ensures forall k :: k in metrics && k != DatabaseComponent ==> components[k] == metrics[k]
  {
    metrics[DatabaseComponent := DatabaseEntry(ping, now)]
  }

  /** A failed ping makes the whole system unhealthy, whatever is registered. */
  lemma FailedPingIsUnhealthy(metrics: map<string, ComponentMetrics>, now: int)
    ensures DetermineSystemHealth(Collected(metrics, false, now)) == Unhealthy
  {
    var components := Collected(metrics, false, now);
    assert Reports(components[DatabaseComponent], UnhealthyWords);
  }

  /**
   * With a successful ping the system status is decided by the registered
   * components alone, except that an entry registered as "database" is
   * replaced by the ping's.
   */
  lemma SuccessfulPingDefersToComponents(metrics: map<string, ComponentMetrics>, now: int)
    requires DatabaseComponent !in metrics
    ensures DetermineSystemHealth(Collected(metrics, true, now)) == DetermineSystemHealth(metrics)
  {
    NeutralComponentIgnored(metrics, DatabaseComponent, DatabaseEntry(true, now));
  }

  class HealthCheck {
    var metrics: map<string, ComponentMetrics>
    var status: HealthStatus
    var lastCheck: int
    const startTime: int

    constructor (now: int)
      ensures metrics == map[] && status == Healthy && lastCheck == 0 && startTime == now
    {
      metrics := map[];
      status := Healthy;
      lastCheck := 0;
      startTime := now;
    }

    /** `registerMetrics`: replaces the component's entry, stamped with `now`. */
    method RegisterMetrics(component: string, m: ComponentMetrics, now: int)
      modifies this
      ensures metrics == old(metrics)[component := m.(updatedAt := Some(now))]
      ensures status == old(status) && lastCheck == old(lastCheck)
    {
      metrics := metrics[component := m.(updatedAt := Some(now))];
    }

    /** `updateStatus`: sets the status and always refreshes `lastCheck`. */
    method UpdateStatus(s: HealthStatus, now: int)
      modifies this
      ensures status == s && lastCheck == now
      ensures metrics == old(metrics)
    {
      if status != s {
        status := s;
      }
      lastCheck := now;
    }

    /** `collectComponentMetrics`: copies every registered entry, then adds the ping's. */
    method CollectComponentMetrics(ping: bool, now: int) returns (components: map<string, ComponentMetrics>)
      ensures components == Collected(metrics, ping, now)
    {
      components := map[];
      var pending := metrics.Keys;
      while pending != {}
        invariant pending <= metrics.Keys
        invariant components.Keys == metrics.Keys - pending
        invariant forall k :: k in components ==> components[k] == metrics[k]
        decreases pending
      {
        var k :| k in pending;
        components := components[k := metrics[k]];
        pending := pending - {k};
      }
      components := components[DatabaseComponent := DatabaseEntry(ping, now)];
    }

    /**
     * `checkHealth`: on a normal run the status becomes the one determined from
     * the collected metrics; if collecting throws, the status becomes unhealthy
     * and the report carries the registered metrics.
     */
    method CheckHealth(ping: bool, collectionThrows: bool, now: int) returns (report: HealthReport)
      modifies this
      ensures metrics == old(metrics) && lastCheck == now
      ensures !collectionThrows ==>
        var components := Collected(metrics, ping, now);
        status == DetermineSystemHealth(components) &&
        report == HealthReport(status, components, now, now - startTime)
      ensures collectionThrows ==>
        status == Unhealthy && report == HealthReport(Unhealthy, metrics, now, now - startTime)
    {
      lastCheck := now;
      if !collectionThrows {
        var components := CollectComponentMetrics(ping, now);
        var systemStatus := DetermineSystemHealth(components);
        if status != systemStatus {
          UpdateStatus(systemStatus, now);
        }
        report := HealthReport(status, components, lastCheck, now - startTime);
      } else {
        status := Unhealthy;
        report := HealthReport(status, metrics, lastCheck, now - startTime);
      }
    }

    function GetStatus(): (s: HealthStatus)
      reads this
      ensures s == status
    {
      status
    }

    function GetUptime(now: int): (u: int)
      ensures u + startTime == now
    {
      now - startTime
    }
  }
}
