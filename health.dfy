/** The health endpoint (src/app/api/health/route.ts): a payload assembled
    from a database liveness probe and the state of the 'anthropic'
    breaker, and the HTTP status derived from it. */
module Health {
  import opened Common
  import opened CircuitBreakers

  datatype Status = Unknown | Healthy | Degraded | Unhealthy

  /** How `SELECT 1` went: its latency, or the error (`None` when the thrown
      value is not an `Error`, reported as 'Unknown error'). */
  datatype DbProbe = DbReachable(latencyMs: int) | DbUnreachable(error: Option<string>)

  datatype DatabaseCheck = DatabaseCheck(status: Status, latencyMs: Option<int>, error: Option<string>)
  datatype AnthropicCheck = AnthropicCheck(status: Status, circuitState: string)
  datatype HealthStatus = HealthStatus(
    status: Status, timestamp: string, version: string, database: DatabaseCheck, anthropic: AnthropicCheck)
  datatype HealthResponse = HealthResponse(body: HealthStatus, code: int)

  /** The payload and code for a database probe result and a breaker lookup
      (`None` when the lookup throws), built the way the handler builds it:
      a 'healthy' record whose checks and status are overwritten step by
      step. `timestamp` and `packageVersion` stand for the clock and the
      environment. */
  method Check(db: DbProbe, breaker: Option<CircuitState>, timestamp: string, packageVersion: Option<string>)
    returns (r: HealthResponse)
    ensures r.body.database ==
      match db
      case DbReachable(ms) => DatabaseCheck(Healthy, Some(ms), None)
      case DbUnreachable(e) => DatabaseCheck(Unhealthy, None, Some(e.GetOr("Unknown error")))
    ensures r.body.anthropic.status == if breaker.None? || breaker == Some(Closed) then Healthy else Degraded
    ensures r.body.anthropic.circuitState == if breaker.Some? then StateName(breaker.value) else "not_initialized"
    ensures r.body.status == if db.DbReachable? && breaker != Some(Open) then Healthy else Degraded
    ensures r.body.status != Unhealthy && r.code == 200
    ensures r.body.timestamp == timestamp && r.body.version == OrElse(packageVersion, "1.0.0")
  {
    var health := HealthStatus(Healthy, timestamp, OrElse(packageVersion, "1.0.0"),
                               DatabaseCheck(Unknown, None, None), AnthropicCheck(Unknown, "unknown"));
    match db {
      case DbReachable(ms) =>
        health := health.(database := DatabaseCheck(Healthy, Some(ms), None));
      case DbUnreachable(e) =>
        health := health.(database := DatabaseCheck(Unhealthy, None, Some(e.GetOr("Unknown error"))));
        health := health.(status := Degraded);
    }
    match breaker {
      case Some(state) =>
        health := health.(anthropic := AnthropicCheck(if state == Closed then Healthy else Degraded, StateName(state)));
        if state == Open {
          health := health.(status := Degraded);
        }
      case None =>
        health := health.(anthropic := AnthropicCheck(Healthy, "not_initialized"));
    }
    var code := if health.status == Unhealthy then 503 else 200;
    r := HealthResponse(health, code);
  }

  /** `GET /api/health` against the process's breaker registry: the
      'anthropic' breaker is looked up without overrides, so a probe that
      comes before the first chat creates it with the defaults. The lookup
      itself never throws here, so the 'not_initialized' report is not
      reachable through this path. */
  method Get(registry: Registry, db: DbProbe, timestamp: string, packageVersion: Option<string>)
    returns (r: HealthResponse)
    requires registry.Valid()
    modifies registry
    ensures registry.Valid()
    ensures "anthropic" in registry.breakers
    ensures "anthropic" in old(registry.breakers) ==> registry.breakers == old(registry.breakers)
    ensures "anthropic" !in old(registry.breakers) ==>
      registry.breakers["anthropic"].config == Merge(DefaultConfig(registry.envTimeout), NoOverrides.(name := Some("anthropic")))
    ensures var s := registry.breakers["anthropic"].state;
      && r.body.anthropic == AnthropicCheck(if s == Closed then Healthy else Degraded, StateName(s))
      && r.body.status == (if db.DbReachable? && s != Open then Healthy else Degraded)
    ensures r.code == 200
  {
    var breaker := registry.Get("anthropic", NoOverrides);
    var snapshot := breaker.GetState();
    r := Check(db, Some(snapshot.state), timestamp, packageVersion);
  }

  /** Only an open breaker degrades the overall status: with the database
      up, a half-open breaker reports a degraded component under a healthy
      overall status. */
  method HalfOpenLeavesOverallHealthy(latencyMs: int, timestamp: string) returns (overall: Status, component: Status)
    ensures overall == Healthy && component == Degraded
  {
    var r := Check(DbReachable(latencyMs), Some(HalfOpen), timestamp, None);
    overall, component := r.body.status, r.body.anthropic.status;
  }

  /** With the database down the handler still answers 200 with a degraded
      status; no input reaches the 503 branch. */
  method DatabaseOutage(breaker: Option<CircuitState>, timestamp: string) returns (overall: Status, code: int)
    ensures overall == Degraded && code == 200
  {
    var r := Check(DbUnreachable(None), breaker, timestamp, None);
    overall, code := r.body.status, r.code;
  }
}
