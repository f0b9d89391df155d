/** The circuit breaker that guards every call to an external service, and
    the process-wide registry that hands out one breaker per service name
    (src/lib/circuit-breaker.ts).

    The clock is an explicit `now` (milliseconds) and the guarded operation is
    represented by how it settles relative to the breaker's deadline
    (`Outcome`), instead of a promise raced against a timer. The breaker's
    three mutable fields are tied, method by method, to pure functions on a
    `Snapshot` (the triple `getState` returns); the properties of the
    breaker are lemmas about those functions. */
module CircuitBreakers {
  import opened Common

  datatype CircuitState = Closed | Open | HalfOpen

  /** The spelling used in logs and in the health payload. */
  function StateName(s: CircuitState): string {
    match s
    case Closed => "closed"
    case Open => "open"
    case HalfOpen => "half-open"
  }

  datatype Config = Config(timeout: int, errorThreshold: int, resetTimeout: int, name: string)

  /** A caller-supplied `Partial<CircuitBreakerConfig>`: absent fields keep
      the default. */
  datatype PartialConfig = PartialConfig(
    timeout: Option<int>, errorThreshold: Option<int>, resetTimeout: Option<int>, name: Option<string>)

  const NoOverrides := PartialConfig(None, None, None, None)

  /** Timeout used when the CIRCUIT_BREAKER_TIMEOUT environment variable is unset. */
  const FallbackTimeout := 10000

  /** DEFAULT_CONFIG; `envTimeout` is the parsed environment variable, if set. */
  function DefaultConfig(envTimeout: Option<int>): (c: Config)
    ensures c.errorThreshold == 5 && c.resetTimeout == 30000 && c.name == "default"
    ensures envTimeout.None? ==> c.timeout == FallbackTimeout
    ensures envTimeout.Some? ==> c.timeout == envTimeout.value
  {
    Config(envTimeout.GetOr(FallbackTimeout), 5, 30000, "default")
  }

  /** `{ ...base, ...over }` */
  function Merge(base: Config, over: PartialConfig): (c: Config)
    ensures over == NoOverrides ==> c == base
    ensures over.timeout.Some? ==> c.timeout == over.timeout.value
    ensures over.errorThreshold.Some? ==> c.errorThreshold == over.errorThreshold.value
    ensures over.resetTimeout.Some? ==> c.resetTimeout == over.resetTimeout.value
    ensures over.name.Some? ==> c.name == over.name.value
  {
    Config(over.timeout.GetOr(base.timeout), over.errorThreshold.GetOr(base.errorThreshold),
           over.resetTimeout.GetOr(base.resetTimeout), over.name.GetOr(base.name))
  }

  /** What `getState` reports: state, failure count and time of the last failure. */
  datatype Snapshot = Snapshot(state: CircuitState, failures: nat, lastFailure: Option<int>)

  const Initial := Snapshot(Closed, 0, None)

  /** The breaker's invariant. Open and half-open are only reached through a
      failure, which records its time; and, for a threshold of at least one,
      the breaker is closed exactly while fewer failures than the threshold
      have been counted since the last success. */
  ghost predicate Inv(cfg: Config, s: Snapshot) {
    && (s.state != Closed ==> s.lastFailure.Some?)
    && (s.failures > 0 ==> s.lastFailure.Some?)
    && (cfg.errorThreshold >= 1 ==> (s.state == Closed <==> s.failures < cfg.errorThreshold))
  }

  /** `shouldReset`: no failure recorded, or the reset window has elapsed. */
  predicate ShouldReset(cfg: Config, s: Snapshot, now: int) {
    s.lastFailure.None? || now - s.lastFailure.value >= cfg.resetTimeout
  }

  /** The check at the top of `execute`: `None` when the call is refused,
      otherwise the state in which the operation is attempted. */
  function Admit(cfg: Config, s: Snapshot, now: int): (r: Option<Snapshot>)
    ensures r.None? <==> s.state == Open && !ShouldReset(cfg, s, now)
    ensures r.Some? ==> r.value.state != Open && r.value.(state := s.state) == s
    ensures s.state != Open ==> r == Some(s)
  {
    if s.state != Open then Some(s)
    else if ShouldReset(cfg, s, now) then Some(s.(state := HalfOpen))
    else None
  }

  /** `onSuccess` */
  function BookSuccess(s: Snapshot): (r: Snapshot)
    ensures r.failures == 0 && r.state != HalfOpen && r.lastFailure == s.lastFailure
    ensures s.state != HalfOpen ==> r.state == s.state
  {
    s.(failures := 0, state := if s.state == HalfOpen then Closed else s.state)
  }

  /** `onFailure`, run when the failed call settles at time `settled` */
  function BookFailure(cfg: Config, s: Snapshot, settled: int): (r: Snapshot)
    ensures r.failures == s.failures + 1 && r.lastFailure == Some(settled)
    ensures r.state == Open <==> s.state == Open || s.failures + 1 >= cfg.errorThreshold
    ensures r.state != Open ==> r.state == s.state
  {
    var f := s.failures + 1;
    s.(failures := f, lastFailure := Some(settled), state := if f >= cfg.errorThreshold then Open else s.state)
  }

  /** How the guarded operation settles: with a value or an error before the
      deadline, or not before the deadline (in which case whatever it does
      later is discarded). */
  datatype Outcome<T> = Resolved(value: T) | Rejected(error: string) | ExceedsDeadline

  datatype BreakerError =
    | BreakerOpen(message: string)     // CircuitBreakerOpenError
    | Timeout(message: string)         // TimeoutError
    | OperationFailed(error: string)   // the operation's own error, rethrown unchanged

  /** What `execute` does for its caller: returns a value or throws. */
  datatype Result<T> = Returned(value: T) | Threw(error: BreakerError)

  function OpenMessage(cfg: Config): string {
    "Circuit breaker is open for " + cfg.name
  }

  function TimeoutMessage(cfg: Config): string {
    "Request timed out after " + IntToString(cfg.timeout) + "ms"
  }

  /** `executeWithTimeout`: the race between the operation and the timer. */
  function RaceWithTimeout<T>(cfg: Config, op: Outcome<T>): (r: Result<T>)
    ensures r.Returned? <==> op.Resolved?
    ensures op.Resolved? ==> r.value == op.value
    ensures op.Rejected? ==> r == Threw(OperationFailed(op.error))
    ensures op.ExceedsDeadline? ==> r.Threw? && r.error.Timeout?
  {
    match op
    case Resolved(v) => Returned(v)
    case Rejected(e) => Threw(OperationFailed(e))
    case ExceedsDeadline => Threw(Timeout(TimeoutMessage(cfg)))
  }

  /** When a call admitted at `now` can settle: not before it started, and,
      when the operation misses the deadline, not before the timer fires. */
  predicate SettlesAt<T>(cfg: Config, op: Outcome<T>, now: int, settled: int) {
    now <= settled && (op.ExceedsDeadline? ==> now + cfg.timeout <= settled)
  }

  /** The effect of one `execute` call: the new snapshot, what the caller
      sees, and whether the operation was invoked. */
  datatype Step<T> = Step(after: Snapshot, result: Result<T>, invoked: bool)

  /** `execute` admitted or refused at `now`; an attempted operation
      settles at `settled`, and a failure is booked with that time. */
  function ExecuteSpec<T>(cfg: Config, s: Snapshot, op: Outcome<T>, now: int, settled: int): (st: Step<T>)
    ensures st.invoked <==> Admit(cfg, s, now).Some?
    ensures !st.invoked ==> st.after == s && st.result == Threw(BreakerOpen(OpenMessage(cfg)))
    ensures st.invoked ==> st.result == RaceWithTimeout(cfg, op)
    ensures st.invoked ==> st.after.failures == (if op.Resolved? then 0 else s.failures + 1)
  {
    match Admit(cfg, s, now)
    case None => Step(s, Threw(BreakerOpen(OpenMessage(cfg))), false)
    case Some(s1) =>
      var r := RaceWithTimeout(cfg, op);
      Step(if r.Returned? then BookSuccess(s1) else BookFailure(cfg, s1, settled), r, true)
  }

  // ---------------------------------------------------------------------
  // Properties of one call

  /** Every call keeps the invariant. */
  lemma ExecutePreservesInv<T>(cfg: Config, s: Snapshot, op: Outcome<T>, now: int, settled: int)
    requires Inv(cfg, s)
    ensures Inv(cfg, ExecuteSpec(cfg, s, op, now, settled).after)
  {
  }

  /** While open and inside the reset window the call fails fast: the
      operation is not invoked and nothing changes. */
  lemma FailFastWhileOpen<T>(cfg: Config, s: Snapshot, op: Outcome<T>, now: int, settled: int)
    requires s.state == Open && s.lastFailure.Some? && now - s.lastFailure.value < cfg.resetTimeout
    ensures ExecuteSpec(cfg, s, op, now, settled) == Step(s, Threw(BreakerOpen(OpenMessage(cfg))), false)
  {
  }

  /** Only an open breaker inside its reset window refuses a call; every
      other call invokes the operation exactly once. */
  lemma InvokedUnlessRefused<T>(cfg: Config, s: Snapshot, op: Outcome<T>, now: int, settled: int)
    ensures !ExecuteSpec(cfg, s, op, now, settled).invoked
        <==> s.state == Open && s.lastFailure.Some? && now - s.lastFailure.value < cfg.resetTimeout
    ensures ExecuteSpec(cfg, s, op, now, settled).invoked ==> ExecuteSpec(cfg, s, op, now, settled).result == RaceWithTimeout(cfg, op)
  {
  }

  /** A success clears the failure count and always leaves the breaker
      closed (an admitted call starts from closed or half-open). */
  lemma SuccessCloses<T>(cfg: Config, s: Snapshot, v: T, now: int, settled: int)
    requires Admit(cfg, s, now).Some?
    ensures var st := ExecuteSpec(cfg, s, Resolved(v), now, settled);
      st.result == Returned(v) && st.after == Snapshot(Closed, 0, s.lastFailure)
  {
  }

  /** A failure (the operation's error or a timeout) counts exactly one,
      records the time it settled, is rethrown to the caller, and opens the
      breaker exactly when the count reaches the threshold. */
  lemma FailureCounts<T>(cfg: Config, s: Snapshot, op: Outcome<T>, now: int, settled: int)
    requires Inv(cfg, s) && cfg.errorThreshold >= 1
    requires Admit(cfg, s, now).Some? && !op.Resolved?
    ensures var st := ExecuteSpec(cfg, s, op, now, settled);
      && st.after.failures == s.failures + 1
      && st.after.lastFailure == Some(settled)
      && (st.after.state == Open <==> st.after.failures >= cfg.errorThreshold)
      && (st.after.state != Open ==> st.after.state == Closed)
      && st.result == RaceWithTimeout(cfg, op) && st.result.Threw?
  {
  }

  /** A failed trial in half-open reopens the breaker at once: the count is
      never reset on the open -> half-open step, so it is still at the
      threshold. */
  lemma HalfOpenFailureReopens<T>(cfg: Config, s: Snapshot, op: Outcome<T>, now: int, settled: int)
    requires Inv(cfg, s) && cfg.errorThreshold >= 1
    requires s.state == HalfOpen || (s.state == Open && ShouldReset(cfg, s, now))
    requires !op.Resolved?
    ensures ExecuteSpec(cfg, s, op, now, settled).after.state == Open
    ensures ExecuteSpec(cfg, s, op, now, settled).invoked
  {
  }

  /** A call that misses the deadline and opens the breaker starts the reset
      window when its timer fires, not when it was admitted: any call that
      arrives before `now + timeout + resetTimeout` is refused. */
  lemma TimeoutOpensWindowAtSettle<T>(cfg: Config, s: Snapshot, op: Outcome<T>, now: int, settled: int, next: Call<T>)
    requires Admit(cfg, s, now).Some? && s.failures + 1 >= cfg.errorThreshold
    requires op.ExceedsDeadline? && SettlesAt(cfg, op, now, settled)
    requires next.now < now + cfg.timeout + cfg.resetTimeout
    ensures var s1 := ExecuteSpec(cfg, s, op, now, settled).after;
      && s1.state == Open && s1.lastFailure == Some(settled)
      && ExecuteSpec(cfg, s1, next.op, next.now, next.settled) == Step(s1, Threw(BreakerOpen(OpenMessage(cfg))), false)
  {
  }

  /** Under the invariant, an open breaker has counted at least the
      threshold of failures. */
  lemma OpenMeansThresholdReached(cfg: Config, s: Snapshot)
    requires Inv(cfg, s) && cfg.errorThreshold >= 1 && s.state == Open
    ensures s.failures >= cfg.errorThreshold && s.lastFailure.Some?
  {
  }

  // ---------------------------------------------------------------------
  // Properties of a sequence of calls

  /** A call: how its operation settles, when it is admitted and when it
      settles. */
  datatype Call<T> = Call(op: Outcome<T>, now: int, settled: int)

  /** The snapshot after a sequence of `execute` calls, made one after the other. */
  function Run<T>(cfg: Config, s: Snapshot, calls: seq<Call<T>>): Snapshot
    decreases |calls|
  {
    if calls == [] then s
    else Run(cfg, ExecuteSpec(cfg, s, calls[0].op, calls[0].now, calls[0].settled).after, calls[1..])
  }

  lemma {:induction false} RunPreservesInv<T>(cfg: Config, s: Snapshot, calls: seq<Call<T>>)
    requires Inv(cfg, s)
    ensures Inv(cfg, Run(cfg, s, calls))
    decreases |calls|
  {
    if calls != [] {
      ExecutePreservesInv(cfg, s, calls[0].op, calls[0].now, calls[0].settled);
      RunPreservesInv(cfg, ExecuteSpec(cfg, s, calls[0].op, calls[0].now, calls[0].settled).after, calls[1..]);
    }
  }

  predicate AllFail<T>(calls: seq<Call<T>>) {
    forall i | 0 <= i < |calls| :: !calls[i].op.Resolved?
  }

  /** From closed, consecutive failures are each counted, and the breaker
      stays closed until the count reaches the threshold, when it opens. */
  lemma {:induction false} ConsecutiveFailures<T>(cfg: Config, s: Snapshot, calls: seq<Call<T>>)
    requires Inv(cfg, s) && cfg.errorThreshold >= 1 && s.state == Closed
    requires AllFail(calls) && calls != [] && s.failures + |calls| <= cfg.errorThreshold
    ensures Run(cfg, s, calls).failures == s.failures + |calls|
    ensures Run(cfg, s, calls).lastFailure == Some(calls[|calls| - 1].settled)
    ensures Run(cfg, s, calls).state == if s.failures + |calls| == cfg.errorThreshold then Open else Closed
    decreases |calls|
  {
    var s1 := ExecuteSpec(cfg, s, calls[0].op, calls[0].now, calls[0].settled).after;
    FailureCounts(cfg, s, calls[0].op, calls[0].now, calls[0].settled);
    if |calls| > 1 {
      assert AllFail(calls[1..]) by {
        forall i | 0 <= i < |calls[1..]| ensures !calls[1..][i].op.Resolved? {
          assert calls[1..][i] == calls[i + 1];
        }
      }
      ExecutePreservesInv(cfg, s, calls[0].op, calls[0].now, calls[0].settled);
      ConsecutiveFailures(cfg, s1, calls[1..]);
      assert calls[1..][|calls[1..]| - 1] == calls[|calls| - 1];
    }
  }

  /** Scenario: with threshold 3, three failing calls open the breaker, and a
      fourth call inside the reset window fails fast without invoking the
      operation. */
  lemma ThreeFailuresThenFailFast<T>(timeout: int, resetTimeout: int, calls: seq<Call<T>>, fourth: Call<T>)
    requires |calls| == 3 && AllFail(calls)
    requires fourth.now - calls[2].settled < resetTimeout
    ensures var cfg := Config(timeout, 3, resetTimeout, "anthropic");
      var s3 := Run(cfg, Initial, calls);
      && s3.state == Open && s3.failures == 3
      && ExecuteSpec(cfg, s3, fourth.op, fourth.now, fourth.settled) == Step(s3, Threw(BreakerOpen(OpenMessage(cfg))), false)
  {
    var cfg := Config(timeout, 3, resetTimeout, "anthropic");
    ConsecutiveFailures(cfg, Initial, calls);
  }

  /** Scenario: once the reset window has elapsed, a succeeding call closes
      the breaker and clears the count; a failing one reopens it without
      re-accumulating the threshold. */
  lemma RecoveryAfterResetWindow<T>(cfg: Config, s: Snapshot, v: T, err: Outcome<T>, now: int, settled: int)
    requires Inv(cfg, s) && cfg.errorThreshold >= 1 && s.state == Open
    requires now - s.lastFailure.value >= cfg.resetTimeout
    requires !err.Resolved?
    ensures ExecuteSpec(cfg, s, Resolved(v), now, settled).after.state == Closed
    ensures ExecuteSpec(cfg, s, Resolved(v), now, settled).after.failures == 0
    ensures ExecuteSpec(cfg, s, err, now, settled).after.state == Open
    ensures ExecuteSpec(cfg, s, err, now, settled).after.failures == s.failures + 1
  {
  }

  // ---------------------------------------------------------------------
  // The breaker object

  class CircuitBreaker {
    const config: Config
    var state: CircuitState
    var failures: nat
    var lastFailure: Option<int>

    function Snap(): Snapshot
      reads this
    {
      Snapshot(state, failures, lastFailure)
    }

    ghost predicate Valid()
      reads this
    {
      Inv(config, Snap())
    }

    /** `new CircuitBreaker(overrides)`: defaults merged with the overrides,
        closed, no failures, no failure time. */
    constructor (overrides: PartialConfig, envTimeout: Option<int>)
      ensures config == Merge(DefaultConfig(envTimeout), overrides)
      ensures Snap() == Initial
      ensures Valid()
    {
      config := Merge(DefaultConfig(envTimeout), overrides);
      state, failures, lastFailure := Closed, 0, None;
    }

    /** `execute`: refuse, or attempt the operation once and book exactly one
        success or failure. `invoked` tells whether the operation ran. */
    method Execute<T>(op: Outcome<T>, now: int, settled: int) returns (r: Result<T>, invoked: bool)
      requires Valid()
      modifies this
      ensures Valid()
      ensures var st := ExecuteSpec(config, old(Snap()), op, now, settled);
        Snap() == st.after && r == st.result && invoked == st.invoked
    {
      if state == Open {
        if ShouldResetNow(now) {
          state := HalfOpen;
        } else {
          return Threw(BreakerOpen(OpenMessage(config))), false;
        }
      }
      invoked := true;
      r := RaceWithTimeout(config, op);
      if r.Returned? {
        OnSuccess();
      } else {
        OnFailure(settled);
      }
      ExecutePreservesInv(config, old(Snap()), op, now, settled);
    }

    method OnSuccess()
      modifies this
      ensures Snap() == BookSuccess(old(Snap()))
    {
      failures := 0;
      if state == HalfOpen {
        state := Closed;
      }
    }

    method OnFailure(settled: int)
      modifies this
      ensures Snap() == BookFailure(config, old(Snap()), settled)
    {
      failures := failures + 1;
      lastFailure := Some(settled);
      if failures >= config.errorThreshold {
        state := Open;
      }
    }

    predicate ShouldResetNow(now: int)
      reads this
    {
      ShouldReset(config, Snap(), now)
    }

    /** `getState`: reports the three fields and changes nothing. */
    method GetState() returns (s: Snapshot)
      ensures s == Snap()
    {
      s := Snapshot(state, failures, lastFailure);
    }
  }

  // ---------------------------------------------------------------------
  // The registry

  /** Overrides the LLM client passes for the 'anthropic' breaker. */
  const AnthropicOverrides := PartialConfig(Some(30000), Some(3), None, None)

  /** The module-level `breakers` map with `getCircuitBreaker` and
      `withCircuitBreaker`. `envTimeout` is the process's parsed
      CIRCUIT_BREAKER_TIMEOUT, if set. */
  class Registry {
    const envTimeout: Option<int>
    var breakers: map<string, CircuitBreaker>

    /** Each breaker is filed under its own configured name (so distinct
        names hold distinct breakers) and keeps its invariant. */
    ghost predicate Valid()
      reads this, breakers.Values
    {
      forall n | n in breakers :: breakers[n].config.name == n && breakers[n].Valid()
    }

    constructor (envTimeout: Option<int>)
      ensures this.envTimeout == envTimeout && breakers == map[] && Valid()
    {
      this.envTimeout := envTimeout;
      breakers := map[];
    }

    /** `getCircuitBreaker(name, overrides)`: the breaker already filed under
        `name`, unchanged, or else a new one built from the defaults, the
        caller's overrides and `name`. */
    method Get(name: string, overrides: PartialConfig) returns (b: CircuitBreaker)
      requires Valid()
      modifies this
      ensures Valid()
      ensures name in breakers && b == breakers[name] && b.config.name == name
      ensures name in old(breakers) ==> b == old(breakers)[name] && breakers == old(breakers)
      ensures name !in old(breakers) ==>
        && fresh(b) && breakers == old(breakers)[name := b]
        && b.config == Merge(DefaultConfig(envTimeout), overrides.(name := Some(name)))
        && b.Snap() == Initial
    {
      if name !in breakers {
        var created := new CircuitBreaker(overrides.(name := Some(name)), envTimeout);
        breakers := breakers[name := created];
      }
      b := breakers[name];
    }

    /** `withCircuitBreaker(name, op, overrides)`: look the breaker up (or
        create it) and execute the operation through it. No other breaker
        is touched. */
    method WithCircuitBreaker<T>(name: string, op: Outcome<T>, overrides: PartialConfig, now: int, settled: int)
      returns (r: Result<T>, invoked: bool)
      requires Valid()
      modifies this, breakers.Values
      ensures Valid()
      ensures name in breakers && breakers.Keys == old(breakers.Keys) + {name}
      ensures name in old(breakers) ==> breakers == old(breakers)
      ensures name !in old(breakers) ==>
        breakers[name].config == Merge(DefaultConfig(envTimeout), overrides.(name := Some(name)))
      ensures var before := if name in old(breakers) then old(breakers[name].Snap()) else Initial;
        var st := ExecuteSpec(breakers[name].config, before, op, now, settled);
        breakers[name].Snap() == st.after && r == st.result && invoked == st.invoked
      ensures forall n | n in old(breakers) && n != name ::
        breakers[n] == old(breakers[n]) && breakers[n].Snap() == old(breakers[n].Snap())
    {
      var b := Get(name, overrides);
      r, invoked := b.Execute(op, now, settled);
      forall n | n in breakers ensures breakers[n].config.name == n && breakers[n].Valid() {
        if n != name {
          assert breakers[n] != b;
        }
      }
    }
  }

  /** Scenario: when the health probe looks the 'anthropic' breaker up before
      the first chat, the breaker is created with the defaults, and the LLM
      client's threshold of 3 and timeout of 30000 are ignored for the rest of
      the process. */
  method HealthProbeBeforeFirstChat(envTimeout: Option<int>) returns (threshold: int, timeout: int)
    ensures threshold == 5
    ensures timeout == envTimeout.GetOr(FallbackTimeout)
  {
    var registry := new Registry(envTimeout);
    var probed := registry.Get("anthropic", NoOverrides);
    var chat := registry.Get("anthropic", AnthropicOverrides);
    assert chat == probed;
    threshold, timeout := chat.config.errorThreshold, chat.config.timeout;
  }

  /** Scenario: when the first chat comes first, its overrides stick. */
  method FirstChatBeforeHealthProbe(envTimeout: Option<int>) returns (threshold: int, timeout: int)
    ensures threshold == 3 && timeout == 30000
  {
    var registry := new Registry(envTimeout);
    var chat := registry.Get("anthropic", AnthropicOverrides);
    var probed := registry.Get("anthropic", NoOverrides);
    threshold, timeout := probed.config.errorThreshold, probed.config.timeout;
  }
}
