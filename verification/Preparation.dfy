/** Preparing a configuration and connecting with it, config.go and the `connect` of pool.go, around
    collaborators that are not trusted: a resolver that may hand over any configuration, a Configure
    hook that may change it in place in any way, a pool factory. */
module Preparation {
  import opened Options
  import opened Errors
  import opened TlsOverride
  import opened NativeConfig

  const SECOND := 1_000_000_000

  const TLS_FROM_DSN: nat := 0
  const TLS_DISABLE: nat := 1
  const TLS_REQUIRE: nat := 2

  /** The typed input; a zero size or duration selects a default. */
  datatype Input = Input(
    dsn: Text, hasResolver: bool, hasConfigure: bool, limits: ConfigLimits,
    resolutionTimeout: int, connectTimeout: int, acquireTimeout: int, pingTimeout: int, shutdownTimeout: int,
    maxConns: int, minConns: int, minIdleConns: int,
    maxConnLifetime: int, maxConnLifetimeJitter: int, maxConnIdleTime: int, healthCheckPeriod: int,
    startupPolicy: nat, tlsMode: nat, tls: TlsConfig?)

  /** Whether the context is done at each point where it is looked at. */
  datatype Context = Context(atEntry: bool, afterResolve: bool, afterConfigure: bool, atEnd: bool, afterPrepare: bool)

  /** What the collaborators report when they are called, and whether the hook writes anything. */
  datatype Reports = Reports(
    resolveFails: bool, hookWrites: bool, hookErr: Option<Err>, openErr: Option<Err>, pingErr: Option<Err>)

  function OrDefault(value: int, default: int): int { if value == 0 then default else value }

  function Durations(i: Input): seq<int> {
    [i.connectTimeout, i.resolutionTimeout, i.acquireTimeout, i.pingTimeout, i.shutdownTimeout, i.maxConns, i.minConns,
     i.minIdleConns, i.maxConnLifetime, i.maxConnLifetimeJitter, i.maxConnIdleTime, i.healthCheckPeriod]
  }

  /** What is checked before any collaborator is called. */
  ghost predicate Prechecked(i: Input) {
    && i.hasResolver
    && (forall k | 0 <= k < 7 :: 0 <= i.limits.Fields()[k] <= CEILINGS.Fields()[k])
    && 0 < |i.dsn| <= OrDefault(i.limits.dsn, DEFAULTS.dsn)
    && (forall k | 0 <= k < |Durations(i)| :: Durations(i)[k] >= 0)
    && i.acquireTimeout <= MAXIMUM_CONFIG_TIMEOUT && i.shutdownTimeout <= MAXIMUM_CONFIG_TIMEOUT
    && i.startupPolicy <= 1 && i.tlsMode <= 2 && (i.tlsMode == 2 ==> i.tls != null)
    && OrDefault(i.resolutionTimeout, 5 * SECOND) <= MAXIMUM_CONFIG_TIMEOUT
  }

  /** Shape and policy at once: what every successful preparation returns. */
  ghost predicate FullyAdmitted(config: PoolConfig?, i: Input)
    reads config, if config == null then {} else {config.conn},
          if config == null || config.conn == null then [] else config.conn.fallbacks
  {
    config != null && ShapeOk(config, Defaulted(i.limits)) && WithinPolicy(config, i.startupPolicy)
  }

  /** The collaborators, with the number of calls each has received. What they do is arbitrary: the
      contracts say only when they may be called and what they may write. */
  class Collaborators {
    var resolves: nat
    var configures: nat
    var opens: nat
    var closes: nat
    var handed: PoolConfig?  // what the resolver transferred

    /** Transfers a fresh configuration of any shape, or nothing. */
    method Resolve(ghost i: Input, reports: Reports) returns (config: PoolConfig?, failed: bool)
      requires Prechecked(i)
      modifies `resolves, `handed
      ensures resolves == old(resolves) + 1 && failed == reports.resolveFails && handed == config
      ensures config != null ==> fresh(config) && (config.conn != null ==>
                fresh(config.conn) && forall k | 0 <= k < |config.conn.fallbacks| ::
                  config.conn.fallbacks[k] == null || fresh(config.conn.fallbacks[k]))
    {
      failed, config := reports.resolveFails, null;
      if * {
        var conn: ConnConfig? := null;
        if * {
          var fallbacks := AnyFallbacks();
          conn := new ConnConfig.Arbitrary(fallbacks);
        }
        config := new PoolConfig.Arbitrary(conn);
      }
      resolves, handed := resolves + 1, config;
    }

    /** Any fallback list: null entries and repeated pointers included. */
    method AnyFallbacks() returns (fallbacks: seq<Fallback?>)
      ensures forall j | 0 <= j < |fallbacks| :: fallbacks[j] == null || fresh(fallbacks[j])
    {
      fallbacks := [];
      var n :| n >= 0;
      for k := 0 to n
        invariant forall j | 0 <= j < |fallbacks| :: fallbacks[j] == null || fresh(fallbacks[j])
      {
        var next: Fallback? := null;
        if * {
          var host: Text := *;
          next := new Fallback(host);
        } else if fallbacks != [] {
          var j :| 0 <= j < |fallbacks|;
          next := fallbacks[j];
        }
        fallbacks := fallbacks + [next];
      }
    }

    /** The hook gets an admitted shape with the typed settings and the TLS override in place. It may
        rewrite all of it, and the storage of the override's copies with it. */
    method Configure(
      config: PoolConfig, ghost i: Input, reports: Reports,
      ghost v: TlsValue, ghost primary: set<object>, ghost stores: map<Fallback, set<object>>)
      returns (err: Option<Err>)
      requires ShapeOk(config, Defaulted(i.limits)) && config.conn.messageBody > 0
      requires TypedApplied(config, i) && TlsApplied(config.conn, i.tlsMode, v, primary, stores)
      requires MinimaOk(i) && this !in primary && this !in AllStores(stores)
      modifies `configures, config, config.conn, config.conn.fallbacks, primary, AllStores(stores)
      ensures configures == old(configures) + 1 && err == reports.hookErr
      ensures !reports.hookWrites ==>
                && unchanged(config) && unchanged(old(config.conn)) && unchanged(old(config.conn.fallbacks))
                && unchanged(primary) && unchanged(AllStores(stores))
    {
      configures, err := configures + 1, reports.hookErr;
      if reports.hookWrites {
        config.conn := *;
        config.maxConns, config.minConns, config.minIdleConns := *, *, *;
        config.pingTimeout, config.healthCheckPeriod, config.maxConnIdleTime := *, *, *;
        config.maxConnLifetime, config.maxConnLifetimeJitter := *, *;
      }
    }

    /** The pool factory sees only fully admitted configurations. */
    method Open(config: PoolConfig, ghost i: Input, reports: Reports) returns (err: Option<Err>)
      requires FullyAdmitted(config, i)
      modifies `opens
      ensures opens == old(opens) + 1 && err == reports.openErr
    {
      opens, err := opens + 1, reports.openErr;
    }

    method CloseBackend()
      modifies `closes
      ensures closes == old(closes) + 1
    {
      closes := closes + 1;
    }
  }

  // ---- TLS -----------------------------------------------------------------------------------

  ghost function AllStores(stores: map<Fallback, set<object>>): set<object> {
    set f, o | f in stores && o in stores[f] :: o
  }

  /** In mode 1 no host has a configuration; in mode 2 every host has one of its own with the
      override's contents, sharing storage with no other host. */
  ghost predicate TlsApplied(
    conn: ConnConfig, tlsMode: nat, v: TlsValue, primary: set<object>, stores: map<Fallback, set<object>>)
    reads conn, conn.fallbacks, primary, AllStores(stores)
  {
    && (tlsMode == 1 ==> conn.tls == null && forall f: Fallback | f in conn.fallbacks :: f.tls == null)
    && (tlsMode == 2 ==>
          && Overridden(conn.tls, conn.host, v, primary)
          && (forall f: Fallback | f in conn.fallbacks ::
                f in stores && FallbackOverridden(f, v, stores) && stores[f] !! primary)
          && (forall f, g: Fallback | f in conn.fallbacks && g in conn.fallbacks && f != g ::
                f in stores && g in stores && stores[f] !! stores[g]))
  }

  ghost predicate FallbackOverridden(f: Fallback, v: TlsValue, stores: map<Fallback, set<object>>)
    requires f in stores
    reads f, AllStores(stores)
  {
    StoreIsCovered(f, stores);
    Overridden(f.tls, f.host, v, stores[f])
  }

  lemma StoreIsCovered(f: Fallback, stores: map<Fallback, set<object>>)
    requires f in stores
    ensures stores[f] <= AllStores(stores)
  {
  }

  /** Applies the override to the primary host and to every fallback. */
  method ApplyTLSConfig(conn: ConnConfig, tlsMode: nat, input: TlsConfig?, ghost v: TlsValue, ghost from: set<object>)
    returns (ghost primary: set<object>, ghost stores: map<Fallback, set<object>>)
    requires null !in conn.fallbacks
    requires tlsMode == 2 ==> input != null && TlsHolds(input, v, from)
    requires conn !in from && forall f | f in conn.fallbacks :: f !in from
    modifies conn`tls, (set f: Fallback | f in conn.fallbacks)`tls
    ensures tlsMode == 0 ==> conn.tls == old(conn.tls) && forall f: Fallback | f in conn.fallbacks :: f.tls == old(f.tls)
    ensures TlsApplied(conn, tlsMode, v, primary, stores) && fresh(primary) && fresh(AllStores(stores))
  {
    hide TlsHolds;
    primary, stores := {}, map[];
    if tlsMode == TLS_DISABLE {
      conn.tls := null;
      ClearFallbacks(conn.fallbacks);
    } else if tlsMode == TLS_REQUIRE {
      primary := OverridePrimary(conn, input, v, from);
      stores := OverrideFallbacks(conn.fallbacks, input, v, from);
      assert forall f: Fallback | f in conn.fallbacks :: FallbackOverridden(f, v, stores) && stores[f] !! primary;
    }
  }

  method OverridePrimary(conn: ConnConfig, input: TlsConfig, ghost v: TlsValue, ghost from: set<object>)
    returns (ghost store: set<object>)
    requires TlsHolds(input, v, from)
    modifies conn`tls
    ensures fresh(store) && Overridden(conn.tls, conn.host, v, store)
  {
    var copy, parts := TlsConfigForHost(input, conn.host, v, from);
    conn.tls := copy;
    store := parts + {copy};
    assert store - {copy} == parts;
  }

  // ---- Preparation ---------------------------------------------------------------------------

  datatype PrepareError =
    | NilContext
    | ContextDone
    | Refused                     // a typed field or limit, before any collaborator
    | ResolverFailed
    | ShapeRefused
    | MinimumAboveMaximum
    | HookFailed(err: Err)        // a ConfigError around the hook's own error
    | PolicyRefused(field: PolicyField)
    | OpenFailed(err: Err)
    | PingFailed(err: Err)

  /** The first negative field of the typed input, if any. */
  method FirstNegative(values: seq<int>) returns (r: Option<nat>)
    ensures r.None? ==> forall k | 0 <= k < |values| :: values[k] >= 0
    ensures r.Some? ==> r.value < |values| && values[r.value] < 0 && forall k | 0 <= k < r.value :: values[k] >= 0
  {
    for i := 0 to |values|
      invariant forall k | 0 <= k < i :: values[k] >= 0
    {
      if values[i] < 0 { return Some(i); }
    }
    return None;
  }

  /** Everything that is checked before the resolver is called. */
  method Precheck(i: Input) returns (limits: Option<ConfigLimits>)
    ensures limits.Some? <==> Prechecked(i)
    ensures limits.Some? ==> limits.value == Defaulted(i.limits) && LimitsInRange(limits.value)
  {
    if !i.hasResolver { return None; }
    limits := Admitted(i.limits);
    if limits.None? { return; }
    if |i.dsn| > limits.value.dsn || |i.dsn| == 0 { return None; }
    var negative := FirstNegative(Durations(i));
    if negative.Some? { return None; }
    var timeouts := [i.acquireTimeout, i.shutdownTimeout];
    for k := 0 to 2
      invariant forall j | 0 <= j < k :: timeouts[j] <= MAXIMUM_CONFIG_TIMEOUT
    {
      if timeouts[k] > MAXIMUM_CONFIG_TIMEOUT { return None; }
    }
    assert timeouts[0] == i.acquireTimeout && timeouts[1] == i.shutdownTimeout;
    if i.startupPolicy > 1 || i.tlsMode > 2 || (i.tlsMode == 2 && i.tls == null) { return None; }
    var resolution := OrDefault(i.resolutionTimeout, 5 * SECOND);
    assert Durations(i)[1] == i.resolutionTimeout;
    if resolution <= 0 || resolution > MAXIMUM_CONFIG_TIMEOUT { return None; }
  }

  /** The typed settings as they end up in the native configuration. */
  ghost predicate TypedApplied(config: PoolConfig, i: Input)
    reads config, config.conn
  {
    && config.conn != null
    && config.conn.connectTimeout == OrDefault(i.connectTimeout, 5 * SECOND)
    && config.maxConns == OrDefault(i.maxConns, 10)
    && config.minConns == i.minConns
    && config.minIdleConns == i.minIdleConns
    && config.maxConnLifetime == OrDefault(i.maxConnLifetime, HOUR)
    && config.maxConnLifetimeJitter == OrDefault(i.maxConnLifetimeJitter, 300 * SECOND)
    && config.maxConnIdleTime == OrDefault(i.maxConnIdleTime, 1800 * SECOND)
    && config.healthCheckPeriod == OrDefault(i.healthCheckPeriod, 60 * SECOND)
    && config.pingTimeout == OrDefault(i.pingTimeout, 2 * SECOND)
  }

  /** A zero body limit becomes the admitted one. */
  ghost predicate BodyAllowance(config: PoolConfig, i: Input, given: int)
    reads config, config.conn
  {
    && config.conn != null
    && config.conn.messageBody == (if given == 0 then Defaulted(i.limits).messageBody else given)
    && config.conn.messageBody > 0
  }

  method ApplyToConn(config: PoolConfig, i: Input)
    requires LimitsInRange(Defaulted(i.limits)) && ShapeOk(config, Defaulted(i.limits))
    modifies config.conn`messageBody, config.conn`connectTimeout
    ensures ShapeOk(config, Defaulted(i.limits)) && BodyAllowance(config, i, old(config.conn.messageBody))
    ensures config.conn.connectTimeout == OrDefault(i.connectTimeout, 5 * SECOND)
  {
    var conn, limits := config.conn, Defaulted(i.limits);
    ghost var total := TotalBytes(conn);
    assert limits.Fields()[6] == limits.messageBody;
    if conn.messageBody == 0 { conn.messageBody := limits.messageBody; }
    conn.connectTimeout := OrDefault(i.connectTimeout, 5 * SECOND);
    assert TotalBytes(conn) == total;
  }

  method ApplyToPool(config: PoolConfig, i: Input)
    requires config.conn != null && config.conn.connectTimeout == OrDefault(i.connectTimeout, 5 * SECOND)
    modifies config
    ensures config.conn == old(config.conn) && TypedApplied(config, i)
  {
    config.maxConns, config.minConns, config.minIdleConns := OrDefault(i.maxConns, 10), i.minConns, i.minIdleConns;
    config.maxConnLifetime := OrDefault(i.maxConnLifetime, HOUR);
    config.maxConnLifetimeJitter := OrDefault(i.maxConnLifetimeJitter, 300 * SECOND);
    config.maxConnIdleTime := OrDefault(i.maxConnIdleTime, 1800 * SECOND);
    config.healthCheckPeriod := OrDefault(i.healthCheckPeriod, 60 * SECOND);
    config.pingTimeout := OrDefault(i.pingTimeout, 2 * SECOND);
  }

  /** The in-place overrides between the two admissions, TLS apart. They keep the shape. */
  method ApplyFields(config: PoolConfig, i: Input)
    requires LimitsInRange(Defaulted(i.limits)) && ShapeOk(config, Defaulted(i.limits))
    modifies config, config.conn`messageBody, config.conn`connectTimeout
    ensures ShapeOk(config, Defaulted(i.limits)) && TypedApplied(config, i)
    ensures BodyAllowance(config, i, old(config.conn.messageBody))
    ensures config.conn == old(config.conn) && config.conn.fallbacks == old(config.conn.fallbacks)
  {
    ApplyToConn(config, i);
    ghost var total := TotalBytes(config.conn);
    ApplyToPool(config, i);
    assert TotalBytes(config.conn) == total;
  }

  /** The TLS override writes nothing the admissions look at. */
  method ApplyTyped(config: PoolConfig, i: Input, ghost v: TlsValue, ghost from: set<object>)
    returns (ghost primary: set<object>, ghost stores: map<Fallback, set<object>>)
    requires LimitsInRange(Defaulted(i.limits)) && ShapeOk(config, Defaulted(i.limits))
    requires i.tlsMode == TLS_REQUIRE ==> i.tls != null && TlsHolds(i.tls, v, from)
    requires config !in from && config.conn !in from && forall f | f in config.conn.fallbacks :: f !in from
    modifies config, config.conn, config.conn.fallbacks
    ensures ShapeOk(config, Defaulted(i.limits)) && TypedApplied(config, i)
    ensures BodyAllowance(config, i, old(config.conn.messageBody))
    ensures config.conn == old(config.conn) && config.conn.fallbacks == old(config.conn.fallbacks)
    ensures i.tlsMode == 0 ==>
              config.conn.tls == old(config.conn.tls) && forall f: Fallback | f in config.conn.fallbacks :: f.tls == old(f.tls)
    ensures TlsApplied(config.conn, i.tlsMode, v, primary, stores) && fresh(primary) && fresh(AllStores(stores))
  {
    hide TlsHolds, TlsApplied, AllStores;
    ApplyFields(config, i);
    label typed:
    primary, stores := ApplyTLSConfig(config.conn, i.tlsMode, i.tls, v, from);
    HostBytesUnaffected@typed(config.conn.fallbacks);
  }

  /** The override writes no host name. */
  twostate lemma {:induction false} HostBytesUnaffected(fallbacks: seq<Fallback?>)
    requires forall f: Fallback | f in fallbacks :: f.host == old(f.host)
    ensures HostBytes(fallbacks) == old(HostBytes(fallbacks))
  {
    if fallbacks != [] { HostBytesUnaffected(fallbacks[1..]); }
  }

  /** The resolver call and the first admission. */
  method ResolveAndAdmit(env: Collaborators, ctx: Context, i: Input, limits: ConfigLimits, reports: Reports)
    returns (native: PoolConfig?, err: Option<PrepareError>)
    requires Prechecked(i) && limits == Defaulted(i.limits) && LimitsInRange(limits)
    modifies env`resolves, env`handed
    ensures env.resolves == old(env.resolves) + 1
    ensures err == Some(ContextDone) <==> ctx.afterResolve
    ensures err == Some(ResolverFailed) <==> !ctx.afterResolve && reports.resolveFails
    ensures err == Some(ShapeRefused) <==>
              !ctx.afterResolve && !reports.resolveFails && !ShapeOk(env.handed, limits)
    ensures err.Some? ==> err.value in {ContextDone, ResolverFailed, ShapeRefused}
    ensures native == if err.None? then env.handed else null
    ensures err.None? ==> native != null && fresh(native) && native.conn != null && fresh(native.conn)
    ensures err.None? ==> forall k | 0 <= k < |native.conn.fallbacks| :: fresh(native.conn.fallbacks[k])
  {
    var config, failed := env.Resolve(i, reports);
    if failed { return null, Some(if ctx.afterResolve then ContextDone else ResolverFailed); }
    if ctx.afterResolve { return null, Some(ContextDone); }
    var ok := AdmitNativeShape(config, limits);
    if !ok { return null, Some(ShapeRefused); }
    return config, None;
  }

  /** The second shape admission and the policy. */
  method FinalAdmission(config: PoolConfig, ctx: Context, i: Input, limits: ConfigLimits)
    returns (err: Option<PrepareError>)
    requires limits == Defaulted(i.limits) && LimitsInRange(limits)
    ensures err.None? <==> FullyAdmitted(config, i) && !ctx.atEnd
    ensures err == Some(ShapeRefused) <==> !ShapeOk(config, limits)
    ensures err == Some(ContextDone) <==> FullyAdmitted(config, i) && ctx.atEnd
    ensures err.Some? ==> err.value in {ContextDone, ShapeRefused} || err.value.PolicyRefused?
    ensures err.Some? && err.value.PolicyRefused? ==> ShapeOk(config, limits) && !FieldOk(config, i.startupPolicy, err.value.field)
  {
    hide TotalBytes;
    var ok := AdmitNativeShape(config, limits);
    if !ok { return Some(ShapeRefused); }
    var refused := AdmitNativePolicy(config, i.startupPolicy);
    if refused.Some? { return Some(PolicyRefused(refused.value)); }
    if ctx.atEnd { return Some(ContextDone); }
    return None;
  }

  predicate MinimaOk(i: Input) { i.minConns <= OrDefault(i.maxConns, 10) && i.minIdleConns <= OrDefault(i.maxConns, 10) }

  /** Typed overrides and the hook, on a configuration transferred by the resolver. The hook's error
      comes back wrapped, unless the context was done by then. */
  method Customize(
    env: Collaborators, native: PoolConfig, ctx: Context, i: Input, reports: Reports, ghost v: TlsValue, ghost from: set<object>)
    returns (err: Option<PrepareError>, ghost primary: set<object>, ghost stores: map<Fallback, set<object>>)
    requires LimitsInRange(Defaulted(i.limits)) && ShapeOk(native, Defaulted(i.limits))
    requires i.tlsMode == TLS_REQUIRE ==> i.tls != null && TlsHolds(i.tls, v, from)
    requires native !in from && native.conn !in from && forall f | f in native.conn.fallbacks :: f !in from
    modifies env`configures, native, native.conn, native.conn.fallbacks
    ensures err.Some? ==> err.value in {MinimumAboveMaximum, ContextDone} || err.value.HookFailed?
    ensures env.configures == old(env.configures) + if i.hasConfigure && MinimaOk(i) then 1 else 0
    ensures err == Some(MinimumAboveMaximum) <==> !MinimaOk(i)
    ensures err == Some(ContextDone) <==> i.hasConfigure && MinimaOk(i) && ctx.afterConfigure
    ensures err.Some? && err.value.HookFailed? <==>
              i.hasConfigure && MinimaOk(i) && !ctx.afterConfigure && reports.hookErr.Some?
    ensures err.Some? && err.value.HookFailed? ==> err.value.err == Wrap(reports.hookErr.value)
    ensures !i.hasConfigure || !reports.hookWrites ==>
      && native.conn == old(native.conn) && native.conn.fallbacks == old(native.conn.fallbacks)
      && ShapeOk(native, Defaulted(i.limits)) && TypedApplied(native, i)
      && BodyAllowance(native, i, old(native.conn.messageBody))
      && TlsApplied(native.conn, i.tlsMode, v, primary, stores)
    ensures (!i.hasConfigure || !reports.hookWrites) && i.tlsMode == 0 ==>
              native.conn.tls == old(native.conn.tls) && forall f: Fallback | f in native.conn.fallbacks :: f.tls == old(f.tls)
    ensures fresh(primary) && fresh(AllStores(stores))
  {
    hide TlsHolds, TlsApplied, AllStores;
    err := None;
    primary, stores := ApplyTyped(native, i, v, from);
    if native.minConns > native.maxConns { err := Some(MinimumAboveMaximum); return; }
    if native.minIdleConns > native.maxConns { err := Some(MinimumAboveMaximum); return; }
    if i.hasConfigure {
      var hookErr := env.Configure(native, i, reports, v, primary, stores);
      if ctx.afterConfigure { err := Some(ContextDone); return; }
      if hookErr.Some? { err := Some(HookFailed(Wrap(hookErr.value))); }
    }
  }

  /** Every error has its ground: `handed` is what the resolver transferred, as the hook left it. */
  ghost predicate Justified(
    err: PrepareError, ctx: Option<Context>, i: Input, reports: Reports, handed: PoolConfig?)
    reads handed, if handed == null then {} else {handed.conn},
          if handed == null || handed.conn == null then [] else handed.conn.fallbacks
  {
    match err
    case NilContext => ctx.None?
    case ContextDone =>
      ctx.Some? && (ctx.value.atEntry || ctx.value.afterResolve || ctx.value.afterConfigure || ctx.value.atEnd
                    || ctx.value.afterPrepare)
    case Refused => !Prechecked(i)
    case ResolverFailed => reports.resolveFails
    case ShapeRefused => !ShapeOk(handed, Defaulted(i.limits))
    case MinimumAboveMaximum => !MinimaOk(i)
    case HookFailed(e) => i.hasConfigure && reports.hookErr.Some? && e == Wrap(reports.hookErr.value)
    case PolicyRefused(field) => ShapeOk(handed, Defaulted(i.limits)) && !FieldOk(handed, i.startupPolicy, field)
    case OpenFailed(e) => reports.openErr.Some? && e == Wrap(reports.openErr.value)
    case PingFailed(e) =>
      i.startupPolicy == 1 && reports.openErr.None? && reports.pingErr.Some? && e == Wrap(reports.pingErr.value)
  }

  /** From the typed overrides to the last look at the context. */
  method CustomizeAndReadmit(
    env: Collaborators, native: PoolConfig, ctx: Context, i: Input, reports: Reports, ghost v: TlsValue, ghost from: set<object>)
    returns (err: Option<PrepareError>, ghost primary: set<object>, ghost stores: map<Fallback, set<object>>)
    requires LimitsInRange(Defaulted(i.limits)) && ShapeOk(native, Defaulted(i.limits))
    requires i.tlsMode == TLS_REQUIRE ==> i.tls != null && TlsHolds(i.tls, v, from)
    requires native !in from && native.conn !in from && forall f | f in native.conn.fallbacks :: f !in from
    modifies env`configures, native, native.conn, native.conn.fallbacks
    ensures err.None? ==> FullyAdmitted(native, i) && MinimaOk(i) && !ctx.atEnd
    ensures err.None? && i.hasConfigure ==> !ctx.afterConfigure && reports.hookErr.None?
    ensures err.Some? ==>
      && Justified(err.value, Some(ctx), i, reports, native)
      && (err.value in {MinimumAboveMaximum, ContextDone, ShapeRefused} || err.value.HookFailed? || err.value.PolicyRefused?)
    ensures err == Some(ContextDone) ==> ctx.atEnd || (i.hasConfigure && ctx.afterConfigure)
    ensures env.configures == old(env.configures) + if i.hasConfigure && MinimaOk(i) then 1 else 0
    ensures i.hasConfigure && MinimaOk(i) && !ctx.afterConfigure && reports.hookErr.Some? ==>
              err == Some(HookFailed(Wrap(reports.hookErr.value)))
    ensures err.Some? && err.value.HookFailed? ==> MinimaOk(i)
    ensures !i.hasConfigure || !reports.hookWrites ==>
              TypedApplied(native, i) && TlsApplied(native.conn, i.tlsMode, v, primary, stores)
    ensures fresh(primary) && fresh(AllStores(stores))
  {
    hide TlsHolds, TotalBytes, WithinPolicy, TypedApplied, TlsApplied, FieldOk, BodyAllowance;
    err, primary, stores := Customize(env, native, ctx, i, reports, v, from);
    if err.Some? { return; }
    err := FinalAdmission(native, ctx, i, Defaulted(i.limits));
  }

  /** Preparation of a pool configuration. `v` and `from` describe the caller's TLS override, which lies
      outside the frame: whatever the hook does to its copies, preparation never writes the original. */
  method PrepareConfig(
    env: Collaborators, ctx: Option<Context>, i: Input, reports: Reports, ghost v: TlsValue, ghost from: set<object>)
    returns (config: PoolConfig?, err: Option<PrepareError>, ghost primary: set<object>, ghost stores: map<Fallback, set<object>>)
    requires i.tls != null ==> TlsHolds(i.tls, v, from) && env !in from
    modifies env`resolves, env`configures, env`handed
    ensures err.None? <==> config != null
    ensures err.None? ==>
      && config == env.handed && fresh(config) && Prechecked(i) && FullyAdmitted(config, i)
      && ctx.Some? && !ctx.value.atEntry && !ctx.value.afterResolve && !ctx.value.atEnd
      && !reports.resolveFails && MinimaOk(i)
      && (i.hasConfigure ==> !ctx.value.afterConfigure && reports.hookErr.None?)
    ensures err.Some? ==> Justified(err.value, ctx, i, reports, env.handed)
    ensures err.Some? ==> !err.value.OpenFailed? && !err.value.PingFailed?
    ensures err == Some(ContextDone) ==>
      || ctx.value.atEntry || ctx.value.afterResolve || ctx.value.atEnd
      || (i.hasConfigure && ctx.value.afterConfigure)
    ensures err.None? && (!i.hasConfigure || !reports.hookWrites) ==>
      && TypedApplied(config, i)
      && TlsApplied(config.conn, i.tlsMode, v, primary, stores) && fresh(primary) && fresh(AllStores(stores))
    ensures env.resolves == old(env.resolves) + if ctx.Some? && !ctx.value.atEntry && Prechecked(i) then 1 else 0
    ensures env.configures <= old(env.configures) + env.resolves - old(env.resolves)
    ensures !i.hasConfigure ==> env.configures == old(env.configures)
    ensures err.None? && i.hasConfigure ==> env.configures == old(env.configures) + 1
    ensures env.configures > old(env.configures) && ctx.Some? && !ctx.value.afterConfigure && reports.hookErr.Some? ==>
              err == Some(HookFailed(Wrap(reports.hookErr.value)))
    ensures err.Some? && err.value.HookFailed? ==> env.configures == old(env.configures) + 1
    ensures ctx.None? ==> err == Some(NilContext)
    ensures ctx.Some? && ctx.value.atEntry ==> err == Some(ContextDone)
    ensures ctx.Some? && !ctx.value.atEntry ==> (err == Some(Refused) <==> !Prechecked(i))
    ensures env.resolves > old(env.resolves) && ctx.Some? && ctx.value.afterResolve ==> err == Some(ContextDone)
    ensures env.resolves > old(env.resolves) && reports.resolveFails ==> err in {Some(ResolverFailed), Some(ContextDone)}
  {
    hide TlsHolds, Prechecked, ShapeOk, WithinPolicy, TypedApplied, TlsApplied, FieldOk, BodyAllowance;
    config, err, primary, stores := null, None, {}, map[];
    if ctx.None? { err := Some(NilContext); return; }
    if ctx.value.atEntry { err := Some(ContextDone); return; }
    var limits := Precheck(i);
    if limits.None? { err := Some(Refused); return; }
    var native;
    native, err := ResolveAndAdmit(env, ctx.value, i, limits.value, reports);
    if err.Some? { return; }
    PrecheckedMeans(i);
    err, primary, stores := CustomizeAndReadmit(env, native, ctx.value, i, reports, v, from);
    if err.None? { config := native; }
  }

  lemma PrecheckedMeans(i: Input)
    requires Prechecked(i)
    ensures i.tlsMode == TLS_REQUIRE ==> i.tls != null
    ensures i.acquireTimeout >= 0 && i.pingTimeout >= 0 && i.shutdownTimeout >= 0
    ensures i.acquireTimeout <= MAXIMUM_CONFIG_TIMEOUT && i.shutdownTimeout <= MAXIMUM_CONFIG_TIMEOUT
  {
    assert Durations(i)[2] >= 0 && Durations(i)[3] >= 0 && Durations(i)[4] >= 0;
  }

  // ---- Connecting ----------------------------------------------------------------------------

  datatype PoolSettings = PoolSettings(acquireTimeout: int, pingTimeout: int, shutdownTimeout: int)

  /** Once the factory is called its error, else the error of a requested startup ping decides. */
  method Connect(
    env: Collaborators, ctx: Option<Context>, i: Input, reports: Reports, ghost v: TlsValue, ghost from: set<object>)
    returns (pool: Option<PoolSettings>, ghost config: PoolConfig?, err: Option<PrepareError>)
    requires i.tls != null ==> TlsHolds(i.tls, v, from) && env !in from
    modifies env
    ensures err.None? <==> pool.Some?
    ensures err.Some? ==> Justified(err.value, ctx, i, reports, env.handed)
    ensures env.resolves <= old(env.resolves) + 1 && env.configures <= old(env.configures) + 1
    ensures config != null ==> config == env.handed && FullyAdmitted(config, i)
    ensures env.opens == old(env.opens) + if config != null && ctx.Some? && !ctx.value.afterPrepare then 1 else 0
    ensures config != null && ctx.Some? && ctx.value.afterPrepare ==> err == Some(ContextDone)
    ensures pool.Some? ==>
      && env.opens == old(env.opens) + 1
      && pool.value.acquireTimeout == OrDefault(i.acquireTimeout, 5 * SECOND)
      && pool.value.pingTimeout == OrDefault(i.pingTimeout, 2 * SECOND)
      && pool.value.shutdownTimeout == OrDefault(i.shutdownTimeout, 10 * SECOND)
      && 0 < pool.value.acquireTimeout <= MAXIMUM_CONFIG_TIMEOUT
      && 0 < pool.value.shutdownTimeout <= MAXIMUM_CONFIG_TIMEOUT
      && (!i.hasConfigure || !reports.hookWrites || config.pingTimeout == pool.value.pingTimeout ==>
            0 < pool.value.pingTimeout <= MAXIMUM_CONFIG_TIMEOUT)
    ensures env.closes == old(env.closes) + if err.Some? && err.value.PingFailed? then 1 else 0
    ensures err.Some? && (err.value.OpenFailed? || err.value.PingFailed?) ==> env.opens == old(env.opens) + 1
    ensures env.opens > old(env.opens) ==>
      && (reports.openErr.Some? <==> err.Some? && err.value.OpenFailed?)
      && (reports.openErr.None? && reports.pingErr.Some? && i.startupPolicy == 1 <==>
            err.Some? && err.value.PingFailed?)
      && (err.None? || err.value.OpenFailed? || err.value.PingFailed?)
  {
    hide TlsHolds, FullyAdmitted, TypedApplied;
    pool, config := None, null;
    if ctx.None? { return None, null, Some(NilContext); }
    if ctx.value.atEntry { return None, null, Some(ContextDone); }
    var native, prepareErr, _, _ := PrepareConfig(env, ctx, i, reports, v, from);
    err := prepareErr;
    if err.Some? { return; }
    config := native;
    if ctx.value.afterPrepare { err := Some(ContextDone); return; }
    var factoryErr := env.Open(native, i, reports);
    if factoryErr.Some? { err := Some(OpenFailed(Wrap(factoryErr.value))); return; }
    PrecheckedMeans(i);
    PingTimeoutInRange(native, i);
    var settings := PoolSettings(
      OrDefault(i.acquireTimeout, 5 * SECOND), OrDefault(i.pingTimeout, 2 * SECOND), OrDefault(i.shutdownTimeout, 10 * SECOND));
    if i.startupPolicy == STARTUP_LAZY { return Some(settings), config, None; }
    if reports.pingErr.Some? {
      env.CloseBackend();
      err := Some(PingFailed(Wrap(reports.pingErr.value)));
      return;
    }
    pool := Some(settings);
  }

  lemma PingTimeoutInRange(config: PoolConfig, i: Input)
    requires FullyAdmitted(config, i)
    ensures 0 < config.pingTimeout <= MAXIMUM_CONFIG_TIMEOUT
    ensures TypedApplied(config, i) ==> 0 < OrDefault(i.pingTimeout, 2 * SECOND) <= MAXIMUM_CONFIG_TIMEOUT
  {
  }
}
