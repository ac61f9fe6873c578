/** The native configuration on the heap and its admission, config_limits.go.

    Strings are byte sequences; the sizes and durations that are only compared are integers; the
    running budget, which the code computes with, is a 64-bit machine integer. */
module NativeConfig {
  import opened Options
  import opened TlsOverride

  const HOUR := 3_600_000_000_000
  const MAXIMUM_CONFIG_TIMEOUT := HOUR
  const MAXIMUM_POOL_LIFETIME := 30 * 24 * HOUR
  const MAXIMUM_POOL_CONNECTIONS := 1024
  const MESSAGE_BODY_CEILING := 0x3fffffff - 1

  newtype int64 = x: int | -0x8000_0000_0000_0000 <= x < 0x8000_0000_0000_0000

  class ConnConfig {
    var host: Text
    var database: Text
    var user: Text
    var password: Text
    var connString: Text
    var kerberosSrvName: Text
    var kerberosSpn: Text
    var sslNegotiation: Text
    var minProtocolVersion: Text
    var maxProtocolVersion: Text
    var channelBinding: Text
    var requireAuth: Text
    var messageBody: int
    var statementCache: int
    var descriptionCache: int
    var connectTimeout: int
    var fallbacks: seq<Fallback?>
    var runtimeParams: map<Text, Text>
    var tls: TlsConfig?

    /** A configuration with these fallbacks and anything in the other fields. */
    constructor Arbitrary(fallbacks: seq<Fallback?>)
      ensures this.fallbacks == fallbacks
    {
      this.fallbacks := fallbacks;
    }

    /** The total length of the twelve scalar strings. */
    ghost function ScalarBytes(): nat
      reads this
    {
      |host| + |database| + |user| + |password| + |connString| + |kerberosSrvName| + |kerberosSpn| + |sslNegotiation|
      + |minProtocolVersion| + |maxProtocolVersion| + |channelBinding| + |requireAuth|
    }
  }

  class PoolConfig {
    var conn: ConnConfig?
    var maxConns: int
    var minConns: int
    var minIdleConns: int
    var pingTimeout: int
    var maxConnLifetime: int
    var maxConnLifetimeJitter: int
    var maxConnIdleTime: int
    var healthCheckPeriod: int

    constructor Arbitrary(conn: ConnConfig?)
      ensures this.conn == conn
    {
      this.conn := conn;
    }
  }

  // ---- Limits --------------------------------------------------------------------------------

  datatype ConfigLimits = ConfigLimits(
    dsn: int, fallbacks: int, runtimeParams: int, nativeStrings: int,
    statementCache: int, descriptionCache: int, messageBody: int)
  {
    function Fields(): seq<int> {
      [dsn, fallbacks, runtimeParams, nativeStrings, statementCache, descriptionCache, messageBody]
    }
  }

  const DEFAULTS := ConfigLimits(0x2000, 16, 128, 0x1_0000, 1024, 1024, 0x80_0000)
  const CEILINGS := DEFAULTS.(messageBody := MESSAGE_BODY_CEILING)

  /** What admission promises about every limit. */
  ghost predicate LimitsInRange(l: ConfigLimits) {
    forall k | 0 <= k < 7 :: 0 < l.Fields()[k] <= CEILINGS.Fields()[k]
  }

  /** The given limits with the documented defaults for zeros. */
  function Defaulted(l: ConfigLimits): ConfigLimits {
    ConfigLimits(
      if l.dsn == 0 then 8192 else l.dsn, if l.fallbacks == 0 then 16 else l.fallbacks,
      if l.runtimeParams == 0 then 128 else l.runtimeParams, if l.nativeStrings == 0 then 65536 else l.nativeStrings,
      if l.statementCache == 0 then 1024 else l.statementCache,
      if l.descriptionCache == 0 then 1024 else l.descriptionCache,
      if l.messageBody == 0 then 8388608 else l.messageBody)
  }

  /** Fills in defaults through pointers to the fields; refuses a negative value or one above its
      ceiling. */
  method Admitted(limits: ConfigLimits) returns (r: Option<ConfigLimits>)
    ensures r.Some? <==> forall k | 0 <= k < 7 :: 0 <= limits.Fields()[k] <= CEILINGS.Fields()[k]
    ensures r.Some? ==> LimitsInRange(r.value) && r.value == Defaulted(limits)
  {
    var given, defaults, ceilings := limits.Fields(), DEFAULTS.Fields(), CEILINGS.Fields();
    var fields := new int[7](i requires 0 <= i < 7 => given[i]);
    for i := 0 to 7
      invariant forall k | i <= k < 7 :: fields[k] == given[k]
      invariant forall k | 0 <= k < i ::
        0 <= given[k] <= ceilings[k] && fields[k] == if given[k] == 0 then defaults[k] else given[k]
    {
      if fields[i] < 0 || fields[i] > ceilings[i] {
        assert limits.Fields()[i] == given[i];
        return None;
      }
      if fields[i] == 0 { fields[i] := defaults[i]; }
    }
    r := Some(ConfigLimits(fields[0], fields[1], fields[2], fields[3], fields[4], fields[5], fields[6]));
    assert r.value.Fields() == fields[..];
  }

  // ---- The size of a configuration -----------------------------------------------------------

  ghost function HostBytes(fallbacks: seq<Fallback?>): nat
    reads fallbacks
  {
    if fallbacks == [] then 0
    else (if fallbacks[0] == null then 0 else |fallbacks[0].host|) + HostBytes(fallbacks[1..])
  }

  ghost function ParamBytes(params: map<Text, Text>): nat {
    if params == map[] then 0
    else
      var key :| key in params;
      |key| + |params[key]| + ParamBytes(params - {key})
  }

  /** The sum does not depend on the order in which a map is traversed. */
  lemma {:induction false} ParamBytesAnyOrder(params: map<Text, Text>, key: Text)
    requires key in params
    ensures ParamBytes(params) == |key| + |params[key]| + ParamBytes(params - {key})
    decreases params
  {
    var first :| first in params && ParamBytes(params) == |first| + |params[first]| + ParamBytes(params - {first});
    if first != key {
      ParamBytesAnyOrder(params - {first}, key);
      ParamBytesAnyOrder(params - {key}, first);
      assert params - {first} - {key} == params - {key} - {first};
    }
  }

  ghost function TotalBytes(conn: ConnConfig): nat
    reads conn, conn.fallbacks
  {
    conn.ScalarBytes() + HostBytes(conn.fallbacks) + ParamBytes(conn.runtimeParams)
  }

  /** The shape an admitted native configuration has; the budget is one bound on one total. */
  ghost predicate ShapeOk(config: PoolConfig?, l: ConfigLimits)
    reads config, if config == null then {} else {config.conn},
          if config == null || config.conn == null then [] else config.conn.fallbacks
  {
    && config != null && config.conn != null
    && 0 <= config.conn.messageBody <= l.messageBody
    && 0 <= config.conn.statementCache <= l.statementCache
    && 0 <= config.conn.descriptionCache <= l.descriptionCache
    && |config.conn.fallbacks| <= l.fallbacks
    && |config.conn.runtimeParams| <= l.runtimeParams
    && null !in config.conn.fallbacks
    && TotalBytes(config.conn) <= l.nativeStrings
  }

  /** The captured budget of the charging closure. */
  class Budget {
    var remaining: int64

    constructor (limit: int64)
      requires limit >= 0
      ensures remaining == limit
    {
      remaining := limit;
    }

    /** The comparison comes first, so the subtraction never leaves the range. */
    method Charge(value: Text) returns (ok: bool)
      requires remaining >= 0
      modifies this
      ensures ok <==> |value| <= old(remaining) as int
      ensures remaining as int == old(remaining) as int - if ok then |value| else 0
      ensures 0 <= remaining <= old(remaining)
    {
      if |value| > remaining as int { return false; }
      remaining := remaining - |value| as int64;
      return true;
    }

    method ChargeScalars(conn: ConnConfig) returns (ok: bool)
      requires remaining >= 0
      modifies this
      ensures ok <==> conn.ScalarBytes() <= old(remaining) as int
      ensures ok ==> remaining as int == old(remaining) as int - conn.ScalarBytes()
      ensures 0 <= remaining <= old(remaining)
    {
      ok := Charge(conn.host); if !ok { return; }
      ok := Charge(conn.database); if !ok { return; }
      ok := Charge(conn.user); if !ok { return; }
      ok := Charge(conn.password); if !ok { return; }
      ok := Charge(conn.connString); if !ok { return; }
      ok := Charge(conn.kerberosSrvName); if !ok { return; }
      ok := Charge(conn.kerberosSpn); if !ok { return; }
      ok := Charge(conn.sslNegotiation); if !ok { return; }
      ok := Charge(conn.minProtocolVersion); if !ok { return; }
      ok := Charge(conn.maxProtocolVersion); if !ok { return; }
      ok := Charge(conn.channelBinding); if !ok { return; }
      ok := Charge(conn.requireAuth); if !ok { return; }
    }

    method ChargeFallbacks(fallbacks: seq<Fallback?>) returns (ok: bool)
      requires remaining >= 0
      modifies this
      ensures ok <==> null !in fallbacks && HostBytes(fallbacks) <= old(remaining) as int
      ensures ok ==> remaining as int == old(remaining) as int - HostBytes(fallbacks)
      ensures 0 <= remaining <= old(remaining)
    {
      for i := 0 to |fallbacks|
        invariant 0 <= remaining <= old(remaining)
        invariant null !in fallbacks[..i]
        invariant remaining as int - HostBytes(fallbacks[i..]) == old(remaining) as int - HostBytes(fallbacks)
      {
        assert fallbacks[i..][0] == fallbacks[i] && fallbacks[i..][1..] == fallbacks[i + 1..];
        if fallbacks[i] == null { return false; }
        ok := Charge(fallbacks[i].host);
        if !ok { return; }
      }
      assert fallbacks[..|fallbacks|] == fallbacks;
      ok := true;
    }

    /** Traverses the map in any order. */
    method ChargeParams(params: map<Text, Text>) returns (ok: bool)
      requires remaining >= 0
      modifies this
      ensures ok <==> ParamBytes(params) <= old(remaining) as int
      ensures ok ==> remaining as int == old(remaining) as int - ParamBytes(params)
      ensures 0 <= remaining <= old(remaining)
    {
      var rest := params;
      while rest != map[]
        invariant 0 <= remaining <= old(remaining)
        invariant remaining as int - ParamBytes(rest) == old(remaining) as int - ParamBytes(params)
        decreases |rest|
      {
        var key :| key in rest;
        ParamBytesAnyOrder(rest, key);
        ok := Charge(key);
        if !ok { return; }
        ok := Charge(rest[key]);
        if !ok { return; }
        rest := rest - {key};
      }
      ok := true;
    }
  }

  /** Budget exactness: the loops accept exactly the configurations whose total length is within the
      limit, whatever order the map is traversed in. */
  method AdmitNativeShape(config: PoolConfig?, limits: ConfigLimits) returns (ok: bool)
    requires LimitsInRange(limits)
    ensures ok <==> ShapeOk(config, limits)
  {
    if config == null || config.conn == null { return false; }
    var conn := config.conn;
    if conn.messageBody < 0 || conn.messageBody > limits.messageBody { return false; }
    if conn.statementCache < 0 || conn.statementCache > limits.statementCache
       || conn.descriptionCache < 0 || conn.descriptionCache > limits.descriptionCache { return false; }
    if |conn.fallbacks| > limits.fallbacks || |conn.runtimeParams| > limits.runtimeParams { return false; }
    assert limits.nativeStrings == limits.Fields()[3] && CEILINGS.Fields()[3] == 0x1_0000;
    var budget := new Budget(limits.nativeStrings as int64);
    ok := budget.ChargeScalars(conn);
    if !ok { return; }
    ok := budget.ChargeFallbacks(conn.fallbacks);
    if !ok { return; }
    ok := budget.ChargeParams(conn.runtimeParams);
  }

  // ---- Policy --------------------------------------------------------------------------------

  const STARTUP_LAZY: nat := 0

  datatype PolicyField =
    | MessageBody | MaxConns | MinConns | MinIdleConns
    | ConnectTimeout | PingTimeout | MaxConnLifetime | MaxConnIdleTime | HealthCheckPeriod
    | MaxConnLifetimeJitter

  ghost predicate WithinPolicy(config: PoolConfig, startupPolicy: nat)
    reads config, config.conn
  {
    && config.conn != null
    && config.conn.messageBody > 0
    && 1 <= config.maxConns <= MAXIMUM_POOL_CONNECTIONS
    && 0 <= config.minConns <= config.maxConns
    && 0 <= config.minIdleConns <= config.maxConns
    && (startupPolicy == 0 ==> config.minConns == 0 && config.minIdleConns == 0)
    && 0 < config.conn.connectTimeout <= MAXIMUM_CONFIG_TIMEOUT
    && 0 < config.pingTimeout <= MAXIMUM_CONFIG_TIMEOUT
    && 0 < config.maxConnLifetime <= MAXIMUM_POOL_LIFETIME
    && 0 < config.maxConnIdleTime <= MAXIMUM_POOL_LIFETIME
    && 0 < config.healthCheckPeriod <= MAXIMUM_POOL_LIFETIME
    && 0 <= config.maxConnLifetimeJitter <= config.maxConnLifetime
  }

  ghost predicate FieldOk(config: PoolConfig, startupPolicy: nat, field: PolicyField)
    requires config.conn != null
    reads config, config.conn
  {
    match field
    case MessageBody => config.conn.messageBody > 0
    case MaxConns => 1 <= config.maxConns <= MAXIMUM_POOL_CONNECTIONS
    case MinConns => 0 <= config.minConns <= config.maxConns && (startupPolicy == 0 ==> config.minConns == 0)
    case MinIdleConns => 0 <= config.minIdleConns <= config.maxConns && (startupPolicy == 0 ==> config.minIdleConns == 0)
    case ConnectTimeout => 0 < config.conn.connectTimeout <= MAXIMUM_CONFIG_TIMEOUT
    case PingTimeout => 0 < config.pingTimeout <= MAXIMUM_CONFIG_TIMEOUT
    case MaxConnLifetime => 0 < config.maxConnLifetime <= MAXIMUM_POOL_LIFETIME
    case MaxConnIdleTime => 0 < config.maxConnIdleTime <= MAXIMUM_POOL_LIFETIME
    case HealthCheckPeriod => 0 < config.healthCheckPeriod <= MAXIMUM_POOL_LIFETIME
    case MaxConnLifetimeJitter => 0 <= config.maxConnLifetimeJitter <= config.maxConnLifetime
  }

  /** The order in which the fields are checked. */
  function Order(field: PolicyField): nat {
    match field
    case MessageBody => 0
    case MaxConns => 1
    case MinConns => 2
    case MinIdleConns => 3
    case ConnectTimeout => 4
    case PingTimeout => 5
    case MaxConnLifetime => 6
    case MaxConnIdleTime => 7
    case HealthCheckPeriod => 8
    case MaxConnLifetimeJitter => 9
  }

  lemma OrderIsInjective(field: PolicyField)
    ensures forall other | Order(other) == Order(field) :: other == field
  {
  }

  /** Accepts exactly the configurations within the policy, and otherwise names the first field, in
      the order of the checks, that is not. */
  method AdmitNativePolicy(config: PoolConfig, startupPolicy: nat) returns (refused: Option<PolicyField>)
    requires config.conn != null
    ensures refused.None? <==> WithinPolicy(config, startupPolicy)
    ensures refused.Some? ==>
      && !FieldOk(config, startupPolicy, refused.value)
      && forall earlier | Order(earlier) < Order(refused.value) :: FieldOk(config, startupPolicy, earlier)
  {
    if config.conn.messageBody <= 0 { return Some(MessageBody); }
    if config.maxConns <= 0 || config.maxConns > MAXIMUM_POOL_CONNECTIONS { return Some(MaxConns); }
    if config.minConns < 0 || config.minConns > config.maxConns || (startupPolicy == STARTUP_LAZY && config.minConns != 0) {
      return Some(MinConns);
    }
    if config.minIdleConns < 0 || config.minIdleConns > config.maxConns || (startupPolicy == STARTUP_LAZY && config.minIdleConns != 0) {
      return Some(MinIdleConns);
    }
    var fields := [
      (ConnectTimeout, config.conn.connectTimeout, MAXIMUM_CONFIG_TIMEOUT),
      (PingTimeout, config.pingTimeout, MAXIMUM_CONFIG_TIMEOUT),
      (MaxConnLifetime, config.maxConnLifetime, MAXIMUM_POOL_LIFETIME),
      (MaxConnIdleTime, config.maxConnIdleTime, MAXIMUM_POOL_LIFETIME),
      (HealthCheckPeriod, config.healthCheckPeriod, MAXIMUM_POOL_LIFETIME)];
    for i := 0 to 5
      invariant forall earlier | Order(earlier) < i + 4 :: FieldOk(config, startupPolicy, earlier)
    {
      assert Order(fields[i].0) == i + 4;
      assert FieldOk(config, startupPolicy, fields[i].0) <==> 0 < fields[i].1 <= fields[i].2;
      OrderIsInjective(fields[i].0);
      if fields[i].1 <= 0 || fields[i].1 > fields[i].2 { return Some(fields[i].0); }
    }
    assert FieldOk(config, startupPolicy, ConnectTimeout) && FieldOk(config, startupPolicy, PingTimeout);
    assert FieldOk(config, startupPolicy, MaxConnLifetime) && FieldOk(config, startupPolicy, MaxConnIdleTime);
    assert FieldOk(config, startupPolicy, HealthCheckPeriod);
    if config.maxConnLifetimeJitter < 0 || config.maxConnLifetimeJitter > config.maxConnLifetime {
      return Some(MaxConnLifetimeJitter);
    }
    return None;
  }
}
