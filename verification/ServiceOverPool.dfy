/** The adapter of adapters/service/service.go over the pool of pool.go, with `connect` as its
    constructor: the two protocols run together, joined where the adapter calls the pool. */
module ServiceOverPool {
  import opened Options
  import opened Counting
  import opened Errors
  import A = AdapterProtocol
  import P = PoolProtocol

  /** Who calls a pool method: the failed start, the winning stop, or any holder of the pool. */
  datatype Caller = ByStart | ByStop | Direct(call: nat)

  /** How far `connect` is. `Refused`: no backend was made. `MustClose`: its startup ping failed. */
  datatype Connect = NotCalled | Refused | Opened | MustClose(pingErr: Err) | ClosedByConnect(pingErr: Err) | Handed

  datatype System<!Id> = System(adapter: A.Adapter<Id>, startupPing: bool, connect: Connect, pool: P.Pool<Caller>)

  datatype Action<Id> =
    | ConnectRefuses(err: Err)                          // configuration or factory error
    | FactoryOpens
    | ConnectPings(pingErr: Option<Err>)                // StartupPing policy
    | ConnectCloses                                     // backend.Close() after that ping failed
    | ConnectFails                                      // and returns the ping error, wrapped
    | ConnectReturns                                    // lazy policy
    | CallShutdown(who: Caller, ctx: P.Context)
    | ShutdownReturns(who: Caller, reported: Option<Err>)
    | OnAdapter(adapterAction: A.Action<Id>)
    | OnPool(poolAction: P.Action<Caller>)

  function Init<Id(==)>(named: bool, adapterPing: bool, startupPing: bool, shutdownTimeout: int): Option<System<Id>> {
    var adapter := A.New<Id>(A.Config(named, true, false, false, adapterPing));
    if adapter.None? then None
    else Some(System(adapter.value, startupPing, NotCalled, P.Init(shutdownTimeout)))
  }

  function WithAdapter<Id(==)>(s: System<Id>, a: A.Action<Id>): Option<System<Id>> {
    var u := A.Step(s.adapter, a);
    if u.None? then None else Some(s.(adapter := u.value))
  }

  function WithPool<Id(==)>(s: System<Id>, a: P.Action<Caller>): Option<System<Id>> {
    var u := P.Step(s.pool, a);
    if u.None? then None else Some(s.(pool := u.value))
  }

  /** Adapter actions that do not touch the constructor or the resource's Shutdown. */
  predicate Alone<Id>(a: A.Action<Id>) {
    !a.ConstructReturns? && !a.CallShutdownAtStart? && !a.ShutdownAtStartReturns?
    && !a.CallShutdownAtStop? && !a.ShutdownAtStopReturns?
  }

  /** New calls on the pool come from holders of it; steps of running calls are always possible. */
  predicate Reachable(connect: Connect, a: P.Action<Caller>) {
    (a.EnterShutdown? || a.EnterOperation?) ==> connect.Handed? && a.id.Direct?
  }

  function Step<Id(==)>(s: System<Id>, a: Action<Id>): Option<System<Id>> {
    match a
    case ConnectRefuses(e) =>
      if s.connect.NotCalled? then WithAdapter(s.(connect := Refused), A.ConstructReturns(A.ConstructError(e))) else None
    case FactoryOpens =>
      if s.connect.NotCalled? && s.adapter.life.start.Constructing? then Some(s.(connect := Opened)) else None
    case ConnectPings(err) =>
      if !(s.connect.Opened? && s.startupPing) then None
      else if err.Some? then Some(s.(connect := MustClose(err.value)))
      else WithAdapter(s.(connect := Handed), A.ConstructReturns(A.Resource))
    case ConnectCloses =>
      if s.connect.MustClose? then Some(s.(connect := ClosedByConnect(s.connect.pingErr))) else None
    case ConnectFails =>
      if s.connect.ClosedByConnect?
      then WithAdapter(s, A.ConstructReturns(A.ConstructError(Wrap(s.connect.pingErr)))) else None
    case ConnectReturns =>
      if s.connect.Opened? && !s.startupPing
      then WithAdapter(s.(connect := Handed), A.ConstructReturns(A.Resource)) else None
    case CallShutdown(who, ctx) =>
      if who.Direct? then None
      else
        var called := WithAdapter(s, if who.ByStart? then A.CallShutdownAtStart else A.CallShutdownAtStop);
        if called.None? then None else WithPool(called.value, P.EnterShutdown(who, Some(ctx)))
    case ShutdownReturns(who, err) =>
      if who.Direct? then None
      else (match P.At(s.pool, who)
            case Some(Finished(r)) =>
              if err.None? <==> r.ShutdownNil?
              then WithAdapter(s, if who.ByStart? then A.ShutdownAtStartReturns(err) else A.ShutdownAtStopReturns(err))
              else None
            case _ => None)
    case OnAdapter(b) => if Alone(b) then WithAdapter(s, b) else None
    case OnPool(b) => if Reachable(s.connect, b) then WithPool(s, b) else None
  }

  function Exec<Id(==)>(s: System<Id>, acts: seq<Action<Id>>): Option<System<Id>>
    decreases acts
  {
    if acts == [] then Some(s)
    else match Step(s, acts[0])
      case None => None
      case Some(u) => Exec(u, acts[1..])
  }

  /** A call of the backend's Close, by `connect` or by the pool's cleanup. */
  function IsBackendClose<Id>(): Action<Id> -> bool {
    (a: Action<Id>) => a.ConnectCloses? || (a.OnPool? && a.poolAction.CallClose?)
  }

  // ---- Invariant -----------------------------------------------------------------------------

  /** The adapter's own Shutdown calls bring a context. */
  ghost predicate OwnCallOk(pool: P.Pool<Caller>, who: Caller) {
    who in pool.callers ==>
      var pc := pool.callers[who];
      pc.AtStore? || pc.AtOnce? || pc.Waiting? || pc == P.Finished(P.ShutdownNil) || pc == P.Finished(P.ShutdownTimedOut)
  }

  ghost predicate Inv<Id(!new)>(s: System<Id>) {
    && A.Inv(s.adapter) && s.adapter.setting.owned && s.adapter.setting.construct
    && P.Inv(s.pool)
    && OwnCallOk(s.pool, ByStart) && OwnCallOk(s.pool, ByStop)
    && (!s.connect.Handed? ==> s.pool.callers == map[] && !s.pool.onceFired)
    && (s.connect.NotCalled? ==> s.adapter.life.start.Idle? || s.adapter.life.start.Constructing?)
    && (s.connect.Opened? || s.connect.MustClose? ==> s.adapter.life.start.Constructing?)
    && (s.connect.ClosedByConnect? ==>
          || s.adapter.life.start.Constructing?
          || (s.adapter.life.start.Failed? && s.adapter.life.start.err == Some(Wrap(s.connect.pingErr))))
    && (s.connect.Refused? ==> s.adapter.life.start.Failed?)
    && (s.connect.Handed? ==>
          !s.adapter.life.start.Idle? && !s.adapter.life.start.Constructing?
          && (s.adapter.life.start.Failed? ==> s.adapter.life.start.cleanedUp))
    && (s.adapter.life.start.Failed? && s.adapter.life.start.cleanedUp ==> s.pool.onceFired)
    && (s.adapter.once.Fired? && s.adapter.once.sawActive ==>
          s.pool.onceFired && (s.adapter.stopErr.None? ==> s.pool.cleanup.Signalled?))
  }

  lemma PoolStepFacts(s: P.Pool<Caller>, a: P.Action<Caller>, u: P.Pool<Caller>, who: Caller)
    requires P.Inv(s) && P.Step(s, a) == Some(u) && OwnCallOk(s, who)
    requires a.EnterShutdown? && a.id == who ==> a.ctx.Some?
    requires a.EnterOperation? ==> a.id != who
    ensures OwnCallOk(u, who) && (s.onceFired ==> u.onceFired)
    ensures s.callers == map[] && !s.onceFired && !a.EnterShutdown? && !a.EnterOperation? ==>
              u.callers == map[] && !u.onceFired
  {
  }

  lemma AdapterStepKeepsInv<Id(!new)>(s: System<Id>, b: A.Action<Id>, u: System<Id>)
    requires Inv(s) && Step(s, OnAdapter(b)) == Some(u)
    ensures Inv(u)
  {
    A.StepKeeps(s.adapter, b, u.adapter);
  }

  lemma ConnectStepKeepsInv<Id(!new)>(s: System<Id>, a: Action<Id>, u: System<Id>)
    requires Inv(s) && Step(s, a) == Some(u)
    requires !a.OnPool? && !a.OnAdapter? && !a.CallShutdown? && !a.ShutdownReturns?
    ensures Inv(u)
  {
  }

  lemma StepKeepsInv<Id(!new)>(s: System<Id>, a: Action<Id>, u: System<Id>)
    requires Inv(s) && Step(s, a) == Some(u)
    ensures Inv(u)
  {
    match a
    case OnPool(b) => PoolStepKeepsInv(s, b, u);
    case CallShutdown(who, ctx) => CallKeepsInv(s, who, ctx, u);
    case ShutdownReturns(who, err) => ReturnKeepsInv(s, who, err, u);
    case OnAdapter(b) => AdapterStepKeepsInv(s, b, u);
    case _ => ConnectStepKeepsInv(s, a, u);
  }

  lemma PoolStepKeepsInv<Id(!new)>(s: System<Id>, b: P.Action<Caller>, u: System<Id>)
    requires Inv(s) && Step(s, OnPool(b)) == Some(u)
    ensures Inv(u)
  {
    P.StepKeepsInv(s.pool, b, u.pool);
    PoolStepFacts(s.pool, b, u.pool, ByStart);
    PoolStepFacts(s.pool, b, u.pool, ByStop);
  }

  lemma CallKeepsInv<Id(!new)>(s: System<Id>, who: Caller, ctx: P.Context, u: System<Id>)
    requires Inv(s) && Step(s, CallShutdown(who, ctx)) == Some(u)
    ensures Inv(u)
  {
  }

  lemma ReturnKeepsInv<Id(!new)>(s: System<Id>, who: Caller, err: Option<Err>, u: System<Id>)
    requires Inv(s) && Step(s, ShutdownReturns(who, err)) == Some(u)
    ensures Inv(u)
  {
  }

  /** Closes a state has behind it. */
  function Closes<Id>(s: System<Id>): nat {
    (if s.connect.ClosedByConnect? then 1 else 0) + P.Passed(s.pool.cleanup, 2)
  }

  lemma StepCloses<Id(!new)>(s: System<Id>, a: Action<Id>, u: System<Id>)
    requires Inv(s) && Step(s, a) == Some(u)
    ensures Closes(u) == Closes(s) + if IsBackendClose()(a) then 1 else 0
  {
  }

  lemma {:induction false} CloseAccount<Id(!new)>(s: System<Id>, acts: seq<Action<Id>>, t: System<Id>)
    requires Inv(s) && Exec(s, acts) == Some(t)
    ensures Inv(t)
    ensures Count(acts, IsBackendClose()) == Closes(t) - Closes(s)
    decreases acts
  {
    if acts != [] {
      var u := Step(s, acts[0]).value;
      StepKeepsInv(s, acts[0], u);
      StepCloses(s, acts[0], u);
      CloseAccount(u, acts[1..], t);
    }
  }

  // ---- The halves of a run -------------------------------------------------------------------

  /** What an action of the system is for its adapter. */
  function AdapterPart<Id>(s: System<Id>, a: Action<Id>): seq<A.Action<Id>> {
    match a
    case ConnectRefuses(e) => [A.ConstructReturns(A.ConstructError(e))]
    case ConnectPings(None) => [A.ConstructReturns(A.Resource)]
    case ConnectFails => if s.connect.ClosedByConnect? then [A.ConstructReturns(A.ConstructError(Wrap(s.connect.pingErr)))] else []
    case ConnectReturns => [A.ConstructReturns(A.Resource)]
    case CallShutdown(who, _) => [if who.ByStart? then A.CallShutdownAtStart else A.CallShutdownAtStop]
    case ShutdownReturns(who, err) => [if who.ByStart? then A.ShutdownAtStartReturns(err) else A.ShutdownAtStopReturns(err)]
    case OnAdapter(b) => [b]
    case _ => []
  }

  /** And for its pool. */
  function PoolPart<Id>(a: Action<Id>): seq<P.Action<Caller>> {
    match a
    case CallShutdown(who, ctx) => [P.EnterShutdown(who, Some(ctx))]
    case OnPool(b) => [b]
    case _ => []
  }

  function AdapterRun<Id(==)>(s: System<Id>, acts: seq<Action<Id>>): seq<A.Action<Id>>
    decreases acts
  {
    if acts == [] then []
    else match Step(s, acts[0])
      case None => []
      case Some(u) => AdapterPart(s, acts[0]) + AdapterRun(u, acts[1..])
  }

  function PoolRun<Id>(acts: seq<Action<Id>>): seq<P.Action<Caller>> {
    if acts == [] then [] else PoolPart(acts[0]) + PoolRun(acts[1..])
  }

  lemma StepProjects<Id(!new)>(s: System<Id>, a: Action<Id>, u: System<Id>)
    requires Step(s, a) == Some(u)
    ensures u.startupPing == s.startupPing
    ensures if AdapterPart(s, a) == [] then u.adapter == s.adapter
            else A.Step(s.adapter, AdapterPart(s, a)[0]) == Some(u.adapter)
    ensures if PoolPart(a) == [] then u.pool == s.pool else P.Step(s.pool, PoolPart(a)[0]) == Some(u.pool)
  {
    hide A.Step, P.Step;
  }

  /** Every run of the system is a run of the adapter and a run of the pool: what is proved of either
      holds of it here. */
  lemma {:induction false} RunProjects<Id(!new)>(s: System<Id>, acts: seq<Action<Id>>, t: System<Id>)
    requires Exec(s, acts) == Some(t)
    ensures A.Exec(s.adapter, AdapterRun(s, acts)) == Some(t.adapter)
    ensures P.Exec(s.pool, PoolRun(acts)) == Some(t.pool)
    ensures t.startupPing == s.startupPing
    decreases acts
  {
    hide Step, A.Step, P.Step, AdapterPart, PoolPart;
    if acts != [] {
      var u := Step(s, acts[0]).value;
      StepProjects(s, acts[0], u);
      RunProjects(u, acts[1..], t);
      var a, p := AdapterPart(s, acts[0]), PoolPart(acts[0]);
      PartsAreShort(s, acts[0]);
      if a == [] { assert a + AdapterRun(u, acts[1..]) == AdapterRun(u, acts[1..]); }
      else { assert (a + AdapterRun(u, acts[1..]))[1..] == AdapterRun(u, acts[1..]); }
      if p == [] { assert p + PoolRun(acts[1..]) == PoolRun(acts[1..]); }
      else { assert (p + PoolRun(acts[1..]))[1..] == PoolRun(acts[1..]); }
    }
  }

  lemma PartsAreShort<Id>(s: System<Id>, a: Action<Id>)
    ensures |AdapterPart(s, a)| <= 1 && |PoolPart(a)| <= 1
  {
  }

  lemma {:induction false} AdapterPingsProject<Id(!new)>(s: System<Id>, acts: seq<Action<Id>>, t: System<Id>, answer: Option<Err>)
    requires Exec(s, acts) == Some(t)
    ensures A.PingReturns(answer) in AdapterRun(s, acts) <==> OnAdapter(A.PingReturns(answer)) in acts
    decreases acts
  {
    if acts != [] {
      var u := Step(s, acts[0]).value;
      AdapterPingsProject(u, acts[1..], t, answer);
      PingOfPart(s, acts[0], answer);
      hide Step, AdapterPart;
      assert acts == [acts[0]] + acts[1..];
    }
  }

  lemma PingOfPart<Id>(s: System<Id>, a: Action<Id>, answer: Option<Err>)
    ensures A.PingReturns(answer) in AdapterPart(s, a) <==> a == OnAdapter(A.PingReturns(answer))
  {
  }

  /** Where `connect` is says whether its own ping was made, and how that ended. */
  ghost predicate ConnectExplained<Id(!new)>(past: seq<Action<Id>>, s: System<Id>) {
    match s.connect
    case MustClose(e) => s.startupPing && ConnectPings(Some(e)) in past
    case ClosedByConnect(e) => s.startupPing && ConnectPings(Some(e)) in past
    case Handed => (forall e :: ConnectPings(Some(e)) !in past) && (s.startupPing ==> ConnectPings(None) in past)
    case _ => forall e :: ConnectPings(Some(e)) !in past
  }

  lemma ConnectStepExplained<Id(!new)>(past: seq<Action<Id>>, s: System<Id>, a: Action<Id>, u: System<Id>)
    requires ConnectExplained(past, s) && Step(s, a) == Some(u)
    ensures ConnectExplained(past + [a], u)
  {
    hide A.Step, P.Step;
    assert a in past + [a];
    assert forall b :: b in past + [a] <==> b in past || b == a;
  }

  lemma {:induction false} ConnectRunExplained<Id(!new)>(past: seq<Action<Id>>, s: System<Id>, acts: seq<Action<Id>>, t: System<Id>)
    requires ConnectExplained(past, s) && Exec(s, acts) == Some(t)
    ensures ConnectExplained(past + acts, t)
    decreases acts
  {
    hide ConnectExplained, Step;
    if acts == [] {
      assert past + acts == past;
    } else {
      ConnectStepExplained(past, s, acts[0], Step(s, acts[0]).value);
      ConnectRunExplained(past + [acts[0]], Step(s, acts[0]).value, acts[1..], t);
      assert past + [acts[0]] + acts[1..] == past + acts;
    }
  }

  /** Before `connect` handed a backend over, and if it never will, the adapter pings nothing. */
  ghost predicate PingsNeedBackend<Id(!new)>(past: seq<Action<Id>>, s: System<Id>) {
    s.adapter.life.start.Idle? || s.adapter.life.start.Constructing? || s.connect.Refused? ==>
      forall answer :: OnAdapter(A.PingReturns(answer)) !in past
  }

  lemma BackendStepExplained<Id(!new)>(past: seq<Action<Id>>, s: System<Id>, a: Action<Id>, u: System<Id>)
    requires Inv(s) && PingsNeedBackend(past, s) && Step(s, a) == Some(u)
    ensures PingsNeedBackend(past + [a], u)
  {
    hide P.Step, P.Inv, A.StopsAgree, A.ProbesSawResource, A.OnceOk, OwnCallOk;
    assert forall b :: b in past + [a] <==> b in past || b == a;
  }

  lemma {:induction false} BackendRunExplained<Id(!new)>(past: seq<Action<Id>>, s: System<Id>, acts: seq<Action<Id>>, t: System<Id>)
    requires Inv(s) && PingsNeedBackend(past, s) && Exec(s, acts) == Some(t)
    ensures PingsNeedBackend(past + acts, t)
    decreases acts
  {
    hide PingsNeedBackend, Step, Inv;
    if acts == [] {
      assert past + acts == past;
    } else {
      StepKeepsInv(s, acts[0], Step(s, acts[0]).value);
      BackendStepExplained(past, s, acts[0], Step(s, acts[0]).value);
      BackendRunExplained(past + [acts[0]], Step(s, acts[0]).value, acts[1..], t);
      assert past + [acts[0]] + acts[1..] == past + acts;
    }
  }

  // ---- End to end ----------------------------------------------------------------------------

  /** A close was called, or the cleanup that will call it is running. */
  ghost predicate Initiated<Id>(s: System<Id>) { s.connect.ClosedByConnect? || s.pool.onceFired }

  /** End to end, over every interleaving of a start, any stops, any direct Shutdown, Acquire and
      Ping calls and any ping failures: the backend is closed at most once; a start that failed with
      a backend in hand, and a stop that found the adapter active and returned, leave exactly one
      close initiated; and `connect` and the pool never both initiate one. */
  lemma SingleCloseEndToEnd<Id(!new)>(
    named: bool, adapterPing: bool, startupPing: bool, shutdownTimeout: int, acts: seq<Action<Id>>, t: System<Id>)
    requires Init<Id>(named, adapterPing, startupPing, shutdownTimeout).Some?
    requires Exec(Init(named, adapterPing, startupPing, shutdownTimeout).value, acts) == Some(t)
    ensures Count(acts, IsBackendClose()) <= 1
    ensures t.adapter.life.start.Failed? && !t.connect.Refused? ==> Initiated(t)
    ensures (exists id :: id in t.adapter.stops && t.adapter.stops[id].StopReturned?) ==>
              t.adapter.once.Fired? && (t.adapter.once.sawActive ==> Initiated(t))
    ensures !(t.connect.ClosedByConnect? && t.pool.onceFired)
    ensures t.connect.Refused? ==> Count(acts, IsBackendClose()) == 0
    ensures forall e | OnAdapter(A.PingReturns(Some(e))) in acts || ConnectPings(Some(e)) in acts ::
              !t.adapter.life.start.Started? && (t.adapter.life.start.Failed? ==> Initiated(t))
  {
    CloseAccount(Init(named, adapterPing, startupPing, shutdownTimeout).value, acts, t);
    hide Exec, Step, Count;
    forall e | OnAdapter(A.PingReturns(Some(e))) in acts || ConnectPings(Some(e)) in acts
      ensures !t.adapter.life.start.Started? && !t.connect.Refused?
    {
      AfterFailedPing(named, adapterPing, startupPing, shutdownTimeout, acts, t, e);
    }
  }

  /** A ping needs a backend, and one that failed keeps the service down. */
  lemma AfterFailedPing<Id(!new)>(
    named: bool, adapterPing: bool, startupPing: bool, shutdownTimeout: int, acts: seq<Action<Id>>, t: System<Id>, e: Err)
    requires Init<Id>(named, adapterPing, startupPing, shutdownTimeout).Some?
    requires Exec(Init(named, adapterPing, startupPing, shutdownTimeout).value, acts) == Some(t)
    requires OnAdapter(A.PingReturns(Some(e))) in acts || ConnectPings(Some(e)) in acts
    ensures !t.adapter.life.start.Started? && !t.connect.Refused?
  {
    var s := Init<Id>(named, adapterPing, startupPing, shutdownTimeout).value;
    assert Inv(s) && ConnectExplained([], s) && PingsNeedBackend([], s);
    ServiceUpMeansPinged(named, adapterPing, startupPing, shutdownTimeout, acts, t);
    hide Exec, Step, Inv, A.Inv, P.Inv, Init;
    ConnectRunExplained([], s, acts, t);
    BackendRunExplained([], s, acts, t);
    assert [] + acts == acts;
  }

  /** The service is up only over a database that answered every ping that was asked for, `connect`'s
      and the adapter's; when `connect`'s ping failed, the start failed with that error, wrapped. */
  lemma ServiceUpMeansPinged<Id(!new)>(
    named: bool, adapterPing: bool, startupPing: bool, shutdownTimeout: int, acts: seq<Action<Id>>, t: System<Id>)
    requires Init<Id>(named, adapterPing, startupPing, shutdownTimeout).Some?
    requires Exec(Init(named, adapterPing, startupPing, shutdownTimeout).value, acts) == Some(t)
    ensures t.adapter.life.start.Started? ==>
      && (adapterPing ==> OnAdapter(A.PingReturns(None)) in acts)
      && (startupPing ==> ConnectPings(None) in acts)
      && (forall e :: OnAdapter(A.PingReturns(Some(e))) !in acts && ConnectPings(Some(e)) !in acts)
    ensures t.connect.ClosedByConnect? && t.adapter.life.start.Failed? ==>
      && t.adapter.life.start.err == Some(Wrap(t.connect.pingErr))
      && ConnectPings(Some(t.connect.pingErr)) in acts
  {
    var s := Init<Id>(named, adapterPing, startupPing, shutdownTimeout).value;
    CloseAccount(s, acts, t);
    ConnectRunExplained([], s, acts, t);
    assert [] + acts == acts;
    RunProjects(s, acts, t);
    A.StartedMeansValidated(A.Config(named, true, false, false, adapterPing), AdapterRun(s, acts), t.adapter);
    AdapterPingsProject(s, acts, t, None);
    forall e ensures A.PingReturns(Some(e)) in AdapterRun(s, acts) <==> OnAdapter(A.PingReturns(Some(e))) in acts {
      AdapterPingsProject(s, acts, t, Some(e));
    }
  }

  // ---- Ordered lifecycles --------------------------------------------------------------------

  /** The ordered lifecycle: from any state in which the start has succeeded and no stop has read it
      yet, whatever runs next, once any stop returned the one close has been initiated, by the pool;
      and if the stop returned nil, the backend is closed. */
  lemma StopOfStartedAdapterCloses<Id(!new)>(
    named: bool, adapterPing: bool, startupPing: bool, shutdownTimeout: int,
    before: seq<Action<Id>>, s: System<Id>, after: seq<Action<Id>>, t: System<Id>, stop: Id)
    requires Init<Id>(named, adapterPing, startupPing, shutdownTimeout).Some?
    requires Exec(Init(named, adapterPing, startupPing, shutdownTimeout).value, before) == Some(s)
    requires s.adapter.life.start.Started? && s.adapter.once.Fresh?
    requires Exec(s, after) == Some(t)
    requires stop in t.adapter.stops && t.adapter.stops[stop].StopReturned?
    ensures t.pool.onceFired && t.pool.closed && t.connect.Handed?
    ensures t.adapter.stops[stop].err.None? ==> t.pool.cleanup.Signalled?
  {
    CloseAccount(Init(named, adapterPing, startupPing, shutdownTimeout).value, before, s);
    CloseAccount(s, after, t);
    RunProjects(s, after, t);
    A.RunKeepsStopFindsActive(s.adapter, AdapterRun(s, after), t.adapter);
  }
}
