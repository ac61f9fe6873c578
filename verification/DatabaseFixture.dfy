/** The test container fixture, postgrestest/database.go: the shared termination protocol of
    `Database.Shutdown` over all interleavings, and the ownership decided by `startDatabase`. */
module DatabaseFixture {
  import opened Options
  import opened Counting
  import opened Errors

  // ---- Shutdown as a transition system -------------------------------------------------------

  /** How the native termination ends. */
  datatype Termination = TerminateReturns(err: Option<Err>) | TerminatePanics

  /** `terminate`: a panic becomes a fixed error. */
  function TerminationError(t: Termination): Option<Err> {
    match t
    case TerminateReturns(err) => err
    case TerminatePanics => Some(SentinelError(TerminationPanicked))
  }

  datatype Context = Context(cause: Option<Err>)   // the cause once the context is done

  /** `ThroughDone` and `ThroughContext` tell which branch of the select a call returned by. */
  datatype Pc =
    | AtOnce(ctx: Context)
    | Waiting(ctx: Context)
    | RefusedNil
    | ThroughDone(err: Option<Err>)
    | ThroughContext(err: Option<Err>)

  datatype Worker = Unspawned | AtTerminate | InTerminate | AtWrite(t: Termination) | AtClose | Closed

  /** `written` is what `shutdownErr` holds once it has been written. */
  datatype Database<!Id> = Database(
    onceFired: bool, worker: Worker, written: Option<Termination>, doneClosed: bool, callers: map<Id, Pc>)

  datatype Action<Id> =
    | Enter(id: Id, ctx: Option<Context>)
    | Once(id: Id)
    | CallTerminate
    | TerminateEnds(t: Termination)
    | WriteErr
    | CloseDone
    | ReadDone(id: Id)
    | ReadContext(id: Id)
    | Cancel(id: Id, cause: Err)

  function Init<Id(==)>(): Database<Id> { Database(false, Unspawned, None, false, map[]) }

  function SharedErr<Id>(s: Database<Id>): Option<Err> {
    if s.written.Some? then TerminationError(s.written.value) else None
  }

  function Step<Id(==)>(s: Database<Id>, a: Action<Id>): Option<Database<Id>> {
    match a
    case Enter(id, ctx) =>
      if id in s.callers then None
      else Some(s.(callers := s.callers[id := if ctx.None? then RefusedNil else AtOnce(ctx.value)]))
    case Once(id) =>
      if !(id in s.callers && s.callers[id].AtOnce?) then None
      else
        var waiting := s.(callers := s.callers[id := Waiting(s.callers[id].ctx)]);
        Some(if s.onceFired then waiting else waiting.(onceFired := true, worker := AtTerminate))
    case CallTerminate => if s.worker.AtTerminate? then Some(s.(worker := InTerminate)) else None
    case TerminateEnds(t) => if s.worker.InTerminate? then Some(s.(worker := AtWrite(t))) else None
    case WriteErr =>
      if s.worker.AtWrite? then Some(s.(worker := AtClose, written := Some(s.worker.t))) else None
    case CloseDone => if s.worker.AtClose? then Some(s.(worker := Closed, doneClosed := true)) else None
    case ReadDone(id) =>
      if id in s.callers && s.callers[id].Waiting? && s.doneClosed
      then Some(s.(callers := s.callers[id := ThroughDone(SharedErr(s))])) else None
    case ReadContext(id) =>
      if id in s.callers && s.callers[id].Waiting? && s.callers[id].ctx.cause.Some?
      then Some(s.(callers := s.callers[id := ThroughContext(s.callers[id].ctx.cause)])) else None
    case Cancel(id, cause) =>
      if id in s.callers && s.callers[id].AtOnce? && s.callers[id].ctx.cause.None?
      then Some(s.(callers := s.callers[id := AtOnce(Context(Some(cause)))]))
      else if id in s.callers && s.callers[id].Waiting? && s.callers[id].ctx.cause.None?
      then Some(s.(callers := s.callers[id := Waiting(Context(Some(cause)))])) else None
  }

  function Exec<Id(==)>(s: Database<Id>, acts: seq<Action<Id>>): Option<Database<Id>>
    decreases acts
  {
    if acts == [] then Some(s)
    else match Step(s, acts[0])
      case None => None
      case Some(u) => Exec(u, acts[1..])
  }

  function IsTerminate<Id>(): Action<Id> -> bool { (a: Action<Id>) => a.CallTerminate? }
  function IsWrite<Id>(): Action<Id> -> bool { (a: Action<Id>) => a.WriteErr? }
  function IsClose<Id>(): Action<Id> -> bool { (a: Action<Id>) => a.CloseDone? }
  function IsRead<Id>(): Action<Id> -> bool { (a: Action<Id>) => a.ReadDone? }

  function Stage(w: Worker): nat {
    match w
    case Unspawned => 0
    case AtTerminate => 1
    case InTerminate => 2
    case AtWrite(_) => 2
    case AtClose => 3
    case Closed => 4
  }

  function Passed(w: Worker, stage: nat): nat { if Stage(w) >= stage then 1 else 0 }

  ghost predicate Inv<Id(!new)>(s: Database<Id>) {
    && (s.onceFired <==> !s.worker.Unspawned?)
    && (s.written.Some? <==> Stage(s.worker) >= 3)
    && (s.doneClosed <==> s.worker.Closed?)
    && (forall id | id in s.callers && s.callers[id].ThroughDone? :: s.doneClosed && s.callers[id].err == SharedErr(s))
    && (forall id | id in s.callers && (s.callers[id].Waiting? || s.callers[id].ThroughDone? || s.callers[id].ThroughContext?) ::
          s.onceFired)
  }

  lemma StepKeepsInv<Id(!new)>(s: Database<Id>, a: Action<Id>, u: Database<Id>)
    requires Inv(s) && Step(s, a) == Some(u)
    ensures Inv(u)
    ensures Passed(u.worker, 2) == Passed(s.worker, 2) + if IsTerminate()(a) then 1 else 0
    ensures Passed(u.worker, 3) == Passed(s.worker, 3) + if IsWrite()(a) then 1 else 0
    ensures Passed(u.worker, 4) == Passed(s.worker, 4) + if IsClose()(a) then 1 else 0
    ensures IsRead()(a) ==> Passed(s.worker, 4) == 1
    ensures s.written.Some? ==> u.written == s.written
  {
  }

  lemma {:induction false} WorkerAccount<Id(!new)>(s: Database<Id>, acts: seq<Action<Id>>, t: Database<Id>)
    requires Inv(s) && Exec(s, acts) == Some(t)
    ensures Inv(t)
    ensures s.written.Some? ==> t.written == s.written
    ensures Count(acts, IsTerminate()) == Passed(t.worker, 2) - Passed(s.worker, 2)
    ensures Count(acts, IsWrite()) == Passed(t.worker, 3) - Passed(s.worker, 3)
    ensures Count(acts, IsClose()) == Passed(t.worker, 4) - Passed(s.worker, 4)
    decreases acts
  {
    if acts != [] {
      var u := Step(s, acts[0]).value;
      StepKeepsInv(s, acts[0], u);
      WorkerAccount(u, acts[1..], t);
    }
  }

  // ---- What a run must hold for a caller or the worker to be where it is ---------------------

  /** The caller's own context was done, with this cause, when it came or later. */
  ghost predicate CauseGiven<Id>(past: seq<Action<Id>>, id: Id, cause: Err) {
    Enter(id, Some(Context(Some(cause)))) in past || Cancel(id, cause) in past
  }

  ghost predicate WorkerExplained<Id>(past: seq<Action<Id>>, s: Database<Id>) {
    && (s.worker.AtWrite? ==> TerminateEnds(s.worker.t) in past)
    && (s.written.Some? ==> TerminateEnds(s.written.value) in past)
    && (s.doneClosed <==> CloseDone in past)
  }

  ghost predicate CallerExplained<Id(!new)>(past: seq<Action<Id>>, s: Database<Id>, id: Id) {
    if id !in s.callers then
      (forall ctx :: Enter(id, ctx) !in past) && forall cause :: Cancel(id, cause) !in past
    else match s.callers[id]
      case AtOnce(c) => forall cause :: CauseGiven(past, id, cause) <==> c.cause == Some(cause)
      case Waiting(c) => forall cause :: CauseGiven(past, id, cause) <==> c.cause == Some(cause)
      case RefusedNil => Enter(id, None) in past
      case ThroughDone(_) => true
      case ThroughContext(err) => err.Some? && CauseGiven(past, id, err.value)
  }

  lemma WorkerStepExplained<Id(!new)>(past: seq<Action<Id>>, s: Database<Id>, a: Action<Id>, u: Database<Id>)
    requires WorkerExplained(past, s) && Step(s, a) == Some(u)
    ensures WorkerExplained(past + [a], u)
  {
    assert forall b :: b in past + [a] <==> b in past || b == a;
  }

  lemma NewcomerExplained<Id(!new)>(past: seq<Action<Id>>, s: Database<Id>, a: Action<Id>, u: Database<Id>, id: Id)
    requires id !in s.callers && CallerExplained(past, s, id) && Step(s, a) == Some(u)
    ensures CallerExplained(past + [a], u, id)
  {
    assert forall b :: b in past + [a] <==> b in past || b == a;
  }

  lemma CallerStepExplained<Id(!new)>(past: seq<Action<Id>>, s: Database<Id>, a: Action<Id>, u: Database<Id>, id: Id)
    requires id in s.callers && CallerExplained(past, s, id) && Step(s, a) == Some(u)
    ensures CallerExplained(past + [a], u, id)
  {
    assert forall b :: b in past + [a] <==> b in past || b == a;
    assert id in u.callers;
    if a in {Once(id), ReadDone(id), ReadContext(id)} || (a.Cancel? && a.id == id) {
    } else {
      assert u.callers[id] == s.callers[id];
    }
  }

  lemma StepExplained<Id(!new)>(past: seq<Action<Id>>, s: Database<Id>, a: Action<Id>, u: Database<Id>, id: Id)
    requires WorkerExplained(past, s) && CallerExplained(past, s, id) && Step(s, a) == Some(u)
    ensures WorkerExplained(past + [a], u) && CallerExplained(past + [a], u, id)
  {
    hide WorkerExplained, CallerExplained, Step;
    WorkerStepExplained(past, s, a, u);
    if id in s.callers { CallerStepExplained(past, s, a, u, id); } else { NewcomerExplained(past, s, a, u, id); }
  }

  lemma {:induction false} RunExplained<Id(!new)>(
    past: seq<Action<Id>>, s: Database<Id>, acts: seq<Action<Id>>, t: Database<Id>, id: Id)
    requires WorkerExplained(past, s) && CallerExplained(past, s, id) && Exec(s, acts) == Some(t)
    ensures WorkerExplained(past + acts, t) && CallerExplained(past + acts, t, id)
    decreases acts
  {
    hide WorkerExplained, CallerExplained, Step;
    if acts == [] {
      assert past + acts == past;
    } else {
      StepExplained(past, s, acts[0], Step(s, acts[0]).value, id);
      RunExplained(past + [acts[0]], Step(s, acts[0]).value, acts[1..], t, id);
      assert past + [acts[0]] + acts[1..] == past + acts;
    }
  }

  /** In every run a call that came back through the channel reports how the termination ended, its
      panic as the fixed error; one that came back through its context reports that context's own
      cause; one was refused only because it brought none. A waiting call can come back exactly when
      the channel is closed or its own context is done. */
  lemma EveryAnswerIsDue<Id(!new)>(acts: seq<Action<Id>>, t: Database<Id>, id: Id)
    requires Exec(Init(), acts) == Some(t) && id in t.callers
    ensures var pc := t.callers[id];
      && (pc.AtOnce? ==> Step(t, Once(id)).Some?)
      && (pc.Waiting? ==> (Step(t, ReadDone(id)).Some? <==> CloseDone in acts))
      && (pc.Waiting? ==> (Step(t, ReadContext(id)).Some? <==> exists cause :: CauseGiven(acts, id, cause)))
      && (pc.RefusedNil? ==> Enter(id, None) in acts)
      && (pc.ThroughDone? ==>
            || (TerminateEnds(TerminatePanics) in acts && pc.err == Some(SentinelError(TerminationPanicked)))
            || TerminateEnds(TerminateReturns(pc.err)) in acts)
      && (pc.ThroughContext? ==> pc.err.Some? && CauseGiven(acts, id, pc.err.value))
  {
    assert Inv(Init<Id>());
    RunExplained([], Init<Id>(), acts, t, id);
    assert [] + acts == acts;
    hide Exec, Count, Step;
    WorkerAccount(Init<Id>(), acts, t);
    CanRead(t, id);
  }

  lemma CanRead<Id(!new)>(s: Database<Id>, id: Id)
    requires id in s.callers
    ensures s.callers[id].AtOnce? ==> Step(s, Once(id)).Some?
    ensures s.callers[id].Waiting? ==> (Step(s, ReadDone(id)).Some? <==> s.doneClosed)
    ensures s.callers[id].Waiting? ==> (Step(s, ReadContext(id)).Some? <==> s.callers[id].ctx.cause.Some?)
  {
  }

  /** The termination goroutine is never stuck: however the native call ends, it goes on to close the
      channel. */
  lemma WorkerNeverStuck<Id(!new)>(s: Database<Id>, t: Termination)
    ensures match s.worker
            case AtTerminate => Step(s, CallTerminate).Some?
            case InTerminate => Step(s, TerminateEnds(t)).Some?
            case AtWrite(_) => Step(s, WriteErr).Some?
            case AtClose => Step(s, CloseDone).Some?
            case _ => true
    ensures Inv(s) && s.onceFired && !s.doneClosed ==>
              s.worker.AtTerminate? || s.worker.InTerminate? || s.worker.AtWrite? || s.worker.AtClose?
  {
  }

  /** In every run, and so in every prefix of it: termination is called at most once, the shared
      error is written at most once, only after that call, and before the channel closes; every call
      that returned through the channel returned that one value, and none returned without
      termination having been started. */
  lemma SharedTerminationResult<Id(!new)>(acts: seq<Action<Id>>, t: Database<Id>)
    requires Exec(Init(), acts) == Some(t)
    ensures Count(acts, IsClose()) <= Count(acts, IsWrite()) <= Count(acts, IsTerminate()) <= 1
    ensures forall i, j | i in t.callers && j in t.callers && t.callers[i].ThroughDone? && t.callers[j].ThroughDone? ::
              t.callers[i].err == t.callers[j].err
    ensures forall i | i in t.callers && t.callers[i].ThroughDone? ::
              t.written.Some? && t.callers[i].err == TerminationError(t.written.value)
    ensures forall i | i in t.callers && (t.callers[i].ThroughDone? || t.callers[i].ThroughContext?) :: t.onceFired
  {
    WorkerAccount(Init<Id>(), acts, t);
  }

  lemma ReadFindsResult<Id(!new)>(s: Database<Id>, id: Id, u: Database<Id>)
    requires Inv(s) && Step(s, ReadDone(id)) == Some(u)
    ensures Inv(u) && s.worker.Closed? && u.worker.Closed?
    ensures s.written.Some? && u.written == s.written
    ensures id in u.callers && u.callers[id] == ThroughDone(TerminationError(s.written.value))
  {
  }

  /** Write before read: once any call has read the shared error, no write of it follows, and the
      write lies before the read. */
  lemma WriteBeforeRead<Id(!new)>(
    before: seq<Action<Id>>, s: Database<Id>, id: Id, u: Database<Id>, after: seq<Action<Id>>, t: Database<Id>)
    requires Exec(Init(), before) == Some(s) && Step(s, ReadDone(id)) == Some(u) && Exec(u, after) == Some(t)
    ensures Count(before, IsWrite()) == Count(before, IsClose()) == 1
    ensures Count(after, IsWrite()) == Count(after, IsTerminate()) == 0
    ensures s.written.Some? && t.written == s.written
    ensures id in u.callers && u.callers[id] == ThroughDone(TerminationError(s.written.value))
  {
    assert Inv(Init<Id>());
    hide Step, Inv, Exec, Count;
    WorkerAccount(Init<Id>(), before, s);
    ReadFindsResult(s, id, u);
    WorkerAccount(u, after, t);
    assert Stage(t.worker) <= 4;
  }

  // ---- Ownership of a started container ------------------------------------------------------

  datatype Setup = NoSetup | SetupReturns(err: Option<Err>) | SetupPanics(value: int) | SetupExits

  /** What the caller of `startDatabase` gets; `live` is the fixture it then owns. */
  datatype Started = Live | Failed(err: Err) | Panicked(value: int) | Exited

  /** One container, and the terminations started on it. */
  class Container {
    var terminations: nat
    var onceFired: bool
    var shutdownErr: Option<Err>

    constructor ()
      ensures terminations == 0 && !onceFired
    {
      terminations, onceFired, shutdownErr := 0, false, None;
    }

    /** A direct call of the native termination. */
    method Terminate(t: Termination) returns (err: Option<Err>, panicked: bool)
      modifies `terminations
      ensures terminations == old(terminations) + 1
      ensures panicked == t.TerminatePanics? && (!panicked ==> err == t.err)
    {
      terminations := terminations + 1;
      panicked := t.TerminatePanics?;
      err := if panicked then None else t.err;
    }

    /** `terminate`: the recover turns a panic into a fixed error. */
    method TerminateRecovered(t: Termination) returns (err: Option<Err>)
      modifies `terminations
      ensures terminations == old(terminations) + 1
      ensures err == if t.TerminatePanics? then Some(SentinelError(TerminationPanicked)) else t.err
    {
      var panicked;
      err, panicked := Terminate(t);
      if panicked { err := Some(SentinelError(TerminationPanicked)); }
    }

    /** `Shutdown` called sequentially: the first call terminates and stores the result, every call
        returns the stored one unless it gave up waiting. */
    method Shutdown(t: Termination, gaveUp: Option<Err>) returns (err: Option<Err>)
      modifies this
      ensures onceFired
      ensures terminations == old(terminations) + if old(onceFired) then 0 else 1
      ensures shutdownErr == if old(onceFired) then old(shutdownErr) else TerminationError(t)
      ensures err == if gaveUp.Some? then gaveUp else shutdownErr
    {
      if !onceFired {
        onceFired := true;
        shutdownErr := TerminateRecovered(t);
      }
      err := if gaveUp.Some? then gaveUp else shutdownErr;
    }
  }

  method TerminateAfterConnectionStringError(c: Container, t: Termination) returns (err: Option<Err>)
    modifies c`terminations
    ensures c.terminations == old(c.terminations) + 1
    ensures err == if t.TerminatePanics? then None else t.err
  {
    var panicked;
    err, panicked := c.Terminate(t);
    if panicked { err := None; }
  }

  /** `setupDatabase`: the `completed` flag tells a goroutine exit from a normal return. */
  method SetupDatabase(c: Container, setup: Setup, t: Termination, gaveUp: Option<Err>) returns (r: Started)
    requires !setup.NoSetup? && !c.onceFired
    modifies c
    ensures r == SetupResult(setup, t, gaveUp)
    ensures c.terminations == old(c.terminations) + if r.Live? then 0 else 1
    ensures c.onceFired <==> !r.Live?
  {
    var completed := false;
    var panicValue: Option<int> := None;
    r := Live;
    match setup {
      case SetupPanics(v) => panicValue := Some(v);
      case SetupExits =>
      case SetupReturns(setupErr) =>
        completed := true;
        if setupErr.Some? {
          var cleanup := c.Shutdown(t, gaveUp);
          r := Failed(Joined(Wrap(setupErr.value), cleanup));
        }
    }
    // The deferred function.
    if panicValue.None? && completed { return; }
    var _ := c.Shutdown(t, gaveUp);
    r := if panicValue.Some? then Panicked(panicValue.value) else Exited;
  }

  function SetupResult(setup: Setup, t: Termination, gaveUp: Option<Err>): Started {
    match setup
    case NoSetup => Live
    case SetupReturns(None) => Live
    case SetupReturns(Some(e)) => Failed(Joined(Wrap(e), if gaveUp.Some? then gaveUp else TerminationError(t)))
    case SetupPanics(v) => Panicked(v)
    case SetupExits => Exited
  }

  /** What `startDatabase` hands out, for every way its parts can end. */
  function StartResult(
    starter: Option<Err>, connection: Option<Err>, setup: Setup, t: Termination, gaveUp: Option<Err>): Started
  {
    if starter.Some? then Failed(Wrap(starter.value))
    else if connection.Some?
    then Failed(Joined(Wrap(connection.value), if t.TerminatePanics? then None else t.err))
    else SetupResult(setup, t, gaveUp)
  }

  /** Either the caller gets a live fixture and no termination was started, or a started container
      had exactly one started; a container that never started is not terminated. */
  method StartDatabase(
    c: Container, starter: Option<Err>, connection: Option<Err>, setup: Setup, t: Termination, gaveUp: Option<Err>)
    returns (r: Started)
    requires c.terminations == 0 && !c.onceFired
    modifies c
    ensures r == StartResult(starter, connection, setup, t, gaveUp)
    ensures c.terminations == if r.Live? || starter.Some? then 0 else 1
    ensures r.Live? ==> starter.None? && connection.None? && !c.onceFired
  {
    if starter.Some? { return Failed(Wrap(starter.value)); }
    if connection.Some? {
      var cleanup := TerminateAfterConnectionStringError(c, t);
      JoinOfTwo(Wrap(connection.value), cleanup);
      return Failed(Joined(Wrap(connection.value), cleanup));
    }
    if setup.NoSetup? { return Live; }
    r := SetupDatabase(c, setup, t, gaveUp);
  }

  /** What a search finds in an error joined with the cleanup's: the first that has it. */
  function FoundFirst<T>(e: Err, cleanup: Option<Err>, pick: Tag -> Option<T>): Option<T> {
    if Find(e, pick).Some? then Find(e, pick)
    else if cleanup.Some? then Find(cleanup.value, pick) else None
  }

  /** What the caller of `startDatabase` can inspect: the starter's error alone; a connection error and
      then the error a returning termination gave, its panic adding nothing; a setup error and then
      what shutting down reported, a termination panic included. The fixture is live in no other case
      than that nothing went wrong, and a setup's panic or exit is passed on. */
  lemma StartErrorsInspectable<T>(
    starter: Option<Err>, connection: Option<Err>, setup: Setup, t: Termination, gaveUp: Option<Err>, pick: Tag -> Option<T>)
    requires pick(PLAIN).None?
    ensures var r := StartResult(starter, connection, setup, t, gaveUp);
      if starter.Some? then r.Failed? && Find(r.err, pick) == Find(starter.value, pick)
      else if connection.Some? then
        r.Failed? && Find(r.err, pick) == FoundFirst(connection.value, if t.TerminateReturns? then t.err else None, pick)
      else match setup
        case NoSetup => r == Live
        case SetupReturns(None) => r == Live
        case SetupReturns(Some(e)) =>
          r.Failed? && Find(r.err, pick) == FoundFirst(
            e, if gaveUp.Some? then gaveUp
               else if t.TerminatePanics? then Some(SentinelError(TerminationPanicked)) else t.err, pick)
        case SetupPanics(v) => r == Panicked(v)
        case SetupExits => r == Exited
  {
    hide Find;
    if starter.Some? {
      FindWrap(starter.value, pick);
    } else if connection.Some? {
      FindWrap(connection.value, pick);
      FindJoined(Wrap(connection.value), if t.TerminatePanics? then None else t.err, pick);
    } else if setup.SetupReturns? && setup.err.Some? {
      FindWrap(setup.err.value, pick);
      FindJoined(Wrap(setup.err.value), if gaveUp.Some? then gaveUp else TerminationError(t), pick);
    }
  }

  /** The original cause survives every cleanup: a starter, connection or setup error stays inspectable
      and keeps deciding the classification when native, and panics and exits stay what they were. */
  lemma OriginalCauseSurvives(starter: Option<Err>, connection: Option<Err>, setup: Setup, t: Termination, gaveUp: Option<Err>)
    ensures var r := StartResult(starter, connection, setup, t, gaveUp);
      if starter.Some? then KeepsCause(r, starter.value)
      else if connection.Some? then KeepsCause(r, connection.value)
      else
        && (setup.SetupReturns? && setup.err.Some? ==> KeepsCause(r, setup.err.value))
        && (setup.SetupPanics? ==> r == Panicked(setup.value))
        && (setup.SetupExits? ==> r == Exited)
  {
    if starter.Some? {
      WrapKeepsClassification(starter.value);
    } else if connection.Some? {
      JoinedWrapKeeps(connection.value, if t.TerminatePanics? then None else t.err);
    } else if setup.SetupReturns? && setup.err.Some? {
      JoinedWrapKeeps(setup.err.value, if gaveUp.Some? then gaveUp else TerminationError(t));
    }
  }

  ghost predicate KeepsCause(r: Started, e: Err) {
    && r.Failed?
    && (forall s :: Is(e, s) ==> Is(r.err, s))
    && (FindPg(e).Some? ==> Classify(Some(r.err)) == Classify(Some(e)).(cause := Some(r.err)))
  }

  lemma JoinedWrapKeeps(e: Err, extra: Option<Err>)
    ensures KeepsCause(Failed(Joined(Wrap(e), extra)), e)
  {
    FindWrap(e, PickPg());
    FindJoined(Wrap(e), extra, PickPg());
    forall s | Is(e, s) ensures Is(Joined(Wrap(e), extra), s) {
      FindWrap(e, PickSentinel(s));
      FindJoined(Wrap(e), extra, PickSentinel(s));
    }
  }
}
