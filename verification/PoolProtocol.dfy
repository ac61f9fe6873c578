/** The shutdown and admission protocol of `Pool`, pool.go, as a transition system.

    Any number of callers run `Shutdown`, `Acquire` and `Ping` concurrently with one cleanup
    goroutine and a clock. An action is one atomic step of one of them; a run is a list of actions,
    so a statement about all action lists is a statement about all interleavings. A `select` with
    both branches ready offers two actions. Ids name calls, not goroutines. */
module PoolProtocol {
  import opened Options
  import opened Counting

  datatype Context = Context(deadline: Option<nat>, canceled: bool)

  datatype Result = ContextRequired | ShutdownNil | ShutdownTimedOut | PoolClosed | BackendAnswered

  datatype Pc =
    | AtStore(ctx: Context)      // Shutdown: before closed.Store(true)
    | AtOnce(ctx: Context)       // Shutdown: before closeOnce.Do
    | Waiting(ctx: Context)      // Shutdown: in the select, ctx being the bounded one
    | AtLoad                     // Acquire, Ping: before closed.Load()
    | Admitted                   // Acquire, Ping: the load saw false, backend not called yet
    | InBackend
    | Finished(result: Result)

  datatype Cleanup = Unspawned | Spawned | InClose | CloseReturned | Signalled

  datatype Pool<!Id> = Pool(
    closed: bool, onceFired: bool, cleanup: Cleanup, callers: map<Id, Pc>, now: nat, shutdownTimeout: int)

  datatype Action<Id> =
    | EnterShutdown(id: Id, ctx: Option<Context>)
    | Store(id: Id)
    | Once(id: Id)
    | SeeDone(id: Id)
    | SeeContext(id: Id)
    | CallClose
    | ReturnClose
    | Signal
    | EnterOperation(id: Id)
    | Load(id: Id)
    | CallBackend(id: Id)
    | ReturnBackend(id: Id)
    | Cancel(id: Id)
    | Tick

  function Init<Id(==)>(shutdownTimeout: int): Pool<Id> {
    Pool(false, false, Unspawned, map[], 0, shutdownTimeout)
  }

  /** `boundedContext`: a positive timeout adds a deadline, the earlier one counts. */
  function Bound(ctx: Context, now: nat, timeout: int): Context {
    if timeout <= 0 then ctx
    else if ctx.deadline.Some? && ctx.deadline.value <= now + timeout then ctx
    else ctx.(deadline := Some(now + timeout))
  }

  predicate ContextDone(ctx: Context, now: nat) {
    ctx.canceled || (ctx.deadline.Some? && ctx.deadline.value <= now)
  }

  function At<Id(==)>(s: Pool<Id>, id: Id): Option<Pc> {
    if id in s.callers then Some(s.callers[id]) else None
  }

  function Move<Id(==)>(s: Pool<Id>, id: Id, pc: Pc): Pool<Id> { s.(callers := s.callers[id := pc]) }

  /** One atomic step, or `None` when it is not enabled. */
  function Step<Id(==)>(s: Pool<Id>, a: Action<Id>): Option<Pool<Id>> {
    match a
    case EnterShutdown(id, ctx) =>
      if id in s.callers then None
      else Some(Move(s, id, if ctx.None? then Finished(ContextRequired) else AtStore(ctx.value)))
    case Store(id) =>
      (match At(s, id)
       case Some(AtStore(ctx)) => Some(Move(s, id, AtOnce(ctx)).(closed := true))
       case _ => None)
    case Once(id) =>
      (match At(s, id)
       case Some(AtOnce(ctx)) =>
         var waiting := Move(s, id, Waiting(Bound(ctx, s.now, s.shutdownTimeout)));
         Some(if s.onceFired then waiting else waiting.(onceFired := true, cleanup := Spawned))
       case _ => None)
    case SeeDone(id) =>
      (match At(s, id)
       case Some(Waiting(_)) => if s.cleanup.Signalled? then Some(Move(s, id, Finished(ShutdownNil))) else None
       case _ => None)
    case SeeContext(id) =>
      (match At(s, id)
       case Some(Waiting(ctx)) =>
         if ContextDone(ctx, s.now) then Some(Move(s, id, Finished(ShutdownTimedOut))) else None
       case _ => None)
    case CallClose => if s.cleanup.Spawned? then Some(s.(cleanup := InClose)) else None
    case ReturnClose => if s.cleanup.InClose? then Some(s.(cleanup := CloseReturned)) else None
    case Signal => if s.cleanup.CloseReturned? then Some(s.(cleanup := Signalled)) else None
    case EnterOperation(id) => if id in s.callers then None else Some(Move(s, id, AtLoad))
    case Load(id) =>
      if At(s, id) == Some(AtLoad)
      then Some(Move(s, id, if s.closed then Finished(PoolClosed) else Admitted)) else None
    case CallBackend(id) => if At(s, id) == Some(Admitted) then Some(Move(s, id, InBackend)) else None
    case ReturnBackend(id) =>
      if At(s, id) == Some(InBackend) then Some(Move(s, id, Finished(BackendAnswered))) else None
    case Cancel(id) =>
      (match At(s, id)
       case Some(AtStore(ctx)) => Some(Move(s, id, AtStore(ctx.(canceled := true))))
       case Some(AtOnce(ctx)) => Some(Move(s, id, AtOnce(ctx.(canceled := true))))
       case Some(Waiting(ctx)) => Some(Move(s, id, Waiting(ctx.(canceled := true))))
       case _ => None)
    case Tick => Some(s.(now := s.now + 1))
  }

  /** The state a run leads to, or `None` when some action was not enabled. */
  function Exec<Id(==)>(s: Pool<Id>, acts: seq<Action<Id>>): Option<Pool<Id>>
    decreases acts
  {
    if acts == [] then Some(s)
    else match Step(s, acts[0])
      case None => None
      case Some(u) => Exec(u, acts[1..])
  }

  function IsCallClose<Id>(): Action<Id> -> bool { (a: Action<Id>) => a.CallClose? }
  function IsReturnClose<Id>(): Action<Id> -> bool { (a: Action<Id>) => a.ReturnClose? }
  function IsSignal<Id>(): Action<Id> -> bool { (a: Action<Id>) => a.Signal? }
  function IsCallBackend<Id>(): Action<Id> -> bool { (a: Action<Id>) => a.CallBackend? }

  // ---- The invariant of every run ------------------------------------------------------------

  ghost predicate PcOk<Id>(s: Pool<Id>, pc: Pc) {
    match pc
    case AtOnce(_) => s.closed
    case Waiting(_) => s.onceFired
    case Finished(ShutdownNil) => s.cleanup.Signalled?
    case Finished(ShutdownTimedOut) => s.onceFired
    case Finished(PoolClosed) => s.closed
    case _ => true
  }

  ghost predicate Inv<Id(!new)>(s: Pool<Id>) {
    && (s.onceFired <==> !s.cleanup.Unspawned?)
    && (s.onceFired ==> s.closed)
    && (forall id | id in s.callers :: PcOk(s, s.callers[id]))
  }

  lemma StepKeepsInv<Id(!new)>(s: Pool<Id>, a: Action<Id>, u: Pool<Id>)
    requires Inv(s) && Step(s, a) == Some(u)
    ensures Inv(u)
    ensures s.closed ==> u.closed
  {
  }

  lemma {:induction false} RunKeepsInv<Id(!new)>(s: Pool<Id>, acts: seq<Action<Id>>, t: Pool<Id>)
    requires Inv(s) && Exec(s, acts) == Some(t)
    ensures Inv(t)
    ensures s.closed ==> t.closed
    decreases acts
  {
    if acts != [] {
      var u := Step(s, acts[0]).value;
      StepKeepsInv(s, acts[0], u);
      RunKeepsInv(u, acts[1..], t);
    }
  }

  /** Admission never reopens; a nil result of Shutdown comes only after the channel was closed; no
      Shutdown with a context returns without cleanup having been started; and only a pool whose
      admission is closed refuses callers. */
  lemma ShutdownSafety<Id(!new)>(timeout: int, acts: seq<Action<Id>>, t: Pool<Id>)
    requires Exec(Init(timeout), acts) == Some(t)
    ensures forall id | id in t.callers ::
      && (t.callers[id] == Finished(ShutdownNil) ==> t.cleanup.Signalled?)
      && (t.callers[id] in {Finished(ShutdownNil), Finished(ShutdownTimedOut)} ==> t.onceFired && t.closed)
      && (t.callers[id] == Finished(PoolClosed) ==> t.closed)
    ensures t.onceFired <==> !t.cleanup.Unspawned?
  {
    RunKeepsInv(Init(timeout), acts, t);
    forall id | id in t.callers ensures PcOk(t, t.callers[id]) {}
  }

  // ---- One close, one signal -----------------------------------------------------------------

  function Stage(c: Cleanup): nat {
    match c
    case Unspawned => 0
    case Spawned => 1
    case InClose => 2
    case CloseReturned => 3
    case Signalled => 4
  }

  /** 1 once the cleanup has passed the stage, 0 before. */
  function Passed(c: Cleanup, stage: nat): nat { if Stage(c) >= stage then 1 else 0 }

  lemma {:induction false} CleanupAccount<Id(!new)>(s: Pool<Id>, acts: seq<Action<Id>>, t: Pool<Id>)
    requires Inv(s) && Exec(s, acts) == Some(t)
    ensures Count(acts, IsCallClose()) == Passed(t.cleanup, 2) - Passed(s.cleanup, 2)
    ensures Count(acts, IsReturnClose()) == Passed(t.cleanup, 3) - Passed(s.cleanup, 3)
    ensures Count(acts, IsSignal()) == Passed(t.cleanup, 4) - Passed(s.cleanup, 4)
    decreases acts
  {
    if acts != [] {
      var u := Step(s, acts[0]).value;
      StepKeepsInv(s, acts[0], u);
      CleanupAccount(u, acts[1..], t);
    }
  }

  /** In every run, and so in every prefix of it: the backend is closed at most once, the channel is
      closed at most once and only after that call returned, and a Shutdown that returned nil had
      both behind it. */
  lemma SingleClose<Id(!new)>(timeout: int, acts: seq<Action<Id>>, t: Pool<Id>)
    requires Exec(Init(timeout), acts) == Some(t)
    ensures Count(acts, IsSignal()) <= Count(acts, IsReturnClose()) <= Count(acts, IsCallClose()) <= 1
    ensures (exists id :: id in t.callers && t.callers[id] == Finished(ShutdownNil)) ==>
              Count(acts, IsSignal()) == Count(acts, IsReturnClose()) == Count(acts, IsCallClose()) == 1
  {
    CleanupAccount(Init(timeout), acts, t);
    ShutdownSafety(timeout, acts, t);
  }

  /** Only a Shutdown call that brought a context closes admission or starts cleanup. */
  lemma {:induction false} NilContextsChangeNothing<Id(!new)>(s: Pool<Id>, acts: seq<Action<Id>>, t: Pool<Id>)
    requires Exec(s, acts) == Some(t) && !s.closed && s.cleanup.Unspawned? && !s.onceFired
    requires forall id | id in s.callers :: !s.callers[id].AtStore? && !s.callers[id].AtOnce?
    requires forall k | 0 <= k < |acts| :: acts[k].EnterShutdown? ==> acts[k].ctx.None?
    ensures !t.closed && t.cleanup.Unspawned? && !t.onceFired
    decreases acts
  {
    if acts != [] {
      assert acts[0].EnterShutdown? ==> acts[0].ctx.None?;
      var u := Step(s, acts[0]).value;
      forall k | 0 <= k < |acts[1..]| ensures acts[1..][k].EnterShutdown? ==> acts[1..][k].ctx.None? {
        assert acts[1..][k] == acts[k + 1];
      }
      NilContextsChangeNothing(u, acts[1..], t);
    }
  }

  /** Cleanup is never stuck: from every state in which it was started, three steps of its own at most,
      close, its return and the signal, finish it, and they change nothing else. */
  lemma CleanupCanFinish<Id(!new)>(s: Pool<Id>)
    requires Inv(s) && s.onceFired
    ensures var rest := [CallClose, ReturnClose, Signal][Stage(s.cleanup) - 1..];
      Exec(s, rest) == Some(s.(cleanup := Signalled))
  {
    var all: seq<Action<Id>> := [CallClose, ReturnClose, Signal];
    assert all[1..] == [ReturnClose, Signal] && all[2..] == [Signal] && all[3..] == [];
    var last := s.(cleanup := Signalled);
    assert Exec(last, []) == Some(last);
    var returned := s.(cleanup := CloseReturned);
    assert all[2..][1..] == all[3..] && Step(returned, Signal) == Some(last);
    assert Exec(returned, all[2..]) == Some(last);
    var called := s.(cleanup := InClose);
    assert all[1..][1..] == all[2..] && Step(called, ReturnClose) == Some(returned);
    assert Exec(called, all[1..]) == Some(last);
    if s.cleanup.Spawned? { assert Step(s, CallClose) == Some(called) && all[0..] == all; }
  }

  // ---- Independent waiters -------------------------------------------------------------------

  /** The clock at which a call came to its select, if it did. */
  function SelectedAt<Id(==)>(s: Pool<Id>, acts: seq<Action<Id>>, id: Id): Option<nat>
    decreases acts
  {
    if acts == [] then None
    else if acts[0] == Once(id) then Some(s.now)
    else match Step(s, acts[0])
      case None => None
      case Some(u) => SelectedAt(u, acts[1..], id)
  }

  /** What lets a call give up at `now`, in terms of the context it was given: that context's deadline,
      its cancellation before or during the call, or the configured timeout since the select. */
  ghost predicate MayGiveUp(ctx: Context, canceled: bool, selected: nat, timeout: int, now: nat) {
    || (ctx.deadline.Some? && ctx.deadline.value <= now)
    || ctx.canceled || canceled
    || (timeout > 0 && selected + timeout <= now)
  }

  /** A call given `ctx`, as far as its run has come. */
  ghost predicate Tracked<Id>(s: Pool<Id>, pc: Pc, ctx: Context, canceled: bool, selected: Option<nat>) {
    match pc
    case AtStore(c) => selected.None? && c == ctx.(canceled := ctx.canceled || canceled)
    case AtOnce(c) => selected.None? && c == ctx.(canceled := ctx.canceled || canceled)
    case Waiting(c) =>
      selected.Some? && forall now :: ContextDone(c, now) <==> MayGiveUp(ctx, canceled, selected.value, s.shutdownTimeout, now)
    case Finished(r) =>
      && (r.ShutdownNil? || r.ShutdownTimedOut?)
      && (r.ShutdownTimedOut? ==>
            selected.Some? && MayGiveUp(ctx, canceled, selected.value, s.shutdownTimeout, s.now))
    case _ => false
  }

  /** A step moves a caller inside Shutdown only if it is that caller's own. */
  lemma OnlyOwnSteps<Id(!new)>(s: Pool<Id>, a: Action<Id>, u: Pool<Id>, id: Id)
    requires id in s.callers && !s.callers[id].AtLoad? && !s.callers[id].Admitted? && !s.callers[id].InBackend?
    requires Step(s, a) == Some(u) && a !in {Store(id), Once(id), SeeDone(id), SeeContext(id), Cancel(id)}
    ensures id in u.callers && u.callers[id] == s.callers[id]
  {
  }

  lemma StepTracks<Id(!new)>(
    s: Pool<Id>, a: Action<Id>, u: Pool<Id>, id: Id, ctx: Context, canceled: bool, selected: Option<nat>)
    requires id in s.callers && Tracked(s, s.callers[id], ctx, canceled, selected) && Step(s, a) == Some(u)
    ensures u.shutdownTimeout == s.shutdownTimeout && id in u.callers
    ensures Tracked(u, u.callers[id], ctx, canceled || a == Cancel(id), if a == Once(id) then Some(s.now) else selected)
    ensures selected.Some? ==> a != Once(id)
  {
    assert u.shutdownTimeout == s.shutdownTimeout && s.now <= u.now;
    if a !in {Store(id), Once(id), SeeDone(id), SeeContext(id), Cancel(id)} {
      hide Step;
      OnlyOwnSteps(s, a, u, id);
    }
  }

  lemma {:induction false} RunTracks<Id(!new)>(
    s: Pool<Id>, acts: seq<Action<Id>>, t: Pool<Id>, id: Id, ctx: Context, canceled: bool, selected: Option<nat>)
    requires id in s.callers && Tracked(s, s.callers[id], ctx, canceled, selected) && Exec(s, acts) == Some(t)
    ensures t.shutdownTimeout == s.shutdownTimeout && id in t.callers
    ensures Tracked(t, t.callers[id], ctx, canceled || Cancel(id) in acts,
                    if selected.Some? then selected else SelectedAt(s, acts, id))
    decreases acts
  {
    hide Tracked;
    if acts != [] {
      var u := Step(s, acts[0]).value;
      StepTracks(s, acts[0], u, id, ctx, canceled, selected);
      RunTracks(u, acts[1..], t, id, ctx, canceled || acts[0] == Cancel(id),
                if acts[0] == Once(id) then Some(s.now) else selected);
      assert acts == [acts[0]] + acts[1..];
    }
  }

  lemma NotInside<Id(!new)>(s: Pool<Id>, a: Action<Id>, u: Pool<Id>, id: Id)
    requires id !in s.callers && Step(s, a) == Some(u)
    ensures id in u.callers ==> (a.EnterShutdown? || a.EnterOperation?) && a.id == id
    ensures a != Cancel(id) && a != Once(id) && u.shutdownTimeout == s.shutdownTimeout
  {
  }

  lemma {:induction false} EntersOnce<Id(!new)>(s: Pool<Id>, acts: seq<Action<Id>>, t: Pool<Id>, id: Id)
    requires id in s.callers && Exec(s, acts) == Some(t)
    ensures forall ctx :: EnterShutdown(id, ctx) !in acts
    decreases acts
  {
    if acts != [] {
      var u := Step(s, acts[0]).value;
      assert id in u.callers;
      EntersOnce(u, acts[1..], t, id);
      assert acts == [acts[0]] + acts[1..];
    }
  }

  lemma {:induction false} EnteredIsTracked<Id(!new)>(s: Pool<Id>, acts: seq<Action<Id>>, t: Pool<Id>, id: Id, ctx: Context)
    requires id !in s.callers && Exec(s, acts) == Some(t) && EnterShutdown(id, Some(ctx)) in acts
    ensures t.shutdownTimeout == s.shutdownTimeout && id in t.callers
    ensures Tracked(t, t.callers[id], ctx, Cancel(id) in acts, SelectedAt(s, acts, id))
    decreases acts
  {
    var u := Step(s, acts[0]).value;
    NotInside(s, acts[0], u, id);
    assert acts == [acts[0]] + acts[1..];
    if id in u.callers {
      EntersOnce(u, acts[1..], t, id);
      assert acts[0] == EnterShutdown(id, Some(ctx));
      RunTracks(u, acts[1..], t, id, ctx, false, None);
    } else {
      EnteredIsTracked(u, acts[1..], t, id, ctx);
    }
  }

  /** In every run a waiting call can return exactly when the channel is closed or its own time is up:
      the deadline or a cancellation of the context it brought, or the configured timeout. Nobody
      else's deadline matters, and with both branches ready either can be taken. */
  lemma WaiterCanReturnIff<Id(!new)>(timeout: int, acts: seq<Action<Id>>, t: Pool<Id>, id: Id, ctx: Context)
    requires Exec(Init(timeout), acts) == Some(t) && EnterShutdown(id, Some(ctx)) in acts
    requires id in t.callers && t.callers[id].Waiting?
    ensures var selected := SelectedAt(Init(timeout), acts, id);
      && selected.Some?
      && (Step(t, SeeDone(id)).Some? <==> t.cleanup.Signalled?)
      && (Step(t, SeeContext(id)).Some? <==> MayGiveUp(ctx, Cancel(id) in acts, selected.value, timeout, t.now))
  {
    EnteredIsTracked(Init(timeout), acts, t, id, ctx);
  }

  /** And the converse: a call that timed out had its own time up. */
  lemma TimedOutOnlyWhenDue<Id(!new)>(timeout: int, acts: seq<Action<Id>>, t: Pool<Id>, id: Id, ctx: Context)
    requires Exec(Init(timeout), acts) == Some(t) && EnterShutdown(id, Some(ctx)) in acts
    requires At(t, id) == Some(Finished(ShutdownTimedOut))
    ensures var selected := SelectedAt(Init(timeout), acts, id);
      selected.Some? && MayGiveUp(ctx, Cancel(id) in acts, selected.value, timeout, t.now)
  {
    EnteredIsTracked(Init(timeout), acts, t, id, ctx);
  }

  lemma {:induction false} ExecSplits<Id(!new)>(s: Pool<Id>, a: seq<Action<Id>>, m: Pool<Id>, b: seq<Action<Id>>)
    requires Exec(s, a) == Some(m)
    ensures Exec(s, a + b) == Exec(m, b)
    ensures forall id :: SelectedAt(s, a, id).Some? ==> SelectedAt(s, a + b, id) == SelectedAt(s, a, id)
    decreases a
  {
    if a == [] {
      assert a + b == b;
    } else {
      assert (a + b)[0] == a[0] && (a + b)[1..] == a[1..] + b;
      ExecSplits(Step(s, a[0]).value, a[1..], m, b);
    }
  }

  lemma SelectedBeforeNow<Id(!new)>(s: Pool<Id>, acts: seq<Action<Id>>, t: Pool<Id>, id: Id)
    requires Exec(s, acts) == Some(t)
    ensures s.now <= t.now
    ensures SelectedAt(s, acts, id).Some? ==> SelectedAt(s, acts, id).value <= t.now
    decreases acts
  {
    if acts != [] { SelectedBeforeNow(Step(s, acts[0]).value, acts[1..], t, id); }
  }

  /** In every continuation of every run a call that waits now has returned or can return once its own
      deadline has come, it has been canceled, or the clock has advanced by a positive configured
      timeout, whether or not cleanup ever finishes. */
  lemma EveryWaitEnds<Id(!new)>(
    timeout: int, before: seq<Action<Id>>, s: Pool<Id>, id: Id, ctx: Context, after: seq<Action<Id>>, t: Pool<Id>)
    requires Exec(Init(timeout), before) == Some(s) && Exec(s, after) == Some(t)
    requires EnterShutdown(id, Some(ctx)) in before && id in s.callers && s.callers[id].Waiting?
    requires || (timeout > 0 && t.now >= s.now + timeout)
             || (ctx.deadline.Some? && ctx.deadline.value <= t.now)
             || ctx.canceled || Cancel(id) in before + after
    ensures id in t.callers && (t.callers[id].Finished? || Step(t, SeeContext(id)).Some?)
  {
    EnteredIsTracked(Init(timeout), before, s, id, ctx);
    ExecSplits(Init(timeout), before, s, after);
    SelectedBeforeNow(Init(timeout), before, s, id);
    EnteredIsTracked(Init(timeout), before + after, t, id, ctx);
    if t.callers[id].Waiting? { WaiterCanReturnIff(timeout, before + after, t, id, ctx); }
  }

  // ---- Admission and drain -------------------------------------------------------------------

  ghost function InFlight<Id>(s: Pool<Id>): set<Id> {
    set id | id in s.callers && s.callers[id].Admitted?
  }

  lemma StepDrains<Id(!new)>(s: Pool<Id>, a: Action<Id>, u: Pool<Id>)
    requires s.closed && Step(s, a) == Some(u)
    ensures u.closed
    ensures InFlight(u) == if a.CallBackend? then InFlight(s) - {a.id} else InFlight(s)
    ensures a.CallBackend? ==> a.id in InFlight(s)
  {
  }

  /** After admission closed nobody new gets between check and call: each backend call takes one of
      those callers away and nothing else does. */
  lemma {:induction false} DrainAccount<Id(!new)>(s: Pool<Id>, acts: seq<Action<Id>>, t: Pool<Id>)
    requires s.closed && Exec(s, acts) == Some(t)
    ensures t.closed && InFlight(t) <= InFlight(s)
    ensures Count(acts, IsCallBackend()) == |InFlight(s)| - |InFlight(t)|
    decreases acts
  {
    if acts != [] {
      var u := Step(s, acts[0]).value;
      StepDrains(s, acts[0], u);
      DrainAccount(u, acts[1..], t);
    }
  }

  /** The drain bound of the first shutdown store: the backend calls begun after it are at most the
      callers that were then between check and call. */
  lemma DrainBound<Id(!new)>(
    timeout: int, before: seq<Action<Id>>, s: Pool<Id>, first: Id, u: Pool<Id>, after: seq<Action<Id>>, t: Pool<Id>)
    requires Exec(Init(timeout), before) == Some(s) && !s.closed
    requires Step(s, Store(first)) == Some(u) && Exec(u, after) == Some(t)
    ensures Count(after, IsCallBackend()) <= |InFlight(s)|
    ensures t.closed
  {
    assert InFlight(u) == InFlight(s);
    DrainAccount(u, after, t);
    assert |InFlight(t)| >= 0;
  }

  /** An Acquire or Ping that loads after the store is refused and never reaches the backend. */
  lemma {:induction false} LateCallersAreRefused<Id(!new)>(s: Pool<Id>, acts: seq<Action<Id>>, t: Pool<Id>, id: Id)
    requires s.closed && Exec(s, acts) == Some(t)
    requires At(s, id) in {None, Some(AtLoad), Some(Finished(PoolClosed))}
    ensures CallBackend(id) !in acts
    ensures Load(id) in acts || At(s, id) == Some(Finished(PoolClosed)) ==> At(t, id) == Some(Finished(PoolClosed))
    decreases acts
  {
    if acts != [] {
      var u := Step(s, acts[0]).value;
      assert acts == [acts[0]] + acts[1..];
      if acts[0].EnterShutdown? && acts[0].id == id {
        ShutdownCallersNeverLoad(u, acts[1..], t, id);
      } else {
        LateCallersAreRefused(u, acts[1..], t, id);
      }
    }
  }

  predicate InShutdown(pc: Pc) {
    pc.AtStore? || pc.AtOnce? || pc.Waiting? || (pc.Finished? && pc.result in {ContextRequired, ShutdownNil, ShutdownTimedOut})
  }

  lemma StepInShutdown<Id(!new)>(s: Pool<Id>, a: Action<Id>, u: Pool<Id>, id: Id)
    requires Step(s, a) == Some(u) && id in s.callers && InShutdown(s.callers[id])
    ensures a != CallBackend(id) && a != Load(id)
    ensures id in u.callers && InShutdown(u.callers[id])
  {
  }

  lemma {:induction false} ShutdownCallersNeverLoad<Id(!new)>(s: Pool<Id>, acts: seq<Action<Id>>, t: Pool<Id>, id: Id)
    requires Exec(s, acts) == Some(t) && id in s.callers && InShutdown(s.callers[id])
    ensures CallBackend(id) !in acts && Load(id) !in acts
    decreases acts
  {
    if acts != [] {
      assert acts == [acts[0]] + acts[1..];
      var u := Step(s, acts[0]).value;
      StepInShutdown(s, acts[0], u, id);
      ShutdownCallersNeverLoad(u, acts[1..], t, id);
    }
  }

  // ---- Answers -------------------------------------------------------------------------------

  /** What a run must hold for a caller to be where it is. */
  ghost predicate Explained<Id(!new)>(past: seq<Action<Id>>, s: Pool<Id>, id: Id) {
    if id !in s.callers then CallBackend(id) !in past
    else match s.callers[id]
      case AtLoad => EnterOperation(id) in past && CallBackend(id) !in past
      case Admitted => EnterOperation(id) in past && CallBackend(id) !in past
      case InBackend => CallBackend(id) in past
      case Finished(BackendAnswered) => CallBackend(id) in past && ReturnBackend(id) in past
      case Finished(PoolClosed) => EnterOperation(id) in past && CallBackend(id) !in past
      case Finished(ContextRequired) => EnterShutdown(id, None) in past && CallBackend(id) !in past
      case Finished(ShutdownNil) => SeeDone(id) in past && CallBackend(id) !in past
      case Finished(ShutdownTimedOut) => SeeContext(id) in past && CallBackend(id) !in past
      case _ => CallBackend(id) !in past
  }

  lemma StepExplained<Id(!new)>(past: seq<Action<Id>>, s: Pool<Id>, a: Action<Id>, u: Pool<Id>, id: Id)
    requires Explained(past, s, id) && Step(s, a) == Some(u)
    ensures Explained(past + [a], u, id)
  {
    assert a in past + [a];
    assert forall b | b in past :: b in past + [a];
    assert a != CallBackend(id) && CallBackend(id) !in past ==> CallBackend(id) !in past + [a];
  }

  lemma {:induction false} RunExplained<Id(!new)>(
    past: seq<Action<Id>>, s: Pool<Id>, acts: seq<Action<Id>>, t: Pool<Id>, id: Id)
    requires Explained(past, s, id) && Exec(s, acts) == Some(t)
    ensures Explained(past + acts, t, id)
    decreases acts
  {
    if acts == [] {
      assert past + acts == past;
    } else {
      StepExplained(past, s, acts[0], Step(s, acts[0]).value, id);
      RunExplained(past + [acts[0]], Step(s, acts[0]).value, acts[1..], t, id);
      assert past + [acts[0]] + acts[1..] == past + acts;
    }
  }

  /** In every run: a call is answered by the backend only after a backend call of its own, refused
      only without one, and told to bring a context only if it brought none. */
  lemma AnswersAreExplained<Id(!new)>(timeout: int, acts: seq<Action<Id>>, t: Pool<Id>, id: Id)
    requires Exec(Init(timeout), acts) == Some(t)
    ensures At(t, id) == Some(Finished(BackendAnswered)) ==> CallBackend(id) in acts && ReturnBackend(id) in acts
    ensures At(t, id) == Some(Finished(PoolClosed)) ==> EnterOperation(id) in acts && CallBackend(id) !in acts
    ensures At(t, id) == Some(Finished(ContextRequired)) ==> EnterShutdown(id, None) in acts
  {
    RunExplained([], Init(timeout), acts, t, id);
    assert [] + acts == acts;
  }

  /** While admission is open a caller is let through and can go on to its answer, undisturbed by anyone
      else's state. */
  lemma OpenPoolAnswers<Id(!new)>(s: Pool<Id>, id: Id)
    requires !s.closed && At(s, id) == Some(AtLoad)
    ensures Exec(s, [Load(id), CallBackend(id), ReturnBackend(id)]) == Some(Move(s, id, Finished(BackendAnswered)))
  {
    var acts := [Load(id), CallBackend(id), ReturnBackend(id)];
    var admitted, inside, answered := Move(s, id, Admitted), Move(s, id, InBackend), Move(s, id, Finished(BackendAnswered));
    assert Step(s, acts[0]) == Some(admitted);
    assert admitted.callers[id := InBackend] == inside.callers && inside.callers[id := Finished(BackendAnswered)] == answered.callers;
    assert acts[1..] == [CallBackend(id), ReturnBackend(id)] && acts[1..][1..] == [ReturnBackend(id)];
    assert Step(admitted, CallBackend(id)) == Some(inside) && Step(inside, ReturnBackend(id)) == Some(answered);
    assert Exec(inside, acts[1..][1..]) == Some(answered);
    assert Exec(admitted, acts[1..]) == Some(answered);
  }

  /** From every reachable state a Shutdown call that brought a context can still succeed. */
  lemma ShutdownCanSucceed<Id(!new)>(s: Pool<Id>, id: Id)
    requires Inv(s) && id in s.callers && s.callers[id].AtStore?
    ensures exists acts :: Exec(s, acts).Some? && At(Exec(s, acts).value, id) == Some(Finished(ShutdownNil))
  {
    var stored := Step(s, Store(id)).value;
    var waiting := Step(stored, Once(id)).value;
    StepKeepsInv(s, Store(id), stored);
    StepKeepsInv(stored, Once(id), waiting);
    CleanupCanFinish(waiting);
    var rest := [CallClose, ReturnClose, Signal][Stage(waiting.cleanup) - 1..];
    var done := waiting.(cleanup := Signalled);
    ExecOne(s, Store(id), stored);
    ExecOne(stored, Once(id), waiting);
    ExecOne(done, SeeDone(id), Step(done, SeeDone(id)).value);
    ExecSplits(s, [Store(id)], stored, [Once(id)]);
    ExecSplits(s, [Store(id)] + [Once(id)], waiting, rest);
    ExecSplits(s, [Store(id)] + [Once(id)] + rest, done, [SeeDone(id)]);
    assert Exec(s, [Store(id)] + [Once(id)] + rest + [SeeDone(id)]).Some?;
  }

  lemma ExecOne<Id(!new)>(s: Pool<Id>, a: Action<Id>, u: Pool<Id>)
    requires Step(s, a) == Some(u)
    ensures Exec(s, [a]) == Some(u)
  {
    assert [a][1..] == [];
  }
}
