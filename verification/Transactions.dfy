/** The transaction and savepoint runners, transaction.go, executed on one connection.

    The connection is a stack of write frames with the meaning of BEGIN / SAVEPOINT, COMMIT /
    RELEASE SAVEPOINT and ROLLBACK / ROLLBACK TO SAVEPOINT. A native transaction is its depth in
    that stack. Every native call follows the script of its scope; every call and every delivered
    observation is recorded. */
module Transactions {
  import opened Options
  import opened Errors
  import opened Telemetry
  import opened Scopes

  datatype Store = Store(durable: seq<int>, frames: seq<seq<int>>)

  /** Writes handed to the innermost open transaction, or made durable when there is none. */
  function Deliver(st: Store, ws: seq<int>): Store {
    var n := |st.frames|;
    if n == 0 then st.(durable := st.durable + ws)
    else st.(frames := st.frames[..n - 1] + [st.frames[n - 1] + ws])
  }

  lemma DeliverNothing(st: Store)
    ensures Deliver(st, []) == st
  {
    var n := |st.frames|;
    if n == 0 {
      assert st.durable + [] == st.durable;
    } else {
      assert st.frames[n - 1] + [] == st.frames[n - 1];
      assert st.frames[..n - 1] + [st.frames[n - 1]] == st.frames;
    }
  }

  lemma DeliverTwice(st: Store, a: seq<int>, b: seq<int>)
    ensures Deliver(Deliver(st, a), b) == Deliver(st, a + b)
  {
    var n := |st.frames|;
    if n == 0 {
      assert st.durable + a + b == st.durable + (a + b);
    } else {
      var once := Deliver(st, a).frames;
      assert once[..n - 1] == st.frames[..n - 1];
      assert once[n - 1] + b == st.frames[n - 1] + (a + b);
    }
  }

  function BeginOutcome(b: BeginScript): Outcome {
    match b
    case BeginOk => SUCCESS
    case BeginFails(e) => Returned(Some(e))
    case BeginPanics(v) => Panicked(v)
    case BeginExits => Exited
  }

  function RollbackOutcome(r: RollbackScript): Outcome {
    match r
    case RollbackOk => SUCCESS
    case RollbackFails(e) => Returned(Some(e))
    case RollbackPanics(v) => Panicked(v)
  }

  class Session {
    var durable: seq<int>
    var frames: seq<seq<int>>
    var calls: seq<Event>
    var observed: seq<Observation>

    constructor ()
      ensures Contents() == Store([], []) && calls == [] && observed == []
    {
      durable, frames, calls, observed := [], [], [], [];
    }

    ghost function Contents(): Store
      reads this
    {
      Store(durable, frames)
    }

    // ---- The native transaction (environment) ----

    method Begin(script: BeginScript) returns (tx: nat, o: Outcome)
      modifies `frames, `calls
      ensures tx == |old(frames)| + 1 && o == BeginOutcome(script)
      ensures frames == old(frames) + if script.BeginOk? then [[]] else []
      ensures calls == old(calls) + [if script.BeginOk? then BeginSucceeded(tx) else BeginFailed(tx)]
    {
      tx, o := |frames| + 1, BeginOutcome(script);
      if script.BeginOk? {
        frames, calls := frames + [[]], calls + [BeginSucceeded(tx)];
      } else {
        calls := calls + [BeginFailed(tx)];
      }
    }

    method Exec(w: int)
      requires frames != []
      modifies `frames
      ensures Contents() == Deliver(old(Contents()), [w])
    {
      var n := |frames|;
      frames := frames[..n - 1] + [frames[n - 1] + [w]];
    }

    /** A commit that returns ends the transaction, applied or not. One that does not return leaves
        it open unless it had been applied. */
    method Commit(tx: nat, script: CommitScript) returns (o: Outcome)
      requires tx == |frames| > 0
      modifies `durable, `frames, `calls
      ensures o == CommitOutcome(script)
      ensures calls == old(calls) + [CommitCalled(tx, o)]
      ensures CommitApplies(script) ==>
                Contents() == Deliver(old(Store(durable, frames[..tx - 1])), old(frames[tx - 1]))
      ensures !CommitApplies(script) && o.Returned? ==> Contents() == old(Store(durable, frames[..tx - 1]))
      ensures !CommitApplies(script) && !o.Returned? ==> Contents() == old(Contents())
    {
      o := CommitOutcome(script);
      calls := calls + [CommitCalled(tx, o)];
      var top := frames[tx - 1];
      if CommitApplies(script) {
        frames := frames[..tx - 1];
        if tx == 1 {
          durable := durable + top;
        } else {
          frames := frames[..tx - 2] + [frames[tx - 2] + top];
        }
      } else if o.Returned? {
        frames := frames[..tx - 1];
      }
    }

    /** Discards the transaction and everything nested in it; no effect on a closed one. */
    method Rollback(tx: nat, script: RollbackScript) returns (o: Outcome)
      requires tx > 0
      modifies `frames, `calls
      ensures o == RollbackOutcome(script)
      ensures calls == old(calls) + [RollbackCalled(tx)]
      ensures frames == if tx <= |old(frames)| then old(frames)[..tx - 1] else old(frames)
    {
      o := RollbackOutcome(script);
      calls := calls + [RollbackCalled(tx)];
      if tx <= |frames| { frames := frames[..tx - 1]; }
    }

    /** The observer's callback: it gets the observation and may then panic. */
    method Observe(script: ObserverScript, o: Observation) returns (out: Outcome)
      requires !script.NoObserver?
      modifies `observed
      ensures observed == old(observed) + [o]
      ensures out == if script.ObserverPanics? then Panicked(script.value) else SUCCESS
    {
      observed := observed + [o];
      out := if script.ObserverPanics? then Panicked(script.value) else SUCCESS;
    }

    /** Delivery of the bounded observation. `escaped` is how the delivery ends for its caller: the
        recover lets no observer panic out. */
    method SafeObserve(script: ObserverScript, o: Observation) returns (escaped: Outcome)
      modifies `observed
      ensures observed == old(observed) + if script.NoObserver? then [] else [Bounded(o)]
      ensures escaped == SUCCESS
    {
      if script.NoObserver? { return SUCCESS; }
      escaped := Observe(script, Bounded(o));
      if escaped.Panicked? { escaped := SUCCESS; }
    }

    /** The deferred function of both runners: it reports how the run ended and raises a panic again.
        An observer panic that got out would take the place of the ending. */
    method DeferredReport(operation: string, script: ObserverScript, ended: Outcome, completed: bool)
      returns (result: Outcome)
      requires completed == ended.Returned?
      modifies `observed
      ensures result == ended
      ensures observed == old(observed) + if script.NoObserver? then [] else [Report(operation, ended)]
    {
      var escaped;
      if ended.Panicked? {
        escaped := SafeObserve(script, ObservationFor(operation, None).(outcome := "panic"));
      } else if !completed {
        escaped := SafeObserve(script, ObservationFor(operation, None).(outcome := "aborted"));
      } else {
        escaped := SafeObserve(script, ObservationFor(operation, ended.err));
      }
      result := if escaped.Panicked? then escaped else ended;
    }

    // ---- Rollback helpers ----

    method RollbackTransaction(tx: nat, script: RollbackScript) returns (o: Outcome)
      requires tx > 0
      modifies `frames, `calls
      ensures o == if script.RollbackFails? then Returned(Some(Wrap(script.err))) else RollbackOutcome(script)
      ensures calls == old(calls) + [RollbackCalled(tx)]
      ensures frames == if tx <= |old(frames)| then old(frames)[..tx - 1] else old(frames)
    {
      o := Rollback(tx, script);
      if o.Returned? && o.err.Some? { o := Returned(Some(Wrap(o.err.value))); }
    }

    /** The recover turns a rollback panic into no error at all. */
    method RollbackAfterCallbackError(tx: nat, script: RollbackScript) returns (err: Option<Err>)
      requires tx > 0
      modifies `frames, `calls
      ensures err == RollbackError(script)
      ensures calls == old(calls) + [RollbackCalled(tx)]
      ensures frames == if tx <= |old(frames)| then old(frames)[..tx - 1] else old(frames)
    {
      var o := RollbackTransaction(tx, script);
      err := if o.Returned? then o.err else None;
    }

    method RollbackAfterTerminalCallback(tx: nat, script: RollbackScript)
      requires tx > 0
      modifies `frames, `calls
      ensures calls == old(calls) + [RollbackCalled(tx)]
      ensures frames == if tx <= |old(frames)| then old(frames)[..tx - 1] else old(frames)
    {
      var _ := RollbackTransaction(tx, script);
    }

    // ---- The runners ----

    /** Runs a callback inside the innermost open transaction. */
    method RunBody(body: Body) returns (o: Outcome)
      requires frames != []
      modifies this
      ensures o == BodyOutcome(body)
      ensures Contents() == Deliver(old(Contents()), BodyWrites(body))
      ensures calls == old(calls) + BodyCalls(body, |old(frames)|)
      ensures observed == old(observed) + BodyReports(body)
      decreases body, 0
    {
      hide ScopeOutcome, Survivors, ScopeCalls, ScopeReports;
      ghost var before := Contents();
      match body
      case Done(ending) =>
        o := ending;
        DeliverNothing(before);
      case Write(w, rest) =>
        Exec(w);
        o := RunBody(rest);
        DeliverTwice(before, [w], BodyWrites(rest));
      case Nested(scope, reaction, rest) =>
        o := RunSavepoint(scope);
        var reacted := React(reaction, o);
        if reacted.Some? {
          o := reacted.value;
          assert Survivors(scope) + [] == Survivors(scope);
        } else {
          o := RunBody(rest);
          DeliverTwice(before, Survivors(scope), BodyWrites(rest));
        }
    }

    /** The deferred function of `RunInTransaction`: rolls back when armed, edits the named result,
        and raises again whatever it interrupted. */
    method DeferredRollback(
      tx: nat, script: RollbackScript, needsRollback: bool, panicValue: Option<int>, exiting: bool, err: Option<Err>)
      returns (result: Outcome)
      requires tx > 0
      modifies `frames, `calls
      ensures calls == old(calls) + if needsRollback then [RollbackCalled(tx)] else []
      ensures frames == if needsRollback && tx <= |old(frames)| then old(frames)[..tx - 1] else old(frames)
      ensures result ==
              if panicValue.Some? then Panicked(panicValue.value)
              else if exiting then Exited
              else if needsRollback && err.Some? then Returned(Some(Joined(err.value, RollbackError(script))))
              else Returned(err)
    {
      var named := err;
      if !needsRollback {
      } else if panicValue.Some? {
        RollbackAfterTerminalCallback(tx, script);
      } else if err.None? {
        RollbackAfterTerminalCallback(tx, script);
      } else {
        var rollbackErr := RollbackAfterCallbackError(tx, script);
        JoinOfTwo(err.value, rollbackErr);
        named := Join([err, rollbackErr]);
      }
      result := if panicValue.Some? then Panicked(panicValue.value) else if exiting then Exited else Returned(named);
    }

    /** The part of `RunInTransaction` its deferred function protects: the callback and the commit.
        The out-parameters are what the deferred function then sees. */
    method CallAndCommit(tx: nat, script: Script, body: Body)
      returns (needsRollback: bool, panicValue: Option<int>, exiting: bool, err: Option<Err>)
      requires tx == |frames| > 0 && frames[tx - 1] == []
      modifies this
      ensures
        var called, committed := BodyOutcome(body), CommitOutcome(script.commit);
        var ended := if called == SUCCESS then committed else called;
        && needsRollback == (called != SUCCESS || !committed.Returned?)
        && panicValue == (if ended.Panicked? then Some(ended.value) else None)
        && exiting == ended.Exited?
        && err == (if called.Returned? && called.err.Some? then called.err
                   else if called == SUCCESS && script.commit.CommitFails? then Some(Wrap(script.commit.err)) else None)
      ensures Landed(Scope(script.(begin := BeginOk), body)) ==>
                Contents() == Deliver(old(Store(durable, frames[..tx - 1])), BodyWrites(body))
      ensures !Landed(Scope(script.(begin := BeginOk), body)) ==>
                && durable == old(durable)
                && tx - 1 <= |frames| <= tx && frames[..tx - 1] == old(frames[..tx - 1])
                && (|frames| == tx ==> needsRollback)
      ensures calls == old(calls) + [BodyStarts(tx)] + BodyCalls(body, tx) + [BodyEnds(tx, BodyOutcome(body))]
                       + CommitCalls(tx, script, BodyOutcome(body))
      ensures observed == old(observed) + BodyReports(body)
      decreases body, 1
    {
      hide BodyOutcome, BodyWrites, BodyCalls, BodyReports;
      needsRollback, panicValue, exiting, err := true, None, false, None;
      ghost var below := Store(durable, frames[..tx - 1]);
      assert frames == below.frames + [[]];
      calls := calls + [BodyStarts(tx)];
      FrameHoldsBodyWrites(below, BodyWrites(body));
      var called := RunBody(body);
      calls := calls + [BodyEnds(tx, called)];
      match called
      case Panicked(v) => panicValue := Some(v);
      case Exited => exiting := true;
      case Returned(callbackErr) =>
        err := callbackErr;
        if err.Some? { return; }
        var committed := Commit(tx, script.commit);
        match committed
        case Panicked(v) => panicValue := Some(v);
        case Exited => exiting := true;
        case Returned(commitErr) =>
          needsRollback := false;
          if commitErr.Some? { err := Some(Wrap(commitErr.value)); }
    }

    /** Begin, callback, commit, and the deferred rollback that `needsRollback` arms. */
    method RunInTransaction(script: Script, body: Body) returns (result: Outcome)
      modifies this
      ensures result == ScopeOutcome(Scope(script, body))
      ensures Contents() == Deliver(old(Contents()), Survivors(Scope(script, body)))
      ensures calls == old(calls) + ScopeCalls(Scope(script, body), |old(frames)|)
      ensures observed == old(observed) + InnerReports(Scope(script, body))
      decreases body, 2
    {
      hide BodyOutcome, BodyWrites, BodyCalls, BodyReports, ScopeOutcome, ScopeCalls, CommitCalls;
      ghost var before, scope := Contents(), Scope(script, body);
      MeaningOfScope(scope, |frames|);
      var tx, begun := Begin(script.begin);
      if begun != SUCCESS {
        if begun.Returned? { begun := Returned(Some(Wrap(begun.err.value))); }
        DeliverNothing(before);
        return begun;
      }
      assert frames[..tx - 1] == before.frames;
      var needsRollback, panicValue, exiting, err := CallAndCommit(tx, script, body);
      result := DeferredRollback(tx, script.rollback, needsRollback, panicValue, exiting, err);
      assert result == FinalOutcome(script, BodyOutcome(body));
      assert Contents() == Deliver(before, Survivors(scope)) by {
        if !Landed(scope) { DeliverNothing(before); }
      }
      CallsOfEnteredScope(scope, tx);
    }

    /** A top-level transaction: nothing else is open on the connection. */
    method RunTransaction(scope: Scope) returns (result: Outcome)
      requires frames == []
      modifies this
      ensures result == ScopeOutcome(scope)
      ensures durable == old(durable) + Survivors(scope) && frames == []
      ensures calls == old(calls) + ScopeCalls(scope, 0)
      ensures observed == old(observed) + ScopeReports(scope, "transaction")
    {
      if scope.NilCallback? {
        return Returned(Some(SentinelError(NilTransactionCallback)));
      }
      var completed := false;
      var ended := RunInTransaction(scope.script, scope.body);
      if ended.Returned? { completed := true; }
      result := DeferredReport("transaction", scope.script.observer, ended, completed);
    }

    /** A pseudo-nested transaction inside an open one. */
    method RunSavepoint(scope: Scope) returns (result: Outcome)
      requires frames != []
      modifies this
      ensures result == ScopeOutcome(scope)
      ensures Contents() == Deliver(old(Contents()), Survivors(scope))
      ensures calls == old(calls) + ScopeCalls(scope, |old(frames)|)
      ensures observed == old(observed) + ScopeReports(scope, "savepoint")
      decreases scope
    {
      hide BodyOutcome, BodyWrites, BodyCalls;
      DeliverNothing(Contents());
      if scope.NilCallback? {
        return Returned(Some(SentinelError(NilTransactionCallback)));
      }
      var completed := false;
      var ended := RunInTransaction(scope.script, scope.body);
      if ended.Returned? { completed := true; }
      result := DeferredReport("savepoint", scope.script.observer, ended, completed);
    }
  }

  /** The commit among the final calls, when the body asks for one. */
  ghost function CommitCalls(tx: nat, script: Script, body: Outcome): seq<Event> {
    if body == SUCCESS then [CommitCalled(tx, CommitOutcome(script.commit))] else []
  }

  /** A scope that was not entered makes one call and hands nothing on; one that was ends finally. */
  lemma MeaningOfScope(s: Scope, depth: nat)
    requires s.Scope?
    ensures Entered(s) ==> ScopeOutcome(s) == FinalOutcome(s.script, BodyOutcome(s.body))
    ensures !Entered(s) ==>
      var begun := BeginOutcome(s.script.begin);
      && ScopeOutcome(s) == (if begun.Returned? then Returned(Some(Wrap(begun.err.value))) else begun)
      && ScopeCalls(s, depth) == [BeginFailed(depth + 1)]
  {
  }

  lemma CallsOfEnteredScope(s: Scope, tx: nat)
    requires Entered(s) && tx > 0
    ensures var o := BodyOutcome(s.body);
      ScopeCalls(s, tx - 1) ==
      [BeginSucceeded(tx)] + ([BodyStarts(tx)] + BodyCalls(s.body, tx) + [BodyEnds(tx, o)] + CommitCalls(tx, s.script, o))
      + if o == SUCCESS && CommitOutcome(s.script.commit).Returned? then [] else [RollbackCalled(tx)]
  {
  }

  /** The calls of an entered scope up to the end of its body. */
  ghost function CallsUpToBodyEnd(s: Scope, tx: nat): (calls: seq<Event>)
    requires Entered(s) && tx > 0
    ensures ScopeCalls(s, tx - 1) == calls + FinalCalls(tx, s.script, BodyOutcome(s.body))
  {
    [BeginSucceeded(tx), BodyStarts(tx)] + BodyCalls(s.body, tx) + [BodyEnds(tx, BodyOutcome(s.body))]
  }

  /** A callback run right after begin leaves its writes in a frame of their own. */
  lemma FrameHoldsBodyWrites(before: Store, ws: seq<int>)
    ensures Deliver(before.(frames := before.frames + [[]]), ws) == before.(frames := before.frames + [ws])
    ensures (before.frames + [ws])[..|before.frames|] == before.frames
  {
    assert (before.frames + [[]])[..|before.frames|] == before.frames;
    assert [] + ws == ws;
  }

  // ---- Whole histories ---------------------------------------------------------------------

  function AllSurvivors(scopes: seq<Scope>): seq<int> {
    if scopes == [] then [] else Survivors(scopes[0]) + AllSurvivors(scopes[1..])
  }

  /** Any number of transactions one after another on a fresh connection. */
  method RunHistory(scopes: seq<Scope>) returns (durable: seq<int>)
    ensures durable == AllSurvivors(scopes)
  {
    var session := new Session();
    for i := 0 to |scopes|
      invariant fresh(session) && session.frames == []
      invariant session.durable == AllSurvivors(scopes[..i])
    {
      var _ := session.RunTransaction(scopes[i]);
      assert scopes[..i + 1] == scopes[..i] + [scopes[i]];
      AppendSurvivors(scopes[..i], scopes[i]);
    }
    assert scopes[..|scopes|] == scopes;
    return session.durable;
  }

  const QUIET := Script(BeginOk, CommitOk, RollbackOk, NoObserver)

  function Simple(w: int, ending: Outcome): Scope { Scope(QUIET, Write(w, Done(ending))) }

  const SENTINEL := Returned(Some(SentinelError(Application(0))))
  const SWALLOW := Reaction(Swallow, false)

  /** A transaction with a failing savepoint and a savepoint around a failing savepoint. */
  function OuterSavepoint(): Scope {
    Scope(QUIET, Write(8, Nested(Simple(9, SENTINEL), SWALLOW, Done(SUCCESS))))
  }

  function SavepointTransaction(): Scope {
    Scope(QUIET, Write(5,
      Nested(Simple(6, SENTINEL), SWALLOW,
      Nested(OuterSavepoint(), Reaction(PropagateWrapped, false), Done(SUCCESS)))))
  }

  /** The history of the integration test: success, error, panic, cancellation, goroutine exit, and
      the transaction with savepoints. */
  function IntegrationHistory(): seq<Scope> {
    [ Simple(1, SUCCESS),
      Simple(2, SENTINEL),
      Simple(3, Panicked(0)),
      Simple(4, Returned(Some(SentinelError(Canceled)))),
      Simple(7, Exited),
      SavepointTransaction() ]
  }

  /** The persisted identifiers of that history. */
  lemma IntegrationEvidence()
    ensures AllSurvivors(IntegrationHistory()) == [1, 5, 8]
  {
  }

  lemma {:induction false} AppendSurvivors(scopes: seq<Scope>, s: Scope)
    ensures AllSurvivors(scopes + [s]) == AllSurvivors(scopes) + Survivors(s)
  {
    if scopes == [] {
      assert scopes + [s] == [s] && [s][1..] == [];
    } else {
      assert (scopes + [s])[1..] == scopes[1..] + [s];
      AppendSurvivors(scopes[1..], s);
    }
  }
}
