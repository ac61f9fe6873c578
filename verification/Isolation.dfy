/** The always-rolled-back runner for tests, postgrestest/transaction.go. */
module Isolation {
  import opened Options
  import opened Errors
  import opened Scopes
  import opened Transactions

  /** How an isolated run ends. The commit and observer scripts of the scope play no part. */
  function IsolatedOutcome(s: Scope): Outcome {
    match s
    case NilCallback => Returned(Some(SentinelError(NilIsolationCallback)))
    case Scope(script, body) =>
      match script.begin
      case BeginFails(e) => Returned(Some(Wrap(e)))
      case BeginPanics(v) => Panicked(v)
      case BeginExits => Exited
      case BeginOk =>
        match BodyOutcome(body)
        case Returned(Some(e)) => Returned(Some(Joined(e, RollbackError(script.rollback))))
        case Returned(None) =>
          if script.rollback.RollbackPanics? then Panicked(script.rollback.value)
          else Returned(RollbackError(script.rollback))
        case Panicked(v) => Panicked(v)
        case Exited => Exited
  }

  function IsolatedCalls(s: Scope, depth: nat): seq<Event> {
    if s.NilCallback? then []
    else if !s.script.begin.BeginOk? then [BeginFailed(depth + 1)]
    else
      [BeginSucceeded(depth + 1), BodyStarts(depth + 1)]
      + BodyCalls(s.body, depth + 1)
      + [BodyEnds(depth + 1, BodyOutcome(s.body))]
      + [RollbackCalled(depth + 1)]
  }

  /** The deferred function of `RunIsolated`. */
  method DeferredIsolation(session: Session, tx: nat, script: RollbackScript, called: Outcome, completed: bool, err: Option<Err>)
    returns (result: Outcome)
    requires tx == |session.frames| > 0
    requires completed == called.Returned? && (completed ==> err == called.err)
    modifies session`frames, session`calls
    ensures session.frames == old(session.frames)[..tx - 1]
    ensures session.calls == old(session.calls) + [RollbackCalled(tx)]
    ensures result ==
            if !completed then called
            else if err.Some? then Returned(Some(Joined(err.value, RollbackError(script))))
            else if script.RollbackPanics? then Panicked(script.value)
            else Returned(RollbackError(script))
  {
    if called.Panicked? || !completed {
      session.RollbackAfterTerminalCallback(tx, script);
      result := called;
    } else if err.Some? {
      var rollbackErr := session.RollbackAfterCallbackError(tx, script);
      JoinOfTwo(err.value, rollbackErr);
      result := Returned(Join([err, rollbackErr]));
    } else {
      result := session.RollbackTransaction(tx, script);
    }
  }

  /** Isolation: whatever the callback and its savepoints do and however the rollback ends, neither
      durable nor pending writes of the connection change. */
  method RunIsolated(session: Session, scope: Scope) returns (result: Outcome)
    modifies session
    ensures session.Contents() == old(session.Contents())
    ensures result == IsolatedOutcome(scope)
    ensures session.calls == old(session.calls) + IsolatedCalls(scope, |old(session.frames)|)
    ensures session.observed == old(session.observed) + InnerReports(scope)
  {
    hide BodyOutcome, BodyWrites, BodyCalls;
    if scope.NilCallback? {
      return Returned(Some(SentinelError(NilIsolationCallback)));
    }
    ghost var before := session.Contents();
    var tx, begun := session.Begin(scope.script.begin);
    if begun != SUCCESS {
      if begun.Returned? { begun := Returned(Some(Wrap(begun.err.value))); }
      return begun;
    }

    var completed := false;
    var err: Option<Err> := None;
    session.calls := session.calls + [BodyStarts(tx)];
    FrameHoldsBodyWrites(before, BodyWrites(scope.body));
    var called := session.RunBody(scope.body);
    session.calls := session.calls + [BodyEnds(tx, called)];
    assert session.calls == old(session.calls) + CallsUpToBodyEnd(scope, tx);
    assert session.frames[..tx - 1] == before.frames;
    if called.Returned? { err, completed := called.err, true; }

    result := DeferredIsolation(session, tx, scope.script.rollback, called, completed, err);
  }

  /** On its own transaction an entered isolated run makes exactly one rollback and no commit; one that
      is not entered makes no call but a failed begin, and with a nil callback not even that. */
  lemma OneRollbackNoCommit(s: Scope, depth: nat)
    ensures Entered(s) ==>
      OnTx(IsolatedCalls(s, depth), depth + 1) ==
      [BeginSucceeded(depth + 1), BodyStarts(depth + 1), BodyEnds(depth + 1, BodyOutcome(s.body)), RollbackCalled(depth + 1)]
    ensures !Entered(s) ==> IsolatedCalls(s, depth) == if s.NilCallback? then [] else [BeginFailed(depth + 1)]
  {
    if Entered(s) {
      SplitOnTx(BodyCalls(s.body, depth + 1), depth + 1, BodyOutcome(s.body), [RollbackCalled(depth + 1)], depth + 1);
      BodyCallsAreDeeper(s.body, depth + 1, depth + 1);
    }
  }

  /** What went wrong before any cleanup: a refused callback, a begin that did not succeed, or what the
      callback raised. */
  function CauseBeforeCleanup(s: Scope): Cause {
    match s
    case NilCallback => ErrorCause(SentinelError(NilIsolationCallback))
    case Scope(script, body) =>
      match script.begin
      case BeginFails(e) => ErrorCause(e)
      case BeginPanics(v) => PanicCause(v)
      case BeginExits => ExitCause
      case BeginOk => RaisedIn(body)
  }

  /** For every scope: success is reported exactly when the callback was run, raised nothing and the
      rollback succeeded. A cause there was before cleanup is what the outcome carries, and cleanup
      never replaces it; only without one does the rollback speak, and then even its panic gets out. */
  lemma CleanupSpeaksOnlyAfterSuccess(s: Scope)
    ensures IsolatedOutcome(s) == SUCCESS <==>
              Entered(s) && RaisedIn(s.body).NoCause? && s.script.rollback.RollbackOk?
    ensures !CauseBeforeCleanup(s).NoCause? ==> Carries(IsolatedOutcome(s), CauseBeforeCleanup(s))
    ensures CauseBeforeCleanup(s).NoCause? ==>
              && Entered(s)
              && (s.script.rollback.RollbackPanics? ==> IsolatedOutcome(s) == Panicked(s.script.rollback.value))
              && (s.script.rollback.RollbackFails? ==> Carries(IsolatedOutcome(s), ErrorCause(s.script.rollback.err)))
  {
    if Entered(s) {
      BodyCarriesCause(s.body);
      var o := BodyOutcome(s.body);
      if o.Returned? && o.err.Some? {
        assert Joined(o.err.value, RollbackError(s.script.rollback)).causes[0] == o.err.value;
      } else if s.script.rollback.RollbackFails? {
        assert Wrap(s.script.rollback.err).causes[0] == s.script.rollback.err;
      }
    } else if s.Scope? && s.script.begin.BeginFails? {
      assert Wrap(s.script.begin.err).causes[0] == s.script.begin.err;
    }
  }
}
