/** What `Acquire` and `Ping` of pool.go report, as error graphs, with the bounded context that decides
    whose timeout it was and the saturation test. */
module Acquisition {
  import opened Options
  import opened Errors

  newtype int32 = x: int | -0x8000_0000 <= x < 0x8000_0000

  datatype Stats = Stats(acquired: int32, constructing: int32, max: int32)

  /** 32-bit addition, which wraps around. */
  function Add32(a: int32, b: int32): int32 {
    var sum := a as int + b as int;
    if sum >= 0x8000_0000 then (sum - 0x1_0000_0000) as int32
    else if sum < -0x8000_0000 then (sum + 0x1_0000_0000) as int32
    else sum as int32
  }

  predicate Saturated(s: Stats) { s.max > 0 && Add32(s.acquired, s.constructing) >= s.max }

  /** Without a maximum nothing is saturated. For counts that are not negative the test is exact unless
      the true sum leaves 32 bits: then it misses the saturation. Counts within the admitted pool
      maximum cannot do that. */
  lemma SaturationIsExactIff(s: Stats)
    requires s.acquired >= 0 && s.constructing >= 0
    ensures s.max <= 0 ==> !Saturated(s)
    ensures s.max > 0 ==>
              ((Saturated(s) <==> s.acquired as int + s.constructing as int >= s.max as int) <==>
               s.acquired as int + s.constructing as int < 0x8000_0000)
    ensures s.max > 0 && s.acquired <= 1024 && s.constructing <= 1024 ==>
              (Saturated(s) <==> s.acquired as int + s.constructing as int >= s.max as int)
  {
  }

  // ---- The bounded context -------------------------------------------------------------------

  /** The caller's context: its deadline, the instant it is done, which a cancellation can make earlier
      and a late timer later than the deadline, and `context.Cause` from then on. */
  datatype Parent = Parent(deadline: Option<nat>, doneAt: Option<nat>, cause: Err)

  /** One bounded call begun at `started`, looked at when the native call is back. A timer fires `lag`
      after it is due; `timerFirst` says who wins when timer and caller are done at the same instant. */
  datatype Wait = Wait(parent: Parent, timeout: int, started: nat, lag: nat, timerFirst: bool, now: nat)
  {
    /** A timer is only set for a positive timeout and when the caller's own deadline is no earlier. */
    function Timer(): Option<nat> {
      if timeout <= 0 then None
      else if parent.deadline.Some? && parent.deadline.value < started + timeout then None
      else Some(started + timeout + lag)
    }

    /** `context.Cause` of the bounded context: whoever ends a context first sets its cause. */
    function Cause(): Option<Err> {
      var timer, caller := Passed(Timer()), Passed(parent.doneAt);
      if timer.Some? && (caller.None? || timer.value < caller.value || (timer == caller && timerFirst))
      then Some(SentinelError(AcquireTimeout))
      else if caller.Some? then Some(parent.cause) else None
    }

    function Passed(at: Option<nat>): Option<nat> { if at.Some? && at.value <= now then at else None }
  }

  /** The configured timeout is what ended the call: there is one, the caller set no earlier deadline,
      it has run out, and the caller was not done before. */
  ghost predicate ConfiguredTimeoutEnded(w: Wait) {
    && w.timeout > 0
    && (w.parent.deadline.Some? ==> w.started + w.timeout <= w.parent.deadline.value)
    && w.started + w.timeout + w.lag <= w.now
    && (w.parent.doneAt.Some? ==> w.started + w.timeout + w.lag <= w.parent.doneAt.value)
    && (w.parent.doneAt == Some(w.started + w.timeout + w.lag) ==> w.timerFirst)
  }

  /** The caller ended the call, and for a reason that was itself an acquisition timeout: its context
      was already bounded by an outer acquisition. */
  ghost predicate InheritedTimeout(w: Wait) {
    && w.parent.doneAt.Some? && w.parent.doneAt.value <= w.now && !ConfiguredTimeoutEnded(w)
    && Is(w.parent.cause, AcquireTimeout)
  }

  /** The cause names an acquisition timeout exactly when the configured one ended the call or the
      caller's context brought one along; any other end is the caller's, with the caller's cause; and
      the verdict no longer changes, whenever after the end it is asked for. */
  lemma CauseNamesTimeoutIff(w: Wait)
    ensures w.Cause().Some? && Is(w.Cause().value, AcquireTimeout) <==> ConfiguredTimeoutEnded(w) || InheritedTimeout(w)
    ensures w.Cause().Some? && !ConfiguredTimeoutEnded(w) ==>
              w.Cause() == Some(w.parent.cause) && w.parent.doneAt.Some? && w.parent.doneAt.value <= w.now
    ensures forall later: nat | w.Cause().Some? && w.now <= later :: w.(now := later).Cause() == w.Cause()
  {
    IsOfSentinel(AcquireTimeout, AcquireTimeout);
  }

  /** The laws hold for every graph the backend returns and every course of the wait; when neither the
      graph nor the caller's cause carries a sentinel itself they say that ErrAcquireTimeout means the
      configured timeout was the cause, and ErrPoolExhausted that in addition the sampled statistics
      were saturated. Short of exhaustion the marks leave the classification alone. */
  method Acquire(closed: bool, backendErr: Option<Err>, wait: Wait, stats: Stats)
    returns (err: Option<Err>, contacted: bool)
    ensures contacted == !closed
    ensures closed ==> err == Some(SentinelError(PoolClosed))
    ensures !closed ==> (err.None? <==> backendErr.None?)
    ensures !closed && backendErr.Some? ==>
      var timedOut := ConfiguredTimeoutEnded(wait) || InheritedTimeout(wait);
      && (Is(err.value, AcquireTimeout) <==> Is(backendErr.value, AcquireTimeout) || timedOut)
      && (Is(err.value, PoolExhausted) <==> Is(backendErr.value, PoolExhausted) || (timedOut && Saturated(stats)))
      && (forall s | s != AcquireTimeout && s != PoolExhausted :: Is(err.value, s) <==> Is(backendErr.value, s))
      && FindPg(err.value) == FindPg(backendErr.value)
      && (!(timedOut && Saturated(stats)) ==> Classify(err) == Classify(backendErr).(cause := err))
    ensures !closed && backendErr.Some? && FindPg(backendErr.value).None? && Is(err.value, PoolExhausted) ==>
              Classify(err).kind == POOL_EXHAUSTION
  {
    if closed { return Some(SentinelError(PoolClosed)), false; }
    err, contacted := backendErr, true;
    var cause := wait.Cause();
    CauseNamesTimeoutIff(wait);
    if err.Some? && cause.Some? && Is(cause.value, AcquireTimeout) {
      JoinSentinel(AcquireTimeout, err.value);
      err := Join([Some(SentinelError(AcquireTimeout)), err]);
      if Saturated(stats) {
        JoinSentinel(PoolExhausted, err.value);
        err := Join([Some(SentinelError(PoolExhausted)), err]);
      }
    }
  }

  lemma IsOfSentinel(s: Sentinel, x: Sentinel)
    ensures Is(SentinelError(s), x) <==> x == s
  {
    assert FindIn([], PickSentinel(x)) == None;
    assert Find(SentinelError(s), PickSentinel(x)) == PickSentinel(x)(SentinelError(s).tag);
  }

  /** Joining a sentinel in front of a graph adds that sentinel and changes nothing else. */
  lemma JoinSentinel(s: Sentinel, e: Err)
    ensures Join([Some(SentinelError(s)), Some(e)]) == Some(Joined(SentinelError(s), Some(e)))
    ensures forall x :: Is(Joined(SentinelError(s), Some(e)), x) <==> x == s || Is(e, x)
    ensures FindPg(Joined(SentinelError(s), Some(e))) == FindPg(e)
    ensures var joined := Some(Joined(SentinelError(s), Some(e)));
      s !in {PoolExhausted, Canceled, DeadlineExceeded} ==> Classify(joined) == Classify(Some(e)).(cause := joined)
  {
    var marked := SentinelError(s);
    JoinOfTwo(marked, Some(e));
    ClassifyJoined(marked, e);
    FindJoined(marked, Some(e), PickPg());
    FindJoined(marked, Some(e), PickNetwork());
    FindJoined(marked, Some(e), PickRetry());
    assert FindPg(marked) == None && Find(marked, PickNetwork()) == None && Find(marked, PickRetry()) == None;
    forall x ensures Is(marked, x) <==> x == s { IsOfSentinel(s, x); }
  }

  /** A health check marks deadlines; the mark changes neither kind, state nor retry advice. */
  method Ping(closed: bool, backendErr: Option<Err>) returns (err: Option<Err>, contacted: bool)
    ensures contacted == !closed
    ensures closed ==> err == Some(SentinelError(PoolClosed))
    ensures !closed ==> Classify(err) == Classify(backendErr).(cause := err) && (err.None? <==> backendErr.None?)
    ensures !closed && backendErr.Some? ==>
      && (Is(err.value, HealthTimeout) <==> Is(backendErr.value, HealthTimeout) || Is(backendErr.value, DeadlineExceeded))
      && (forall s | s != HealthTimeout :: Is(err.value, s) <==> Is(backendErr.value, s))
  {
    if closed { return Some(SentinelError(PoolClosed)), false; }
    err, contacted := backendErr, true;
    if err.Some? && Is(err.value, DeadlineExceeded) {
      JoinSentinel(HealthTimeout, err.value);
      err := Join([Some(SentinelError(HealthTimeout)), err]);
    }
  }

  /** What `Shutdown` returns when it stops waiting: its sentinel and the context's error, and it
      classifies as whichever of the two ended that context. */
  method ShutdownGivesUp(canceled: bool) returns (err: Option<Err>)
    ensures err.Some?
    ensures forall s :: Is(err.value, s) <==> s == ShutdownTimeout || s == if canceled then Canceled else DeadlineExceeded
    ensures Classify(err) == ErrorInfo(if canceled then "cancellation" else "timeout", "", false, err, None)
  {
    var ctxErr := SentinelError(if canceled then Canceled else DeadlineExceeded);
    err := Join([Some(SentinelError(ShutdownTimeout)), Some(ctxErr)]);
    JoinSentinel(ShutdownTimeout, ctxErr);
    forall s ensures Is(ctxErr, s) <==> s == if canceled then Canceled else DeadlineExceeded {
      IsOfSentinel(if canceled then Canceled else DeadlineExceeded, s);
    }
    assert FindPg(ctxErr) == None;
  }
}
