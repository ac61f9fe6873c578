/** Transaction scopes as values, and what a scope means.

    A callback body is a tree: writes, nested savepoint scopes with the callback's reaction to how
    they ended, and an ending of its own. What the native transaction and the observer do at each
    scope is an arbitrary script. The functions below say, without any state, how a scope ends,
    which writes it hands to its parent, which native calls are made and what is observed.
    `Transactions.Session` executes scopes step by step against them. */
module Scopes {
  import opened Options
  import opened Errors
  import opened Telemetry

  /** How a Go call can end: by returning an error or nil, by panicking, or by `runtime.Goexit`. */
  datatype Outcome = Returned(err: Option<Err>) | Panicked(value: int) | Exited

  const SUCCESS := Returned(None)

  // Scripts of the environment. A commit that does not return nil may or may not have been
  // applied; a rollback takes effect whatever it reports.
  datatype BeginScript = BeginOk | BeginFails(err: Err) | BeginPanics(value: int) | BeginExits
  datatype CommitScript =
    | CommitOk
    | CommitFails(err: Err, applied: bool)
    | CommitPanics(value: int, applied: bool)
    | CommitExits(applied: bool)
  datatype RollbackScript = RollbackOk | RollbackFails(err: Err) | RollbackPanics(value: int)
  datatype ObserverScript = NoObserver | ObserverReturns | ObserverPanics(value: int)  // panics once it has the observation
  datatype Script = Script(begin: BeginScript, commit: CommitScript, rollback: RollbackScript, observer: ObserverScript)

  /** What a callback does with a nested scope that did not return nil. */
  datatype OnError = Swallow | Propagate | PropagateWrapped
  datatype Reaction = Reaction(onError: OnError, recovers: bool)

  datatype Body =
    | Done(ending: Outcome)
    | Write(w: int, rest: Body)
    | Nested(scope: Scope, reaction: Reaction, rest: Body)

  datatype Scope = NilCallback | Scope(script: Script, body: Body)

  // ---- How scopes end ----------------------------------------------------------------------

  function CommitOutcome(c: CommitScript): Outcome {
    match c
    case CommitOk => SUCCESS
    case CommitFails(e, _) => Returned(Some(e))
    case CommitPanics(v, _) => Panicked(v)
    case CommitExits(_) => Exited
  }

  predicate CommitApplies(c: CommitScript) { c.CommitOk? || c.applied }

  /** What is joined to a callback error: a rollback panic adds nothing. */
  function RollbackError(r: RollbackScript): Option<Err> {
    if r.RollbackFails? then Some(Wrap(r.err)) else None
  }

  /** How the callback goes on after a nested scope: `None` continues with the next step. */
  function React(reaction: Reaction, o: Outcome): Option<Outcome> {
    match o
    case Returned(None) => None
    case Returned(Some(e)) =>
      (match reaction.onError
       case Swallow => None
       case Propagate => Some(o)
       case PropagateWrapped => Some(Returned(Some(Wrap(e)))))
    case Panicked(_) => if reaction.recovers then None else Some(o)
    case Exited => Some(o)
  }

  function BodyOutcome(b: Body): Outcome {
    match b
    case Done(ending) => ending
    case Write(_, rest) => BodyOutcome(rest)
    case Nested(scope, reaction, rest) =>
      var reacted := React(reaction, ScopeOutcome(scope));
      if reacted.Some? then reacted.value else BodyOutcome(rest)
  }

  function ScopeOutcome(s: Scope): Outcome {
    match s
    case NilCallback => Returned(Some(SentinelError(NilTransactionCallback)))
    case Scope(script, body) =>
      match script.begin
      case BeginFails(e) => Returned(Some(Wrap(e)))
      case BeginPanics(v) => Panicked(v)
      case BeginExits => Exited
      case BeginOk => FinalOutcome(script, BodyOutcome(body))
  }

  function FinalOutcome(script: Script, body: Outcome): Outcome {
    match body
    case Returned(Some(e)) => Returned(Some(Joined(e, RollbackError(script.rollback))))
    case Returned(None) =>
      if script.commit.CommitFails? then Returned(Some(Wrap(script.commit.err))) else CommitOutcome(script.commit)
    case Panicked(_) => body
    case Exited => body
  }

  predicate Entered(s: Scope) { s.Scope? && s.script.begin.BeginOk? }

  // ---- Which writes survive ----------------------------------------------------------------

  /** The callback returned nil and the commit took effect. */
  predicate Landed(s: Scope) {
    Entered(s) && BodyOutcome(s.body) == SUCCESS && CommitApplies(s.script.commit)
  }

  function Survivors(s: Scope): seq<int> {
    if Landed(s) then BodyWrites(s.body) else []
  }

  function BodyWrites(b: Body): seq<int> {
    match b
    case Done(_) => []
    case Write(w, rest) => [w] + BodyWrites(rest)
    case Nested(scope, reaction, rest) =>
      Survivors(scope) + if React(reaction, ScopeOutcome(scope)).None? then BodyWrites(rest) else []
  }

  /** A write that was executed, with the scopes around it, outermost first. */
  datatype Attempt = Attempt(w: int, within: seq<Scope>)

  ghost function ScopeAttempts(s: Scope, within: seq<Scope>): seq<Attempt>
    decreases s
  {
    if Entered(s) then BodyAttempts(s.body, within + [s]) else []
  }

  ghost function BodyAttempts(b: Body, within: seq<Scope>): seq<Attempt>
    decreases b
  {
    match b
    case Done(_) => []
    case Write(w, rest) => [Attempt(w, within)] + BodyAttempts(rest, within)
    case Nested(scope, reaction, rest) =>
      ScopeAttempts(scope, within)
      + if React(reaction, ScopeOutcome(scope)).None? then BodyAttempts(rest, within) else []
  }

  ghost predicate AllLanded(within: seq<Scope>) { forall s | s in within :: Landed(s) }

  /** The executed writes every enclosing scope of which landed. */
  ghost function Kept(attempts: seq<Attempt>): seq<int> {
    if attempts == [] then []
    else (if AllLanded(attempts[0].within) then [attempts[0].w] else []) + Kept(attempts[1..])
  }

  lemma {:induction false} KeptConcat(a: seq<Attempt>, b: seq<Attempt>)
    ensures Kept(a + b) == Kept(a) + Kept(b)
  {
    hide AllLanded;
    if a == [] {
      assert a + b == b;
    } else {
      var head := if AllLanded(a[0].within) then [a[0].w] else [];
      assert (a + b)[0] == a[0] && (a + b)[1..] == a[1..] + b;
      KeptConcat(a[1..], b);
      assert head + (Kept(a[1..]) + Kept(b)) == (head + Kept(a[1..])) + Kept(b);
    }
  }

  lemma {:induction false} BodyAtomicity(b: Body, within: seq<Scope>)
    ensures Kept(BodyAttempts(b, within)) == if AllLanded(within) then BodyWrites(b) else []
    decreases b
  {
    match b
    case Done(_) =>
    case Write(w, rest) =>
      BodyAtomicity(rest, within);
      KeptConcat([Attempt(w, within)], BodyAttempts(rest, within));
      assert Kept([Attempt(w, within)]) == if AllLanded(within) then [w] else [];
    case Nested(scope, reaction, rest) =>
      ScopeAtomicity(scope, within);
      BodyAtomicity(rest, within);
      KeptConcat(ScopeAttempts(scope, within), BodyAttempts(rest, within));
      assert ScopeAttempts(scope, within) + [] == ScopeAttempts(scope, within);
  }

  lemma {:induction false} ScopeAtomicity(s: Scope, within: seq<Scope>)
    ensures Kept(ScopeAttempts(s, within)) == if AllLanded(within) then Survivors(s) else []
    decreases s
  {
    if Entered(s) {
      BodyAtomicity(s.body, within + [s]);
      assert AllLanded(within + [s]) <==> AllLanded(within) && Landed(s) by {
        assert s in within + [s];
        assert forall x :: x in within + [s] <==> x in within || x == s;
      }
    }
  }

  /** Nested atomicity, for every scope tree and every script: what a scope hands on is exactly the
      executed writes, in order, whose every enclosing scope's callback returned nil and whose
      commit took effect. */
  lemma NestedAtomicity(s: Scope)
    ensures Survivors(s) == Kept(ScopeAttempts(s, []))
  {
    ScopeAtomicity(s, []);
  }

  /** A native transaction whose commits apply exactly when they report success. */
  ghost predicate HonestCommits(s: Scope) {
    s.Scope? ==> (CommitApplies(s.script.commit) <==> s.script.commit.CommitOk?) && HonestCommitsIn(s.body)
  }

  ghost predicate HonestCommitsIn(b: Body) {
    match b
    case Done(_) => true
    case Write(_, rest) => HonestCommitsIn(rest)
    case Nested(scope, _, rest) => HonestCommits(scope) && HonestCommitsIn(rest)
  }

  lemma LandedIffReturnedNil(s: Scope)
    requires HonestCommits(s)
    ensures Landed(s) <==> ScopeOutcome(s) == SUCCESS
  {
  }

  lemma {:induction false} BodyAttemptsHonest(b: Body, within: seq<Scope>)
    requires HonestCommitsIn(b) && forall s | s in within :: HonestCommits(s)
    ensures forall a | a in BodyAttempts(b, within) :: forall s | s in a.within :: HonestCommits(s)
    decreases b
  {
    match b
    case Done(_) =>
    case Write(w, rest) => BodyAttemptsHonest(rest, within);
    case Nested(scope, reaction, rest) =>
      BodyAttemptsHonest(rest, within);
      if Entered(scope) { BodyAttemptsHonest(scope.body, within + [scope]); }
  }

  /** With honest commits a write survives exactly when every runner call around it returned nil. */
  lemma DurableIffEveryRunnerReturnedNil(s: Scope)
    requires HonestCommits(s)
    ensures forall a | a in ScopeAttempts(s, []) ::
              AllLanded(a.within) <==> forall c | c in a.within :: ScopeOutcome(c) == SUCCESS
  {
    if Entered(s) { BodyAttemptsHonest(s.body, [] + [s]); }
    forall a | a in ScopeAttempts(s, [])
      ensures AllLanded(a.within) <==> forall c | c in a.within :: ScopeOutcome(c) == SUCCESS
    {
      forall c | c in a.within ensures Landed(c) <==> ScopeOutcome(c) == SUCCESS {
        LandedIffReturnedNil(c);
      }
    }
  }

  // ---- Where an outcome comes from ---------------------------------------------------------

  datatype Cause = NoCause | ErrorCause(err: Err) | PanicCause(value: int) | ExitCause

  function CauseOf(o: Outcome): Cause {
    match o
    case Returned(None) => NoCause
    case Returned(Some(e)) => ErrorCause(e)
    case Panicked(v) => PanicCause(v)
    case Exited => ExitCause
  }

  predicate Silenced(reaction: Reaction, c: Cause) {
    c.NoCause? || (c.ErrorCause? && reaction.onError.Swallow?) || (c.PanicCause? && reaction.recovers)
  }

  /** The event, raised innermost and not silenced on the way out, that ends the scope. It looks
      neither at rollback nor at observer scripts. */
  function RaisedBy(s: Scope): Cause {
    match s
    case NilCallback => ErrorCause(SentinelError(NilTransactionCallback))
    case Scope(script, body) =>
      match script.begin
      case BeginFails(e) => ErrorCause(e)
      case BeginPanics(v) => PanicCause(v)
      case BeginExits => ExitCause
      case BeginOk =>
        var inner := RaisedIn(body);
        if inner.NoCause? then CauseOf(CommitOutcome(script.commit)) else inner
  }

  function RaisedIn(b: Body): Cause {
    match b
    case Done(ending) => CauseOf(ending)
    case Write(_, rest) => RaisedIn(rest)
    case Nested(scope, reaction, rest) =>
      var c := RaisedBy(scope);
      if Silenced(reaction, c) then RaisedIn(rest) else c
  }

  /** `e` is reached from `g` through first causes of plain nodes: `g` is `e`, wrapped and joined. */
  ghost predicate Heads(g: Err, e: Err) {
    g == e || (g.tag == PLAIN && g.causes != [] && Heads(g.causes[0], e))
  }

  ghost predicate Carries(o: Outcome, c: Cause) {
    match c
    case NoCause => o == SUCCESS
    case ErrorCause(e) => o.Returned? && o.err.Some? && Heads(o.err.value, e)
    case PanicCause(v) => o == Panicked(v)
    case ExitCause => o == Exited
  }

  lemma {:induction false} BodyCarriesCause(b: Body)
    ensures Carries(BodyOutcome(b), RaisedIn(b))
  {
    match b
    case Done(_) =>
    case Write(_, rest) => BodyCarriesCause(rest);
    case Nested(scope, reaction, rest) =>
      ScopeCarriesCause(scope);
      BodyCarriesCause(rest);
      var o := ScopeOutcome(scope);
      if o.Returned? && o.err.Some? { assert Wrap(o.err.value).causes[0] == o.err.value; }
  }

  /** Cause preservation at any depth: the outcome that leaves a runner is the event raised
      innermost and not silenced, the same panic value, goroutine exit, or an error graph headed
      by the original error, whatever rollbacks and observers do at every level. */
  lemma {:induction false} ScopeCarriesCause(s: Scope)
    ensures Carries(ScopeOutcome(s), RaisedBy(s))
  {
    if Entered(s) {
      BodyCarriesCause(s.body);
      var o := BodyOutcome(s.body);
      if o.Returned? && o.err.Some? {
        assert Joined(o.err.value, RollbackError(s.script.rollback)).causes[0] == o.err.value;
      } else if s.script.commit.CommitFails? {
        assert Wrap(s.script.commit.err).causes[0] == s.script.commit.err;
      }
    } else if s.Scope? && s.script.begin.BeginFails? {
      assert Wrap(s.script.begin.err).causes[0] == s.script.begin.err;
    }
  }

  /** What can be inspected on an error can be inspected on every graph headed by it; a native
      error keeps deciding the classification. */
  lemma {:induction false} HeadsKeepsInspection(g: Err, e: Err)
    requires Heads(g, e)
    ensures forall s :: Is(e, s) ==> Is(g, s)
    ensures FindPg(e).Some? ==> FindPg(g) == FindPg(e)
    decreases g
  {
    if g != e {
      var first := g.causes[0];
      HeadsKeepsInspection(first, e);
      forall s | Is(e, s) ensures Is(g, s) {
        assert Is(first, s);
        assert PickSentinel(s)(g.tag).None?;
      }
      assert PickPg()(g.tag).None?;
      assert FindPg(e).Some? ==> FindIn(g.causes, PickPg()) == Find(first, PickPg());
    }
  }

  /** Through any nesting of savepoints, wraps and failing rollbacks, an innermost native error
      still decides kind, state and retry advice of what the outermost runner returns. */
  lemma ClassificationSurvivesNesting(s: Scope, e: Err)
    requires RaisedBy(s) == ErrorCause(e)
    ensures ScopeOutcome(s).Returned? && ScopeOutcome(s).err.Some?
    ensures forall t :: Is(e, t) ==> Is(ScopeOutcome(s).err.value, t)
    ensures FindPg(e).Some? ==>
              Classify(ScopeOutcome(s).err) == Classify(Some(e)).(cause := ScopeOutcome(s).err)
  {
    ScopeCarriesCause(s);
    HeadsKeepsInspection(ScopeOutcome(s).err.value, e);
  }

  /** The errors of the rollbacks that failed while the cause was on its way out, innermost first. */
  function RollbacksOn(s: Scope): seq<Err> {
    if Entered(s) && RaisedIn(s.body).ErrorCause?
    then RollbacksIn(s.body) + if s.script.rollback.RollbackFails? then [s.script.rollback.err] else []
    else []
  }

  function RollbacksIn(b: Body): seq<Err> {
    match b
    case Done(_) => []
    case Write(_, rest) => RollbacksIn(rest)
    case Nested(scope, reaction, rest) =>
      if Silenced(reaction, RaisedBy(scope)) then RollbacksIn(rest) else RollbacksOn(scope)
  }

  predicate FailedWith(o: Outcome) { o.Returned? && o.err.Some? }

  lemma {:induction false} BodyFindsAll<T>(b: Body, e: Err, pick: Tag -> Option<T>)
    requires RaisedIn(b) == ErrorCause(e) && pick(PLAIN).None?
    ensures FailedWith(BodyOutcome(b))
    ensures Find(BodyOutcome(b).err.value, pick) == FindIn([e] + RollbacksIn(b), pick)
  {
    match b
    case Done(ending) => FindSingle(e, pick);
    case Write(_, rest) => BodyFindsAll(rest, e, pick);
    case Nested(scope, reaction, rest) =>
      ScopeCarriesCause(scope);
      if Silenced(reaction, RaisedBy(scope)) {
        BodyFindsAll(rest, e, pick);
      } else {
        FindsCauseAndRollbacks(scope, e, pick);
        FindWrap(ScopeOutcome(scope).err.value, pick);
      }
  }

  lemma FindSingle<T>(e: Err, pick: Tag -> Option<T>)
    ensures FindIn([e] + [], pick) == Find(e, pick)
  {
    FindInAppend([], e, pick);
    assert FindIn<T>([], pick) == None;
    assert [e] + [] == [] + [e];
  }

  /** At any depth a search, `errors.Is` or `errors.As`, finds in the returned graph exactly what it
      finds first among the cause and then the errors of the rollbacks that failed on the way out,
      innermost first. */
  lemma {:induction false} FindsCauseAndRollbacks<T>(s: Scope, e: Err, pick: Tag -> Option<T>)
    requires RaisedBy(s) == ErrorCause(e) && pick(PLAIN).None?
    ensures FailedWith(ScopeOutcome(s))
    ensures Find(ScopeOutcome(s).err.value, pick) == FindIn([e] + RollbacksOn(s), pick)
  {
    if Entered(s) && RaisedIn(s.body).ErrorCause? {
      BodyFindsAll(s.body, e, pick);
      var inner, rollback := BodyOutcome(s.body).err.value, s.script.rollback;
      FindJoined(inner, RollbackError(rollback), pick);
      if rollback.RollbackFails? {
        FindWrap(rollback.err, pick);
        FindInAppend([e] + RollbacksIn(s.body), rollback.err, pick);
        assert [e] + RollbacksIn(s.body) + [rollback.err] == [e] + RollbacksOn(s);
      } else {
        assert RollbacksIn(s.body) + [] == RollbacksIn(s.body);
      }
    } else {
      if Entered(s) { BodyCarriesCause(s.body); }
      FindSingle(e, pick);
      FindWrap(e, pick);
    }
  }

  /** The cause and every rollback error on the way out stay inspectable, for `errors.Is` and for
      `errors.As`, in what the outermost runner returns. */
  lemma AllErrorsInspectable<T>(s: Scope, e: Err, x: Err, pick: Tag -> Option<T>)
    requires RaisedBy(s) == ErrorCause(e) && pick(PLAIN).None?
    requires x in [e] + RollbacksOn(s) && Find(x, pick).Some?
    ensures FailedWith(ScopeOutcome(s)) && Find(ScopeOutcome(s).err.value, pick).Some?
  {
    FindsCauseAndRollbacks(s, e, pick);
    FindInMember([e] + RollbacksOn(s), x, pick);
  }

  /** What a runner returns is classified, kind, state and retry advice, as the flat join of the
      cause and the rollback errors on the way out. */
  lemma ClassifiedAsFlatJoin(s: Scope, e: Err)
    requires RaisedBy(s) == ErrorCause(e)
    ensures FailedWith(ScopeOutcome(s))
    ensures Classify(ScopeOutcome(s).err) ==
            Classify(Some(Node(PLAIN, [e] + RollbacksOn(s)))).(cause := ScopeOutcome(s).err)
  {
    FindsCauseAndRollbacks(s, e, PickPg());
    FindsCauseAndRollbacks(s, e, PickRetry());
    FindsCauseAndRollbacks(s, e, PickNetwork());
    FindsCauseAndRollbacks(s, e, PickSentinel(PoolExhausted));
    FindsCauseAndRollbacks(s, e, PickSentinel(Canceled));
    FindsCauseAndRollbacks(s, e, PickSentinel(DeadlineExceeded));
  }

  /** The same program with any other rollback and observer behaviour at every level. */
  ghost predicate SameUpToCleanup(s: Scope, t: Scope) {
    if s.NilCallback? then t.NilCallback?
    else
      && t.Scope?
      && s.script.begin == t.script.begin
      && s.script.commit == t.script.commit
      && BodySameUpToCleanup(s.body, t.body)
  }

  ghost predicate BodySameUpToCleanup(a: Body, b: Body) {
    match a
    case Done(_) => a == b
    case Write(w, rest) => b.Write? && w == b.w && BodySameUpToCleanup(rest, b.rest)
    case Nested(scope, reaction, rest) =>
      && b.Nested?
      && reaction == b.reaction
      && SameUpToCleanup(scope, b.scope)
      && BodySameUpToCleanup(rest, b.rest)
  }

  ghost predicate SameShape(o: Outcome, p: Outcome) {
    match o
    case Returned(e) => p.Returned? && (e.Some? <==> p.err.Some?)
    case Panicked(_) => o == p
    case Exited => o == p
  }

  lemma {:induction false} BodyCleanupIndependence(a: Body, b: Body)
    requires BodySameUpToCleanup(a, b)
    ensures RaisedIn(a) == RaisedIn(b)
    ensures BodyWrites(a) == BodyWrites(b)
    ensures SameShape(BodyOutcome(a), BodyOutcome(b))
  {
    match a
    case Done(_) =>
    case Write(_, rest) => BodyCleanupIndependence(rest, b.rest);
    case Nested(scope, reaction, rest) =>
      CleanupCannotInterfere(scope, b.scope);
      BodyCleanupIndependence(rest, b.rest);
  }

  /** Rollback and observer behaviour, at any level, cannot change what ends a scope, how the
      runner ends, or which writes survive. */
  lemma {:induction false} CleanupCannotInterfere(s: Scope, t: Scope)
    requires SameUpToCleanup(s, t)
    ensures RaisedBy(s) == RaisedBy(t)
    ensures Survivors(s) == Survivors(t)
    ensures SameShape(ScopeOutcome(s), ScopeOutcome(t))
  {
    if s.Scope? { BodyCleanupIndependence(s.body, t.body); }
  }

  // ---- Native calls ------------------------------------------------------------------------

  /** Calls on native transactions; `tx` is the nesting depth of the transaction. */
  datatype Event =
    | BeginSucceeded(tx: nat)
    | BeginFailed(tx: nat)
    | BodyStarts(tx: nat)
    | BodyEnds(tx: nat, outcome: Outcome)
    | CommitCalled(tx: nat, outcome: Outcome)
    | RollbackCalled(tx: nat)

  function FinalCalls(tx: nat, script: Script, body: Outcome): seq<Event> {
    if body != SUCCESS then [RollbackCalled(tx)]
    else
      [CommitCalled(tx, CommitOutcome(script.commit))]
      + if CommitOutcome(script.commit).Returned? then [] else [RollbackCalled(tx)]
  }

  function ScopeCalls(s: Scope, depth: nat): seq<Event>
    decreases s
  {
    if s.NilCallback? then []
    else if !s.script.begin.BeginOk? then [BeginFailed(depth + 1)]
    else
      [BeginSucceeded(depth + 1), BodyStarts(depth + 1)]
      + BodyCalls(s.body, depth + 1)
      + [BodyEnds(depth + 1, BodyOutcome(s.body))]
      + FinalCalls(depth + 1, s.script, BodyOutcome(s.body))
  }

  function BodyCalls(b: Body, depth: nat): seq<Event>
    decreases b
  {
    match b
    case Done(_) => []
    case Write(_, rest) => BodyCalls(rest, depth)
    case Nested(scope, reaction, rest) =>
      ScopeCalls(scope, depth)
      + if React(reaction, ScopeOutcome(scope)).None? then BodyCalls(rest, depth) else []
  }

  /** What an open transaction may see next. */
  datatype Phase = Opened | Running | MustCommit | MustRollback

  /** The discipline of finalisation as a stack automaton over native calls. A begun transaction
      runs its body once. A body that returned nil is committed, and rolled back only if that
      commit did not return; any other body is rolled back without a commit. Either way the
      transaction then leaves the stack. A failed begin puts nothing on it. */
  function Watch(e: Event, open: seq<Phase>): Option<seq<Phase>> {
    var n := |open|;
    match e
    case BeginSucceeded(tx) =>
      if tx == n + 1 && (n == 0 || open[n - 1].Running?) then Some(open + [Opened]) else None
    case BeginFailed(tx) =>
      if tx == n + 1 && (n == 0 || open[n - 1].Running?) then Some(open) else None
    case BodyStarts(tx) =>
      if tx == n && n > 0 && open[n - 1].Opened? then Some(open[..n - 1] + [Running]) else None
    case BodyEnds(tx, o) =>
      if tx == n && n > 0 && open[n - 1].Running?
      then Some(open[..n - 1] + [if o == SUCCESS then MustCommit else MustRollback]) else None
    case CommitCalled(tx, o) =>
      if tx == n && n > 0 && open[n - 1].MustCommit?
      then Some(open[..n - 1] + if o.Returned? then [] else [MustRollback]) else None
    case RollbackCalled(tx) =>
      if tx == n && n > 0 && open[n - 1].MustRollback? then Some(open[..n - 1]) else None
  }

  function WatchAll(events: seq<Event>, open: seq<Phase>): Option<seq<Phase>> {
    if events == [] then Some(open)
    else match Watch(events[0], open)
      case None => None
      case Some(next) => WatchAll(events[1..], next)
  }

  lemma {:induction false} WatchConcat(a: seq<Event>, b: seq<Event>, open: seq<Phase>)
    requires WatchAll(a, open).Some?
    ensures WatchAll(a + b, open) == WatchAll(b, WatchAll(a, open).value)
  {
    if a == [] {
      assert a + b == b;
    } else {
      assert (a + b)[1..] == a[1..] + b;
      WatchConcat(a[1..], b, Watch(a[0], open).value);
    }
  }

  lemma WatchOne(e: Event, open: seq<Phase>)
    requires Watch(e, open).Some?
    ensures WatchAll([e], open) == Watch(e, open)
  {
  }

  lemma WatchCons(e: Event, rest: seq<Event>, open: seq<Phase>)
    requires Watch(e, open).Some?
    ensures WatchAll([e] + rest, open) == WatchAll(rest, Watch(e, open).value)
  {
  }

  lemma RollbackCloses(tx: nat, outer: seq<Phase>)
    requires tx == |outer| + 1
    ensures WatchAll([RollbackCalled(tx)], outer + [MustRollback]) == Some(outer)
  {
  }

  lemma CommitCloses(tx: nat, script: Script, outer: seq<Phase>)
    requires tx == |outer| + 1
    ensures WatchAll(FinalCalls(tx, script, SUCCESS), outer + [MustCommit]) == Some(outer)
  {
    var o := CommitOutcome(script.commit);
    var open := outer + [MustCommit];
    assert open[..tx - 1] == outer;
    if o.Returned? {
      assert FinalCalls(tx, script, SUCCESS) == [CommitCalled(tx, o)];
      WatchOne(CommitCalled(tx, o), open);
      assert outer + [] == outer;
    } else {
      WatchCons(CommitCalled(tx, o), [RollbackCalled(tx)], open);
      RollbackCloses(tx, outer);
    }
  }

  lemma FinalCallsClose(tx: nat, script: Script, body: Outcome, outer: seq<Phase>)
    requires tx == |outer| + 1
    ensures WatchAll([BodyEnds(tx, body)] + FinalCalls(tx, script, body), outer + [Running]) == Some(outer)
  {
    assert (outer + [Running])[..tx - 1] == outer;
    WatchCons(BodyEnds(tx, body), FinalCalls(tx, script, body), outer + [Running]);
    if body == SUCCESS { CommitCloses(tx, script, outer); } else { RollbackCloses(tx, outer); }
  }

  lemma {:induction false} BodyIsWellBracketed(b: Body, outer: seq<Phase>)
    ensures WatchAll(BodyCalls(b, |outer| + 1), outer + [Running]) == Some(outer + [Running])
    decreases b
  {
    var open := outer + [Running];
    match b
    case Done(_) =>
    case Write(_, rest) => BodyIsWellBracketed(rest, outer);
    case Nested(scope, reaction, rest) =>
      WellBracketed(scope, open);
      if React(reaction, ScopeOutcome(scope)).None? {
        BodyIsWellBracketed(rest, outer);
        WatchConcat(ScopeCalls(scope, |open|), BodyCalls(rest, |open|), open);
      } else {
        assert ScopeCalls(scope, |open|) + [] == ScopeCalls(scope, |open|);
      }
  }

  /** Well-bracketed finalisation: every scope tree, under every script, keeps the discipline and
      leaves the stack of open transactions as it found it. */
  lemma {:induction false} WellBracketed(s: Scope, open: seq<Phase>)
    requires open == [] || open[|open| - 1].Running?
    ensures WatchAll(ScopeCalls(s, |open|), open) == Some(open)
    decreases s
  {
    if s.NilCallback? {
    } else if !s.script.begin.BeginOk? {
      WatchOne(BeginFailed(|open| + 1), open);
    } else {
      var tx := |open| + 1;
      var prologue := [BeginSucceeded(tx), BodyStarts(tx)];
      var inner := BodyCalls(s.body, tx);
      var epilogue := [BodyEnds(tx, BodyOutcome(s.body))] + FinalCalls(tx, s.script, BodyOutcome(s.body));
      assert ScopeCalls(s, |open|) == prologue + (inner + epilogue);
      PrologueOpens(open);
      BodyIsWellBracketed(s.body, open);
      FinalCallsClose(tx, s.script, BodyOutcome(s.body), open);
      WatchConcat(inner, epilogue, open + [Running]);
      WatchConcat(prologue, inner + epilogue, open);
    }
  }

  lemma PrologueOpens(open: seq<Phase>)
    requires open == [] || open[|open| - 1].Running?
    ensures WatchAll([BeginSucceeded(|open| + 1), BodyStarts(|open| + 1)], open) == Some(open + [Running])
  {
    var tx := |open| + 1;
    WatchOne(BeginSucceeded(tx), open);
    WatchOne(BodyStarts(tx), open + [Opened]);
    WatchConcat([BeginSucceeded(tx)], [BodyStarts(tx)], open);
    assert (open + [Opened])[..tx - 1] == open;
    assert [BeginSucceeded(tx)] + [BodyStarts(tx)] == [BeginSucceeded(tx), BodyStarts(tx)];
  }

  /** The calls on the transaction at one depth. */
  ghost function OnTx(events: seq<Event>, tx: nat): seq<Event> {
    if events == [] then []
    else (if events[0].tx == tx then [events[0]] else []) + OnTx(events[1..], tx)
  }

  lemma {:induction false} OnTxConcat(a: seq<Event>, b: seq<Event>, tx: nat)
    ensures OnTx(a + b, tx) == OnTx(a, tx) + OnTx(b, tx)
  {
    if a == [] {
      assert a + b == b;
    } else {
      assert (a + b)[1..] == a[1..] + b;
      OnTxConcat(a[1..], b, tx);
    }
  }

  lemma {:induction false} BodyCallsAreDeeper(b: Body, depth: nat, tx: nat)
    requires tx <= depth
    ensures OnTx(BodyCalls(b, depth), tx) == []
    decreases b
  {
    match b
    case Done(_) =>
    case Write(_, rest) => BodyCallsAreDeeper(rest, depth, tx);
    case Nested(scope, reaction, rest) =>
      BodyCallsAreDeeper(rest, depth, tx);
      ScopeCallsAreDeeper(scope, depth, tx);
      OnTxConcat(ScopeCalls(scope, depth), BodyCalls(rest, depth), tx);
      assert ScopeCalls(scope, depth) + [] == ScopeCalls(scope, depth);
  }

  lemma {:induction false} ScopeCallsAreDeeper(s: Scope, depth: nat, tx: nat)
    requires tx <= depth
    ensures OnTx(ScopeCalls(s, depth), tx) == []
    decreases s
  {
    if Entered(s) {
      var final := FinalCalls(depth + 1, s.script, BodyOutcome(s.body));
      SplitOnTx(BodyCalls(s.body, depth + 1), depth + 1, BodyOutcome(s.body), final, tx);
      BodyCallsAreDeeper(s.body, depth + 1, tx);
      if |final| == 2 { assert final == [final[0]] + [final[1]]; OnTxConcat([final[0]], [final[1]], tx); }
    }
  }

  lemma SplitOnTx(inner: seq<Event>, own: nat, o: Outcome, final: seq<Event>, tx: nat)
    ensures OnTx([BeginSucceeded(own), BodyStarts(own)] + inner + [BodyEnds(own, o)] + final, tx) ==
            (if own == tx then [BeginSucceeded(own), BodyStarts(own)] else []) + OnTx(inner, tx)
            + (if own == tx then [BodyEnds(own, o)] else []) + OnTx(final, tx)
  {
    var prologue := [BeginSucceeded(own), BodyStarts(own)];
    OnTxConcat(prologue + inner + [BodyEnds(own, o)], final, tx);
    OnTxConcat(prologue + inner, [BodyEnds(own, o)], tx);
    OnTxConcat(prologue, inner, tx);
    assert prologue[1..] == [BodyStarts(own)];
    assert OnTx([BodyStarts(own)], tx) == if own == tx then [BodyStarts(own)] else [];
  }

  /** On its own transaction an entered scope makes exactly these calls: begin, the body once, and
      then one of commit alone, rollback alone, or a commit that did not return and one rollback. A
      scope that is not entered makes no call but a failed begin. */
  lemma OwnCallsExactly(s: Scope, depth: nat)
    ensures Entered(s) ==>
      var tx, committed := depth + 1, CommitOutcome(s.script.commit);
      OnTx(ScopeCalls(s, depth), tx) ==
      [BeginSucceeded(tx), BodyStarts(tx), BodyEnds(tx, BodyOutcome(s.body))]
      + (if BodyOutcome(s.body) != SUCCESS then [RollbackCalled(tx)]
         else if committed.Returned? then [CommitCalled(tx, committed)]
         else [CommitCalled(tx, committed), RollbackCalled(tx)])
    ensures !Entered(s) ==> ScopeCalls(s, depth) == if s.NilCallback? then [] else [BeginFailed(depth + 1)]
  {
    if Entered(s) { OwnCallsOfEntered(s, depth); }
  }

  lemma OwnCallsOfEntered(s: Scope, depth: nat)
    requires Entered(s)
    ensures OnTx(ScopeCalls(s, depth), depth + 1) ==
            [BeginSucceeded(depth + 1), BodyStarts(depth + 1), BodyEnds(depth + 1, BodyOutcome(s.body))]
            + FinalCalls(depth + 1, s.script, BodyOutcome(s.body))
  {
    var tx, o := depth + 1, BodyOutcome(s.body);
    var final := FinalCalls(tx, s.script, o);
    SplitOnTx(BodyCalls(s.body, tx), tx, o, final, tx);
    BodyCallsAreDeeper(s.body, tx, tx);
    assert OnTx(final, tx) == final by {
      assert |final| == 2 ==> final == [final[0]] + [final[1]];
      if |final| == 2 { OnTxConcat([final[0]], [final[1]], tx); }
    }
  }

  // ---- Observations ------------------------------------------------------------------------

  function Report(operation: string, o: Outcome): Observation {
    match o
    case Returned(err) => Bounded(ObservationFor(operation, err))
    case Panicked(_) => Bounded(ObservationFor(operation, None).(outcome := "panic"))
    case Exited => Bounded(ObservationFor(operation, None).(outcome := "aborted"))
  }

  function ScopeReports(s: Scope, operation: string): seq<Observation>
    decreases s, 1
  {
    if s.NilCallback? then []
    else
      InnerReports(s)
      + if s.script.observer.NoObserver? then [] else [Report(operation, ScopeOutcome(s))]
  }

  function InnerReports(s: Scope): seq<Observation>
    decreases s, 0
  {
    if Entered(s) then BodyReports(s.body) else []
  }

  function BodyReports(b: Body): seq<Observation>
    decreases b
  {
    match b
    case Done(_) => []
    case Write(_, rest) => BodyReports(rest)
    case Nested(scope, reaction, rest) =>
      ScopeReports(scope, "savepoint")
      + if React(reaction, ScopeOutcome(scope)).None? then BodyReports(rest) else []
  }

  /** A runner call that was made. */
  datatype Call = Call(operation: string, scope: Scope)

  /** The runner calls of a run in post-order: nested calls first, the call itself last. */
  ghost function PostOrder(s: Scope, operation: string): seq<Call> {
    (if Entered(s) then BodyPostOrder(s.body) else []) + [Call(operation, s)]
  }

  ghost function BodyPostOrder(b: Body): seq<Call> {
    match b
    case Done(_) => []
    case Write(_, rest) => BodyPostOrder(rest)
    case Nested(scope, reaction, rest) =>
      PostOrder(scope, "savepoint")
      + if React(reaction, ScopeOutcome(scope)).None? then BodyPostOrder(rest) else []
  }

  ghost predicate Observed(c: Call) { c.scope.Scope? && !c.scope.script.observer.NoObserver? }

  ghost function ReportOf(c: Call): seq<Observation> {
    if Observed(c) then [Report(c.operation, ScopeOutcome(c.scope))] else []
  }

  ghost function ReportsOf(calls: seq<Call>): seq<Observation> {
    if calls == [] then [] else ReportOf(calls[0]) + ReportsOf(calls[1..])
  }

  lemma {:induction false} ReportsConcat(a: seq<Call>, b: seq<Call>)
    ensures ReportsOf(a + b) == ReportsOf(a) + ReportsOf(b)
  {
    hide ReportOf;
    if a == [] {
      assert a + b == b;
    } else {
      assert (a + b)[1..] == a[1..] + b;
      ReportsConcat(a[1..], b);
      assert ReportsOf(a + b) == ReportOf(a[0]) + (ReportsOf(a[1..]) + ReportsOf(b));
    }
  }

  lemma {:induction false} BodyReportsInPostOrder(b: Body)
    ensures BodyReports(b) == ReportsOf(BodyPostOrder(b))
  {
    match b
    case Done(_) =>
    case Write(_, rest) => BodyReportsInPostOrder(rest);
    case Nested(scope, reaction, rest) =>
      OneReportPerCallInPostOrder(scope, "savepoint");
      BodyReportsInPostOrder(rest);
      ReportsConcat(PostOrder(scope, "savepoint"), BodyPostOrder(rest));
      assert PostOrder(scope, "savepoint") + [] == PostOrder(scope, "savepoint");
  }

  /** Exactly one observation per runner call with a callback and an observer, in post-order, each
      telling how its own scope ended. */
  lemma {:induction false} OneReportPerCallInPostOrder(s: Scope, operation: string)
    ensures ScopeReports(s, operation) == ReportsOf(PostOrder(s, operation))
  {
    var last := [Call(operation, s)];
    if Entered(s) {
      BodyReportsInPostOrder(s.body);
      ReportsConcat(BodyPostOrder(s.body), last);
    } else {
      assert [] + last == last;
    }
    assert last[1..] == [];
  }

  /** The delivered outcome tells the four endings apart, all fields are in the fixed sets, an error is
      delivered with its kind and its retained state, and no other ending with either. */
  lemma ReportMatchesEnding(operation: string, o: Outcome)
    requires operation in OPERATIONS
    ensures var r := Report(operation, o);
      && InCategories(r)
      && r.operation == operation
      && (r.outcome == "success" <==> o == SUCCESS)
      && (r.outcome == "error" <==> o.Returned? && o.err.Some?)
      && (r.outcome == "panic" <==> o.Panicked?)
      && (r.outcome == "aborted" <==> o.Exited?)
      && CarriesClassification(r, if o.Returned? then o.err else None)
  {
    hide Project, Classify, CarriesClassification;
    assert OUTCOMES[0] == "success" && OUTCOMES[1] == "error" && OUTCOMES[2] == "panic" && OUTCOMES[3] == "aborted";
    var err := if o.Returned? then o.err else None;
    ObservedClassification(operation, err);
    var raw := ObservationFor(operation, err);
    BoundedIsFiniteAndIdempotent(raw);
    BoundedIsFiniteAndIdempotent(raw.(outcome := "panic"));
    BoundedIsFiniteAndIdempotent(raw.(outcome := "aborted"));
    CarriesOnlyKindAndState(Bounded(raw), Report(operation, o), err);
    assert "panic"[0] != "error"[0];
    assert "success"[0] != "aborted"[0];
  }

  lemma CarriesOnlyKindAndState(a: Observation, b: Observation, err: Option<Err>)
    requires CarriesClassification(a, err) && a.kind == b.kind && a.sqlState == b.sqlState
    ensures CarriesClassification(b, err)
  {
  }
}
