/** The service lifecycle adapter, adapters/service/service.go, as a transition system: one start,
    any number of concurrent stops and readiness probes, an abstract resource. The critical
    sections under the mutex are single actions; `sync.Once` holds losers back until the winner's
    function returned. */
module AdapterProtocol {
  import opened Options
  import opened Counting
  import opened Errors

  /** What a constructor returns: a resource, a nil resource, or an error. */
  datatype Construction = Resource | NilResource | ConstructError(err: Err)

  datatype Start =
    | Idle
    | Constructing
    | AtPing
    | InPing
    | AtCleanup(validation: Err)
    | InCleanup(validation: Err)
    | AtPublish
    | Started
    | Failed(cleanedUp: bool, err: Option<Err>)  // no error value: ErrUnavailable for a nil resource

  /** `stopOnce` and how far its function is; `sawActive` is what it read under the lock. */
  datatype StopOnce = Fresh | Running | Snapped(sawActive: bool) | InShutdown | Fired(sawActive: bool)

  datatype StopPc = AtStopOnce | StopReturned(err: Option<Err>)

  datatype ProbePc = AtSnapshot | Snapshotted(active: bool) | Pinging | Unavailable

  datatype Setting = Setting(construct: bool, owned: bool, ping: bool)

  /** How far start is, whether it stored a resource, and whether that is active. */
  datatype Life = Life(start: Start, published: bool, active: bool)

  datatype Adapter<!Id> = Adapter(
    setting: Setting, life: Life, once: StopOnce, stopErr: Option<Err>,
    stops: map<Id, StopPc>, probes: map<Id, ProbePc>)

  datatype Action<Id> =
    | StartEnter
    | ConstructReturns(result: Construction)
    | CallPing
    | PingReturns(err: Option<Err>)
    | CallShutdownAtStart
    | ShutdownAtStartReturns(err: Option<Err>)
    | SkipCleanup
    | Publish
    | StopEnter(id: Id)
    | StopWin(id: Id)
    | StopSnapshot
    | CallShutdownAtStop
    | ShutdownAtStopReturns(err: Option<Err>)
    | StopSkip
    | StopReturn(id: Id)
    | ProbeEnter(id: Id)
    | ProbeSnapshot(id: Id)
    | ProbePing(id: Id)
    | ProbeUnavailable(id: Id)

  datatype Config = Config(named: bool, hasConstructor: bool, hasPool: bool, transferOwnership: bool, startupPing: bool)

  /** `New`: a name, and exactly one of pool and constructor. */
  function New<Id(==)>(options: Config): (r: Option<Adapter<Id>>)
    ensures r.Some? <==> options.named && (options.hasPool <==> !options.hasConstructor)
  {
    if !options.named || options.hasConstructor == options.hasPool then None
    else Some(Adapter(
      Setting(options.hasConstructor, options.hasConstructor || options.transferOwnership, options.startupPing),
      Life(Idle, false, false), Fresh, None, map[], map[]))
  }

  function Validated(c: Setting, s: Life): Life { s.(start := if c.ping then AtPing else AtPublish) }

  /** The error of a failed validation joins the ping error and, if any, the cleanup error. */
  function StartupError(validation: Err, cleanup: Option<Err>): Err { Joined(validation, cleanup) }

  /** The start callback. */
  function StartStep<Id>(c: Setting, s: Life, a: Action<Id>): Option<Life> {
    match a
    case StartEnter =>
      if !s.start.Idle? then None
      else if c.construct then Some(s.(start := Constructing)) else Some(Validated(c, s))
    case ConstructReturns(result) =>
      if !s.start.Constructing? then None
      else (match result
            case Resource => Some(Validated(c, s))
            case NilResource => Some(s.(start := Failed(false, None)))
            case ConstructError(e) => Some(s.(start := Failed(false, Some(e)))))
    case CallPing => if s.start.AtPing? then Some(s.(start := InPing)) else None
    case PingReturns(err) =>
      if !s.start.InPing? then None
      else if err.None? then Some(s.(start := AtPublish)) else Some(s.(start := AtCleanup(err.value)))
    case CallShutdownAtStart =>
      if s.start.AtCleanup? && c.owned then Some(s.(start := InCleanup(s.start.validation))) else None
    case ShutdownAtStartReturns(err) =>
      if s.start.InCleanup? then Some(s.(start := Failed(true, Some(StartupError(s.start.validation, err))))) else None
    case SkipCleanup =>
      if s.start.AtCleanup? && !c.owned
      then Some(s.(start := Failed(false, Some(StartupError(s.start.validation, None))))) else None
    case Publish => if s.start.AtPublish? then Some(Life(Started, true, true)) else None
    case _ => None
  }

  /** The stop callbacks. */
  function StopStep<Id(==)>(s: Adapter<Id>, a: Action<Id>): Option<Adapter<Id>> {
    match a
    case StopEnter(id) => if id in s.stops then None else Some(s.(stops := s.stops[id := AtStopOnce]))
    case StopWin(id) =>
      if id in s.stops && s.stops[id].AtStopOnce? && s.once.Fresh? then Some(s.(once := Running)) else None
    case StopSnapshot => if s.once.Running? then Some(s.(once := Snapped(s.life.active), life := s.life.(active := false))) else None
    case CallShutdownAtStop =>
      if s.once.Snapped? && s.once.sawActive && s.setting.owned then Some(s.(once := InShutdown)) else None
    case ShutdownAtStopReturns(err) =>
      if s.once.InShutdown? then Some(s.(once := Fired(true), stopErr := err)) else None
    case StopSkip =>
      if s.once.Snapped? && !(s.once.sawActive && s.setting.owned) then Some(s.(once := Fired(s.once.sawActive))) else None
    case StopReturn(id) =>
      if id in s.stops && s.stops[id].AtStopOnce? && s.once.Fired?
      then Some(s.(stops := s.stops[id := StopReturned(s.stopErr)])) else None
    case _ => None
  }

  /** The readiness probes. */
  function ProbeStep<Id(==)>(s: Adapter<Id>, a: Action<Id>): Option<Adapter<Id>> {
    match a
    case ProbeEnter(id) => if id in s.probes then None else Some(s.(probes := s.probes[id := AtSnapshot]))
    case ProbeSnapshot(id) =>
      if id in s.probes && s.probes[id].AtSnapshot?
      then Some(s.(probes := s.probes[id := Snapshotted(s.life.active)])) else None
    case ProbePing(id) =>
      if id in s.probes && s.probes[id] == Snapshotted(true) then Some(s.(probes := s.probes[id := Pinging])) else None
    case ProbeUnavailable(id) =>
      if id in s.probes && s.probes[id] == Snapshotted(false)
      then Some(s.(probes := s.probes[id := Unavailable])) else None
    case _ => None
  }

  predicate OfStop<Id>(a: Action<Id>) {
    a.StopEnter? || a.StopWin? || a.StopSnapshot? || a.CallShutdownAtStop? || a.ShutdownAtStopReturns?
    || a.StopSkip? || a.StopReturn?
  }

  predicate OfProbe<Id>(a: Action<Id>) {
    a.ProbeEnter? || a.ProbeSnapshot? || a.ProbePing? || a.ProbeUnavailable?
  }

  function Step<Id(==)>(s: Adapter<Id>, a: Action<Id>): Option<Adapter<Id>> {
    if OfStop(a) then StopStep(s, a)
    else if OfProbe(a) then ProbeStep(s, a)
    else
      var life := StartStep(s.setting, s.life, a);
      if life.Some? then Some(s.(life := life.value)) else None
  }

  function Exec<Id(==)>(s: Adapter<Id>, acts: seq<Action<Id>>): Option<Adapter<Id>>
    decreases acts
  {
    if acts == [] then Some(s)
    else match Step(s, acts[0])
      case None => None
      case Some(u) => Exec(u, acts[1..])
  }

  function IsShutdownCall<Id>(): Action<Id> -> bool {
    (a: Action<Id>) => a.CallShutdownAtStart? || a.CallShutdownAtStop?
  }

  function IsProbePing<Id>(): Action<Id> -> bool { (a: Action<Id>) => a.ProbePing? }

  // ---- Invariants ----------------------------------------------------------------------------

  predicate CleanedUp(start: Start) { start.InCleanup? || (start.Failed? && start.cleanedUp) }

  ghost predicate LifeOk(c: Setting, s: Life) {
    && (s.published <==> s.start.Started?)
    && (s.active ==> s.published)
    && (CleanedUp(s.start) ==> c.owned)
  }

  ghost predicate OnceOk(c: Setting, s: Life, once: StopOnce) {
    && ((once.Snapped? || once.Fired?) && once.sawActive ==> s.published)
    && (once.InShutdown? ==> c.owned && s.published)
    && ((once.Fresh? || once.Running?) && s.start.Started? ==> s.active)
  }

  ghost predicate StopsAgree<Id(!new)>(s: Adapter<Id>) {
    forall id | id in s.stops && s.stops[id].StopReturned? :: s.once.Fired? && s.stops[id].err == s.stopErr
  }

  ghost predicate ProbesSawResource<Id(!new)>(s: Adapter<Id>) {
    forall id | id in s.probes && (s.probes[id] == Snapshotted(true) || s.probes[id].Pinging?) :: s.life.published
  }

  ghost predicate Inv<Id(!new)>(s: Adapter<Id>) {
    LifeOk(s.setting, s.life) && OnceOk(s.setting, s.life, s.once) && StopsAgree(s) && ProbesSawResource(s)
  }

  /** How many Shutdown calls a state has behind it: one by a failed start, one by the stops. */
  function Shutdowns<Id>(s: Adapter<Id>): nat {
    (if CleanedUp(s.life.start) then 1 else 0)
    + (if s.once.InShutdown? || (s.once.Fired? && s.once.sawActive && s.setting.owned) then 1 else 0)
  }

  /** What every step keeps, and what it adds to the Shutdown calls. */
  ghost predicate Kept<Id(!new)>(s: Adapter<Id>, a: Action<Id>, u: Adapter<Id>) {
    && Inv(u)
    && u.setting == s.setting
    && (s.life.published ==> u.life.published)
    && Shutdowns(u) == Shutdowns(s) + if IsShutdownCall()(a) then 1 else 0
  }

  lemma StartStepLife<Id(!new)>(c: Setting, s: Life, a: Action<Id>, u: Life)
    requires LifeOk(c, s) && StartStep(c, s, a) == Some(u)
    ensures LifeOk(c, u) && (s.published ==> u.published)
    ensures CleanedUp(u.start) <==> CleanedUp(s.start) || a.CallShutdownAtStart?
    ensures a.CallShutdownAtStart? ==> !CleanedUp(s.start)
  {
  }

  lemma StartStepKeeps<Id(!new)>(s: Adapter<Id>, a: Action<Id>, u: Adapter<Id>)
    requires Inv(s) && Step(s, a) == Some(u) && !OfStop(a) && !OfProbe(a)
    ensures Kept(s, a, u)
  {
    StartStepLife(s.setting, s.life, a, u.life);
  }

  lemma StopStepKeeps<Id(!new)>(s: Adapter<Id>, a: Action<Id>, u: Adapter<Id>)
    requires Inv(s) && StopStep(s, a) == Some(u)
    ensures Kept(s, a, u)
  {
  }

  lemma ProbeStepKeeps<Id(!new)>(s: Adapter<Id>, a: Action<Id>, u: Adapter<Id>)
    requires Inv(s) && ProbeStep(s, a) == Some(u)
    ensures Kept(s, a, u)
  {
  }

  lemma StepKeeps<Id(!new)>(s: Adapter<Id>, a: Action<Id>, u: Adapter<Id>)
    requires Inv(s) && Step(s, a) == Some(u)
    ensures Kept(s, a, u)
  {
    if OfStop(a) { StopStepKeeps(s, a, u); } else if OfProbe(a) { ProbeStepKeeps(s, a, u); } else { StartStepKeeps(s, a, u); }
  }

  lemma {:induction false} ShutdownAccount<Id(!new)>(s: Adapter<Id>, acts: seq<Action<Id>>, t: Adapter<Id>)
    requires Inv(s) && Exec(s, acts) == Some(t)
    ensures Inv(t) && t.setting == s.setting
    ensures Count(acts, IsShutdownCall()) == Shutdowns(t) - Shutdowns(s)
    decreases acts
  {
    if acts != [] {
      var u := Step(s, acts[0]).value;
      StepKeeps(s, acts[0], u);
      ShutdownAccount(u, acts[1..], t);
    }
  }

  /** Ownership, over every run of an adapter `New` accepts: a shared resource is never shut down, an
      owned one at most once across a failed start and all stops, and all stops return one error. */
  lemma Ownership<Id(!new)>(options: Config, acts: seq<Action<Id>>, t: Adapter<Id>)
    requires New<Id>(options).Some? && Exec(New(options).value, acts) == Some(t)
    ensures Count(acts, IsShutdownCall()) <= 1
    ensures options.hasPool && !options.transferOwnership ==> Count(acts, IsShutdownCall()) == 0
    ensures forall i, j | i in t.stops && j in t.stops && t.stops[i].StopReturned? && t.stops[j].StopReturned? ::
              t.stops[i].err == t.stops[j].err
  {
    ShutdownAccount(New(options).value, acts, t);
  }

  // ---- Ordered lifecycles --------------------------------------------------------------------

  /** A stop that has not read the state yet will find it active, and one that has did. */
  ghost predicate StopFindsActive<Id(!new)>(s: Adapter<Id>) {
    match s.once
    case Fresh => s.life.start.Started? && s.life.active
    case Running => s.life.start.Started? && s.life.active
    case Snapped(sawActive) => s.life.start.Started? && sawActive
    case InShutdown => s.life.start.Started?
    case Fired(sawActive) => s.life.start.Started? && sawActive
  }

  lemma StepKeepsStopFindsActive<Id(!new)>(s: Adapter<Id>, a: Action<Id>, u: Adapter<Id>)
    requires StopFindsActive(s) && Step(s, a) == Some(u)
    ensures StopFindsActive(u)
  {
  }

  lemma {:induction false} RunKeepsStopFindsActive<Id(!new)>(s: Adapter<Id>, acts: seq<Action<Id>>, t: Adapter<Id>)
    requires StopFindsActive(s) && Exec(s, acts) == Some(t)
    ensures StopFindsActive(t)
    decreases acts
  {
    if acts != [] {
      StepKeepsStopFindsActive(s, acts[0], Step(s, acts[0]).value);
      RunKeepsStopFindsActive(Step(s, acts[0]).value, acts[1..], t);
    }
  }

  // ---- What a run must hold for a start or a stop to be where it is --------------------------

  ghost predicate NotPinged<Id>(past: seq<Action<Id>>) { forall a | a in past :: !a.PingReturns? && !a.CallShutdownAtStart? }

  /** The one startup ping of the run has answered. */
  ghost predicate PingAnswered<Id>(past: seq<Action<Id>>, answer: Option<Err>) {
    PingReturns(answer) in past && forall a | a in past && a.PingReturns? :: a.err == answer
  }

  ghost predicate PingPassed<Id>(past: seq<Action<Id>>, c: Setting) {
    && CallShutdownAtStart !in past
    && if c.ping then PingAnswered(past, None) else NotPinged(past)
  }

  ghost predicate ConstructionPassed<Id>(past: seq<Action<Id>>, c: Setting) {
    c.construct ==> ConstructReturns(Resource) in past
  }

  /** Why a start failed, with its error and whether it shut the resource down. */
  ghost predicate FailureExplained<Id>(past: seq<Action<Id>>, c: Setting, cleanedUp: bool, err: Option<Err>) {
    || (NotPinged(past) && !cleanedUp && err.None? && ConstructReturns(NilResource) in past)
    || (NotPinged(past) && !cleanedUp && err.Some? && ConstructReturns(ConstructError(err.value)) in past)
    || (c.ping && exists ping: Err, cleanup: Option<Err> ::
          && PingAnswered(past, Some(ping)) && err == Some(StartupError(ping, cleanup))
          && (if c.owned then cleanedUp && CallShutdownAtStart in past && CleanupAnswered(past, cleanup)
              else !cleanedUp && CallShutdownAtStart !in past && cleanup.None?))
  }

  ghost predicate CleanupAnswered<Id>(past: seq<Action<Id>>, cleanup: Option<Err>) {
    ShutdownAtStartReturns(cleanup) in past && forall a | a in past && a.ShutdownAtStartReturns? :: a.err == cleanup
  }

  ghost predicate NoCleanupAnswer<Id>(past: seq<Action<Id>>) { forall a | a in past :: !a.ShutdownAtStartReturns? }

  ghost predicate StartExplained<Id>(past: seq<Action<Id>>, c: Setting, start: Start) {
    && (!start.Failed? ==> NoCleanupAnswer(past))
    && match start
       case Idle => NotPinged(past)
       case Constructing => NotPinged(past) && c.construct
       case AtPing => NotPinged(past) && c.ping && ConstructionPassed(past, c)
       case InPing => NotPinged(past) && c.ping && ConstructionPassed(past, c)
       case AtCleanup(e) => c.ping && PingAnswered(past, Some(e)) && CallShutdownAtStart !in past
       case InCleanup(e) => c.ping && PingAnswered(past, Some(e)) && CallShutdownAtStart in past && c.owned
       case AtPublish => PingPassed(past, c) && ConstructionPassed(past, c)
       case Started => PingPassed(past, c) && ConstructionPassed(past, c)
       case Failed(cleanedUp, err) => FailureExplained(past, c, cleanedUp, err)
  }

  /** `stopErr` is what the resource's own Shutdown returned to the stop, if that called it. */
  ghost predicate StopExplained<Id>(past: seq<Action<Id>>, s: Adapter<Id>) {
    match s.once
    case Fired(sawActive) =>
      if sawActive && s.setting.owned then CallShutdownAtStop in past && ShutdownAtStopReturns(s.stopErr) in past
      else s.stopErr.None? && CallShutdownAtStop !in past
    case InShutdown => CallShutdownAtStop in past && s.setting.owned
    case _ => s.stopErr.None? && CallShutdownAtStop !in past
  }

  ghost predicate Explained<Id>(past: seq<Action<Id>>, s: Adapter<Id>) {
    StartExplained(past, s.setting, s.life.start) && StopExplained(past, s)
  }

  lemma StartStepExplained<Id(!new)>(past: seq<Action<Id>>, c: Setting, s: Life, a: Action<Id>, u: Life)
    requires StartExplained(past, c, s.start) && StartStep(c, s, a) == Some(u)
    ensures StartExplained(past + [a], c, u.start)
  {
    assert a in past + [a];
    assert forall b :: b in past + [a] <==> b in past || b == a;
  }

  lemma OtherStepExplained<Id(!new)>(past: seq<Action<Id>>, c: Setting, start: Start, a: Action<Id>)
    requires StartExplained(past, c, start) && (OfStop(a) || OfProbe(a))
    ensures StartExplained(past + [a], c, start)
  {
    assert forall b :: b in past + [a] <==> b in past || b == a;
  }

  lemma StopStepExplained<Id(!new)>(past: seq<Action<Id>>, s: Adapter<Id>, a: Action<Id>, u: Adapter<Id>)
    requires StopExplained(past, s) && Step(s, a) == Some(u)
    ensures StopExplained(past + [a], u)
  {
    assert forall b :: b in past + [a] <==> b in past || b == a;
  }

  lemma StepExplained<Id(!new)>(past: seq<Action<Id>>, s: Adapter<Id>, a: Action<Id>, u: Adapter<Id>)
    requires Explained(past, s) && Step(s, a) == Some(u)
    ensures Explained(past + [a], u)
  {
    hide StartExplained, StopExplained;
    StopStepExplained(past, s, a, u);
    if OfStop(a) || OfProbe(a) {
      OtherStepExplained(past, s.setting, s.life.start, a);
    } else {
      StartStepExplained(past, s.setting, s.life, a, u.life);
    }
  }

  lemma {:induction false} RunExplained<Id(!new)>(past: seq<Action<Id>>, s: Adapter<Id>, acts: seq<Action<Id>>, t: Adapter<Id>)
    requires Explained(past, s) && Exec(s, acts) == Some(t)
    ensures Explained(past + acts, t)
    decreases acts
  {
    hide Explained, Step;
    if acts == [] {
      assert past + acts == past;
    } else {
      StepExplained(past, s, acts[0], Step(s, acts[0]).value);
      RunExplained(past + [acts[0]], Step(s, acts[0]).value, acts[1..], t);
      assert past + [acts[0]] + acts[1..] == past + acts;
    }
  }

  lemma RunFromNew<Id(!new)>(options: Config, acts: seq<Action<Id>>, t: Adapter<Id>)
    requires New<Id>(options).Some? && Exec(New(options).value, acts) == Some(t)
    ensures t.setting ==
            Setting(options.hasConstructor, options.hasConstructor || options.transferOwnership, options.startupPing)
    ensures Explained(acts, t) && Inv(t) && Count(acts, IsShutdownCall()) == Shutdowns(t)
  {
    var s := New<Id>(options).value;
    RunExplained([], s, acts, t);
    ShutdownAccount(s, acts, t);
    assert [] + acts == acts;
  }

  /** Validation, over every run of an adapter `New` accepts: start succeeds only with a constructed
      resource and, if a ping was asked for, after that ping passed; a ping that failed makes the start
      fail, and an owned resource is then shut down exactly once; no ping is made unasked. */
  lemma StartedMeansValidated<Id(!new)>(options: Config, acts: seq<Action<Id>>, t: Adapter<Id>)
    requires New<Id>(options).Some? && Exec(New(options).value, acts) == Some(t)
    ensures t.life.start.Started? ==>
      && (options.hasConstructor ==> ConstructReturns(Resource) in acts)
      && (options.startupPing ==> PingReturns(None) in acts)
      && (forall e :: PingReturns(Some(e)) !in acts)
      && CallShutdownAtStart !in acts
    ensures forall e | PingReturns(Some(e)) in acts ::
      && options.startupPing
      && (t.life.start.AtCleanup? || t.life.start.InCleanup? || t.life.start.Failed?)
      && (t.life.start.Failed? ==>
            Count(acts, IsShutdownCall()) == if options.hasConstructor || options.transferOwnership then 1 else 0)
  {
    hide New, Exec, Count;
    RunFromNew(options, acts, t);
  }

  /** The error of a failed start: what the constructor reported, nothing for a nil resource, or, after
      a failed ping, a graph in which every search finds exactly the ping error and then the cleanup
      error. */
  lemma FailedStartInspectable<T, Id(!new)>(
    options: Config, acts: seq<Action<Id>>, t: Adapter<Id>, pick: Tag -> Option<T>)
    requires New<Id>(options).Some? && Exec(New(options).value, acts) == Some(t)
    requires t.life.start.Failed? && pick(PLAIN).None?
    ensures var err := t.life.start.err;
      || (err.None? && ConstructReturns(NilResource) in acts && NotPinged(acts))
      || (err.Some? && ConstructReturns(ConstructError(err.value)) in acts && NotPinged(acts))
      || (err.Some? && exists ping: Err, cleanup: Option<Err> ::
            && PingReturns(Some(ping)) in acts
            && (if options.hasConstructor || options.transferOwnership
                then ShutdownAtStartReturns(cleanup) in acts else cleanup.None?)
            && Find(err.value, pick) ==
               if Find(ping, pick).Some? then Find(ping, pick)
               else if cleanup.Some? then Find(cleanup.value, pick) else None)
  {
    hide New, Exec, Count, Find, Inv;
    var c, err := t.setting, t.life.start.err;
    RunFromNew(options, acts, t);
    assert FailureExplained(acts, c, t.life.start.cleanedUp, err);
    if !NotPinged(acts) {
      var ping: Err, cleanup: Option<Err> :|
        && PingAnswered(acts, Some(ping)) && err == Some(StartupError(ping, cleanup))
        && (if c.owned then t.life.start.cleanedUp && CallShutdownAtStart in acts && CleanupAnswered(acts, cleanup)
            else !t.life.start.cleanedUp && CallShutdownAtStart !in acts && cleanup.None?);
      FindJoined(ping, cleanup, pick);
    }
  }

  /** Stopping, over every run: a stop that returns after a started adapter met its first stop has shut
      an owned resource down, one handed over included, and returns what that Shutdown returned; a
      shared resource is left alone and the stop reports nothing. */
  lemma StopReturnsShutdownError<Id(!new)>(
    options: Config, before: seq<Action<Id>>, s: Adapter<Id>, after: seq<Action<Id>>, t: Adapter<Id>, stop: Id)
    requires New<Id>(options).Some? && Exec(New(options).value, before) == Some(s)
    requires s.life.start.Started? && s.once.Fresh? && Exec(s, after) == Some(t)
    requires stop in t.stops && t.stops[stop].StopReturned?
    ensures if options.hasConstructor || options.transferOwnership
            then CallShutdownAtStop in after && ShutdownAtStopReturns(t.stops[stop].err) in after
            else t.stops[stop].err.None? && CallShutdownAtStop !in after
  {
    ShutdownAccount(New(options).value, before, s);
    ShutdownAccount(s, after, t);
    RunKeepsStopFindsActive(s, after, t);
    assert StopExplained([], s) by { RunExplained([], New(options).value, before, s); }
    RunStopExplained([], s, after, t);
    assert [] + after == after;
  }

  lemma {:induction false} RunStopExplained<Id(!new)>(past: seq<Action<Id>>, s: Adapter<Id>, acts: seq<Action<Id>>, t: Adapter<Id>)
    requires StopExplained(past, s) && Exec(s, acts) == Some(t)
    ensures StopExplained(past + acts, t)
    decreases acts
  {
    if acts == [] {
      assert past + acts == past;
    } else {
      StopStepExplained(past, s, acts[0], Step(s, acts[0]).value);
      RunStopExplained(past + [acts[0]], Step(s, acts[0]).value, acts[1..], t);
      assert past + [acts[0]] + acts[1..] == past + acts;
    }
  }

  // ---- Readiness -----------------------------------------------------------------------------

  ghost function AboutToPing<Id>(s: Adapter<Id>): set<Id> {
    set id | id in s.probes && s.probes[id] == Snapshotted(true)
  }

  ghost predicate NeverActiveAgain<Id>(s: Adapter<Id>) {
    !s.life.active && (s.life.start.Started? || s.life.start.Failed?)
  }

  lemma StepProbes<Id(!new)>(s: Adapter<Id>, a: Action<Id>, u: Adapter<Id>)
    requires NeverActiveAgain(s) && Step(s, a) == Some(u)
    ensures NeverActiveAgain(u)
    ensures AboutToPing(u) == if a.ProbePing? then AboutToPing(s) - {a.id} else AboutToPing(s)
    ensures a.ProbePing? ==> a.id in AboutToPing(s)
  {
  }

  /** After a failed start or the snapshot of a stop, readiness pings only what earlier probes had
      already seen active: each of those pings at most once, no other probe pings at all. */
  lemma {:induction false} ProbeDrain<Id(!new)>(s: Adapter<Id>, acts: seq<Action<Id>>, t: Adapter<Id>)
    requires NeverActiveAgain(s) && Exec(s, acts) == Some(t)
    ensures AboutToPing(t) <= AboutToPing(s)
    ensures Count(acts, IsProbePing()) == |AboutToPing(s)| - |AboutToPing(t)|
    decreases acts
  {
    if acts != [] {
      var u := Step(s, acts[0]).value;
      StepProbes(s, acts[0], u);
      ProbeDrain(u, acts[1..], t);
    }
  }

  /** After the snapshot of a stop of a started adapter, in any run: the readiness pings still to come
      are at most the probes that had already seen the resource active. */
  lemma PingsAfterStopSnapshot<Id(!new)>(
    s: Adapter<Id>, u: Adapter<Id>, after: seq<Action<Id>>, t: Adapter<Id>)
    requires s.life.start.Started? && Step(s, StopSnapshot) == Some(u) && Exec(u, after) == Some(t)
    ensures Count(after, IsProbePing()) <= |AboutToPing(s)|
  {
    assert NeverActiveAgain(u) && AboutToPing(u) == AboutToPing(s);
    ProbeDrain(u, after, t);
    assert |AboutToPing(t)| >= 0;
  }

  /** After a failed start of any run no readiness probe ever pings. */
  lemma NoPingsAfterFailedStart<Id(!new)>(
    options: Config, before: seq<Action<Id>>, s: Adapter<Id>, after: seq<Action<Id>>, t: Adapter<Id>)
    requires New<Id>(options).Some? && Exec(New(options).value, before) == Some(s)
    requires s.life.start.Failed? && Exec(s, after) == Some(t)
    ensures Count(before, IsProbePing()) == 0 && Count(after, IsProbePing()) == 0
  {
    ShutdownAccount(New(options).value, before, s);
    NoProbeWithoutResource(New(options).value, before, s);
    assert AboutToPing(s) == {};
    ProbeDrain(s, after, t);
  }

  lemma PingNeedsResource<Id(!new)>(s: Adapter<Id>, a: Action<Id>, u: Adapter<Id>)
    requires Inv(s) && Step(s, a) == Some(u) && a.ProbePing?
    ensures s.life.published
  {
  }

  /** An adapter that never published a resource has pinged none for readiness. */
  lemma {:induction false} NoProbeWithoutResource<Id(!new)>(s: Adapter<Id>, acts: seq<Action<Id>>, t: Adapter<Id>)
    requires Inv(s) && Exec(s, acts) == Some(t) && !t.life.published
    ensures !s.life.published && Count(acts, IsProbePing()) == 0
    decreases acts
  {
    if acts != [] {
      var u := Step(s, acts[0]).value;
      StepKeeps(s, acts[0], u);
      NoProbeWithoutResource(u, acts[1..], t);
      if acts[0].ProbePing? { PingNeedsResource(s, acts[0], u); }
    }
  }

  lemma {:induction false} ProbeKeepsItsSnapshot<Id(!new)>(
    s: Adapter<Id>, acts: seq<Action<Id>>, t: Adapter<Id>, id: Id, active: bool)
    requires id in s.probes && s.probes[id] in {Snapshotted(active), if active then Pinging else Unavailable}
    requires Exec(s, acts) == Some(t)
    ensures id in t.probes && t.probes[id] in {Snapshotted(active), if active then Pinging else Unavailable}
    decreases acts
  {
    if acts != [] { ProbeKeepsItsSnapshot(Step(s, acts[0]).value, acts[1..], t, id, active); }
  }

  /** A probe pings exactly when it saw the resource active, whatever happens after its look; and in
      every run a started adapter that no stop has read yet is seen active. */
  lemma ProbeAnswersWhatItSaw<Id(!new)>(
    options: Config, before: seq<Action<Id>>, s: Adapter<Id>, id: Id, u: Adapter<Id>, after: seq<Action<Id>>, t: Adapter<Id>)
    requires New<Id>(options).Some? && Exec(New(options).value, before) == Some(s)
    requires Step(s, ProbeSnapshot(id)) == Some(u) && Exec(u, after) == Some(t)
    ensures id in t.probes
    ensures s.life.active ==> t.probes[id].Pinging? || Step(t, ProbePing(id)).Some?
    ensures !s.life.active ==> t.probes[id].Unavailable? || Step(t, ProbeUnavailable(id)).Some?
    ensures !s.life.active ==> !t.probes[id].Pinging?
    ensures s.life.start.Started? && (s.once.Fresh? || s.once.Running?) ==> s.life.active
  {
    ShutdownAccount(New(options).value, before, s);
    ProbeKeepsItsSnapshot(u, after, t, id, s.life.active);
  }

  // ---- Progress ------------------------------------------------------------------------------

  /** Neither start nor stop is ever stuck: whatever constructor, ping and Shutdown answer, the next
      step is there. */
  lemma NeverStuck<Id(!new)>(s: Adapter<Id>, id: Id, built: Construction, answer: Option<Err>)
    ensures match s.life.start
            case Idle => Step(s, StartEnter).Some?
            case Constructing => Step(s, ConstructReturns(built)).Some?
            case AtPing => Step(s, CallPing).Some?
            case InPing => Step(s, PingReturns(answer)).Some?
            case AtCleanup(_) => Step(s, if s.setting.owned then CallShutdownAtStart else SkipCleanup).Some?
            case InCleanup(_) => Step(s, ShutdownAtStartReturns(answer)).Some?
            case AtPublish => Step(s, Publish).Some?
            case _ => true
    ensures id in s.stops && s.stops[id].AtStopOnce? ==>
            match s.once
            case Fresh => Step(s, StopWin(id)).Some?
            case Running => Step(s, StopSnapshot).Some?
            case Snapped(sawActive) =>
              Step(s, if sawActive && s.setting.owned then CallShutdownAtStop else StopSkip).Some?
            case InShutdown => Step(s, ShutdownAtStopReturns(answer)).Some?
            case Fired(_) => Step(s, StopReturn(id)).Some?
  {
  }
}
