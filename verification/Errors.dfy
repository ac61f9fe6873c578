/** Error graphs (Go's `errors.Is`, `errors.As`, `errors.Join`, `%w`) and their policy
    classification, errors.go.

    An error is a finite tree. A node carries what the library can match on it: the sentinels it
    compares equal to, a native PostgreSQL error, whether it is a network error and whether it
    says something about retrying. `errors.Is` and `errors.As` walk the tree depth first. */
module Errors {
  import opened Options

  datatype Sentinel =
    | PoolExhausted | AcquireTimeout | HealthTimeout | PoolClosed | ShutdownTimeout
    | ContextRequired | NilTransactionCallback | NilIsolationCallback
    | Canceled | DeadlineExceeded
    | TerminationPanicked
    | Application(id: nat)

  /** A native `*pgconn.PgError`; `serial` tells two errors with the same code apart. */
  datatype PgError = PgError(code: string, serial: nat)

  datatype Tag = Tag(sentinels: set<Sentinel>, pg: Option<PgError>, network: bool, safeToRetry: Option<bool>)

  datatype Err = Node(tag: Tag, causes: seq<Err>)

  const PLAIN := Tag({}, None, false, None)

  function SentinelError(s: Sentinel): Err { Node(Tag({s}, None, false, None), []) }

  function PgErr(p: PgError): Err { Node(Tag({}, Some(p), false, None), []) }

  /** `fmt.Errorf("...: %w", e)` */
  function Wrap(e: Err): Err { Node(PLAIN, [e]) }

  function NonNil(errs: seq<Option<Err>>): (r: seq<Err>)
    ensures |r| <= |errs|
  {
    if errs == [] then []
    else (if errs[0].Some? then [errs[0].value] else []) + NonNil(errs[1..])
  }

  /** `errors.Join`: nil arguments are dropped, and a join of nothing is nil. */
  function Join(errs: seq<Option<Err>>): Option<Err> {
    var parts := NonNil(errs);
    if parts == [] then None else Some(Node(PLAIN, parts))
  }

  /** What `errors.Join(Some(e), extra)` is, spelled out. */
  function Joined(e: Err, extra: Option<Err>): Err {
    Node(PLAIN, if extra.Some? then [e, extra.value] else [e])
  }

  lemma JoinOfTwo(e: Err, extra: Option<Err>)
    ensures Join([Some(e), extra]) == Some(Joined(e, extra))
  {
    assert [Some(e), extra][1..] == [extra];
    assert NonNil([extra]) == if extra.Some? then [extra.value] else [];
    assert NonNil([Some(e), extra]) == [e] + NonNil([extra]);
    assert NonNil([Some(e), extra]) == Joined(e, extra).causes;
  }

  // ---- Searching -------------------------------------------------------------------------

  /** The depth-first search behind `errors.Is` and `errors.As`: the first node that matches. */
  function Find<T>(e: Err, pick: Tag -> Option<T>): Option<T>
    decreases e, 1
  {
    if pick(e.tag).Some? then pick(e.tag) else FindIn(e.causes, pick)
  }

  function FindIn<T>(es: seq<Err>, pick: Tag -> Option<T>): Option<T>
    decreases es, 0
  {
    if es == [] then None
    else
      var first := Find(es[0], pick);
      if first.Some? then first else FindIn(es[1..], pick)
  }

  function PickPg(): Tag -> Option<PgError> { (t: Tag) => t.pg }
  function PickRetry(): Tag -> Option<bool> { (t: Tag) => t.safeToRetry }
  function PickNetwork(): Tag -> Option<bool> { (t: Tag) => if t.network then Some(true) else None }
  function PickSentinel(s: Sentinel): Tag -> Option<bool> {
    (t: Tag) => if s in t.sentinels then Some(true) else None
  }

  function FindPg(e: Err): Option<PgError> { Find(e, PickPg()) }
  predicate Is(e: Err, s: Sentinel) { Find(e, PickSentinel(s)).Some? }
  predicate IsNetwork(e: Err) { Find(e, PickNetwork()).Some? }

  /** `pgconn.SafeToRetry`: the advice of the first node that gives any. */
  predicate SafeToRetry(e: Err) { Find(e, PickRetry()) == Some(true) }

  // ---- Classification --------------------------------------------------------------------

  const NONE := ""
  const UNKNOWN := "unknown"
  const UNIQUE_VIOLATION := "unique_violation"
  const FOREIGN_KEY_VIOLATION := "foreign_key_violation"
  const CHECK_VIOLATION := "check_violation"
  const EXCLUSION_VIOLATION := "exclusion_violation"
  const SERIALIZATION_FAILURE := "serialization_failure"
  const DEADLOCK := "deadlock"
  const TIMEOUT := "timeout"
  const CANCELLATION := "cancellation"
  const QUERY_CANCELED := "query_canceled"
  const LOCK_UNAVAILABLE := "lock_unavailable"
  const CONNECTIVITY := "connectivity"
  const POOL_EXHAUSTION := "pool_exhaustion"

  function KindForSQLState(code: string): string {
    if code == "23505" then UNIQUE_VIOLATION
    else if code == "23503" then FOREIGN_KEY_VIOLATION
    else if code == "23514" then CHECK_VIOLATION
    else if code == "23P01" then EXCLUSION_VIOLATION
    else if code == "40001" then SERIALIZATION_FAILURE
    else if code == "40P01" then DEADLOCK
    else if code == "57014" then QUERY_CANCELED
    else if code == "55P03" then LOCK_UNAVAILABLE
    else if code in {"57P01", "57P02", "57P03", "53300"} then CONNECTIVITY
    else if "08" <= code then CONNECTIVITY
    else UNKNOWN
  }

  predicate RetryableKind(kind: string) { kind == SERIALIZATION_FAILURE || kind == DEADLOCK }

  datatype ErrorInfo = ErrorInfo(
    kind: string, sqlState: string, retryable: bool, cause: Option<Err>, postgres: Option<PgError>)

  function Classify(err: Option<Err>): ErrorInfo {
    match err
    case None => ErrorInfo(NONE, "", false, None, None)
    case Some(e) =>
      var unknown := ErrorInfo(UNKNOWN, "", false, err, None);
      match FindPg(e)
      case Some(p) =>
        var kind := KindForSQLState(p.code);
        ErrorInfo(kind, p.code, RetryableKind(kind), err, Some(p))
      case None =>
        if Is(e, PoolExhausted) then unknown.(kind := POOL_EXHAUSTION)
        else if Is(e, Canceled) then unknown.(kind := CANCELLATION)
        else if Is(e, DeadlineExceeded) then unknown.(kind := TIMEOUT)
        else if IsNetwork(e) then unknown.(kind := CONNECTIVITY, retryable := SafeToRetry(e))
        else unknown
  }

  /** errors.go:135 */
  function SQLState(err: Option<Err>): Option<string> {
    match err
    case None => None
    case Some(e) => match FindPg(e) case Some(p) => Some(p.code) case None => None
  }

  // ---- The declarative side: the pre-order listing of a graph -----------------------------

  ghost function Preorder(e: Err): seq<Tag>
    decreases e, 1
  {
    [e.tag] + PreorderAll(e.causes)
  }

  ghost function PreorderAll(es: seq<Err>): seq<Tag>
    decreases es, 0
  {
    if es == [] then [] else Preorder(es[0]) + PreorderAll(es[1..])
  }

  /** `r` is what the first matching entry of the listing gives, or nothing when none matches. */
  ghost predicate FirstMatch<T>(tags: seq<Tag>, pick: Tag -> Option<T>, r: Option<T>) {
    match r
    case None => forall k | 0 <= k < |tags| :: pick(tags[k]).None?
    case Some(_) =>
      exists k | 0 <= k < |tags| :: pick(tags[k]) == r && forall j | 0 <= j < k :: pick(tags[j]).None?
  }

  lemma FirstMatchConcat<T>(a: seq<Tag>, b: seq<Tag>, pick: Tag -> Option<T>, r: Option<T>, q: Option<T>)
    requires FirstMatch(a, pick, r) && FirstMatch(b, pick, q)
    ensures FirstMatch(a + b, pick, if r.Some? then r else q)
  {
    if r.Some? {
      var k :| 0 <= k < |a| && pick(a[k]) == r && forall j | 0 <= j < k :: pick(a[j]).None?;
      assert pick((a + b)[k]) == r;
    } else if q.Some? {
      var k :| 0 <= k < |b| && pick(b[k]) == q && forall j | 0 <= j < k :: pick(b[j]).None?;
      assert pick((a + b)[|a| + k]) == q;
      assert forall j | 0 <= j < |a| + k :: (a + b)[j] == if j < |a| then a[j] else b[j - |a|];
    }
  }

  /** The depth-first search finds the first match of the pre-order listing, and nothing else. */
  lemma {:induction false} FindIsFirst<T>(e: Err, pick: Tag -> Option<T>)
    ensures FirstMatch(Preorder(e), pick, Find(e, pick))
    decreases e, 1
  {
    FindInIsFirst(e.causes, pick);
    FirstMatchSingle(e.tag, pick);
    FirstMatchConcat([e.tag], PreorderAll(e.causes), pick, pick(e.tag), FindIn(e.causes, pick));
  }

  lemma FirstMatchSingle<T>(t: Tag, pick: Tag -> Option<T>)
    ensures FirstMatch([t], pick, pick(t))
  {
    assert [t][0] == t;
  }

  lemma {:induction false} FindInIsFirst<T>(es: seq<Err>, pick: Tag -> Option<T>)
    ensures FirstMatch(PreorderAll(es), pick, FindIn(es, pick))
    decreases es, 0
  {
    if es != [] {
      FindIsFirst(es[0], pick);
      FindInIsFirst(es[1..], pick);
      FirstMatchConcat(Preorder(es[0]), PreorderAll(es[1..]), pick, Find(es[0], pick), FindIn(es[1..], pick));
    }
  }

  ghost predicate Mentions(tags: seq<Tag>, s: Sentinel) {
    exists k | 0 <= k < |tags| :: s in tags[k].sentinels
  }

  lemma IsMeansMentioned(e: Err, s: Sentinel)
    ensures Is(e, s) <==> Mentions(Preorder(e), s)
  {
    FindIsFirst(e, PickSentinel(s));
    var tags := Preorder(e);
    if Is(e, s) {
      var k :| 0 <= k < |tags| && PickSentinel(s)(tags[k]) == Find(e, PickSentinel(s));
      assert s in tags[k].sentinels;
    } else {
      assert forall k | 0 <= k < |tags| :: PickSentinel(s)(tags[k]).None?;
    }
  }

  ghost predicate MentionsNetwork(tags: seq<Tag>) {
    exists k | 0 <= k < |tags| :: tags[k].network
  }

  lemma IsNetworkMeansMentioned(e: Err)
    ensures IsNetwork(e) <==> MentionsNetwork(Preorder(e))
  {
    FindIsFirst(e, PickNetwork());
    var tags := Preorder(e);
    if IsNetwork(e) {
      var k :| 0 <= k < |tags| && PickNetwork()(tags[k]) == Find(e, PickNetwork());
      assert tags[k].network;
    } else {
      assert forall k | 0 <= k < |tags| :: PickNetwork()(tags[k]).None?;
    }
  }

  /** The first node of the listing that gives retry advice, if any, says yes. */
  ghost predicate AdvisesRetry(tags: seq<Tag>) {
    exists k | 0 <= k < |tags| :: tags[k].safeToRetry == Some(true) && forall j | 0 <= j < k :: tags[j].safeToRetry.None?
  }

  lemma SafeToRetryMeansAdvised(e: Err)
    ensures SafeToRetry(e) <==> AdvisesRetry(Preorder(e))
  {
    FindIsFirst(e, PickRetry());
    var tags, r := Preorder(e), Find(e, PickRetry());
    if r.Some? {
      var f :| 0 <= f < |tags| && PickRetry()(tags[f]) == r && forall j | 0 <= j < f :: PickRetry()(tags[j]).None?;
      assert tags[f].safeToRetry == r;
      assert forall j | 0 <= j < f :: tags[j].safeToRetry == PickRetry()(tags[j]);
      forall k | 0 <= k < |tags| && tags[k].safeToRetry.Some? && (forall j | 0 <= j < k :: tags[j].safeToRetry.None?)
        ensures k == f
      {
      }
    } else {
      forall k | 0 <= k < |tags| ensures tags[k].safeToRetry.None? { assert PickRetry()(tags[k]).None?; }
    }
  }

  /** The kind of a native error, row by row. */
  ghost predicate KindMatchesState(kind: string, state: string) {
    && (kind == "unique_violation" <==> state == "23505")
    && (kind == "foreign_key_violation" <==> state == "23503")
    && (kind == "check_violation" <==> state == "23514")
    && (kind == "exclusion_violation" <==> state == "23P01")
    && (kind == "serialization_failure" <==> state == "40001")
    && (kind == "deadlock" <==> state == "40P01")
    && (kind == "query_canceled" <==> state == "57014")
    && (kind == "lock_unavailable" <==> state == "55P03")
    && (kind == "connectivity" <==> state in {"57P01", "57P02", "57P03", "53300"} || "08" <= state)
    && (kind in {"unique_violation", "foreign_key_violation", "check_violation", "exclusion_violation",
                 "serialization_failure", "deadlock", "query_canceled", "lock_unavailable", "connectivity", "unknown"})
  }

  lemma KindForSQLStateMatches(code: string)
    ensures KindMatchesState(KindForSQLState(code), code)
  {
    DistinctKinds();
    if "08" <= code { assert code[0] == '0' && code[1] == '8'; }
    assert "23505"[0] != '0' && "40001"[0] != '0' && "40P01"[0] != '0' && "57014"[0] != '0' && "55P03"[0] != '0';
  }

  /** The kind of a graph without native error: pool exhaustion, cancellation, deadline and network
      speak in that order. */
  ghost predicate KindMatchesListing(kind: string, tags: seq<Tag>) {
    if Mentions(tags, PoolExhausted) then kind == "pool_exhaustion"
    else if Mentions(tags, Canceled) then kind == "cancellation"
    else if Mentions(tags, DeadlineExceeded) then kind == "timeout"
    else if MentionsNetwork(tags) then kind == "connectivity"
    else kind == "unknown"
  }

  /** Classification is the declared precedence over the listing: the first native error decides
      alone, and only without one do the other categories speak, in their fixed order. A nil error has
      the empty record. */
  lemma ClassifyPrecedence(e: Err)
    ensures Classify(None) == ErrorInfo("", "", false, None, None) && SQLState(None) == None
    ensures var tags, info := Preorder(e), Classify(Some(e));
      && info.cause == Some(e)
      && SQLState(Some(e)) == (if info.postgres.Some? then Some(info.sqlState) else None)
      && (forall k | 0 <= k < |tags| && tags[k].pg.Some? && (forall j | 0 <= j < k :: tags[j].pg.None?) ::
            && info.postgres == tags[k].pg
            && info.sqlState == tags[k].pg.value.code
            && KindMatchesState(info.kind, info.sqlState)
            && (info.retryable <==> info.sqlState in {"40001", "40P01"}))
      && ((forall k | 0 <= k < |tags| :: tags[k].pg.None?) ==>
            && info.postgres == None
            && info.sqlState == ""
            && KindMatchesListing(info.kind, tags)
            && (info.retryable <==> info.kind == "connectivity" && AdvisesRetry(tags)))
  {
    hide KindForSQLState, KindMatchesState, RetryableKind, AdvisesRetry;
    var tags := Preorder(e);
    FindIsFirst(e, PickPg());
    IsMeansMentioned(e, PoolExhausted);
    IsMeansMentioned(e, Canceled);
    IsMeansMentioned(e, DeadlineExceeded);
    IsNetworkMeansMentioned(e);
    SafeToRetryMeansAdvised(e);
    if FindPg(e).Some? {
      var f :| 0 <= f < |tags| && PickPg()(tags[f]) == FindPg(e) && forall j | 0 <= j < f :: PickPg()(tags[j]).None?;
      RetryableCodes(tags[f].pg.value.code);
      KindForSQLStateMatches(tags[f].pg.value.code);
      forall k | 0 <= k < |tags| && tags[k].pg.Some? && (forall j | 0 <= j < k :: tags[j].pg.None?)
        ensures k == f
      {
        assert PickPg()(tags[k]).Some?;
        assert tags[f].pg.Some?;
      }
    } else {
      forall k | 0 <= k < |tags| ensures tags[k].pg.None? {
        assert PickPg()(tags[k]).None?;
      }
      DistinctKinds();
    }
  }

  lemma RetryableCodes(code: string)
    ensures RetryableKind(KindForSQLState(code)) <==> code in {"40001", "40P01"}
  {
  }

  /** The kinds a decision depends on are told apart by their length or first letter. */
  lemma DistinctKinds()
    ensures CONNECTIVITY != POOL_EXHAUSTION && CONNECTIVITY != CANCELLATION && CONNECTIVITY != TIMEOUT && CONNECTIVITY != UNKNOWN
    ensures forall k | k in {UNIQUE_VIOLATION, FOREIGN_KEY_VIOLATION, CHECK_VIOLATION, EXCLUSION_VIOLATION,
                             QUERY_CANCELED, LOCK_UNAVAILABLE, CONNECTIVITY, UNKNOWN} :: !RetryableKind(k)
  {
  }

  // ---- Graphs the library builds -----------------------------------------------------------

  lemma FindWrap<T>(e: Err, pick: Tag -> Option<T>)
    requires pick(PLAIN).None?
    ensures Find(Wrap(e), pick) == Find(e, pick)
  {
    assert FindIn([e], pick) == Find(e, pick) by {
      assert [e][1..] == [];
      if Find(e, pick).None? { assert FindIn<T>([], pick) == None; }
    }
  }

  lemma FindJoined<T>(e: Err, extra: Option<Err>, pick: Tag -> Option<T>)
    requires pick(PLAIN).None?
    ensures Find(Joined(e, extra), pick) ==
            if Find(e, pick).Some? then Find(e, pick)
            else if extra.Some? then Find(extra.value, pick) else None
  {
    var parts := Joined(e, extra).causes;
    assert parts[0] == e;
    assert FindIn<T>([], pick) == None;
    if extra.Some? {
      assert parts[1..] == [extra.value];
      assert [extra.value][1..] == [];
      assert FindIn([extra.value], pick) == Find(extra.value, pick);
    } else {
      assert parts[1..] == [];
    }
  }

  lemma {:induction false} FindInAppend<T>(es: seq<Err>, e: Err, pick: Tag -> Option<T>)
    ensures FindIn(es + [e], pick) == if FindIn(es, pick).Some? then FindIn(es, pick) else Find(e, pick)
  {
    if es == [] {
      assert es + [e] == [e] && [e][1..] == [];
      assert FindIn<T>([], pick) == None;
    } else {
      assert (es + [e])[1..] == es[1..] + [e];
      FindInAppend(es[1..], e, pick);
    }
  }

  lemma {:induction false} FindInMember<T>(es: seq<Err>, e: Err, pick: Tag -> Option<T>)
    requires e in es && Find(e, pick).Some?
    ensures FindIn(es, pick).Some?
  {
    if es[0] != e {
      assert es == [es[0]] + es[1..];
      FindInMember(es[1..], e, pick);
    }
  }

  /** Wrapping with `%w` keeps kind, state, retry advice and the matched native error. */
  lemma WrapKeepsClassification(e: Err)
    ensures Classify(Some(Wrap(e))) == Classify(Some(e)).(cause := Some(Wrap(e)))
    ensures forall s :: Is(Wrap(e), s) <==> Is(e, s)
  {
    FindWrap(e, PickPg());
    FindWrap(e, PickRetry());
    FindWrap(e, PickNetwork());
    forall s ensures Is(Wrap(e), s) <==> Is(e, s) { FindWrap(e, PickSentinel(s)); }
  }

  /** How strongly a category without native error speaks; smaller wins. */
  function Rank(e: Err): nat {
    if Is(e, PoolExhausted) then 0
    else if Is(e, Canceled) then 1
    else if Is(e, DeadlineExceeded) then 2
    else if IsNetwork(e) then 3
    else 4
  }

  function KindOfRank(r: nat): string {
    if r == 0 then POOL_EXHAUSTION else if r == 1 then CANCELLATION
    else if r == 2 then TIMEOUT else if r == 3 then CONNECTIVITY else UNKNOWN
  }

  /** The classification of a join, for every pair of graphs: a native error of the first wins,
      then one of the second, and otherwise the stronger of the two categories; a connectivity
      error then takes its retry advice from the first node of either graph that gives any. */
  lemma ClassifyJoined(x: Err, y: Err)
    ensures var joined, cx, cy := Classify(Some(Joined(x, Some(y)))), Classify(Some(x)), Classify(Some(y));
      var rank := if Rank(x) <= Rank(y) then Rank(x) else Rank(y);
      && joined.cause == Some(Joined(x, Some(y)))
      && (FindPg(x).Some? ==> joined == cx.(cause := joined.cause))
      && (FindPg(x).None? && FindPg(y).Some? ==> joined == cy.(cause := joined.cause))
      && (FindPg(x).None? && FindPg(y).None? ==>
            && joined.sqlState == "" && joined.postgres == None
            && joined.kind == KindOfRank(rank)
            && (joined.retryable <==>
                  rank == 3 && if Find(x, PickRetry()).Some? then SafeToRetry(x) else SafeToRetry(y)))
    ensures forall s :: Is(Joined(x, Some(y)), s) <==> Is(x, s) || Is(y, s)
  {
    FindJoined(x, Some(y), PickPg());
    FindJoined(x, Some(y), PickRetry());
    FindJoined(x, Some(y), PickNetwork());
    forall s ensures Is(Joined(x, Some(y)), s) <==> Is(x, s) || Is(y, s) {
      FindJoined(x, Some(y), PickSentinel(s));
    }
  }

  lemma KindOfRankInjective(i: nat, j: nat)
    requires i <= 4 && j <= 4
    ensures KindOfRank(i) == KindOfRank(j) <==> i == j
  {
  }

  /** Exactly when joining `y` (a rollback error) leaves the classification of `x` (the callback
      error) alone, kind, state and retry advice: `x` holds a native error; or neither does, `y`
      speaks no louder than `x`, and `y` adds no retry advice to a connectivity error without any; or
      `y` is native with an empty code, which says nothing more than an unknown `x`. */
  lemma JoinKeepsClassificationIff(x: Err, y: Err)
    ensures var joined, cx := Classify(Some(Joined(x, Some(y)))), Classify(Some(x));
      (joined.kind == cx.kind && joined.sqlState == cx.sqlState && joined.retryable == cx.retryable) <==>
      (|| FindPg(x).Some?
       || (&& FindPg(y).None?
           && Rank(x) <= Rank(y)
           && (Rank(x) != 3 || Find(x, PickRetry()).Some? || !SafeToRetry(y)))
       || (FindPg(y).Some? && FindPg(y).value.code == "" && Rank(x) == 4))
  {
    ClassifyJoined(x, y);
    KindOfRankInjective(Rank(x), if Rank(x) <= Rank(y) then Rank(x) else Rank(y));
    KindOfRankInjective(Rank(x), 4);
    DistinctKinds();
  }

  /** Retry advice can flip alone: a network error without advice, joined with a rollback error that
      calls itself safe to retry, stays a connectivity error and becomes retryable. */
  lemma RollbackAdviceCanTakeOver()
    ensures var callback := Node(Tag({}, None, true, None), []);
      var rollback := Node(Tag({}, None, false, Some(true)), []);
      var joined := Classify(Some(Joined(callback, Some(rollback))));
      && joined.kind == Classify(Some(callback)).kind == CONNECTIVITY
      && !Classify(Some(callback)).retryable
      && joined.retryable
  {
    var callback := Node(Tag({}, None, true, None), []);
    var rollback := Node(Tag({}, None, false, Some(true)), []);
    ClassifyJoined(callback, rollback);
    assert Find(callback, PickRetry()) == None && SafeToRetry(rollback);
  }

  /** Without a native error in the callback error the law fails: a rollback error takes over. */
  lemma RollbackErrorCanTakeOver()
    ensures var callback, rollback := SentinelError(Application(0)), PgErr(PgError("40001", 0));
      && Classify(Some(callback)).kind == UNKNOWN
      && Classify(Some(Joined(callback, Some(rollback)))).kind == SERIALIZATION_FAILURE
      && Classify(Some(Joined(callback, Some(rollback)))).retryable
  {
    var callback, rollback := SentinelError(Application(0)), PgErr(PgError("40001", 0));
    assert FindPg(callback) == None;
    assert FindPg(rollback) == Some(PgError("40001", 0));
    ClassifyJoined(callback, rollback);
  }
}
