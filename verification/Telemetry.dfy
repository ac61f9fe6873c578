/** The finite categorical projection of observations, internal/telemetry/categories.go, and the
    observation values built and bounded in observe.go. */
module Telemetry {
  import opened Options
  import opened Errors

  const OPERATIONS := ["pool.acquire", "pool.ping", "pool.close", "transaction", "savepoint"]
  const OUTCOMES := ["success", "error", "panic", "aborted"]
  const KINDS := [
    "", "unknown", "unique_violation", "foreign_key_violation", "check_violation",
    "exclusion_violation", "serialization_failure", "deadlock", "timeout", "cancellation",
    "query_canceled", "lock_unavailable", "connectivity", "pool_exhaustion"]
  const STATES := [
    "", "23505", "23503", "23514", "23P01", "40001", "40P01", "57014", "55P03",
    "57P01", "57P02", "57P03", "53300",
    "08000", "08001", "08003", "08004", "08006", "08007", "08P01"]

  /** First match over a fixed list. */
  function Project(value: string, categories: seq<string>): string {
    if categories == [] then UNKNOWN
    else if value == categories[0] then categories[0]
    else Project(value, categories[1..])
  }

  /** The projection keeps a listed value and maps everything else to one fixed category. */
  lemma {:induction false} ProjectKeepsExactlyTheList(value: string, categories: seq<string>)
    ensures Project(value, categories) == if value in categories then value else UNKNOWN
  {
    if categories != [] && value != categories[0] {
      ProjectKeepsExactlyTheList(value, categories[1..]);
    }
  }

  datatype Observation = Observation(operation: string, outcome: string, kind: string, sqlState: string)

  function ObservationFor(operation: string, err: Option<Err>): Observation {
    var info := Classify(err);
    Observation(operation, if err.Some? then "error" else "success", info.kind, info.sqlState)
  }

  function Bounded(o: Observation): Observation {
    Observation(
      Project(o.operation, OPERATIONS), Project(o.outcome, OUTCOMES),
      Project(o.kind, KINDS), Project(o.sqlState, STATES))
  }

  ghost predicate InCategories(o: Observation) {
    && (o.operation in OPERATIONS || o.operation == UNKNOWN)
    && (o.outcome in OUTCOMES || o.outcome == UNKNOWN)
    && o.kind in KINDS
    && (o.sqlState in STATES || o.sqlState == UNKNOWN)
  }

  /** Whatever the observation carried, what is delivered lies in the fixed sets, delivering it
      twice changes nothing, and a listed field is delivered as it was. */
  lemma BoundedIsFiniteAndIdempotent(o: Observation)
    ensures InCategories(Bounded(o))
    ensures Bounded(Bounded(o)) == Bounded(o)
    ensures o.operation in OPERATIONS ==> Bounded(o).operation == o.operation
    ensures o.outcome in OUTCOMES ==> Bounded(o).outcome == o.outcome
    ensures o.kind in KINDS ==> Bounded(o).kind == o.kind
    ensures o.sqlState in STATES ==> Bounded(o).sqlState == o.sqlState
  {
    var b := Bounded(o);
    ProjectKeepsExactlyTheList(o.operation, OPERATIONS);
    ProjectKeepsExactlyTheList(o.outcome, OUTCOMES);
    ProjectKeepsExactlyTheList(o.kind, KINDS);
    ProjectKeepsExactlyTheList(o.sqlState, STATES);
    ProjectKeepsExactlyTheList(b.operation, OPERATIONS);
    ProjectKeepsExactlyTheList(b.outcome, OUTCOMES);
    ProjectKeepsExactlyTheList(b.kind, KINDS);
    ProjectKeepsExactlyTheList(b.sqlState, STATES);
    assert KINDS[1] == UNKNOWN;
  }

  /** Every kind classification can produce is listed, so telemetry never hides it. */
  lemma ClassifiedKindsAreFixedPoints(err: Option<Err>)
    ensures Classify(err).kind in KINDS
    ensures Bounded(ObservationFor("transaction", err)).kind == Classify(err).kind
  {
    assert KINDS[0] == NONE && KINDS[1] == UNKNOWN && KINDS[2] == UNIQUE_VIOLATION
        && KINDS[3] == FOREIGN_KEY_VIOLATION && KINDS[4] == CHECK_VIOLATION && KINDS[5] == EXCLUSION_VIOLATION
        && KINDS[6] == SERIALIZATION_FAILURE && KINDS[7] == DEADLOCK && KINDS[8] == TIMEOUT
        && KINDS[9] == CANCELLATION && KINDS[10] == QUERY_CANCELED && KINDS[11] == LOCK_UNAVAILABLE
        && KINDS[12] == CONNECTIVITY && KINDS[13] == POOL_EXHAUSTION;
    ProjectKeepsExactlyTheList(Classify(err).kind, KINDS);
  }

  /** What an observation says about an error: its kind, and its state if there is one and telemetry
      retains it. Without an error it says nothing. */
  ghost predicate CarriesClassification(o: Observation, err: Option<Err>) {
    if err.None? then o.kind == "" && o.sqlState == ""
    else
      && o.kind == Classify(err).kind != ""
      && o.sqlState == match SQLState(err)
                       case None => ""
                       case Some(code) => if code in STATES then code else "unknown"
  }

  lemma ClassifiedState(err: Option<Err>)
    ensures Classify(err).sqlState == match SQLState(err) case None => "" case Some(code) => code
    ensures err.None? ==> Classify(err).kind == ""
    ensures err.Some? ==> Classify(err).kind != ""
  {
    hide KindForSQLState;
    if err.Some? && FindPg(err.value).Some? { KindForSQLStateMatches(FindPg(err.value).value.code); }
  }

  lemma ObservedClassification(operation: string, err: Option<Err>)
    ensures CarriesClassification(Bounded(ObservationFor(operation, err)), err)
  {
    assert "" in STATES && UNKNOWN == "unknown" by { assert STATES[0] == ""; }
    hide Project, Classify, SQLState, KINDS, STATES;
    ClassifiedKindsAreFixedPoints(err);
    ProjectKeepsExactlyTheList(Classify(err).kind, KINDS);
    ProjectKeepsExactlyTheList(Classify(err).sqlState, STATES);
    ClassifiedState(err);
  }

  /** A state has a policy kind exactly when it is a listed non-empty state or an unlisted member
      of the connection class 08; in particular no retained state is of unknown kind. */
  lemma StateHasKindIff(code: string)
    ensures KindForSQLState(code) != UNKNOWN <==>
            (code in STATES && code != "") || ("08" <= code && code !in STATES)
  {
  }

  /** A state the projection retains, other than the empty one, is never of unknown kind. */
  lemma RetainedStatesHaveKinds(code: string)
    requires Project(code, STATES) == code && code != "" && code != UNKNOWN
    ensures KindForSQLState(code) != UNKNOWN
  {
    ProjectKeepsExactlyTheList(code, STATES);
    StateHasKindIff(code);
  }
}
