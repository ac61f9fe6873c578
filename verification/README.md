# Verified model of go-postgres

A Dafny model of the policy layer that go-postgres puts over pgx, with proofs of what its
transaction runners, shutdown protocols, configuration admission and error classification keep.

| file | models |
|---|---|
| `Errors.dfy` | error graphs, `errors.Is` / `As` / `Join`, `Classify`, `SQLState` |
| `Telemetry.dfy` | the categorical projection and the observation values |
| `Scopes.dfy` | transaction and savepoint scopes as trees: how they end, which writes survive, native calls, observations |
| `Transactions.dfy` | the runners executed step by step on a stack of write frames |
| `Isolation.dfy` | `RunIsolated` |
| `Counting.dfy` | counting the actions of a run |
| `PoolProtocol.dfy` | `Pool.Shutdown`, `Acquire`, `Ping` as a transition system |
| `Acquisition.dfy` | the error graphs `Acquire` and `Ping` return, the bounded context, the saturation test |
| `AdapterProtocol.dfy` | the service adapter as a transition system |
| `ServiceOverPool.dfy` | the adapter with `connect` as constructor, over the pool protocol |
| `DatabaseFixture.dfy` | `Database.Shutdown` as a transition system, `startDatabase` and its cleanup |
| `TlsOverride.dfy` | deep copies of TLS configurations on the heap |
| `NativeConfig.dfy` | limits, shape admission with its running budget, policy admission |
| `Preparation.dfy` | `PrepareConfig` and `connect` around untrusted collaborators |

## How it is modelled

**Transactions.** A callback is a tree of writes, nested scopes and an ending (nil, error, panic,
goroutine exit); for each nested scope it says whether an error is swallowed, propagated or wrapped
and whether a panic is recovered. What begin, commit, rollback and the observer do at each scope is an
arbitrary script. `Transactions.Session` runs the code's control flow, with `needsRollback`,
`completed` and the edited named result, against functions that give the meaning of a scope without
state; the lemmas of `Scopes` are about those functions. Assumptions about pgx: a rollback discards its
frame and everything nested in it, whatever it reports; a commit that returns ends its transaction and
may or may not have been applied if it returned an error; a commit that does not return leaves the
transaction open unless it had been applied. Writes of an unapplied commit are gone.

**Protocols.** One action is one atomic step of one goroutine or of the clock, and a run is a list of
actions, so a lemma over all action lists covers all interleavings of any number of callers. Where a
`select` has two ready branches both actions are enabled. Critical sections under a mutex are single
actions. At-most-once claims are counts of actions in the run. Closing a channel publishes what was
written before it, as the section "Channel communication" of The Go Memory Model says.

**Configuration.** Native configurations, fallbacks and TLS configurations are heap objects, slices are
arrays, pointers may be null. The resolver transfers any fresh configuration, including null pointers
and repeated fallbacks. The Configure hook may rewrite the pool and connection settings, every fallback
and the whole storage of the TLS copies the override installed: its contract says nothing about the
result, except that a hook that writes nothing leaves everything alone. What the collaborators report is an arbitrary parameter. That a collaborator is called only on an admitted configuration is its precondition,
discharged at the call. Strings are byte sequences. The charged budget is a 64-bit machine integer, pool
statistics are 32-bit and wrap around. SQLSTATE values are those of Appendix A of the PostgreSQL
documentation.

## Where the code says less than its documentation

- A nil callback is refused before the deferred function is registered (transaction.go:73, 123), so
  such a runner call is not observed. One observation per call is proved for calls with a callback.
- Joining a rollback error can change the classification of a callback error that holds no native
  error: its kind, its state or only its retry advice. `Errors.JoinKeepsClassificationIff` says exactly
  when all three stay; `Errors.RollbackErrorCanTakeOver` is an instance in which a rollback error takes
  over the kind, `Errors.RollbackAdviceCanTakeOver` one in which the kind stays and the error becomes
  retryable.
- The 32-bit sum in the saturation test wraps around for counts no admitted pool can have.
  `Acquisition.SaturationIsExactIff` says exactly when the test is right.

## Model

| member | source | states |
|---|---|---|
| Errors.FindIsFirst | errors.go:92-94 | the depth-first search behind `errors.As` and `errors.Is` finds the first match of the pre-order listing, for every finite graph |
| Errors.ClassifyPrecedence | errors.go:87-142 | the first native error alone decides kind, state and retry advice; without one pool exhaustion, cancellation, deadline, network speak in that order, and a network error is retryable iff the first node that gives advice says so; a nil error has the empty record; `SQLState` agrees |
| Errors.KindForSQLStateMatches | errors.go:195-222 | the kind of every SQLSTATE, row by row and in both directions, by name |
| Errors.WrapKeepsClassification | transaction.go:167 | wrapping with `%w` keeps kind, state, retry advice, the native error and everything `errors.Is` finds |
| Errors.ClassifyJoined | errors.go:87-132 | classification of every join: a native error of the first, then of the second, else the stronger category, a connectivity error with the first retry advice either gives |
| Errors.JoinKeepsClassificationIff | transaction.go:180 | exactly when a joined rollback error leaves kind, state and retry advice of the callback error alone |
| Errors.RollbackErrorCanTakeOver | transaction.go:180 | an instance in which the kind changes |
| Errors.RollbackAdviceCanTakeOver | errors.go:125-129 | an instance in which only the retry advice changes, from no to yes |
| Telemetry.ProjectKeepsExactlyTheList | internal/telemetry/categories.go:35-45 | projection keeps listed values and maps all others to one category |
| Telemetry.BoundedIsFiniteAndIdempotent | observe.go:93-100 | every delivered field is in its fixed set, delivery is idempotent, listed fields pass unchanged |
| Telemetry.ClassifiedKindsAreFixedPoints | internal/telemetry/categories.go:17-23 | no kind that classification produces is hidden by telemetry |
| Telemetry.StateHasKindIff | errors.go:195-222 | a state has a policy kind iff it is a listed non-empty state or an unlisted member of class 08 |
| Telemetry.RetainedStatesHaveKinds | internal/telemetry/categories.go:27-33 | a state telemetry retains is never of unknown kind |
| Telemetry.ObservedClassification | observe.go:93-115 | an error is delivered with its kind and with its state if telemetry retains that, success with neither |
| Scopes.NestedAtomicity | transaction.go:158-202 | the writes handed on are exactly the executed ones, in order, whose every enclosing scope's callback returned nil and whose commit took effect |
| Scopes.DurableIffEveryRunnerReturnedNil | transaction.go:51-61 | with commits that apply iff they report success, a write survives iff every runner call around it returned nil |
| Scopes.ScopeCarriesCause | transaction.go:171-202 | the outcome leaving a runner is the event raised innermost and not silenced, at any depth, a commit panic included |
| Scopes.ClassificationSurvivesNesting | transaction.go:58-61 | an innermost native error still decides kind, state and retry advice of what the outermost runner returns, and every sentinel it matched is still found |
| Scopes.FindsCauseAndRollbacks | transaction.go:171-182 | at any depth a search of the returned graph finds exactly what it finds first among the cause and the errors of the rollbacks that failed on its way out, innermost first |
| Scopes.AllErrorsInspectable | transaction.go:58-59 | the cause and each of those rollback errors stay inspectable, for `errors.Is` and `errors.As` |
| Scopes.ClassifiedAsFlatJoin | errors.go:87-132 | what the outermost runner returns is classified as the flat join of the cause and those rollback errors |
| Scopes.CleanupCannotInterfere | transaction.go:204-219 | rollback and observer behaviour at every level changes neither the cause, nor how the runner ends, nor which writes survive |
| Scopes.WellBracketed | transaction.go:165-201 | every run keeps the finalisation discipline and leaves the stack of open transactions as it found it |
| Scopes.OwnCallsExactly | transaction.go:165-201 | begin, the body once, then commit alone, rollback alone, or a commit that did not return and one rollback; a scope that is not entered makes no call but a failed begin |
| Scopes.OneReportPerCallInPostOrder | transaction.go:79-94 | one observation per runner call with callback and observer, in post-order, about its own ending |
| Scopes.ReportMatchesEnding | transaction.go:129-144 | the delivered outcome tells the four endings apart, an error comes with its kind and retained state, no other ending with either, and all fields lie in the fixed sets |
| Transactions.Session.DeferredRollback | transaction.go:171-186 | when and how often the deferred function rolls back, and what it makes of the named result |
| Transactions.Session.CallAndCommit | transaction.go:188-201 | what the deferred function finds: whether rollback is armed, what was raised, which frame is left |
| Transactions.Session.RunInTransaction | transaction.go:158-202 | ends, delivers writes, calls and observes as the scope means |
| Transactions.Session.RunTransaction | transaction.go:67-108 | durable writes grow by exactly the survivors and nothing stays open |
| Transactions.Session.RunSavepoint | transaction.go:117-156 | survivors reach the parent's frame, nothing becomes durable |
| Transactions.Session.RollbackAfterCallbackError | transaction.go:204-212 | a rollback panic adds no error |
| Transactions.Session.RollbackAfterTerminalCallback | transaction.go:214-219 | one rollback, nothing escapes |
| Transactions.Session.RollbackTransaction | transaction.go:221-230 | one rollback, its error wrapped |
| Transactions.Session.SafeObserve | observe.go:82-91 | one bounded delivery, none without an observer, and an observer panic does not get out |
| Transactions.Session.DeferredReport | transaction.go:79-94 | the ending reported is the ending passed on, the panic raised again being the original one whatever the observer does |
| Transactions.RunHistory | integration_test.go:600-720 | any sequence of transactions persists the concatenation of their survivors |
| Transactions.IntegrationEvidence | integration_test.go:633-720 | the integration history persists [1, 5, 8] |
| Isolation.RunIsolated | postgrestest/transaction.go:43-81 | neither durable nor pending writes change, whatever callback, savepoints and rollback do |
| Isolation.DeferredIsolation | postgrestest/transaction.go:58-75 | exactly one rollback; what each ending of the callback becomes |
| Isolation.OneRollbackNoCommit | postgrestest/transaction.go:48-81 | on its own transaction one rollback and no commit; a run that is not entered makes no call but a failed begin |
| Isolation.CleanupSpeaksOnlyAfterSuccess | postgrestest/transaction.go:31-81 | for every scope: success iff the callback was run, raised nothing and the rollback succeeded; otherwise a nil callback, begin or callback cause is carried and survives every cleanup failure; a rollback panic gets out only without such a cause |
| PoolProtocol.StepKeepsInv | pool.go:320-354 | every atomic step keeps the protocol invariant and never reopens admission |
| PoolProtocol.ShutdownSafety | pool.go:313-354 | in every run nil only after the channel closed, every bounded return only after cleanup was started, refusal only when closed |
| PoolProtocol.SingleClose | pool.go:327-333 | in every run and prefix: close and signal at most once, signal only after close returned, both before any nil result |
| PoolProtocol.NilContextsChangeNothing | pool.go:321-323 | runs whose Shutdown calls bring no context close nothing |
| PoolProtocol.WaiterCanReturnIff | pool.go:335-353 | in every run a waiting call can return iff the channel is closed or its own time is up: the deadline or cancellation of the context it brought, or the configured timeout since its select |
| PoolProtocol.TimedOutOnlyWhenDue | pool.go:344-353 | in every run a call that timed out had one of those three behind it |
| PoolProtocol.EveryWaitEnds | pool.go:335-353 | once its own deadline has come, it was canceled or the configured timeout has passed, a call that waited has returned or can return, in every continuation |
| PoolProtocol.CleanupCanFinish | pool.go:328-332 | a started cleanup finishes by at most three steps of its own, which change nothing else |
| PoolProtocol.ShutdownCanSucceed | pool.go:320-343 | from every reachable state a call that brought a context can still return nil |
| PoolProtocol.AnswersAreExplained | pool.go:208-255 | in every run a backend answer needs a backend call of that caller, a refusal excludes one, and only a missing context is asked for |
| PoolProtocol.OpenPoolAnswers | pool.go:210-222 | while admission is open a caller is let through to the backend and its answer |
| PoolProtocol.DrainAccount | pool.go:208-222 | after closing, each backend call takes away one caller between check and call and nothing adds one |
| PoolProtocol.DrainBound | pool.go:241-255 | backend calls begun after the first store are at most the callers then between check and call |
| PoolProtocol.LateCallersAreRefused | pool.go:210-218 | a load after the store returns the closed error and never reaches the backend |
| Acquisition.CauseNamesTimeoutIff | pool.go:361-371 | the bounded context names the acquisition timeout iff the configured timeout ended it or the caller's cause brought one along, and that verdict is final |
| Acquisition.Acquire | pool.go:208-236 | which sentinels the returned graph holds, for every backend graph, caller context and timeout; short of exhaustion the classification stays, exhaustion classifies as such absent a native error |
| Acquisition.Ping | pool.go:241-265 | a deadline is marked, and the mark changes neither kind, state nor retry advice |
| Acquisition.SaturationIsExactIff | pool.go:356-359 | nothing is saturated without a maximum; else the 32-bit test is right iff the sum fits, which admitted maxima guarantee |
| Acquisition.ShutdownGivesUp | pool.go:344-353 | a timed-out Shutdown returns its sentinel and the context error, and classifies as the latter |
| AdapterProtocol.Ownership | adapters/service/service.go:119-133 | over every run a shared resource is never shut down, an owned one at most once, and all stops return one error |
| AdapterProtocol.ShutdownAccount | adapters/service/service.go:166-207 | the Shutdown calls of a run are exactly those its state records |
| AdapterProtocol.StartedMeansValidated | adapters/service/service.go:166-192 | over every run: started means constructed and, if a ping was asked for, that it passed; a failed ping fails the start and has an owned resource shut down exactly once |
| AdapterProtocol.FailedStartInspectable | adapters/service/service.go:177-185 | every search of a failed start's error finds the ping error and then the cleanup error; a constructor error is passed on |
| AdapterProtocol.StopReturnsShutdownError | adapters/service/service.go:194-207 | a stop after a started adapter met its first stop has shut an owned or transferred resource down and returns that call's error; a shared one is left alone |
| AdapterProtocol.ProbeAnswersWhatItSaw | adapters/service/service.go:156-163 | a probe pings iff it saw the resource active, which it does in every run between start and the first stop's look |
| AdapterProtocol.NeverStuck | adapters/service/service.go:166-207 | whatever constructor, ping and Shutdown answer, start and stop have a next step |
| AdapterProtocol.ProbeDrain | adapters/service/service.go:156-163 | after a stop's snapshot or a failed start only probes that had seen the resource active still ping, once each |
| AdapterProtocol.PingsAfterStopSnapshot | adapters/service/service.go:194-201 | after the snapshot of a stop of a started adapter, in any run, at most the probes already past their own snapshot still ping |
| AdapterProtocol.NoPingsAfterFailedStart | adapters/service/service.go:166-189 | in every run with a failed start no readiness probe pings, before or after it |
| AdapterProtocol.NoProbeWithoutResource | adapters/service/service.go:146-163 | an adapter that never stored a resource pings none |
| ServiceOverPool.StepKeepsInv | adapters/service/service.go:166-207 | every step of adapter, `connect` and pool together keeps the joint invariant |
| ServiceOverPool.SingleCloseEndToEnd | pool.go:129-168 | the backend is closed at most once, and exactly one close is initiated after a failed ping, `connect`'s or the adapter's, or a stop of an active adapter |
| ServiceOverPool.ServiceUpMeansPinged | pool.go:160-165 | the service is up only after every ping that was asked for passed; `connect`'s failed ping is the wrapped error of the failed start |
| ServiceOverPool.RunProjects | adapters/service/service.go:166-207 | every run of the whole is a run of the adapter and a run of the pool |
| ServiceOverPool.StopOfStartedAdapterCloses | adapters/service/service.go:194-207 | in an ordered lifecycle, from any reachable started state, any returned stop has initiated the close, and one that returned nil has it completed |
| DatabaseFixture.SharedTerminationResult | postgrestest/database.go:237-269 | one termination, one write, before the channel closes; every call through the channel returns that value, a panic included |
| DatabaseFixture.WriteBeforeRead | postgrestest/database.go:242-258 | the write precedes every read and none follows one |
| DatabaseFixture.EveryAnswerIsDue | postgrestest/database.go:237-269 | in every run: through the channel the result of the native call, its panic as the fixed error; through the context its own cause; refused only without a context; a wait can end iff the channel is closed or its own context is done |
| DatabaseFixture.WorkerNeverStuck | postgrestest/database.go:245-252 | however the native call ends, the termination goroutine goes on to close the channel |
| DatabaseFixture.Container.Shutdown | postgrestest/database.go:237-259 | sequential calls start one termination; its result is stored once and every later call returns it unless it gave up waiting |
| DatabaseFixture.Container.TerminateRecovered | postgrestest/database.go:261-269 | one termination, a panic turned into a fixed error |
| DatabaseFixture.TerminateAfterConnectionStringError | postgrestest/database.go:161-169 | one direct termination, its panic adds no error |
| DatabaseFixture.SetupDatabase | postgrestest/database.go:171-204 | one termination for every failed setup, none for a successful one |
| DatabaseFixture.StartDatabase | postgrestest/database.go:129-159 | a live fixture with no termination started, or exactly one for a started container |
| DatabaseFixture.StartErrorsInspectable | postgrestest/database.go:129-215 | what every search finds in the error of a failed start: the starter's alone, the connection error and then the termination's, the setup error and then what shutting down reported; live iff nothing went wrong |
| DatabaseFixture.OriginalCauseSurvives | postgrestest/database.go:131-215 | starter, connection and setup causes, panics and exits survive every cleanup |
| TlsOverride.CloneByteSlices | config.go:332-339 | equal contents in fresh storage, inner slices included |
| TlsOverride.CloneCertificates | config.go:314-327 | every certificate copied in depth, parsed leaves dropped |
| TlsOverride.CloneTLSConfig | config.go:299-330 | equal contents in fresh storage |
| TlsOverride.TlsConfigForHost | config.go:290-297 | the caller's server name, or else the host |
| TlsOverride.LaterWritesDoNotReachCopy | config.go:42-45 | no later write to the caller's storage changes the copy |
| TlsOverride.OverrideFallbacks | config.go:284-286 | every fallback, repeated pointers included, gets fresh storage shared with no other host |
| Preparation.ApplyTLSConfig | config.go:273-288 | disable clears every host, require overrides every host, neither touches anything else |
| NativeConfig.Admitted | config_limits.go:60-83 | refuses iff some limit is out of range; admitted limits are the given ones or the documented defaults, within ceilings |
| NativeConfig.ParamBytesAnyOrder | config_limits.go:121-125 | the charge of a map does not depend on the order of traversal |
| NativeConfig.Budget.Charge | config_limits.go:103-109 | charges iff the value fits; the remainder stays in range |
| NativeConfig.AdmitNativeShape | config_limits.go:87-127 | accepts iff counts and capacities are in range, no pointer is nil and the total length is within the budget |
| NativeConfig.AdmitNativePolicy | config_limits.go:129-160 | accepts iff within the whole policy, and otherwise names the first field that is not |
| Preparation.Precheck | config.go:164-205 | passes iff the typed input meets every check made before a collaborator is called |
| Preparation.FirstNegative | config.go:381-407 | the first negative field, if any |
| Preparation.ApplyTyped | config.go:221-236 | typed settings, body limit and TLS are in place and the admitted shape is kept |
| Preparation.Collaborators.Configure | config.go:245-246 | what the hook receives: an admitted shape with every typed setting and the TLS override of primary and fallbacks in place |
| Preparation.Customize | config.go:221-257 | typed minima above the maximum are refused first; else a configured hook runs once on the typed settings and TLS override, and its own error, wrapped, or the expired context ends preparation, exactly then; without a hook, or with one that writes nothing, settings and override are the result |
| Preparation.CustomizeAndReadmit | config.go:221-266 | the same up to the second admission, every error with its ground |
| Preparation.ResolveAndAdmit | config.go:208-220 | one resolver call; each refusal iff its ground, and only the transferred configuration goes on |
| Preparation.FinalAdmission | config.go:258-266 | succeeds iff the configuration is within shape and policy and the context is not done |
| Preparation.PrepareConfig | config.go:157-271 | success means the transferred configuration within shape and policy at once, whatever resolver and hook did, and typed settings and TLS override in place unless a hook rewrote them; every error has its ground; resolver and hook are called at most once and only behind their gates; nothing nil is dereferenced, the caller's TLS configuration is not written |
| Preparation.Connect | pool.go:129-168 | factory exactly once on an admitted configuration with a live context, else not at all; each wrapper timeout from its own field; after the factory call its error, else that of a requested startup ping decides exactly; one close iff the startup ping failed; every error has its ground |

## Left out

- pgx, pgxpool, SQL execution, locking and isolation levels: the native transaction and backend are environments with the assumptions above.
- Reactions of a callback that depend on which error a nested scope returned: a callback reacts to the fact of an error or panic.
- Goroutine exit raised inside rollback, termination or an observer, and panics of backend close, connection string, resolver or hook: outside the contract of the code.
- Stop before start and repeated start of the adapter as lifecycles of their own: excluded by the adapter's contract; safety is proved for stops at any time.
- `composeSessionInit`: which connection hook runs when a connection is established later.
- The copied detail fields of `ErrorInfo`: they are read off the native error the record carries.
- Observations of `Acquire`, `Ping` and `Shutdown` and the statistics in them: they repeat the projection proved for the runners.
- `Readiness` and `Liveness` of the pool: one line over `Ping` and the admission flag.
- `resolve.go`, DSN parsing, `slog.go`, the OpenTelemetry observer, examples and container start-up: foreign code and thin wrappers.
- Error texts other than what graphs and kinds say, and real time: the clock is abstract.
- Transactions.Session.RunTransaction: a connection with nothing else open; a callback that opens a second connection is two sessions.
- Preparation.Connect: the ping timeout of the wrapper is bounded only while the hook leaves the native ping timeout alone, because the code takes it from the typed input.
- Preparation.PrepareConfig: contents of the TLS configurations are stated when no Configure hook rewrote anything; such a hook may replace them.
