# go-portless: model and proofs

go-portless routes dials by name: a registry maps names to backends, starts and stops them, and keeps
retrying a dial until the backend is ready. This project models the concurrent kernel of that library
in Dafny and proves what it keeps in every run.

* **Registry** (`RouteTable`, `Registry`, `RegistryRuns`, `RegistrySafety`, `RegistryLedger`,
  `RegistryTheorems`, `RegistryLiveness`, `RegistryTraces`, `RegistryAnswers`, `RegistryRefinement`,
  `RouteNames`). Add is two-phase: reserve a nil entry, run Start unlocked, publish or abort.
  `RouteTable` says what each critical section does to the map, class `Registry.Registry` executes the
  sections on mutable fields, and `RegistryRuns` interleaves any number of Add, AddReady, Remove and
  Close calls, one section or unlocked call per step, with the history of publications, removals, Stop
  calls and events. The other modules prove the invariant, the theorems, that calls come to an end, the
  refinement of an atomic registry, and concrete runs that show what is not promised.
* **Readiness loop** (`Backoff`, `Errors`, `DialLoop`, `DialBounds`, `DialAnswers`). Backoff delays in
  wrapping int64 arithmetic, classification of whole error trees, and the retry loop against an
  arbitrary environment (outcome and duration of every attempt, jitter, the caller's context, Close,
  ties of the select).
* **Connection pool** (`Pool`, `PoolRuns`, `PoolSafety`, `PoolAnswers`, `PoolLoop`, `RouteRemoval`,
  `RemovalTraces`). The one-slot cache of `k8s/portforward.go`: alone; under a readiness loop whose
  attempts are calls of one timed run of the pool; and beside the registry, which alone calls its Stop.
* **Local bridges and relays** (`BridgeSet`, `BridgeRuns`, `BridgeSafety`, `BridgeAnswers`, `Relay`,
  `RelaySafety`). The listener slice with its closing latch, in place on an array; the goroutines around
  it; and the two byte copiers of the bridge and of CONNECT.
* **Values** (`HostPort`, `Numbers`, `ParseTcp`, `Rewrite`, `Chain`, `Mem`). Host and port strings,
  address parsing, host rewriting over a registry state, middleware composition with the port map, and
  the in-memory listener.

Each state machine has the same shape: `Enabled(s, a)`, `Do(s, a)`, `Runs(s, acts)`, `After(s, acts)`;
a theorem about all runs quantifies over `acts`, and `Reachable(s)` means some run from `INIT` ends in
`s`. Environment choices (answers of Start, Ready, resolve, dial, alive, Accept; who moves next) are
part of the action. The `Answers` modules say what each call answers and what it changes, branch by
branch, from an arbitrary state.

## Where code and documentation differ, or a promise needs a condition

The model follows the code.

* `internal/backoff/backoff.go:10-11` speaks of up to 25% jitter. Rounding makes the jittered delay r of
  a base d satisfy `3d <= 4r <= 5d + 2`; the quarter is kept by every draw exactly when d mod 4 is 0 or 1
  (`JitterWithinQuarterIff`), and a base of 2 ns can become 3 ns (`HalfJitter`). The delay is positive for
  every draw exactly when `d + d/2 - d/4` fits an int64 (`JitterPositiveIffRoomy`).
* `errors.go:33-36` says the caller's own context errors are never retryable. That holds exactly when no
  marker and no refused or reset connection is in the same tree (`ContextErrorTerminalIff`); the error of
  an ended readiness wait also wraps the last backend error, and `WaitErrorRetryableIff` says for every
  cause when it is retryable: after a context error when the last error was marked, refused or reset, and
  after the ready timeout exactly when the last error was retryable.
* AddReady's cleanup is by name (`registry.go:163`): it unpublishes its own route for ever, but can remove
  a newer one instead (`CleanupIsByName`, `NewerRouteIsLost`).
* `listenlocal.go:107` says closeAll closes every tracked listener. An accept loop in its backoff wait can
  see `done` and untrack its open listener first (`OpenAfterCloseIff`, `LeakPossibleIff`, `LeakIsReachable`).
* Without CloseWrite on one side CONNECT tears the whole tunnel down, as `proxy/connect.go:63-68` says. The
  price is exact: a direction delivers every byte in every run free of network failures if and only if the
  conn the other one writes to supports CloseWrite (`DirectionWholeIff`).
* `http.go:68-72` describes an accepted rewrite as a bare host; a colon-free `[a]` is accepted too
  (`BracketedRewriteAccepted`).
* ParseTCP accepts `a[b` and `[ ]:80`, but not the addresses it builds from them (`BracketIsLost`,
  `SpaceIsLost`); `AcceptedReparsesIff` says for every accepted input whether its address parses back.

## Model

| member | source | states |
|---|---|---|
| Backoff.ShiftNeverWrong | internal/backoff/backoff.go:30-35 | For every int64 0 < min <= max, the wrapped shift is the exact power while that is within max, and is otherwise above max or negative: overflow never looks like a valid delay |
| Backoff.CapIsFinal | internal/backoff/backoff.go:31-35 | Once a power of two exceeds max, every later one does: the cap is never left |
| Backoff.CounterBounded | internal/backoff/backoff.go:30-35 | The attempt counter stays at most 63, so the shift count never grows without bound |
| Backoff.JitterBounds | internal/backoff/backoff.go:36-38 | The jittered delay is at least 1 ns, at least 3/4 of the base and at most 5/4 of it plus rounding |
| Backoff.JitterWithinQuarterIff | internal/backoff/backoff.go:10-38 | Every draw stays within the documented quarter of the base d if and only if d mod 4 is 0 or 1 |
| Backoff.HalfJitter | internal/backoff/backoff.go:36-38 | A base of 2 ns can become 3 ns |
| Backoff.JitterPositiveIffRoomy | internal/backoff/backoff.go:36-38 | The delay is positive for every random draw if and only if base plus largest jitter fits an int64 |
| Backoff.BaseRange | internal/backoff/backoff.go:10-18 | Base delays stay between min and max |
| Backoff.Backoff.constructor | internal/backoff/backoff.go:18-26 | New repairs a non-positive min to 1 ms and a max below min to min |
| Backoff.Backoff.Next | internal/backoff/backoff.go:29-39 | The n-th call since New or Reset jitters exactly min(max, min times 2 to the n) of the unbounded integers, for every n, and the counter stays at most 63 |
| Backoff.Backoff.Reset | internal/backoff/backoff.go:41-42 | The sequence restarts from min |
| Errors.IsIffSomeNode | errors.go:44-60 | errors.Is on a tree holds exactly when some node of the tree carries the target |
| Errors.HasMarkerIffSomeNode | errors.go:37-43 | A tree counts as marked exactly when a Retryable marker sits somewhere in it |
| Errors.RetryableIff | errors.go:33-55 | Over all error trees: retryable iff some node is a marker, refused or reset, or no node is a context error and the first net.Error in depth-first order is a timeout |
| Errors.FirstNetIsFirst | errors.go:51-52 | The net.Error that decides is the first one of the depth-first walk |
| Errors.RetryableMarks | errors.go:23-31 | Retryable marks every error, hides none, and leaves nil alone |
| Errors.MarkerSurvivesWrapping | errors.go:23-43 | A marker inside any wrapping makes the whole tree retryable, context errors included, and hides no target below it |
| Errors.ContextErrorTerminalIff | errors.go:37-55 | A tree holding a context error is terminal if and only if no node of it is a marker, a refused or a reset connection |
| Errors.WaitErrorShowsBoth | registry.go:367-377 | errors.Is on the wait error holds for a target iff it holds for the cause or the last backend error |
| Errors.WaitErrorRetryableIff | registry.go:371-377 | For every cause, the wait error is itself retryable iff the cause or the last backend error is marked, refused or reset, or neither is a context error and the first net.Error, in the cause and then in the last error, is a timeout |
| Errors.WaitErrorOfContext | registry.go:371-377 | When the cause is a context error: iff the cause or the last backend error is marked, refused or reset |
| Errors.WaitErrorOfTimeout | registry.go:310-315 | When the cause is the ready timeout's, which wraps nothing: iff the last backend error is retryable |
| Errors.TimeoutStaysRetryable | registry.go:310-315 | An unmarked network timeout as last error makes the ready timeout's wait error retryable |
| Errors.TargetNotFoundReachesCaller | k8s/portforward.go:160-163 | An absent target stays detectable through the Retryable wrapper and the wait error |
| Errors.StoppedErrorsDiffer | k8s/portforward.go:153-163 | "Backend stopped" is terminal when refused at entry and retryable from inside ensureConn |
| DialLoop.Try | registry.go:328-338 | One attempt: dial, health check, close of an unhealthy connection, marked health error |
| DialLoop.Settle | registry.go:343-363 | After a failed attempt: stops with the verdict of the run, or waits for a positive delay that ends before the context does; announces the retry exactly when it reaches the select |
| DialLoop.Round | registry.go:327-364 | One iteration ends the loop exactly when the attempt is not followed by another, with its verdict, its events and the connections it closed |
| DialLoop.DialRoute | registry.go:306-365 | The loop terminates in every environment at its last attempt; it returns that attempt's connection exactly on success, closes exactly the unhealthy ones, and emits DialStart, the retries, then exactly one of DialSuccess and DialError |
| DialLoop.RetriesNumbered | registry.go:327-352 | The retries of every run are numbered 1, 2, ..., k without gap and carry the error of that attempt |
| DialLoop.EveryConnectionReturnedOrClosed | registry.go:328-342 | Each connection obtained from the route dial is closed once or is the one returned, and nothing else is closed |
| DialLoop.SuccessIff | registry.go:339-342 | A run succeeds exactly when its last attempt failed neither to dial nor its health check |
| DialLoop.ReachedFailed | registry.go:343-363 | Every attempt before a reached one failed, waited, and saw its timer fire |
| DialLoop.DrawPositive | registry.go:325-354 | The loop's own delays are at least 1 ns and 3/4 of the base, so a zero wait never ties with Close |
| DialAnswers.CallersDeadlineWins | registry.go:307-315 | A caller's deadline wins over the route's ready timeout, whatever that is |
| DialAnswers.ReadyTimeoutCaps | registry.go:310-315 | Without a deadline the ready timeout ends the wait and gives its cause |
| DialAnswers.CancellationCounts | registry.go:310-315 | A cancellation ends the wait, with its cause, exactly when it comes first |
| DialAnswers.AttemptSucceedsIff | registry.go:328-342 | An attempt succeeds iff the dial returned a connection and no health check failed on it |
| DialAnswers.AttemptFails | registry.go:328-338 | A dial error is passed on as it is; a failing health check is retried whatever its error, which stays visible |
| DialAnswers.AttemptTimes | registry.go:327-362 | The health check runs only on a connection and takes its own time; the next attempt follows after the drawn delay |
| DialAnswers.SuccessReturns | registry.go:339-342 | A successful attempt ends the loop with success |
| DialAnswers.TerminalErrorReturns | registry.go:347-349 | A terminal error under a live context is returned, terminal still, with the same targets |
| DialAnswers.ContextEndsWait | registry.go:355-358 | A context that ends during the wait, before the timer and before Close, ends it with the wait error of its cause and the last backend error |
| DialAnswers.TimerRetries | registry.go:354-363 | A timer that fires before the context ends and before Close is followed by the next attempt |
| DialAnswers.ClosedVerdictMeansDone | registry.go:359-361 | ErrClosed is answered only if Close had closed done no later than the moment the loop stopped, during a wait that neither timer nor context had ended |
| DialAnswers.WaitEndsWith | registry.go:355-361 | A wait that is not followed by another attempt ends with ErrClosed or the wait error, as the times say |
| DialBounds.WaitsTakeTime | registry.go:354-362 | Before attempt k the run has waited at least the summed least delays, within the context's time |
| DialBounds.AttemptsBounded | registry.go:327-364 | At most 1 + n attempts, n the largest count whose summed least delays fit the remaining time, whatever errors and health failures occur |
| DialBounds.EveryRunEnds | registry.go:327-364 | From every reached attempt some later one is the last |
| DialBounds.DefaultTimeoutBound | registry.go:325-364 | Within the default 60 s at most 164 attempts |
| DialBounds.BoundAttained | registry.go:325-364 | The bound is tight: for every remaining time some environment reaches each attempt that fits |
| DialBounds.EndedContextIsTerminal | registry.go:344-346 | A failure under an ended context is terminal with the wait error, also when the backend marks it Retryable |
| DialBounds.ReadyTimeoutRetryableIff | registry.go:310-349 | A wait ended by the route's own ready timeout returns a retryable error iff the last attempt's error was one |
| DialBounds.NoRetryStartsAfterClose | registry.go:359-361 | No retry starts after Close closed done |
| DialBounds.CloseEndsLoop | registry.go:245-255 | An attempt in progress when done is closed is the last: a retryable failure under a live context gives ErrClosed without another backend call |
| DialBounds.CloseInterruptsWait | registry.go:355-361 | Close during the wait ends the loop with ErrClosed |
| DialBounds.TerminalErrorEndsLoop | registry.go:343-349 | If attempts from some moment on fail terminally, at most one starts then and it ends the loop |
| Registry.Registry.constructor | registry.go:67-71 | A new registry is empty and open |
| Registry.Registry.ReserveName | registry.go:99-111 | Add's first section: refused when closed or taken, otherwise the reservation and nothing else |
| Registry.Registry.AbortReservation | registry.go:126-128 | Add's second section after a failed Start deletes its key |
| Registry.Registry.PublishRoute | registry.go:133-141 | Add's second section after Start: publishes when open, deletes its key when closed |
| Registry.Registry.TakeRoute | registry.go:175-182 | Remove takes out a published route under the lowercased name, and leaves a reservation alone |
| Registry.Registry.Lookup | registry.go:193-199 | Finds exactly the published routes |
| Registry.Registry.Target | registry.go:284-300 | A dial goes to ErrClosed, the route of the lowercased host, the fallback or ErrRouteNotFound, as the table says |
| Registry.Registry.Routes | registry.go:201-212 | Exactly the published routes, one entry per key |
| Registry.Registry.Close | registry.go:245-277 | The first call drains the table, closes done and stops every published route once per key; later calls change nothing |
| Registry.Registry.Collect | registry.go:205-211 | Ranging over the map in any order yields each non-nil entry once |
| RouteNames.NoUpperCase | registry.go:84-84 | The key of a name has its length, no upper-case letter, and is the name up to case |
| RouteNames.ToLowerIff | registry.go:84-84 | Two names have the same key iff they are equal up to the case of ASCII letters |
| RouteNames.AnswersToItsName | registry.go:193-199 | A published route is found, removed, dialed on any port and collided with under every name equal to its own up to case |
| RouteNames.OthersUnaffected | registry.go:284-300 | Publishing, removing or reserving a name changes nothing for names that differ otherwise |
| RegistrySafety.InitOk | registry.go:67-71 | The invariant holds of a new registry |
| RegistrySafety.MoveKeepsTyped | registry.go:77-191 | Every step leaves each call where its kind and history allow it to be |
| RegistrySafety.MoveKeepsTable | registry.go:99-141 | Every step keeps the map explained by the calls: reservations have one owner each, published entries sit under their own key |
| RegistrySafety.MoveKeepsDuty | registry.go:124-141 | Every step keeps each started registration with exactly one holder, and Stop counts in agreement |
| RegistryLedger.MoveKeepsHistory | registry.go:133-142 | Every step keeps published routes live, removed or drained, never two of these |
| RegistryLedger.MoveKeepsEvents | registry.go:142-142 | Every step keeps one RouteAdded per announced publication and one RouteRemoved per announced removal |
| RegistryLedger.MoveKeepsOnce | registry.go:247-276 | Every step keeps closeOnce, closed and done in step: one closer, the table closed from its section on |
| RegistryLedger.RunKeeps | registry.go:77-277 | The whole invariant holds along every interleaving |
| RegistryTheorems.OneHolder | registry.go:124-141 | The Stop duty of a registration that passed Start belongs to exactly one of the table, one call, or nobody; Stop was called, once, only in the last case |
| RegistryTheorems.VisibleIsRunning | registry.go:175-191 | A published route is never a stopped one; no registration is stopped twice, and none whose Start failed |
| RegistryTheorems.CloseStopsEverything | registry.go:245-277 | When all calls have returned, one of them Close, each started Stopper was stopped exactly once |
| RegistryTheorems.LedgerBalances | registry.go:133-142 | Publications = live + removed + drained at every moment; at quiescence the events count the same |
| RegistryTheorems.ReservationIsOwn | registry.go:108-140 | At most one Add per lowercased key is between its sections of an open registry, and the entry its second section touches unchecked is its own reservation |
| RegistryTheorems.NoReservationLeaks | registry.go:108-141 | When all calls have returned no reservation is left |
| RegistryTheorems.ReadersSeePublishedOnly | registry.go:193-199 | Readers see only published routes under their own key whose backend is not stopped, and nothing once closed |
| RegistryTheorems.ClosedForGood | registry.go:249-254 | After Close's section no route is ever visible again, whatever runs |
| RegistryTheorems.PublishedOnce | registry.go:133-141 | Each route object is published at most once |
| RegistryTheorems.ReadyFailureUnpublishes | registry.go:146-171 | When AddReady reports a readiness failure its own route is unpublished for ever, under all interleavings |
| RegistryTheorems.CleanupIsByName | registry.go:161-166 | The cleanup takes whatever is published under the key: its own route iff still visible, otherwise a newer one |
| RegistryTheorems.RejectedAddNeverWired | registry.go:99-122 | An Add rejected for its arguments, for its name, or because the registry was closed before it reserved, never wires the backend's event sink |
| RegistryTheorems.RewriteImpliesFlag | registry.go:93-97 | A visible route with a host rewrite has already set the sticky flag |
| RegistryLiveness.StuckMeansReturned | registry.go:247-277 | No deadlock: in a reachable state where no call can move, all calls have returned |
| RegistryLiveness.MoveLowersRank | registry.go:77-277 | Every move of a call lowers a well-founded rank of the calls in flight, whatever their order |
| RegistryLiveness.AllReturn | registry.go:77-277 | From every reachable state, once no more calls are made, all calls can return |
| RegistryTraces.SoloAdd | registry.go:74-144 | The whole state a valid Add of a free name leaves with nobody in between: its route published, its registration the table's to stop, one RouteAdded, and nothing else changed |
| RegistryTraces.SoloRemove | registry.go:173-191 | The whole state a Remove leaves with nobody in between: the route gone, its backend stopped, one RouteRemoved, and nothing else changed |
| RegistryTraces.SoloReadyFailureFreesName | registry.go:146-171 | With no concurrent callers a failed AddReady leaves the table as it found it |
| RegistryTraces.CleanupCanLoseNewerRoute | registry.go:156-168 | From every state in which AddReady probes its visible route, a Remove and a re-Add can lose the newer route |
| RegistryTraces.NewerRouteIsLost | registry.go:156-168 | Such a run exists from the empty registry |
| RegistryAnswers.SoloAddSucceeds | registry.go:74-171 | The whole state a valid Add of a free name leaves, AddReady with a passing probe included: it succeeds, the route is visible, the table's to stop, announced once, and nothing was removed or stopped |
| RegistryAnswers.InvalidAdd | registry.go:78-92 | Rejected arguments change nothing |
| RegistryAnswers.RefusedAdd | registry.go:99-107 | A closed registry answers ErrClosed, a name published or reserved ErrRouteExists; nothing but the sticky flag changes |
| RegistryAnswers.StartFails | registry.go:124-131 | A failed Start fails the Add and gives the reservation back; the sink stays wired |
| RegistryAnswers.ClosedUnderAdd | registry.go:133-139 | A registry closed while Start ran: ErrClosed, the Add stops its own backend once, nothing is published |
| RegistryAnswers.PassedProbeSucceeds | registry.go:156-170 | In every state a passed probe ends AddReady with success and changes nothing else |
| RegistryAnswers.FailedProbeCleansUp | registry.go:156-163 | In every state a failed probe turns to the cleanup and has changed nothing yet |
| RegistryAnswers.CleanupMissing | registry.go:161-168 | A cleanup that finds nothing published still reports the readiness failure, and changes nothing |
| RegistryAnswers.RemoveMissing | registry.go:183-185 | Remove of a name unknown or only reserved answers not found and changes nothing |
| RegistryAnswers.RemoveSucceeds | registry.go:173-191 | The whole state a Remove of a published name leaves |
| RegistryAnswers.FirstClose | registry.go:247-276 | The whole state a first Close leaves: table empty and closed, done closed, each taken Stopper stopped once more, nothing else changed |
| RegistryAnswers.CloseAgain | registry.go:246-249 | A later Close changes nothing |
| RegistryAnswers.CloseWaits | registry.go:249-249 | A second Close waits while the first is inside |
| RegistryRefinement.ActionRefines | registry.go:99-141 | Every move of every run is a legal step of an atomic registry of live routes and pending names that checks before it writes |
| RegistryRefinement.SecondPhaseRefines | registry.go:126-140 | The reservation alone makes the unchecked write and delete legal |
| RegistryRefinement.AnswersRefine | registry.go:284-300 | Refusals, lookups and dial targets are those of the atomic registry |
| RegistryRefinement.RunRefines | registry.go:77-277 | Every run is a run of the atomic registry: each of its operations is allowed between the views before and after it |
| RegistryRefinement.ViewsAlong | registry.go:77-277 | Those views are what the registry's own map looks like at each point of the run |
| RegistryRefinement.OpsAlong | registry.go:99-141 | Those operations are what the move made at each point stands for |
| Pool.PortForward.constructor | k8s/portforward.go:70-91 | A new backend caches nothing |
| Pool.PortForward.Start | k8s/portforward.go:122-129 | Start opens the shutdown signal once |
| Pool.PortForward.StopNow | k8s/portforward.go:131-147 | The first Stop sets the latch, closes an open signal, empties the cache and closes the cached connection; a second Stop does nothing |
| PoolSafety.ReusedIsOpen | k8s/portforward.go:178-207 | A connection that a dial reuses, at once or after losing a race, is alive, cached, installed, never closed and in no other call's hand |
| PoolAnswers.LiveConnectionIsReused | k8s/portforward.go:178-183 | In every state a dial that finds a live cached connection uses it at once, and changes nothing else |
| PoolAnswers.DialAnswers | k8s/portforward.go:152-226 | What a whole dial answers, the cache it leaves and the connections it closes, for every pool and environment: stopped, reused, not resolved, dialed, the loser closed, a failing stream's connection dropped |
| PoolAnswers.OvertakenDialCloses | k8s/portforward.go:195-200 | A dial overtaken by Stop closes what it dialed and installs nothing |
| PoolAnswers.StopAnswers | k8s/portforward.go:131-147 | Stop, from every state: the first closes the cached connection and empties the cache, a later one changes nothing |
| Pool.PortForward.InstallConn | k8s/portforward.go:195-212 | Refused when stopped, the first live connection stays, a dead one is closed and replaced |
| Pool.PortForward.EnsureConn | k8s/portforward.go:175-217 | A whole ensureConn that nobody interferes with: a live cached connection is returned without dialing; a dialed one is installed in place of a dead one, or closed when the backend was stopped or another connection came first |
| Pool.PortForward.DropConn | k8s/portforward.go:219-226 | Closes and forgets the given connection only if it is the cached one |
| PoolSafety.ActionKeeps | k8s/portforward.go:132-226 | Every step keeps each dialed connection in exactly one place |
| PoolSafety.OnePlace | k8s/portforward.go:177-217 | Each connection ever dialed is exactly one of cached, in one call's hand, or closed exactly once |
| PoolSafety.NeverClosedTwice | k8s/portforward.go:195-226 | No connection is closed twice, and none that was not dialed |
| PoolSafety.StaleMeansClosed | k8s/portforward.go:201-211 | An installed connection that is no longer cached is already closed; calls only use installed ones |
| PoolSafety.DropIsExact | k8s/portforward.go:164-171 | A stale call's drop closes nothing and keeps a newer cached connection |
| PoolSafety.StoppedForGood | k8s/portforward.go:131-147 | After Stop nothing is cached in any continuation, and at quiescence every connection is closed once |
| PoolSafety.QuiescentPoolKeepsOne | k8s/portforward.go:175-217 | When all calls have returned only the cached connection is open |
| PoolSafety.ClosedRefuses | k8s/portforward.go:153-158 | A dial that enters a stopped pool is refused at entry whatever else happens |
| PoolSafety.CallsAreShort | k8s/portforward.go:149-217 | Calls do not loop: each move brings the call nearer to its return |
| PoolSafety.LatchIsKnown | k8s/portforward.go:131-147 | Whoever saw Stop return, or a "stopped" answer of either kind, knows the latch is set |
| PoolLoop.LateCallIsRefused | k8s/portforward.go:153-158 | In every run of the pool, a dial made after Stop answers the terminal "backend stopped" |
| PoolLoop.LateAttemptIsRefused | k8s/portforward.go:153-158 | So does every attempt of a readiness loop whose attempts are calls of that one run |
| PoolLoop.NextCallIsLater | registry.go:354-363 | The loop's calls follow each other: the next starts after the last has returned |
| PoolLoop.StopEndsLoop | registry.go:343-349 | Of a loop's attempts, all calls of one run of the pool, at most one starts after Stop has set the latch, and it ends the loop with the "backend stopped" error |
| PoolLoop.StopEndsLoopByTime | registry.go:343-349 | The same by the clock, for a Stop call that has returned before the attempt starts |
| PoolLoop.RaceEndsLoop | k8s/portforward.go:195-200 | After an attempt that met the retryable "stopped" error inside ensureConn the next attempt is the last |
| PoolLoop.RaceAnswersRetryable | k8s/portforward.go:195-200 | Some run of the pool does give a dial that retryable answer |
| PoolLoop.OneFurtherAttempt | k8s/portforward.go:153-200 | The bound is attained: one run of loop and pool in which the first dial is overtaken by Stop and the loop retries once after it |
| PoolLoop.StopOvertakes | k8s/portforward.go:186-200 | From any point before its installation a dial can be overtaken by a Stop |
| PoolLoop.OutcomesToLoop | k8s/portforward.go:152-172 | A stream is a success; every other outcome but a refusal at entry is retried, its cause visible |
| PoolLoop.TargetNotFoundFromLoop | registry.go:343-361 | A loop over an absent target ends with an error that says so, unless Close ended its wait |
| RouteRemoval.ReachableCoupled | registry.go:175-191 | In every run of a registry and the pool of one of its routes, the pool's latch is set exactly when the registry's ledger counts a Stop call |
| RouteRemoval.VisibleAcceptsDials | registry.go:133-141 | As long as the route is published its pool accepts dials |
| RouteRemoval.CloseClosesConnections | registry.go:265-274 | When Close and every other call have returned, each connection ever dialed for a started route has been closed, once |
| RouteRemoval.RemovalStops | registry.go:186-189 | When the call that took the route out has returned, the route's pool is stopped |
| RouteRemoval.RemovalEndsLoop | registry.go:173-191 | Once that call has returned, at most one attempt of an in-flight readiness loop on the route starts, and it ends the loop terminally |
| RemovalTraces.OneFurtherAttempt | registry.go:173-191 | That one attempt can be made: a run from the empty registry in which Remove returns between the two attempts of a loop |
| BridgeSet.RemoveFirstAt | listenlocal.go:99-104 | Removing the first occurrence joins what stands before and after it |
| BridgeSet.RemoveFirstCount | listenlocal.go:96-105 | Exactly one occurrence goes, everything else stays |
| BridgeSet.Set.Add | listenlocal.go:83-92 | Appends, in place or on a new array, exactly when the set is not closed |
| BridgeSet.Set.Remove | listenlocal.go:94-105 | The in-place shift removes the first occurrence and keeps the order of the others |
| BridgeSet.Set.TakeAll | listenlocal.go:109-112 | Empties and latches the set, and gives up its array for good |
| BridgeSet.Set.CloseAll | listenlocal.go:107-116 | Closes every listener tracked when the lock was taken, in order, although other goroutines add and remove during the walk; the set stays empty |
| BridgeSafety.ActionKeeps | listenlocal.go:46-144 | Every step keeps each open listener somebody's to close, or slipped |
| BridgeSafety.OpenAfterCloseIff | listenlocal.go:107-144 | After Close a bound listener is open iff its ListenLocal call is still to reject it, or its loop slipped away on done and the caller has not closed it |
| BridgeSafety.SteadyNeverSlips | listenlocal.go:124-129 | Without transient Accept errors no listener slips |
| BridgeSafety.CloseClosesEveryBridge | listenlocal.go:42-43 | In runs whose Accept errors all mean "closed", no listener ever bound is open after Close and the calls in flight have returned |
| BridgeSafety.TransientErrorLeaksListener | listenlocal.go:130-139 | In particular a served listener can be left open when Close starts, by one transient error |
| BridgeSafety.LeakPossibleIff | listenlocal.go:60-139 | From a state in which Close has closed done and not yet taken the set, Close can leave a listener open with its loop gone iff it is open and has a loop or a ListenLocal call about to start one, or is still to be bound by a call in flight |
| BridgeSafety.LeakIsReachable | listenlocal.go:130-139 | Such a run exists from the start |
| BridgeAnswers.ListenServes | listenlocal.go:46-70 | ListenLocal in an open registry returns the listener it bound, open, tracked and served |
| BridgeAnswers.ListenRefused | listenlocal.go:47-59 | Nothing is bound for a route that is missing or cannot be bridged, or in a closed registry |
| BridgeAnswers.ListenFails | listenlocal.go:60-63 | A failing net.Listen leaves nothing behind |
| BridgeAnswers.ListenOvertaken | listenlocal.go:64-67 | A call overtaken by closeAll closes the listener it bound and returns none |
| BridgeAnswers.AcceptLoopGoesOn | listenlocal.go:124-142 | A transient Accept error and the backoff after it change nothing, nor does an accepted connection |
| BridgeAnswers.DoneEndsBackoff | listenlocal.go:132-139 | Only a closed done cuts a backoff wait short, and the loop then leaves |
| BridgeAnswers.ClosedListenerEndsLoop | listenlocal.go:122-128 | Once its listener is closed the loop leaves and untracks it |
| BridgeAnswers.CallerCloses | listenlocal.go:42-45 | A caller's Close closes its listener and nothing else |
| BridgeAnswers.CloseCloses | registry.go:249-256 | Close with nobody in between closes exactly the tracked listeners and shuts the set |
| Relay.ActionKeeps | listenlocal.go:203-226 | Every step keeps: delivered plus held bytes are the bytes taken, in order; EOF is passed on exactly where CloseWrite exists; the relay closes a conn early only for a reason the rules give |
| RelaySafety.DeliveredIsPrefix | proxy/connect.go:44-77 | Bytes delivered each way are a prefix of the bytes sent, at every moment, whatever fails; CONNECT's buffered bytes come first |
| RelaySafety.ClientEofKeepsUpstream | listenlocal.go:204-215 | In the bridge the upstream is fully closed only after the response copy ended: with all of it delivered, by a failure of that copy, or because the registry closed. A client EOF alone never does it |
| RelaySafety.ResponseEndsWhole | listenlocal.go:216-225 | Unless the response copy itself failed or the registry closed, the bridge tells the client the response ended only after it got all of it, whatever became of the request |
| RelaySafety.MoveLowersRank | proxy/connect.go:69-77 | Every move of the relay itself that is not a network error brings completion nearer |
| RelaySafety.ConnectCompletes | proxy/connect.go:44-77 | With CloseWrite on both sides, once both peers finished and nothing failed, CONNECT makes at most Rank moves, and then has delivered every byte both ways, passed both EOFs on and returned |
| RelaySafety.BridgeResponseCompletes | listenlocal.go:216-225 | Once the upstream has finished, unless the response copy failed or the registry closed, the bridge makes at most Rank moves, and then the client has all bytes and EOF, whether or not the upstream can half-close |
| RelaySafety.BridgeRequestCompletes | listenlocal.go:204-214 | Where the client conn can half-close: once the client has finished, unless the request copy failed or the registry closed, the upstream gets all bytes, and EOF exactly if it supports CloseWrite |
| RelaySafety.BridgeCloseUnwinds | listenlocal.go:178-193 | Close of the registry closes the client conn and ends the request copy whatever the peers do; once the upstream has finished too, both copies end and the upstream is closed |
| RelaySafety.ClosedConnIsSilent | listenlocal.go:178-193 | A conn the relay closed gives and takes no more bytes in any continuation: after Close the client gets nothing more |
| RelaySafety.PreambleFailureEnds | proxy/connect.go:44-49 | If CONNECT's buffered bytes do not get through, the tunnels never start: only what was written arrived, and nothing of the answer is read |
| RelaySafety.DirectionWholeIff | proxy/connect.go:44-77 | For all conns and buffered bytes: one direction delivers every byte, in every run of CONNECT without network failures whose peers finished and that has no move left, if and only if the conn the other direction writes to supports CloseWrite |
| RelaySafety.ConnectDeliversIff | proxy/connect.go:44-77 | So both directions deliver every byte in every such run if and only if both conns support CloseWrite |
| RelaySafety.NoCloseWriteTruncates | proxy/connect.go:63-77 | Whichever conn cannot half-close, and whatever nonempty bytes the peer behind it sends after the preamble, some run delivers none of them although no read or write of an open conn fails |
| HostPort.SplitIff | middleware.go:40-45 | Exactly which strings split into host and port, and into what |
| HostPort.RoundTripIff | route.go:26-38 | A joined address splits back iff the host has no brackets and the port neither brackets nor colons |
| HostPort.JoinAfterSplit | backend/parse.go:58-75 | Joining what was split gives the address back, except for a needlessly bracketed host |
| Chain.HostOfUnsplit | middleware.go:40-45 | An address that does not split is its own host |
| Numbers.AtoiOfItoa | route.go:30-38 | Atoi inverts Itoa on the whole 64-bit range |
| Numbers.ValueIff | route.go:30-33 | Exactly the nonempty strings of digits have a value |
| Numbers.LeadingZero | route.go:30-33 | Leading zeros of a port do not count |
| Numbers.AtoiOfDigits | route.go:30-33 | A plus sign is allowed, and a number that does not fit 64 bits is refused |
| ParseTcp.RoundTrip | backend/parse.go:30-76 | For every nonempty host without brackets, white space or "://" and every valid port, the joined address dials exactly itself |
| ParseTcp.PortDefaultsTo80 | backend/parse.go:12-15 | A bare host is dialed on port 80 |
| ParseTcp.BracketedV6DefaultsTo80 | backend/parse.go:58-66 | A bracketed IPv6 literal without a port is dialed on port 80 |
| ParseTcp.PaddingIgnored | backend/parse.go:31-31 | Unicode white space around an address does not matter |
| ParseTcp.SpaceIsWhite | backend/parse.go:31-31 | The characters trimmed are exactly the 25 white space characters of Unicode |
| ParseTcp.BlankRefused | backend/parse.go:31-34 | A blank address is refused as empty |
| ParseTcp.EmptyHostRefused | backend/parse.go:67-71 | A port without a host is refused |
| ParseTcp.BadPortRefused | backend/parse.go:72-74 | A port that lookup does not know is refused |
| ParseTcp.UrlRefused | backend/parse.go:37-54 | Why a URL is refused: unparseable, https, another scheme, userinfo, or more than a host, in this order |
| ParseTcp.BareV6Refused | backend/parse.go:17-17 | An IPv6 literal with a port but no brackets is refused, for every such literal |
| ParseTcp.UrlMeansItsHost | backend/parse.go:18-23 | A URL is accepted only as plain http with nothing but a host, and means what that host means alone |
| ParseTcp.HostText | backend/parse.go:58-66 | The host taken from an address is a piece of it; one with a port has no brackets, one without is given port 80 and has no bracket at its ends |
| ParseTcp.JoinedReparsesIff | backend/parse.go:58-75 | A joined address dials itself iff its host has no brackets and, unless its colons put it in brackets, does not start with white space |
| ParseTcp.AcceptedReparsesIff | backend/parse.go:30-75 | Whatever is accepted, with or without white space, port, brackets or scheme, the address dialed for it is accepted again as itself iff the host taken meets that same condition |
| ParseTcp.BracketIsLost | backend/parse.go:59-66 | "a[b" is accepted and dials "a[b:80", which does not parse back |
| ParseTcp.SpaceIsLost | backend/parse.go:31-75 | "[ ]:80", and every bracketed colon-free host with leading white space, is accepted, and the address dialed for it does not parse back |
| ParseTcp.BracketsDoNotReparse | backend/parse.go:59-66 | No address built from a host with a bracket in it parses back |
| Rewrite.AllDigits | http.go:59-66 | True exactly for nonempty strings of digits |
| Rewrite.ValidateHostRewrite | http.go:73-86 | Accepts exactly the empty rewrite and hosts without forbidden bytes whose colons make an IP literal |
| Rewrite.RefusedCharacters | http.go:77-81 | An accepted rewrite has no blank, control or structural character |
| Rewrite.HostnamesAccepted | http.go:77-85 | A string of letters, digits, dots, hyphens, underscores and colons is accepted iff it is an IP literal where it has a colon |
| Rewrite.NumbersAreDecimal | http.go:59-66 | The strings that pass for a port are exactly the decimal numbers |
| Rewrite.FastPathRefines | http.go:31-57 | In every reachable registry state the sticky flag changes no answer; with other calls between the flag and the lookup the answer is one the plain lookup gives at one of the two moments |
| Rewrite.RewriteAnswers | http.go:35-56 | What goes out for every URL host: the declared rewrite for a host with no or an empty port, its join with a decimal port, and nothing for any other port text or an unknown or undeclared name |
| Rewrite.RewriteGoesOutIff | http.go:35-56 | In a reachable registry a rewrite goes out iff a visible route of that name, up to case, was added with one, and the port is absent or decimal |
| Rewrite.OnlyDigitsAreJoined | http.go:47-56 | Whatever the URL host, what goes out is the declared rewrite of the visible route it names, alone or with the URL's own decimal port |
| Rewrite.RewriteSplitsBackIff | http.go:47-55 | For a URL host name:digits the result splits back into exactly the rewrite and the digits iff the rewrite has no brackets |
| Rewrite.BracketedRewriteAccepted | http.go:73-86 | A bracketed colon-free name is accepted, and the outgoing host names it without brackets |
| Chain.ChainLoop | middleware.go:32-38 | The loop computes the right-to-left composition |
| Chain.ComposeConcat | route.go:41-44 | A concatenated chain is the second chain inside the first |
| Chain.BuildDial | route.go:20-45 | The compiled dial is registry middleware around route middleware around the port map around the backend |
| Chain.PortMapMaps | route.go:23-40 | On a bracket-free host the backend is asked for exactly the mapped port, or the dial is refused |
| Chain.PortMapRefuses | route.go:26-33 | With a port map, an address without a port or with one that is no number never reaches the backend |
| Chain.NoPortMapPassesOn | route.go:22-23 | Without one the backend is asked for the address as requested |
| Chain.ObserversSee | middleware.go:11-16 | A chain of observing layers sees the address outermost first |
| Chain.LayersSeeRequestedPort | middleware.go:15-16 | Registry middleware sees a dial before route middleware, both see the requested port, the backend sees the mapped one |
| Chain.ChainKeepsAddress | middleware.go:32-38 | Address-preserving middleware answers by what the base answers at that address |
| Chain.BridgeDialPort | route.go:89-105 | 0 without a port map, the one key of a single-entry map, an error otherwise |
| Chain.ReadyPort | route.go:111-118 | Some mapped port, or 0 without a port map |
| Chain.ProbeReachesBackend | route.go:110-124 | Through middleware that leaves the address unchanged, Ready and bridge dials of a bracket-free route never fail on the port map: they are answered as if the backend were asked for the mapped address |
| Chain.WrappersNest | middleware.go:18-30 | Connection wrappers touch only successes, are told the route's name, and the registry's is applied last |
| Mem.ActionKeepsMatch | backend/mem.go:29-52 | Every step keeps the history of rendezvous equal to the successful dials and accepts |
| Mem.RendezvousIsBijection | backend/mem.go:29-52 | Successful dials and successful accepts are in bijection |
| Mem.OtherPipesClosed | backend/mem.go:34-41 | Every other pipe is closed at both ends, once each, across Close and cancellation; "closed" is reported only by a closed listener |
| Mem.Meet | backend/mem.go:29-48 | A dial and an accept that meet return the two ends of the dial's pipe and close nothing |
| Mem.GivenUp | backend/mem.go:34-41 | A dial given up closes both ends and says whether Close or its context ended it |
| Mem.ClosedAccept | backend/mem.go:45-51 | A waiting accept is told of Close, and of nothing else |
| Mem.ClosesTwice | backend/mem.go:54-57 | Close is idempotent and touches no call |
| Mem.RendezvousAfterClose | backend/mem.go:45-57 | The rules of select alone permit a dial and an accept to be matched after Close, so nothing here rests on Close being a barrier |

## Left out

- Sockets, SPDY streams, the Kubernetes API, TLS and real clocks: environment steps; `k8s/resolve.go` is reduced to success or failure.
- Interleaving on shared heap objects: the classes execute one critical section at a time and are proved against the section functions; the state machines interleave those functions on values.
- Time: integer nanoseconds, event handlers and logging take none, an event at the very instant an attempt returns counts as having happened, and the select returns an earliest ready event.
- Randomness: `rand.Int64N(n)` is an arbitrary seed modulo n.
- Backend Start and Stop: one step each; Stop's own error and the contexts of both are not modelled.
- RouteTable.ToLower: ASCII letters only; Unicode case mapping is not part of this model.
- `url.Parse`, `net.LookupPort` and `net.ParseIP` are arbitrary parameters, of which `AcceptedReparsesIff` assumes that a parsed URL's host has no slash and an accepted port no white space, slash, bracket or colon; SplitHostPort, JoinHostPort, Itoa and Atoi are concrete.
- The network and context arguments of a DialFunc: passed through unchanged by everything modelled in `Chain`.
- Registry.Registry.Close: bridges and the shared transport it also closes are not fields of the class, and the Stop errors it joins are not modelled; `BridgeRuns` models Close against the bridges.
- Order of RouteAdded and RouteRemoved for one route: not promised, since Add emits after unlocking; counts at quiescence are proved.
- Ending every bridge goroutine on Close: not promised, since an idle upstream that ignores EOF keeps the response copy blocked.
- BridgeRuns' accepted connections: an accept that succeeds changes nothing in the listener model; `Relay` models one connection from its dial on.
- The "200 Connection Established" line: not part of CONNECT's byte streams.
- RouteRemoval: dials of the backend may come at any time, as middleware and health checks can make them; that they reach it through a visible route is not assumed.
- Pool events (BackendRecovered, BackendUnhealthy) are steps without effect.
- TransportPool and DefaultClient, WrapRoundTripper, the control server, the CLI, the certificate authority and `k8s/stream.go` deadlines: plumbing, or outside the kernel.
