# Verified model of the Kubernetes plugin's concurrent and parsing cores

A Dafny 4.11 model of the parts of the formae Kubernetes plugin where several
callbacks, workers and clocks meet, and of the tree and text transforms whose
correctness is easy to get wrong. `dafny verify dfyconfig.toml` checks all of it.

## What is modelled

**The Helm flight registry and the release state machine it guards.** `Flights`
writes every critical section under `flightMu` as a function from the registry
before to the registry after, and proves the imperative `FlightRegistry` against
it. `Releases` holds the decisions about a release record: what a submit plans and
what a Status poll answers. `FlightSystem` puts them together as a transition
system: Create, Update, Delete and Status callbacks in progress, Helm workers,
retention timers, drains, other tools that write records, and a crash that empties
the registry. A step is one critical section or one read or write of a record; a
run is any interleaving of steps on any number of releases. `FlightInvariant` is
the inductive invariant and its preservation; `FlightSafety` is what follows for
every reachable state and every run. `FlightDecisions` states, in terms of records
and flights alone, what the decisions come to on the steps: who rejoins what, what a
submit starts, what a poll says; `FlightHistory` is what they amount to over runs:
whom a callback may have joined, what a reported success rests on. `ReleaseSafety` covers runs without another
writer: revisions, recovery after a crash, re-driving. `RecordRights` says whose
records are rewritten and installed over, and `Reacquisition` follows a request id
back to the flight it was written from.

**The two generation-fenced credential caches.** `TokenCache` is
`CachedTokenSource` with its refresh clock, `AuthBridge` the mint-by-proxy queue,
and `Credentials` their composition with the transport that retries once after a
401: a bridge serviced through any number of sources, in any interleaving of
callers, leaders, waiters, invalidations, services and requests, with a stamp that
orders mints and invalidations. `SecondSource` is what other sources do to the
bridge's fence.

**Discovery collapse.** `Inventory` is the manifest index, the filter over it and
its cache; `Owners` is the memoised, depth-bounded owner walk, compared with the
unbounded chain and with the walk without a memo.

**JSON transforms.** `Json` is the document type. `Normalize` undoes dot-expansion
of string maps; iteration order is left open, so its specifications are relations
that hold for every order. `LiveState` prunes server defaults.

**Identifiers.** `Identifiers` has request ids, native ids and custom-resource ids,
over `Text`, the string operations they use. `Base` holds the stock datatypes.

Time is an integer count of nanoseconds that never goes back. Everything that the
outside world decides is a parameter of a step or of a function: UUIDs (drawn
fresh), readiness and manifest completeness, minted tokens, lookups, HTTP answers.

## What the proofs found

- The submit path plans with no flight (`pkg/resources/helm/release.go:711-712`),
  so its rejoin action cannot be planned; the dispatch branch for it is dead
  (`RecordRights.SubmitKeepsToItsOwn`).
- The dispatch has no branch for the blocked action
  (`pkg/resources/helm/release.go:732-800`). A stalled record of another tool
  therefore goes on to chart selection and starts an install worker, where the
  action's comment says it is reported. `RecordRights.InstallsOverStalled` says
  exactly when: once the record has been pending for more than twice its timeout.
- The comment of `recoverAbandoned` (`pkg/resources/helm/release.go:1722-1725`)
  claims its callers check ownership and a timeout. A submit does check ownership,
  and no clock (`RecordRights.SubmitKeepsToItsOwn`). A Status checks neither: it
  rewrites exactly when the record it read was pending at the polled revision and it
  goes by no flight (`RecordRights.StatusRewritesWhen`), and
  `RecordRights.ForeignRecordRewritten` is a run that rewrites another tool's record.
  What does hold is that no worker of this process is live then
  (`FlightSafety.RecoveryExcludesWorkers`).
- A Status writes back the copy it read. Without another writer, a caller with the
  reservation writes over the record as it is (`RecordRights.ExclusiveRewritesCurrent`);
  a Status that retains a flight does so exactly when no other one has rewritten the
  record under that flight yet (`RecordRights.RetainingRewritesCurrent`). Two Status
  calls that overlap can therefore report a success and then mark the release failed
  (`RecordRights.SuccessThenFailed`).
- A renewed token is checked a fifth of its life before expiry, as the comment at
  `pkg/auth/cache.go:24` promises, only while that life fits a `Duration`: the
  subtraction at line 94 saturates. `TokenCache.RenewedIsCheckedEarly` is the exact
  condition.
- The bridge counts invalidations carried through to "the" source
  (`pkg/resources/helm/auth_bridge.go:149-159`), but each callback brings the source
  of its own client (`pkg/transport/client.go:273-281`), and clients are rebuilt every
  ten minutes (`pkg/transport/cache.go:16`). The fence holds in every run in which a
  bridge generation stays with the source that carried its invalidation through
  (`Credentials.SteadyRunsAreFresh`). For any source `SecondSource.StaleExactly` says
  when Services through it can come to store a token from before the invalidation:
  exactly when it stores such a token, more than ten seconds from its expiry and not
  about to be superseded, be it past its next check or not, or when it has a refresh
  from before the invalidation in flight that can still bring one. Such a state is
  reached from the start of any bridge (`SecondSource.SecondSourceBreaksTheFence`).
- Running out of depth memoises "not owned" for the whole chain
  (`pkg/resources/helm/owners.go:117,151`), so an object that would be dropped by
  itself may be kept after another one, and the other way round. The memo changes
  nothing for every order of the ids exactly when no undecided walk shares a node with
  the walk of a dropped object (`Owners.MemoHarmlessExactly`); `Owners.DepthPoisonsMemo`
  is a cluster where it does. Nothing is ever dropped wrongly.
- Collapsing a dot-expanded map loses leading dots, because the empty prefix also
  stands for the root (`pkg/resources/prov/normalize.go:134-137`): the round trip
  holds exactly when no key starts with a dot.
- As a function on arbitrary documents pruning (`pkg/resources/prov/livestate.go:225-277`)
  is idempotent exactly when no surviving label or annotation map is hollow
  (`LiveState.StripTwice`). On what it is called with, the JSON of typed apply
  configurations, whose label and annotation maps hold strings,
  `LiveState.FlatMetaSettles` applies and it is idempotent.
- The comment of `LiveState` at line 85 of that file lists empty objects among what is
  stripped; the code leaves them (`LiveState.EmptyObjectsStay`), as its own comment at
  lines 260-265 explains.

## Model

| member | source | states |
|---|---|---|
| Flights.FlightRegistry.ReserveFlight | pkg/resources/helm/inflight.go:79-118 | reserving is one atomic step: nothing while a drain is active, otherwise a new reservation, or the stored flight with one more reader exactly when it matches the rejoin; other keys untouched |
| Flights.FlightRegistry.ActivateFlight | pkg/resources/helm/flight_lifecycle.go:137-153 | only the owning, unstopped reservation is activated, and only while no drain is active; every other field and key keeps its value |
| Flights.FlightRegistry.FinishFlight | pkg/resources/helm/flight_lifecycle.go:62-79 | the first outcome sticks, the cancel func goes, and the bridge is closed in the same step |
| Flights.FlightRegistry.RemoveOwnedFlight | pkg/resources/helm/inflight.go:138-151 | a late completion touches only its own generation, which survives as reported while it has readers |
| Flights.FlightRegistry.AcquireStatusFlight | pkg/resources/helm/flight_lifecycle.go:176-197 | a Status call either reserves the free key, retains exactly the flight it names, or gets a copy without being counted |
| Flights.FlightRegistry.ReleaseStatusFlight | pkg/resources/helm/flight_lifecycle.go:200-215 | the last reader of a reported flight takes it out of the registry; no other release does |
| Flights.FlightRegistry.ReconcileFlightResult | pkg/resources/helm/flight_lifecycle.go:87-119 | a worker error replaces the result; a terminal result waits for the worker; what is handed out is marked reported in the same step |
| Flights.FlightRegistry.ConsumeSynchronousFailure | pkg/resources/helm/flight_lifecycle.go:158-171 | only the exact completed error being returned is consumed |
| Flights.FlightRegistry.MarkDrain | pkg/resources/helm/inflight.go:163-176 | every unfinished flight is marked stopping, every stored cancel func is taken, and the drain counter rises, in one step |
| Flights.MarkAll | pkg/resources/helm/inflight.go:167-175 | the loop reaches every flight once whatever the order of the map |
| Flights.FlightRegistry.CountRemaining | pkg/resources/helm/inflight.go:188-198 | the count is zero exactly when every stored flight is finished |
| Flights.RetainOrRefuse | pkg/resources/helm/release.go:1410-1413 | the retain tests and the callers' refusal tests are exact complements, for Status and for a rejoin |
| FlightDecisions.RejoinsExactly | pkg/resources/helm/inflight.go:79-118 | a submit or delete that finds a stored flight rejoins it exactly when it is activated, of the same identity and binding, and reserved for the same operation and fingerprint, or for a delete a delete; otherwise nothing changes |
| FlightDecisions.ReservesAlone | pkg/resources/helm/inflight.go:95-118 | a submit or delete that finds nothing stored gets the reservation |
| FlightDecisions.PollsExactly | pkg/resources/helm/flight_lifecycle.go:176-197 | a Status polls exactly an activated flight that agrees with its generation, operation, revision, identity and binding, and reserves exactly a free key |
| FlightDecisions.ActivationPublishes | pkg/resources/helm/flight_lifecycle.go:137-153 | starting a worker stores its operation, revision, bridge, deadline and cancel func, ends the preparation and keeps the rest of the flight |
| FlightDecisions.ReconcilesExactly | pkg/resources/helm/flight_lifecycle.go:87-119 | a worker error replaces a retained poll's result, a terminal result waits for the worker, whatever is final marks the flight, and without the flight only a missing result becomes a conflict |
| FlightDecisions.ConsumesExactly | pkg/resources/helm/flight_lifecycle.go:158-171 | only a finished flight whose very error is returned is marked by that |
| FlightDecisions.ServicesExactly | pkg/resources/helm/flight_lifecycle.go:121-133 | a failed Service fails its callback exactly when the flight has not finished, and otherwise the callback goes on with the flight as it is |
| FlightDecisions.DrainMarks | pkg/resources/helm/inflight.go:163-176 | a drain stops exactly unfinished flights and takes every cancel func |
| FlightDecisions.WritesExactly | pkg/resources/helm/release.go:950-990 | a worker's first write is marked as this plugin's, pending, at the next revision, with the values it was started with |
| FlightDecisions.StartsExactly | pkg/resources/helm/release.go:335-366 | an unstopped submit can start a worker exactly over no record (install at 1), over a record it may take that is neither in mid-operation nor what it asks for (upgrade to the next revision), or over a stalled one of another tool (install), and only that worker |
| FlightDecisions.CreateLeavesForeign | pkg/resources/helm/release.go:362-363 | a Create that read a release of another tool, not in mid-operation, can start nothing |
| FlightDecisions.RejoinPlanned | pkg/resources/helm/release.go:381-395 | planned with a flight, a submit would rejoin exactly one at the pending record's revision, not past its deadline, of the same fingerprint |
| FlightDecisions.DeletesExactly | pkg/resources/helm/release.go:1131-1310 | a delete starts a worker exactly when it read a record, to delete it at its revision |
| FlightDecisions.ChartNamed | pkg/resources/helm/release.go:551-561 | a chart reference names the last segment of its path, a trailing slash aside |
| FlightDecisions.InstallPollSays | pkg/resources/helm/release.go:1536-1651 | a poll of an install or upgrade answers Success exactly for a ready deployed record at the polled revision, NotFound exactly without a record or a flight of its own in time, another failure exactly for a newer revision, a failed record, or a deployed one not ready in time |
| FlightDecisions.DeletePollSays | pkg/resources/helm/release.go:1482-1534 | a poll of a delete answers Success exactly when the record is gone, says nothing or is uninstalled, a conflict exactly for an owned one without a flight, failure exactly for another stalled one |
| Releases.RecoveryConverges | pkg/resources/helm/release.go:711-730 | an owned pending record is recovered at once, and the plan from the rewritten record is settled (only if complete) or an upgrade to the next revision, never retry, recover or rejoin |
| Releases.BlockedFallsThrough | pkg/resources/helm/release.go:732-839 | a foreign pending record gets past the dispatch, planned blocked, exactly when it says when it began and that is more than twice its timeout ago |
| FlightInvariant.StepKeeps | pkg/resources/helm/release.go:606-893 | every step of any callback, worker, timer or outsider keeps the invariant linking generation, preparing, stopping, finished, reported and readers |
| FlightInvariant.EventKeeps | pkg/resources/helm/inflight.go:153-204 | so do drains and a crash, over all releases at once |
| FlightInvariant.RunKeeps | pkg/resources/helm/flight_lifecycle.go:50-216 | so does every run |
| FlightSafety.OneWorker | pkg/resources/helm/inflight.go:95-118 | at most one Helm worker is live per flight key, its own generation is stored unfinished, and no reservation exists beside it |
| FlightSafety.WorkerKeepsFlight | pkg/resources/helm/release.go:843-867 | whatever else happens the worker stays the only one and its flight stays stored until its own finish step or a crash |
| FlightSafety.RecoveryExcludesWorkers | pkg/resources/helm/release.go:1405-1445 | no record is rewritten while a worker of that release is live, and a Status without a flight really runs beside no worker |
| FlightSafety.ReadersConserved | pkg/resources/helm/flight_lifecycle.go:192-215 | the reader count is the number of callbacks that will release that generation; preparing has none; reported means finished with readers |
| FlightSafety.RetainedStays | pkg/resources/helm/inflight.go:138-151 | a retained flight leaves the registry only in the release step of its last reader, or in a crash |
| FlightSafety.DrainSafe | pkg/resources/helm/inflight.go:163-204 | from its marking step to its return a drain admits no reservation, acquisition or activation; after it saw nothing remaining no worker is live |
| FlightSafety.CancelsTakenOnce | pkg/resources/helm/inflight.go:162-175 | overlapping drains together take each flight's cancel func at most once |
| FlightSafety.BarredForever | pkg/resources/helm/flight_lifecycle.go:133-153 | a generation that may not start a worker never gets one, in any run |
| FlightSafety.StoppedNeverActivates | pkg/resources/helm/flight_lifecycle.go:133-146 | a flight marked while preparing is never activated afterwards, not even after the drain is over |
| FlightSafety.ReportsHonestly | pkg/resources/helm/flight_lifecycle.go:84-119 | a retaining Status reports a terminal record only for a worker that finished without error; a recorded error always takes its place |
| FlightSafety.OutcomesNeverLost | pkg/resources/helm/flight_lifecycle.go:75-79 | no generation is reported both succeeded and failed, and an error leaves the registry only after it was returned or its timer fired |
| FlightSafety.RunGrows | pkg/resources/helm/flight_lifecycle.go:137-153 | over any run a stored generation keeps what it was reserved for, its activated operation, revision and identity, a finished one its outcome, and none comes back |
| FlightSafety.BridgeClosesWithOutcome | pkg/resources/helm/flight_lifecycle.go:62-74 | a bridge is closed exactly when the outcome of its flight is published |
| FlightSafety.ClosedBridgeIsFinished | pkg/resources/helm/flight_lifecycle.go:121-133 | once it is closed, serviceFlight hands a retaining call the finished flight with that outcome and no error, in whatever later step it looks the flight up |
| FlightHistory.BridgeTellsOutcome | pkg/resources/helm/flight_lifecycle.go:62-79 | in every reachable state the bridge of a finished flight is closed and tells the worker's error, or cancellation when there was none |
| FlightHistory.RejoinsItsOwn | pkg/resources/helm/release.go:649-677 | over any run a callback has rejoined only a flight reserved for what it asks: a submit one of the same kind of submit and the same fingerprint, a delete one that deletes |
| FlightHistory.SuccessesAreProved | pkg/resources/helm/flight_lifecycle.go:84-119 | a success reported for a generation rests on what its poll read: for an install or upgrade a deployed record at the polled revision, for a delete that the record was gone |
| FlightHistory.ReservationsAreHeld | pkg/resources/helm/inflight.go:79-151 | no callback leaves a reservation behind: while one is stored its holder is still there |
| FlightHistory.DrainCancelsAll | pkg/resources/helm/inflight.go:162-176 | once a drain has marked, every unfinished flight is stopping and its cancel func was taken, by this drain or one before |
| FlightHistory.FinishedFlightsLeave | pkg/resources/helm/flight_lifecycle.go:84-119 | no finished flight stays for good: its timer runs or has fired, and once that fired or its result was handed out only its readers keep it |
| RecordRights.SubmitKeepsToItsOwn | pkg/resources/helm/release.go:711-735 | in every reachable state a submit's plan is no rejoin, and what it is about to rewrite is owned and pending |
| RecordRights.SubmitStartsExactly | pkg/resources/helm/release.go:706-867 | without another writer a submit that has read the record can start a worker exactly when no drain is active or marked it, and the record, as it still is, was one to install over nothing, to upgrade, or to install over as stalled when read; and only that worker |
| RecordRights.StatusRewritesWhen | pkg/resources/helm/release.go:1580-1598 | a Status that has read a record goes on to rewrite exactly when the copy it read is pending at the polled revision and there is no flight, whatever its owner and age |
| RecordRights.ForeignRecordRewritten | pkg/resources/helm/release.go:1588-1598 | a run that rewrites any pending record of another tool |
| RecordRights.ExclusiveRewritesCurrent | pkg/resources/helm/release.go:714-730 | without another writer what a submit or a reserving Status rewrites is the record as it is |
| RecordRights.RetainingRewritesCurrent | pkg/resources/helm/release.go:1580-1598 | a retaining Status rewrites the record as it is exactly when no other one has rewritten it under that flight; otherwise it is no longer pending |
| RecordRights.SuccessThenFailed | pkg/resources/helm/release.go:1452-1474 | a run without another writer in which one Status completes a record and reports success and another then marks it failed |
| RecordRights.InstallsOverStalled | pkg/resources/helm/release.go:732-867 | a submit that reads another tool's pending record can start a worker, then an install, exactly when the record has stalled |
| Reacquisition.HandedOutIdReacquires | pkg/resources/helm/flight_lifecycle.go:35-47 | after any run that leaves an activated flight stored and no drain active, a Status with what its id parses to retains it |
| ReleaseSafety.StepFits | pkg/resources/helm/release.go:606-893 | every step but another tool's write keeps plans, views and workers in line with the record |
| ReleaseSafety.RevisionsGrowAsPlanned | pkg/resources/helm/release.go:335-366 | between deletes the revision never falls and grows only by a worker's write at exactly the revision that was planned |
| ReleaseSafety.RecoversOnce | pkg/resources/helm/release.go:1604-1613 | no callback rewrites a record twice: the second plan settles or upgrades, and installStatus recurses at most once |
| ReleaseSafety.PlanStaysCurrent | pkg/resources/helm/release.go:706-730 | what a reservation read is still the record however long it prepares |
| ReleaseSafety.SettledStartsNothing | pkg/resources/helm/release.go:424-452 | re-submitting a pinned, deployed, owned state starts no worker |
| ReleaseSafety.ReDriveConverges | pkg/resources/helm/release.go:711-757 | from any state without a stored flight or drain a re-driven submit recovers an owned pending record and settles or can start the upgrade, in four steps; RecoversOnce and PlanStaysCurrent cover what runs between them |
| TokenCache.StoredIsRechecked | pkg/auth/cache.go:92-115 | now < next check <= expiry - 10s for whatever is stored; otherwise the stored token is untouched; the refresh slot is always freed |
| TokenCache.ServedHasLife | pkg/auth/cache.go:54-61 | every token returned has more than ten seconds left where the lock is held, the fallback included |
| TokenCache.RenewedIsCheckedEarly | pkg/auth/cache.go:94-105 | a renewed token is checked the larger of 60s and a fifth of its life early, that life cut to a Duration; so at least a fifth early exactly when it does not outrun one |
| TokenCache.UnchangedIsRecheckedSoon | pkg/auth/cache.go:99-105 | a token that did not change or has a minute or less to live is checked again in ten seconds, or ten seconds before it expires |
| TokenCache.CenturiesLongTokenIsCheckedLate | pkg/auth/cache.go:94 | a token for which the fifth is missed |
| TokenCache.CachedTokenSource.Begin | pkg/auth/cache.go:54-75 | serve, wait for the refresh in progress, or become its only leader |
| TokenCache.CachedTokenSource.Finish | pkg/auth/cache.go:87-117 | the clock arithmetic and the fallback, with the invalidation fence |
| TokenCache.CachedTokenSource.InvalidateAll | pkg/auth/cache.go:42-47 | the token goes and the generation moves; a refresh in flight stays in flight |
| AuthBridge.WindowExact | pkg/resources/helm/auth_bridge.go:43-53 | an accepted window is call timeout + largest gap + 40s with 30s of int64 headroom, and only invalid or overflowing metadata is refused |
| AuthBridge.BridgeExact | pkg/resources/helm/auth_bridge.go:54-77 | a bridge is refused exactly without an identity or a window, for an allowance below the window, or at its deadline |
| AuthBridge.FirstCloseIsTold | pkg/resources/helm/auth_bridge.go:197-210 | however often a bridge is closed, whoever asks is told the first reason, cancellation if that was none |
| AuthBridge.TokenBridge.AskToken | pkg/resources/helm/auth_bridge.go:91-114 | closed before starved before served before queued |
| AuthBridge.TokenBridge.OpenService | pkg/resources/helm/auth_bridge.go:143-152 | a service learns the generation and whether it must carry an invalidation through, once |
| AuthBridge.TokenBridge.DepositToken | pkg/resources/helm/auth_bridge.go:164-186 | a token is stored only on an open bridge, usable, and of the generation the service opened with |
| AuthBridge.TokenBridge.InvalidateToken | pkg/resources/helm/auth_bridge.go:188-196 | the token goes, the generation moves and a request is queued |
| AuthBridge.TokenBridge.CloseWith | pkg/resources/helm/auth_bridge.go:197-210 | the first error sticks, a nil error becomes cancellation, the token goes |
| Credentials.StepKeeps | pkg/resources/helm/auth_bridge.go:126-187 | every step of callers, services and workers keeps the stamps of the bridge and of all its sources in order |
| Credentials.BridgeServesFresh | pkg/resources/helm/auth_bridge.go:128-196 | a token the bridge returns was minted by a call begun after its last Invalidate, although it comes through a cache that others refresh, whenever it came through the source that carried that Invalidate |
| Credentials.RetryCarriesFreshToken | pkg/auth/transport.go:53-80 | under the same condition the single retry after a 401 carries a token whose mint began after the 401 |
| Credentials.SteadyRunsAreFresh | pkg/resources/helm/auth_bridge.go:149-159 | both hold throughout every run in which each generation's services stay with the source that carried its invalidation |
| SecondSource.StaleExactly | pkg/resources/helm/auth_bridge.go:149-180 | between services, once the last invalidation was carried through, services through a source can come to store a token minted before it exactly when that source holds one, live and not about to be superseded, or has a refresh from before it in flight that can still bring one |
| SecondSource.CarrierIsClean | pkg/resources/helm/auth_bridge.go:153-159 | the source that carried the invalidation never is in that state, nor is any before the first one |
| SecondSource.StaleThroughOther | pkg/resources/helm/auth_bridge.go:160-186 | a source that would serve such a token has it stored by the next service through it, and served unless the bridge is past its deadline |
| SecondSource.SecondSourceBreaksTheFence | pkg/transport/client.go:273-281 | from the start of any bridge a run with two sources ends with a token served that was minted before the last Invalidate |
| Credentials.SourceServesFresh | pkg/auth/cache.go:40-75 | one refresh of a source at a time; its stored token was minted after its last Invalidate, a returned one after the last before the call |
| Credentials.FailuresAreOwn | pkg/auth/cache.go:22-23 | the error of a failed call is its own context's, which ended, or that of a mint it led, which brought no token or one that was not usable |
| Credentials.ClosesExactly | pkg/auth/cache.go:84-126 | a usable token is stored and returned, or after an Invalidate dropped and the leader goes round again; otherwise a live, uninvalidated leader falls back on the old token while it has more than ten seconds; every other leader fails |
| Credentials.InvalidatedLeaderGoesRound | pkg/auth/cache.go:121-123 | a live leader whose source was invalidated during its mint can lead again and gets a token minted after the Invalidate |
| Credentials.AnswersExactly | pkg/resources/helm/auth_bridge.go:91-114 | what Token answers, case by case, and that only queueing changes the bridge |
| Credentials.DepositsExactly | pkg/resources/helm/auth_bridge.go:164-186 | a service stores its token, asks for another service, or drops it, exactly by openness, usability and generation |
| Credentials.RequestsStand | pkg/resources/helm/auth_bridge.go:108-196 | a request stands until a service stores a token, and an invalidated bridge without a token has one |
| Credentials.LeaderLeavesNoTrace | pkg/auth/cache.go:84-117 | however a lead ends the source is free, every waiter can go on and nobody else is touched; cancelled, the leader gets no token, and without one of its own it leaves the stored one alone |
| Credentials.WaiterTakesOver | pkg/auth/cache.go:63-83 | after a cancelled leader a live waiter gets a token: the one the leader still stored, or that of a refresh it leads itself |
| Credentials.StarvedExactly | pkg/resources/helm/auth_bridge.go:98-105 | starvation before the deadline is reported exactly when no service stored a token during a whole window |
| Credentials.AcceptedBridgeStarts | pkg/resources/helm/auth_bridge.go:54-77 | every bridge that is accepted starts unstarved, with a window within its action's allowance |
| Credentials.ServedInTime | pkg/resources/helm/auth_bridge.go:91-110 | a token is served only when open, before the deadline, with more than ten seconds left and within a window of a store |
| Credentials.ClosedServesNothing | pkg/resources/helm/auth_bridge.go:93-97 | once closed a bridge answers every later Token with the error it was closed with |
| Inventory.Index.IndexManifest | pkg/resources/helm/inventory.go:202-238 | afterwards exactly the objects some document renders, and the references to them in their effective namespace or in none, belong to the manifest's owner; all others keep theirs |
| Inventory.BuildIndex | pkg/resources/helm/inventory.go:186-194 | OwnedBy answers the owner of the last manifest that renders the reference, and so for objects |
| Inventory.OwnerRenders | pkg/resources/helm/inventory.go:62-69 | OwnedBy succeeds exactly when some document has that kind and name and its effective namespace is the one asked for or none was, and names such a document's owner |
| Inventory.ObjectOwned | pkg/resources/helm/inventory.go:202-238 | an object has an owner exactly when some document has its version, kind, name and, by itself or by its release, its namespace |
| Inventory.IdNames | pkg/resources/helm/inventory.go:134-144 | an id of a slash-free namespace and name splits into them, a slash-free one is a name alone, everything else is no id |
| Inventory.KindNamed | pkg/resources/helm/inventory.go:83-98 | a resource type of three parts names the third as its kind; fewer or more name none |
| Inventory.FilterHelmOwned | pkg/resources/helm/inventory.go:100-132 | exactly the unowned or unparseable ids are kept, in order; everything is kept without an index or for Namespaces |
| Inventory.FilteredExactly | pkg/resources/helm/inventory.go:100-132 | an id of a namespace and a name is kept exactly when no document of any manifest has that kind and name in that effective namespace, a plain name exactly when none has it anywhere, and what is no id is kept |
| Inventory.NoStaleInventory | pkg/resources/helm/inventory.go:298-342 | no inventory in the cache was built by a build begun before the latest invalidation |
| Inventory.ServedWhileYoung | pkg/resources/helm/inventory.go:298-330 | a build no invalidation overtook is served for thirty seconds from its store and no longer; an overtaken one changes nothing |
| Owners.OwnerWalk.ReachesRelease | pkg/resources/helm/owners.go:98-152 | the loop with its memo, chain and cycle guard is the recursive walk |
| Owners.ReachesByOwners | pkg/resources/helm/owners.go:98-152 | the decision searched for: a chain of first owners, in one namespace, that ends in something a release rendered there or without a namespace |
| Owners.FailuresAreForgotten | pkg/resources/helm/owners.go:128-132 | a walk cut short by a failed lookup leaves the memo alone |
| Owners.FilterControllerOwned | pkg/resources/helm/owners.go:52-90 | the filter is one walk after the other over a shared memo, also where an empty inventory lets it skip them; a failed lookup keeps the object |
| Owners.DropsOnlyOwned | pkg/resources/helm/owners.go:47-51 | for any lookup, failing ones included, and any order: an id is dropped only if its unbounded chain of first owners reaches something owned |
| Owners.WalkExact | pkg/resources/helm/owners.go:71-75 | a walk that is decided within the depth agrees with the unbounded chain and keeps the memo exact, cycles and shared ancestors included |
| Owners.MemoChangesNothing | pkg/resources/helm/owners.go:71-88 | when every starting chain is decided within the depth the memoised filter keeps exactly what a walk without a memo keeps |
| Owners.PoisonedExactly | pkg/resources/helm/owners.go:109-151 | after an undecided walk what a plain walk drops is still dropped exactly when the two visit nothing in common |
| Owners.RescuedExactly | pkg/resources/helm/owners.go:109-151 | after a walk that drops, an undecided object is dropped exactly when the two visit something in common |
| Owners.MemoHarmlessExactly | pkg/resources/helm/owners.go:71-151 | for every order of the ids the memoised filter equals the one without a memo exactly when no undecided walk shares a node with a dropped object's walk |
| Owners.DepthPoisonsMemo | pkg/resources/helm/owners.go:117-151 | a cluster in which the memo does change the answer |
| Normalize.CollapseStringMap | pkg/resources/prov/normalize.go:131-152 | the result is that of some order of iteration over this map and every map below, later entries winning |
| Normalize.OutcomeIsCollapsed | pkg/resources/prov/normalize.go:125-130 | whatever the order there is a key for exactly every dotted leaf path, holding the coerced value of a leaf with that path |
| Normalize.CollapsedText | pkg/resources/prov/normalize.go:143-148 | a string leaf is kept as it is, null becomes empty, anything else is printed |
| Normalize.CollapseIsDetermined | pkg/resources/prov/normalize.go:131-152 | all orders have one result exactly when colliding paths agree; otherwise two orders with different results exist |
| Normalize.CollapseUndoesExpand | pkg/resources/prov/normalize.go:12-24 | collapsing inverts dot-expansion of a prefix-free map exactly when no key starts with a dot |
| Normalize.WalkAndFlatten | pkg/resources/prov/normalize.go:89-111 | exactly the dot-expanded label, annotation, nodeSelector, matchLabels and flat-selector maps are collapsed, everywhere in the document |
| Normalize.FlattensExactly | pkg/resources/prov/normalize.go:33-50 | an object that holds objects comes out all strings exactly under the four string-map keys, or under selector when it has neither matchLabels nor matchExpressions; elsewhere it keeps its keys and objects |
| Normalize.WalkSettles | pkg/resources/prov/normalize.go:52-60 | a document is unchanged exactly when it has nothing to flatten, and one walk leaves nothing to flatten |
| Normalize.WalkIsIdempotent | pkg/resources/prov/normalize.go:89-111 | a second walk changes nothing, whatever the orders |
| Normalize.WalkKeepsTheRest | pkg/resources/prov/normalize.go:89-111 | every path outside flattened maps keeps its scalar or shape, and no path appears |
| Normalize.MetadataRoundTrip | pkg/resources/prov/normalize.go:52-60 | a string map stored dot-expanded comes back as it was exactly when no key starts with a dot |
| Normalize.SelectorRoundTrip | pkg/resources/prov/normalize.go:97-101 | a flat selector comes back exactly when no key starts with a dot and its expansion does not look like a label selector, or no key has a dot |
| LiveState.StripManaged | pkg/resources/prov/livestate.go:327-378 | exactly the managed keys go, and the map itself when nothing else is in it |
| LiveState.StripServiceAccountVolumeMounts | pkg/resources/prov/livestate.go:298-323 | exactly the service-account mounts go, and the list when nothing else is in it |
| LiveState.FilteredInOrder | pkg/resources/prov/livestate.go:304-316 | each mount is decided on its own and the others keep their order |
| LiveState.RulesCompose | pkg/resources/prov/livestate.go:225-259 | applied one after the other the rules of an object remove and trim exactly the fields each names in the object as it came |
| LiveState.FieldGoes | pkg/resources/prov/livestate.go:42-68 | which fields go, by key, path and content: a pod spec's serviceAccount, a container's imagePullPolicy, mounts that are all token mounts, labels and annotations that only the server sets |
| LiveState.EntryGoes | pkg/resources/prov/livestate.go:327-378 | which labels and annotations go, by prefix and exact key |
| LiveState.PodSpecsArePruned | pkg/resources/prov/livestate.go:199-218 | in a pruned document no pod spec, wherever one can be, names serviceAccount and no container of one imagePullPolicy |
| LiveState.StripServerDefaults | pkg/resources/prov/livestate.go:225-277 | the walk that deletes before it descends is the one-pass pruning by path and key |
| LiveState.StripTakesOnlyNamed | pkg/resources/prov/livestate.go:225-277 | off a container's mounts, a value is gone exactly when a managed or named key is on its way; everything else is where it was with the content it had |
| LiveState.StripKeepsTheRest | pkg/resources/prov/livestate.go:225-323 | every value of the document without a managed or named piece on its way is kept, filtered lists moving up |
| LiveState.StripAddsNothing | pkg/resources/prov/livestate.go:225-323 | every value of the pruned document comes from a kept one |
| LiveState.StripKeepsApart | pkg/resources/prov/livestate.go:225-323 | no two kept values end up in one place |
| LiveState.EmptyObjectsStay | pkg/resources/prov/livestate.go:260-265 | an empty object stays one unless a managed or named piece is on its way |
| LiveState.StripTwice | pkg/resources/prov/livestate.go:225-277 | pruning again changes nothing exactly when no surviving label or annotation map is hollow |
| LiveState.FlatMetaSettles | pkg/resources/prov/livestate.go:327-378 | which holds whenever label and annotation maps hold no objects |
| LiveState.NestedLabelsTakeTwoPasses | pkg/resources/prov/livestate.go:250-258 | a document, none that the program passes, that a second pass prunes further |
| Identifiers.DigitsRoundTrip | pkg/resources/helm/release.go:139-141 | every revision prints as digits that read back as it |
| Identifiers.NumberRoundTrip | pkg/resources/helm/release.go:152-156 | every number in the range of int reads back from its decimal text, and no other text of a number reads |
| Identifiers.RequestIdReads | pkg/resources/helm/flight_lifecycle.go:35-37 | the layout of a request id |
| Identifiers.NativeRoundTrip | pkg/resources/prov/nativeid.go:30-45 | a native id reads back exactly when neither part is empty or holds a slash |
| Identifiers.ParsedNative | pkg/resources/prov/nativeid.go:23-45 | whatever parses is two clean parts that join to the id |
| Identifiers.TargetRoundTrip | pkg/resources/helm/release.go:139-166 | namespace, name, revision and operation are recovered although the names may hold '@' and ':' |
| Identifiers.FlightIdRoundTrip | pkg/resources/helm/flight_lifecycle.go:35-47 | everything a flight's request id was written from is recovered exactly when neither name is empty or holds '/' or '#' |
| Identifiers.ParsedRequest | pkg/resources/helm/release.go:143-166 | whatever parses as a request id names clean parts and a positive revision, and what follows a # is a UUID |
| Identifiers.ParsedCustom | pkg/resources/prov/customid.go:25-42 | whatever parses is clean and formats back to the very id |
| Identifiers.CustomRoundTrip | pkg/resources/prov/customid.go:12-42 | a custom-resource id, group included, reads back exactly when its parts are clean |

## Left out

- The Helm SDK, client-go, chart download, registry credentials and cloud token providers: a worker writes a pending record and then ends it deployed, failed or deleted; a mint is an arbitrary token with an expiry.
- The provisioners for other kinds, status enrichment, pagination, configuration, authentication policy and the discovery filter tables: near-identical or static, with no harder property than those above.
- Atomic installs and upgrades, whose rollback writes records of its own; the release properties assume them off.
- Superseding of older revisions: a release is its last record.
- Blocking waits inside callbacks (awaiting the record, waiting for a refresh) are steps that may happen at any time; the polling intervals and the record timeout are not modelled, nor is anything that must happen eventually.
- `cancel` as a call: a drain's taking of it is modelled, the deadline paths of Status and progressAfterFlightError that also call it (pkg/resources/helm/release.go:1417-1424) only leave.
- observeUnidentifiedFlight, flight scopes and fingerprints: the key and the fingerprint are given; a missing scope never reaches the registry.
- Per-flight structs updated through the map's pointers are map values here, since callers only ever hold copies; errors are compared by identity where the program uses errors.Is.
- Releases.StatusRewritesAnyones: excludes a record without Info, which installStatus dereferences.
- Values and configuration are compared as canonical JSON text.
- The worker's first write waits for the state Helm demands (no record, or one that is not pending), so an install worker that falls through on a stalled foreign record can only end.
- Wrap-around of the 64-bit generation counters, and of Durations built from a record's timeout label.
- UUID syntax is a predicate; generations are drawn fresh.
- Several bridges at once: the system of Credentials has one bridge and any number of sources, as bridges share nothing but sources.
- Identifiers.FlightIdRoundTrip: revisions are those of the registry, from 1 to the largest int.
- Contexts are cancelled flags, read where the program reads them before and in a critical section; one that ends between such a section and the return turns a served or fallen-back token into its own context error, which is not shown.
- TokenTransport: origin checks, request bodies that cannot be replayed (no retry then) and sources without an Invalidate method (no retry, no fence).
- Channels: the bridge's request slot is a flag, a refresh channel a number, and wake-ups are allowed as soon as the channel is closed.
- YAML parsing of manifests: an index starts from parsed document heads; documents that do not parse are present as such.
- The memo and visiting maps of the owner walk are keyed by the kind, namespace and name rather than by the three joined with slashes, so names holding a slash cannot collide here.
- JSON documents are values: the in-place updates of maps and slices appear as new documents, so sharing of subtrees is not captured. Numbers and `%v` formatting are opaque.
- Normalize.MetadataRoundTrip: dot-expansion itself belongs to the host's property store, which is not part of this model; it is taken from the description at the head of normalize.go, and is defined for key sets in which no key continues another after a dot.
- LiveState: the apply-configuration round trip, status, ingress URLs, finalizers and the per-kind injected fields around the recursive pruning.
