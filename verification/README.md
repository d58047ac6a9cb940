# Aruba Session Tracker: a Dafny model of its protocols

The tracker polls network controllers over SSH, follows client sessions from poll to poll, and stores every poll
exactly once. This project models the parts of it where an error would be hard to see, and proves what they
promise: for every interleaving, every store answer and every history of polls.

| files | what they model |
|---|---|
| `Runtime*.dfy` | `RuntimeExecutor`: polls, stops, restarts and retries around a store whose commit may be indeterminate |
| `Outcomes`, `Lifecycle`, `SessionTable`, `MonitorEngine` | `MonitorEngine`: one poll is prepared, then committed or discarded; sessions start, are missed and close |
| `LifecycleHistory`, `EngineRuns` | what the active sessions and the events mean over a whole history of polls |
| `EngineRefinement` | in every run the engine of the runtime protocol is the image of the whole `MonitorEngine`, with the same committed polls |
| `Addresses`, `Topology`, `RawBundle`, `Tracker`, `TrackerService` | one query: locating the clients, choosing the devices, merging their rows within a budget of observations and stored bytes |
| `PollAnswers`, `RawLimits`, `RawScenario`, `BatchLimits`, `FewDevices` | the polls of a monitor answered by these queries: what both passes together keep of the budget, and when the store accepts them |
| `ReusedLocation`, `AmbiguousMiss` | what a reused location forgets of ambiguous answers, and the absence that is counted for it |
| `Cancellation`, `SshPool*.dfy` | cancellation tokens, and the pool of retained SSH connections with its leases |
| `Release*.dfy` | the planner of the continuous release, the script that performs its actions, and the choice of the release to keep |
| `FilterIndex`, `FilterScript` | the index and the caches of the filter script in the HTML report |
| `OutputLimits`, `Digits`, `Datapath`, `OfflineBlock` | line and byte limits of a stream, counts as text, the session tables |

Three kinds of member carry the model. A class with the fields and methods of the source's object is proved equal,
method by method, to functions on a value of its state. A transition system interleaves such functions with the
answers of the environment, one step for each locked block or outside call. Theorems then speak about every
reachable state (`Reachable`) or about the functions themselves. The environment is always chosen freely: the
answers of the store, of the network and of the hosting service are inputs of the steps. The sessions of a monitor are
objects on the heap, as in the source: a poll changes them in place, and the copy that keeps it away from the committed
ones is part of what is proved (`SessionTable.Clone`, `MonitorEngine.PrepareForPersistence`).

What the proofs found out about the code:

- A stop request can be lost. A poll that fails releases its lease before its `finally` clause runs; if another poll
  begins and a stop is requested in between, the late `finally` clears the request, and the monitor is not detached
  when that poll ends (`RuntimeScenarios.LateFinallyDropsStop`). While a poll is running, no other step of another call
  can clear it (`RuntimeTheorems.StopSurvives`).
- Two overlapping one-shot calls can lose a run, because the check of the retry slot and its use are separate
  blocks (`RuntimeScenarios.OverlappingOneShotsLoseARun`). In every reachable state a step loses a run if and only if
  it puts a result into a slot that is full (`RuntimeOverlap.RunLostIff`), and one-shot calls that take turns never do
  (`RuntimeOverlap.InTurnIsLegal`).
- An abort that was aimed while its lease was in use may come late and strike the connection of a later lease. It does
  so if and only if its own lease has let go of the entry, the connection stayed in the slot, and another lease of the
  entry is sending (`SshPoolAborts.LateAbortIff`); `SshPoolAborts.LateAbortStrikes` is such an execution.
- The stored bytes of a poll are bounded for each of its two passes and not for both together, because a pass forgets
  what the pass before it consumed, while the store measures the merged poll and refuses it. Whatever a second pass
  meets, the poll can be stored if and only if there is no second pass, that is if it refreshes the location or its
  first pass leaves no second miss pending (`RawLimits.RawFitsIff`, for a collector of any kind). With answers of at
  most 4 MiB, the limit of the SSH collector, and one entered address, three devices always fit into the 32 MiB
  (`FewDevices.FewDevicesFit`), and four can exceed them (`RawScenario.LongAnswersExceed`,
  `RawScenario.TwoPassesExceed`). The bytes are the only limit of the store that a poll can exceed, unless a site has
  10,000 devices or more (`BatchLimits.HeldPollsAreStored`). Observations accumulate over both passes, so no more than
  20,000 sessions are ever active (`PollAnswers.ActiveStaysBounded`).
- An ambiguous location is doubted only by the poll that looks it up. It is stored as no location, and a later poll that
  reuses it does not repeat the diagnostic: it doubts exactly when a clear answer names no device
  (`ReusedLocation.DoubtRepeatedIff`). That poll can be authoritative and yet ask only some of the devices that the
  lookup named. It asks all of them if and only if each switch of an unclear answer is the device of another entered
  address, or an active session was seen there (`ReusedLocation.AsksEveryNamedIff`); only then does a missing session
  prove anything about these devices (`ReusedLocation.AbsenceProvesIff`, `AmbiguousMiss.MissProvesAbsence`). In
  `AmbiguousMiss.ReusedDoubtMisses` an active session is counted as missed while the device that nobody asked shows it,
  although the comment at src/aruba_session_tracker/services/tracker.py:260-263 rules that out.
- The filter index treats a protocol cell that is a bare dash differently from one that is a dash between spaces,
  and a scan does not. Both agree exactly on the pages that do not hold both kinds of cell
  (`FilterIndex.IndexAgreesIff`), and no page of the report writer holds both (`FilterIndex.RenderedNeverClash`).

## Model

| member | source | states |
|---|---|---|
| `Runtime.RuntimeExecutor.BeginPoll` | src/aruba_session_tracker/runtime.py:357-383 | First block of a monitor poll: refuses while another poll is active, checks that a pending record is current, takes the lease under the old or a new poll ID, and detaches a monitor whose identity changed |
| `Runtime.RuntimeExecutor.ClearRetried` | src/aruba_session_tracker/runtime.py:408-417 | After a confirmed retry the record is cleared if it is still the same one; whether the poll returns depends on the identity and on a stop request |
| `Runtime.RuntimeExecutor.DetachRetried` | src/aruba_session_tracker/runtime.py:419-425 | After a confirmed retry for another identity the owned monitor is detached and the lease gets a new poll ID; without ownership nothing changes |
| `Runtime.RuntimeExecutor.Attach` | src/aruba_session_tracker/runtime.py:464-475 | A started run is attached under a new generation, provided that the lease is still the active one |
| `Runtime.RuntimeExecutor.KeepIndeterminate` | src/aruba_session_tracker/runtime.py:501-513 | An indeterminate poll is kept with its ID, generation, run and engine exactly when the lease owns the monitor |
| `Runtime.RuntimeExecutor.ReleaseLease` | src/aruba_session_tracker/runtime.py:555-557 | Only the call that holds the lease gives it up |
| `Runtime.RuntimeExecutor.FailPoll` | src/aruba_session_tracker/runtime.py:532-542 | Failure handler: drops its own record, detaches an owned monitor, and otherwise consumes a stop only when no monitor is attached; the run counts as stopped if a stop was requested |
| `Runtime.RuntimeExecutor.FinallyPoll` | src/aruba_session_tracker/runtime.py:563-572 | `finally` clause: keeps everything for a retry, or consumes a stop by detaching the owned monitor, and releases the lease unless a run has to be finished first |
| `Runtime.RuntimeExecutor.RequestStop` | src/aruba_session_tracker/runtime.py:229-251 | A stop leaves its request with an active poll, takes the lease for a pending one, and detaches the monitor otherwise |
| `Runtime.RuntimeExecutor.RecoverStopped` | src/aruba_session_tracker/runtime.py:309-331 | A stop that met an indeterminate poll takes over its retry, unless another poll is active or nothing is pending |
| `Runtime.RuntimeExecutor.ResolveStopped` | src/aruba_session_tracker/runtime.py:293-300 | After the retry was confirmed: clears the record, detaches the owned monitor, releases the lease |
| `Runtime.RuntimeExecutor.DetachMonitor` | src/aruba_session_tracker/runtime.py:615-630 | Forgets the monitor and opens a new generation; the stop request is cleared on demand; returns the run |
| `RuntimeInvariants.EventKeepsInv` | src/aruba_session_tracker/runtime.py:107-747 | Every step of every call keeps the invariant of leases, runs and stored data |
| `RuntimeTheorems.ExactlyOnce` | src/aruba_session_tracker/runtime.py:344-588 | In every reachable state the receipts of a monitor run are exactly the polls committed into its engine, in order, plus at most the one open poll |
| `RuntimeTheorems.NoDuplicateReceipts` | src/aruba_session_tracker/runtime.py:367-374 | No poll ID is used for two receipts, and no prepared poll or one-shot result is recorded under two IDs |
| `RuntimeTheorems.SettledAtRest` | src/aruba_session_tracker/runtime.py:498-515 | While no call holds the lease, the only receipt that may be ahead of the engine is that of the pending poll |
| `RuntimeTheorems.DetachedRunSettled` | src/aruba_session_tracker/runtime.py:263-306 | Once a run is detached, by a stop, a restart or a failure, its receipts and its committed polls are the same list |
| `RuntimeTheorems.PendingIsCurrent` | src/aruba_session_tracker/runtime.py:360-366 | A pending record names the current monitor, generation and run, and the engine still holds exactly its prepared poll until a retry was confirmed |
| `RuntimeTheorems.NoOwnershipErrors` | src/aruba_session_tracker/runtime.py:235-240 | The mismatch, ownership-changed and not-current errors are never raised, in no interleaving |
| `RuntimeRuns.MovesConserve` | src/aruba_session_tracker/runtime.py:632-646 | A step that starts, hands over, parks, queues or finishes one run keeps all runs in exactly one place each |
| `RuntimeTheorems.RunConservation` | src/aruba_session_tracker/runtime.py:162-222 | Every started run is at all times in exactly one place: attached, waiting for a one-shot retry, queued, in the hands of a call, or finished |
| `RuntimeTheorems.FinishedOnce` | src/aruba_session_tracker/runtime.py:730-746 | No run is finished twice, also when finishes are retried from a queue at the same time |
| `RuntimeTheorems.NoRunLostAtRest` | src/aruba_session_tracker/runtime.py:632-702 | When nothing is in progress, every run is attached, waiting for a retry, queued or finished |
| `RuntimeTheorems.StopSurvives` | src/aruba_session_tracker/runtime.py:559-582 | While a poll holds the lease, a stop request survives a step of somebody else if and only if that step is not the late `finally` of an earlier failed poll |
| `RuntimeTheorems.StopHonoured` | src/aruba_session_tracker/runtime.py:567-582 | A stop request that reaches the end of a successful poll detaches the monitor and hands its run over for finishing |
| `RuntimeScenarios.LateFinallyDropsStop` | src/aruba_session_tracker/runtime.py:555-572 | A reachable state and a step in which the late `finally` of a failed poll clears the stop request of the running poll, and with it the detaching at its end |
| `RuntimeScenarios.OverlappingOneShotsLoseARun` | src/aruba_session_tracker/runtime.py:119-148 | Two overlapping one-shot calls both pass the check of the retry slot: a reachable state in which the second overwrites the result of the first, whose run is then nowhere |
| `RuntimeOverlap.HoldConservesIff` | src/aruba_session_tracker/runtime.py:191-204 | Putting an indeterminate one-shot result aside keeps every run in its place if and only if the slot is empty |
| `RuntimeOverlap.RunLostIff` | src/aruba_session_tracker/runtime.py:107-222 | In every reachable state, with one-shot calls overlapping freely, a step loses a run if and only if it overwrites a waiting one-shot result |
| `RuntimeOverlap.InTurnIsLegal` | src/aruba_session_tracker/runtime.py:119-160 | If one-shot calls take turns, no step ever does, so that all guarantees of the other theorems hold |
| `Outcomes.MergeObservations` | src/aruba_session_tracker/services/monitoring.py:821-833 | Merging two passes: the second replaces the first for every flow that it saw, all other flows keep their first-pass rows, and no key occurs twice |
| `Outcomes.MergeKeepsPartition` | src/aruba_session_tracker/services/monitoring.py:834-861 | If each pass attributes every observation to exactly one snapshot, so does the merge |
| `Outcomes.AttributeKnown` | src/aruba_session_tracker/services/monitoring.py:836-846 | Snapshots that are already attributed keep their keys |
| `MonitorEngines.MergedFailureIff` | src/aruba_session_tracker/services/monitoring.py:854-858 | A transient failure of the first pass counts against the merged poll if and only if the second pass is not authoritative |
| `Lifecycle.LeastHost` | src/aruba_session_tracker/services/monitoring.py:791-794 | The representative without a preference is the controller with the lexicographically least host |
| `Lifecycle.ControllersSound` | src/aruba_session_tracker/services/monitoring.py:775-781 | The group of a flow is empty exactly when the flow was not observed, and holds under each host an observation of that flow and host |
| `Sessions.GroupByFlow` | src/aruba_session_tracker/services/monitoring.py:775-781 | The loop groups the observations by flow, in the order of first appearance |
| `Sessions.CompareConfirmed` | src/aruba_session_tracker/services/monitoring.py:645-684 | The events of a transition from the confirmed observation: controller, flags and counters, each when it changed, in this order |
| `Sessions.ActiveSession.Sight` | src/aruba_session_tracker/services/monitoring.py:605-696 | One sighting changes the session object in place: its new fields, its events, and a controller dictionary that is replaced or updated |
| `Sessions.ControllerMap.Update` | src/aruba_session_tracker/services/monitoring.py:614 | A partial poll adds its controllers to the dictionary of the session, in place |
| `Sessions.ActiveSession.Clone` | src/aruba_session_tracker/services/monitoring.py:731-740 | The copy of a session is a new object with a new controller dictionary and the same content |
| `Sessions.SessionTable.Clone` | src/aruba_session_tracker/services/monitoring.py:729-742 | The copy of the table has the same content and order and shares no table, session or controller dictionary with the original |
| `Sessions.SessionTable.SightOne` | src/aruba_session_tracker/services/monitoring.py:575-603 | One turn of the first loop: an unknown flow starts a session, a known one changes in place, and no other session changes |
| `Sessions.SessionTable.ApplySightings` | src/aruba_session_tracker/services/monitoring.py:575-603 | The loop over the observed flows starts unknown sessions and updates known ones |
| `Sessions.SessionTable.Miss` | src/aruba_session_tracker/services/monitoring.py:703-719 | One authoritative absence: the count of the session grows in place, and it closes and leaves the table at the limit |
| `Sessions.SessionTable.ApplyAbsences` | src/aruba_session_tracker/services/monitoring.py:698-720 | The loop over a snapshot of the table while entries are deleted: every unobserved session is missed once, and nothing happens in a poll that is not authoritative |
| `Sessions.SessionTable.ApplyObservations` | src/aruba_session_tracker/services/monitoring.py:564-720 | Both loops together change the table in place into the pointwise specification of a sweep, keep its order, and emit its events |
| `Sessions.WalkIsSweep` | src/aruba_session_tracker/services/monitoring.py:564-720 | Visiting the flows one by one, in the order of the two loops, gives for every flow the session that the specification assigns to it |
| `Sessions.SessionTable.DropUnobserved` | src/aruba_session_tracker/services/monitoring.py:372-374 | The overflow branch leaves exactly the observed flows, in order |
| `MonitorEngines.MonitorEngine.InvalidateLocation` | src/aruba_session_tracker/services/monitoring.py:216-223 | Drops the cached routing and opens a new location epoch |
| `MonitorEngines.MonitorEngine.BeginPrepare` | src/aruba_session_tracker/services/monitoring.py:240-252 | Reserves the next generation and copies the committed state, sessions and controller dictionaries included; a second prepare is refused and changes nothing |
| `MonitorEngines.MonitorEngine.ConcludeQueries` | src/aruba_session_tracker/services/monitoring.py:285-342 | When the location is refreshed, when a second pass is made, what each pass asks, and which routing is cached afterwards |
| `MonitorEngines.MonitorEngine.ApplyOutcome` | src/aruba_session_tracker/services/monitoring.py:343-390 | Applies the outcome to the sessions of the reservation in place, with the overflow branch and the count of empty polls |
| `MonitorEngines.MonitorEngine.CalculatePoll` | src/aruba_session_tracker/services/monitoring.py:272-421 | The whole calculation; it changes the sessions that it was given and no other object |
| `MonitorEngines.MonitorEngine.PrepareForPersistence` | src/aruba_session_tracker/services/monitoring.py:233-270 | A prepared poll is calculated from the committed state, and every committed session and its controller dictionary are what they were, although sessions are changed in place; all objects of the poll are new |
| `MonitorEngines.MonitorEngine.InstallPrepared` | src/aruba_session_tracker/services/monitoring.py:425-435 | Installs exactly the outstanding poll of this engine, its routing only within the same location epoch; the session objects of the poll become the committed ones |
| `MonitorEngines.MonitorEngine.PollOnce` | src/aruba_session_tracker/services/monitoring.py:225-231 | A poll without persistence commits exactly what it calculated and leaves nothing outstanding |
| `MonitorEngines.MonitorEngine.Release` | src/aruba_session_tracker/services/monitoring.py:451-453 | Gives up the reservation if it is that of this generation |
| `MonitorEngines.MonitorEngine.DiscardPrepared` | src/aruba_session_tracker/services/monitoring.py:455-461 | Gives up a prepared poll of this engine and changes nothing else; a foreign poll is refused |
| `LifecycleHistory.ActiveMapRefinesHistory` | src/aruba_session_tracker/services/monitoring.py:342-390 | After any history a flow is active if and only if it was seen, no later poll overflowed, and fewer than the limit of authoritative polls followed; its miss count is their number |
| `LifecycleHistory.ActiveIsBounded` | src/aruba_session_tracker/services/monitoring.py:344-374 | The active map never exceeds 20,000 flows if no poll observes more (`PollAnswers.ActiveStaysBounded` has no such condition) |
| `LifecycleHistory.AbsenceEvents` | src/aruba_session_tracker/services/monitoring.py:698-719 | MISSED and CLOSED are emitted exactly for the active flows that a conclusive poll did not see |
| `LifecycleHistory.QuietWhenPartial` | src/aruba_session_tracker/services/monitoring.py:346-361 | A poll that is reported as not authoritative emits no MISSED and no CLOSED |
| `LifecycleHistory.SecondMissRefreshes` | src/aruba_session_tracker/services/monitoring.py:316-340 | Every event with a miss count of two comes from a poll that refreshed the MM location |
| `LifecycleHistory.EventGrammar` | src/aruba_session_tracker/services/monitoring.py:575-720 | Over every history the events of an instance begin with STARTED, number its misses without gaps, close exactly at the limit, and end there; an active session agrees with them |
| `LifecycleHistory.ConfirmedAgrees` | src/aruba_session_tracker/services/monitoring.py:686-696 | The confirmed host of an active flow is that of its last authoritative poll with a single controller, as the history defines it |
| `LifecycleHistory.ControllerChangeIff` | src/aruba_session_tracker/services/monitoring.py:645-662 | CONTROLLER_CHANGED is emitted if and only if a conclusive poll sees the flow on one controller other than the confirmed one, and it names the confirmed host as the previous one |
| `EngineRuns.OnlyOneOutstanding` | src/aruba_session_tracker/services/monitoring.py:240-245 | In every interleaving at most one prepared poll is outstanding, and meanwhile another prepare changes nothing |
| `EngineRuns.CommittedStateIsHistory` | src/aruba_session_tracker/services/monitoring.py:423-435 | The committed sessions are those of the history of committed polls, the events that were reported are the events of that history, and its generations increase |
| `EngineRuns.OnlyCommitsChange` | src/aruba_session_tracker/services/monitoring.py:233-270 | However many callers prepare, calculate, fail, discard and invalidate, a run without a commit leaves the committed sessions, counts, result and history as they were |
| `EngineRuns.CommitsBuildOnCommitted` | src/aruba_session_tracker/services/monitoring.py:423-435 | No update is lost: in every reachable state the sessions, counts and events that a commit installs are those of its poll applied to the state that is committed at that moment |
| `EngineRuns.DiscardRestores` | src/aruba_session_tracker/services/monitoring.py:455-461 | A discard leaves the state from which the poll was prepared, and the next prepare succeeds |
| `EngineRuns.NoStaleLocation` | src/aruba_session_tracker/services/monitoring.py:427-430 | A cached location comes from a poll that began after the last invalidation |
| `EngineRefinement.OperationRefines` | src/aruba_session_tracker/services/monitoring.py:216-252 | Whatever a step of the engine does, in every reachable state, the engine of the runtime protocol refuses or does the like, and has then committed the same polls, in the same order, with their generations |
| `EngineRefinement.ImageIsKept` | src/aruba_session_tracker/services/monitoring.py:216-461 | After any run, the image has the generation, reservation, epoch and exactly the committed polls of the whole engine, and a cached location only of the present epoch |
| `PollAnswers.ConcludedStaysSmall` | src/aruba_session_tracker/services/monitoring.py:281-340 | Whatever the devices answer, in one pass or two under the budget of the poll, a concluded poll has at most 20,000 observations |
| `PollAnswers.ActiveStaysBounded` | src/aruba_session_tracker/services/monitoring.py:281-374 | In every run of the engine whose polls are answered by the tracker, at most 20,000 sessions are active |
| `RawLimits.OnePassFits` | src/aruba_session_tracker/services/tracker.py:95-102 | The Raw snapshots of a poll that asks once always fit |
| `RawLimits.SecondPassExceeds` | src/aruba_session_tracker/services/monitoring.py:316-340 | A second pass can make the poll too large for the store as soon as the first pass and one answer reach the limit |
| `RawLimits.RawFitsIff` | src/aruba_session_tracker/storage/session_store.py:1499-1509 | Given the first pass, the merged poll can be stored whatever the second pass meets, if and only if there is no second pass |
| `RawScenario.LongAnswersExceed` | src/aruba_session_tracker/services/monitoring.py:316-340 | The same with answers of at most 4 MiB: for every monitor of four devices with a fresh full scan and a session missed once, a poll of two passes that cannot be stored |
| `RawScenario.TwoPassesExceed` | src/aruba_session_tracker/services/monitoring.py:316-340 | Such a monitor and such a poll exist |
| `FewDevices.FewDevicesFit` | src/aruba_session_tracker/services/monitoring.py:316-340 | With answers of at most 4 MiB, and names and keys of ordinary length, two passes that ask for seven answers at most always fit: three devices and one address, or two and two |
| `BatchLimits.EventsStayBounded` | src/aruba_session_tracker/storage/session_store.py:1480-1484 | A poll of at most 20,000 observations reports at most 80,000 events, over any table of sessions, whether or not it overflows |
| `BatchLimits.SnapshotsStayBounded` | src/aruba_session_tracker/storage/session_store.py:1485-1489 | An answered poll has at most one snapshot of each address, and of each enabled device in each pass |
| `BatchLimits.HeldPollsAreStored` | src/aruba_session_tracker/storage/session_store.py:1470-1512 | In every run whose polls are answered by the tracker, the store accepts a prepared poll if and only if its Raw snapshots fit, and every poll of one pass; the site has fewer than 10,000 devices |
| `Topology.ClientIps` | src/aruba_session_tracker/models.py:208-212 | The entered addresses, each once |
| `Topology.MatchesContain` | src/aruba_session_tracker/models.py:220-234 | A row that matches a request, in either direction, contains every entered address |
| `Topology.ValidateTopology` | src/aruba_session_tracker/models.py:320-357 | The loop with its three growing sets accepts exactly the device lists in which no two devices share a host, a normalised name or a token, with distinct mobility masters |
| `Topology.MappedOnce` | src/aruba_session_tracker/services/tracker.py:698-711 | In a valid topology a non-empty switch token maps to at most one device |
| `Addresses.SwitchTextKept` | src/aruba_session_tracker/parsers/global_users.py:284-286 | The text of a parsed switch address normalises to itself and is not empty |
| `Topology.LocationMappedOnce` | src/aruba_session_tracker/services/tracker.py:698-711 | So in a valid topology every location maps to at most one device |
| `RawBundle.SizeGrows` | src/aruba_session_tracker/raw_bundle.py:76-99 | One more snapshot takes at least the bytes of its output more, also when the first bundle replaces a plain output |
| `Tracker.PollBudget.ConsumeRaw` | src/aruba_session_tracker/services/tracker.py:88-93 | Adds to the consumed bytes if the sum stays within the limit |
| `Tracker.PollBudget.ConsumeSnapshots` | src/aruba_session_tracker/services/tracker.py:95-102 | Replaces the consumed bytes by the exact stored size of all snapshots of the pass, if they can be stored within the limit |
| `Tracker.PollBudget.ConsumeObservations` | src/aruba_session_tracker/services/tracker.py:104-110 | Adds to the consumed observations if the sum stays within the limit |
| `Tracker.SelectMm` | src/aruba_session_tracker/services/tracker.py:572-627 | The standby is asked only if the primary is disabled or failed for a network reason other than the deadline; the failures are reported, as recovered after a failover |
| `Tracker.ReadAll` | src/aruba_session_tracker/services/tracker.py:629-679 | The loop over the entered addresses, with its early returns |
| `Tracker.ReadingStores` | src/aruba_session_tracker/services/tracker.py:629-679 | Whatever is read of the locations can be stored within the limit |
| `Tracker.ReadingOkIff` | src/aruba_session_tracker/services/tracker.py:629-679 | Reading succeeds if and only if all the answers together can be stored and each can be parsed |
| `Tracker.ReadingDoubts` | src/aruba_session_tracker/services/tracker.py:662-673 | Then it reports an ambiguous switch if and only if some address has one |
| `Tracker.ReadLocations` | src/aruba_session_tracker/services/tracker.py:629-689 | The location of both clients, and the permission for a full scan only if every entered address is explicitly absent |
| `Tracker.MatchRows` | src/aruba_session_tracker/services/tracker.py:506-513 | The inner loop adds the matching rows of sessions that are not there yet, and their keys |
| `Tracker.AskDevice` | src/aruba_session_tracker/services/tracker.py:420-536 | What one device contributes in every case of failure, limit and success, and when no further device is asked |
| `Tracker.AskDevices` | src/aruba_session_tracker/services/tracker.py:407-536 | The device loop with its early ends |
| `Tracker.GatheredCompleteIff` | src/aruba_session_tracker/services/tracker.py:441-536 | The loop completes if and only if every device answered in full, all rows together fit into the budget, and all snapshots with their keys can be stored together |
| `Tracker.GatheredComplete` | src/aruba_session_tracker/services/tracker.py:506-516 | A complete gathering holds exactly the matching rows of the full tables of the devices |
| `Tracker.GatheredPartition` | src/aruba_session_tracker/services/tracker.py:506-536 | Every gathered observation belongs to exactly one snapshot, also after a contribution was taken back |
| `TrackerServices.TrackerService.Rotated` | src/aruba_session_tracker/services/tracker.py:725-734 | A full scan starts one device further each time |
| `TrackerServices.TrackerService.RequiredDevices` | src/aruba_session_tracker/services/tracker.py:230-254 | Every required host is exactly one enabled device, or the query stops with a routing diagnostic |
| `TrackerServices.TrackerService.Targeted` | src/aruba_session_tracker/services/tracker.py:279-282 | The mapped locations with their own filter address, then the required devices that are missing |
| `TrackerServices.TrackerService.Route` | src/aruba_session_tracker/services/tracker.py:227-405 | The choice between targeted query, repeated scan, approved scan and giving up |
| `TrackerServices.RouteFoundIff` | src/aruba_session_tracker/services/tracker.py:227-405 | A route without a doubt is found if and only if every location is a device of the configuration, so is every required host, and there is somebody to ask |
| `TrackerServices.RouteNeverAmbiguous` | src/aruba_session_tracker/services/tracker.py:712-722 | In a valid configuration routing never calls a switch or a required host ambiguous |
| `TrackerServices.RouteCovers` | src/aruba_session_tracker/services/tracker.py:279-382 | Such a route leads to every mapped location and every required controller; after a full scan to the devices that it had found, before it to all |
| `TrackerServices.TrackerService.Locate` | src/aruba_session_tracker/services/tracker.py:559-689 | The whole search for the locations |
| `TrackerServices.TrackerService.QueryOnce` | src/aruba_session_tracker/services/tracker.py:185-557 | The whole query, its budget and its scan cursor |
| `TrackerServices.AuthoritativeIff` | src/aruba_session_tracker/services/tracker.py:260-278 | A query is authoritative if and only if the location was a cached one, whatever its lookup had doubted, or the clients were located unambiguously, a route without a doubt was found, everybody asked answered in full, the rows fit into the budget, and all the answers of the pass can be stored together |
| `TrackerServices.AuthoritativeIsComplete` | src/aruba_session_tracker/services/tracker.py:384-557 | An authoritative query asked everybody who had to be asked given the location that it found or reused, and its observations are exactly the matching rows of the full tables of the devices that it asked |
| `TrackerServices.ObservationsGenuine` | src/aruba_session_tracker/services/tracker.py:506-513 | Whatever fails, every observation is a matching row of the table of a device that was asked |
| `TrackerServices.EvidenceIsPartition` | src/aruba_session_tracker/services/tracker.py:409-557 | Whatever fails, every observation belongs to exactly one Raw snapshot |
| `TrackerServices.QueryWithinBudget` | src/aruba_session_tracker/services/tracker.py:88-110 | Whatever fails, the stored size of the snapshots of a query is within the limit, and every observation was paid for in the budget |
| `TrackerServices.TwoPassesShareBudget` | src/aruba_session_tracker/services/monitoring.py:287-335 | The two passes of a poll, merged, stay within its one observation budget, and the evidence is still a partition |
| `ReusedLocation.DoubtRepeatedIff` | src/aruba_session_tracker/services/tracker.py:668-679 | The routing of a query that reuses a location doubts if and only if a clear answer of its lookup names no device of the configuration; an ambiguous answer is not doubted again |
| `ReusedLocation.AsksEveryNamedIff` | src/aruba_session_tracker/services/tracker.py:252-382 | A route found with a reused location asks the device of every switch that the lookup named, for every entered address, if and only if every clear switch is mapped and every switch of an unclear answer is the device of another entered address or of a required controller |
| `ReusedLocation.AuthoritativeAsksIff` | src/aruba_session_tracker/services/tracker.py:260-278 | For an authoritative query that reuses a location the condition on the unclear answers alone decides it |
| `ReusedLocation.AbsenceProvesIff` | src/aruba_session_tracker/services/tracker.py:260-263 | Such a query sees every matching row of every named device, whatever the tables of the devices hold, if and only if each named device is asked for another reason |
| `AmbiguousMiss.MissProvesAbsence` | src/aruba_session_tracker/services/monitoring.py:310-340 | If they all are, a poll of one pass that reuses the location counts or closes a session only if no named device shows a row of it |
| `AmbiguousMiss.ReusedDoubtMisses` | src/aruba_session_tracker/services/monitoring.py:288-307 | Otherwise it can be wrong: a run of three answered polls whose last commit misses an active session, after a lookup that was ambiguous, while a named device shows it |
| `Cancellation.CancellationToken.Cancel` | src/aruba_session_tracker/collectors/ssh.py:84-89 | The first cancellation takes a snapshot of the callbacks; later ones get nothing |
| `Cancellation.CancellationToken.Enter` | src/aruba_session_tracker/collectors/ssh.py:115-123 | A scope registers its callback, or is told to run it at once after a cancellation |
| `Cancellation.CancellationToken.Leave` | src/aruba_session_tracker/collectors/ssh.py:129-132 | Leaving removes the callback of exactly this scope |
| `Cancellation.AtMostOnce` | src/aruba_session_tracker/collectors/ssh.py:84-132 | In every interleaving a callback runs at most once, and only if cancellation took effect before its scope ended |
| `Cancellation.ExactlyOnceWhenConcerned` | src/aruba_session_tracker/collectors/ssh.py:90-132 | Once all threads are done, it has run exactly once if cancellation came before the scope ended, and never otherwise, whether or not other callbacks raised |
| `SshPool.MonitoringPool.Request` | src/aruba_session_tracker/collectors/ssh.py:1483-1497 | The entry of an endpoint, created within the limit; a closed or full pool refuses and changes nothing |
| `SshPool.MonitoringPool.Invalidate` | src/aruba_session_tracker/collectors/ssh.py:1512-1514 | Removes all entries and hands them to the caller |
| `SshPool.MonitoringPool.Close` | src/aruba_session_tracker/collectors/ssh.py:1520-1526 | The same for good; a second close gets nothing |
| `SshPool.MonitoringPool.Accept` | src/aruba_session_tracker/collectors/ssh.py:1562-1570 | A new connection is retained exactly when the pool is open, the entry is still that of the endpoint, and it is empty |
| `SshPool.MonitoringPool.RemoveEmptyEntry` | src/aruba_session_tracker/collectors/ssh.py:1603-1608 | An entry is removed only if it is still that of the endpoint and empty |
| `SshPool.MonitoringPool.Take` | src/aruba_session_tracker/collectors/ssh.py:1404-1413 | Empties an entry unless it holds another connection than the expected one |
| `SshPoolRuns.BoundedEntries` | src/aruba_session_tracker/collectors/ssh.py:1491-1497 | In every interleaving the pool has at most its limit of entries, and none once it is closed |
| `SshPoolRuns.OneRetainedPerEndpoint` | src/aruba_session_tracker/collectors/ssh.py:1562-1570 | Of two connections retained for one endpoint, one has left the pool and a closer is about to take it |
| `SshPoolRuns.NoSharedSend` | src/aruba_session_tracker/collectors/ssh.py:1652-1806 | Two leases never send on the same connection at the same time |
| `SshPoolRuns.NoConnectionLeaks` | src/aruba_session_tracker/collectors/ssh.py:1509-1621 | Once the pool is closed and every lease has left, every connection ever opened was aborted or closed |
| `SshPoolRuns.PendingCloseNotRetained` | src/aruba_session_tracker/collectors/ssh.py:1700-1724 | A connection that a leaving lease is about to close is no longer retained by the pool |
| `SshPoolAborts.LateAbortIff` | src/aruba_session_tracker/collectors/ssh.py:1700-1724 | An abort strikes the connection on which another lease is sending if and only if its own lease has let go of the entry, the connection is still in the slot, and another lease of the entry is sending |
| `SshPoolAborts.LateAbortStrikes` | src/aruba_session_tracker/collectors/ssh.py:1755-1762 | A reachable state in which the abort of a lease that left in good order takes the connection of a later lease that is sending |
| `OutputLimits.BoundedSessionLog.BeginCommand` | src/aruba_session_tracker/collectors/ssh.py:693-702 | Arms the limits and forgets what was counted before |
| `OutputLimits.BoundedSessionLog.Write` | src/aruba_session_tracker/collectors/ssh.py:708-739 | One chunk: the bytes and the line counter after it, and refusal exactly beyond a limit |
| `OutputLimits.BoundedSessionLog.EndCommand` | src/aruba_session_tracker/collectors/ssh.py:704-706 | Disarms the limits |
| `OutputLimits.CounterCountsLines` | src/aruba_session_tracker/collectors/ssh.py:720-734 | The streaming counter over a text is the number of its lines |
| `OutputLimits.Stream` | src/aruba_session_tracker/collectors/ssh.py:2095-2103 | However a text is cut into chunks, even within CRLF, the stream is accepted if and only if the check of the whole text accepts it |
| `OutputLimits.ClosedFormCountsPieces` | src/aruba_session_tracker/offline/parser.py:236-243 | The closed formula counts the pieces that the splitter yields, from any point of the text |
| `OutputLimits.OfflineLineLimit` | src/aruba_session_tracker/offline/parser.py:236-245 | So the limit checked before splitting is a limit on the lines |
| `Release.AcceptanceIff` | tools/continuous_release_state.py:412-480 | The planner raises if and only if the release is not an owned, consistent prerelease; the desired release and the flags do not matter |
| `Release.DoneMeansPublished` | tools/continuous_release_state.py:436-461 | The planner answers DONE only for a published, ready release with the desired tag, target and exactly the desired ZIP |
| `ReleaseDriver.NeverRaises` | tools/publish_continuous.ps1:374-593 | From an accepted release, whatever actions complete, crash half-way or are resumed for another desired release, the planner never raises |
| `ReleaseDriver.PublicReadyAgrees` | tools/continuous_release_state.py:492-503 | In all these runs a published release that says it is ready agrees with its tag, its target and its ZIP |
| `ReleaseDriver.RankDecreases` | tools/continuous_release_state.py:412-480 | Every completed action strictly decreases a rank that is zero only at DONE |
| `ReleaseDriver.Reconcile` | tools/publish_continuous.ps1:374-573 | The loop completes within its forty actions and leaves the desired release published, tagged and with exactly its ZIP |
| `ReleaseSelection.CheckCandidate` | tools/continuous_release_state.py:320-369 | One candidate is refused exactly when it is unsound or its ID was seen, and otherwise yields its unfinished uploads |
| `ReleaseSelection.CheckAll` | tools/continuous_release_state.py:316-369 | The first loop accepts exactly lists of sound candidates with distinct IDs |
| `ReleaseSelection.ChooseKeeper` | tools/continuous_release_state.py:371-388 | The keeper is the published one, else the once published, else the one with assets, else that with the least ID; it fails exactly when no candidate can be kept with all others disposable |
| `ReleaseSelection.Sweep` | tools/continuous_release_state.py:390-402 | Everything beside the keeper must be an empty, never published draft with a marker |
| `ReleaseSelection.Select` | tools/continuous_release_state.py:311-409 | The whole choice: its result is the accepted selection, and an error means that there is none |
| `ReleaseSelection.SelectionPartitions` | tools/continuous_release_state.py:390-409 | Keeper and deleted releases partition the candidates; nothing published, once published or holding assets is deleted |
| `ReleaseSelection.OrderIndependent` | tools/continuous_release_state.py:311-409 | The order in which the candidates are listed does not matter |
| `ReleaseSelection.SelectionUnique` | tools/continuous_release_state.py:371-409 | There is at most one accepted selection |
| `FilterIndex.BuiltFits` | src/aruba_session_tracker/storage/html_report.py:104-129 | An entry of the built index lists, for each direction, exactly the rows in which its key occurs |
| `FilterIndex.ToRecordOk` | src/aruba_session_tracker/storage/html_report.py:80-101 | Whatever the texts of a row are, their trimmed and normalised forms meet the one assumption of the index |
| `FilterIndex.IndexAgreesIff` | src/aruba_session_tracker/storage/html_report.py:224-246 | The rows that the index admits are those of a scan, for all settings, if and only if no bare dash and padded dash meet among the protocols |
| `FilterIndex.ClashShows` | src/aruba_session_tracker/storage/html_report.py:114-115 | If they do meet, a setting that the page offers hides a row from the index that a scan admits |
| `FilterIndex.RenderedNeverClash` | src/aruba_session_tracker/storage/html_report.py:826-828 | On a page of the report writer they never meet |
| `FilterIndex.AnswerIsScan` | src/aruba_session_tracker/storage/html_report.py:250-261 | The candidates from the index are those of a scan of the rows under the other filters: values, directions and order |
| `FilterIndex.SuggestionLeavesRow` | src/aruba_session_tracker/storage/html_report.py:313-320 | Choosing any candidate leaves a row of the history visible, even if dashes meet |
| `FilterIndex.ClearingLeavesRow` | src/aruba_session_tracker/storage/html_report.py:374-389 | Clearing a filter never takes such a row away |
| `FilterScript.FilterUi.AddDirectionalIndex` | src/aruba_session_tracker/storage/html_report.py:104-113 | One cell enters the index of its kind, under its key and direction |
| `FilterScript.FilterUi.AddProtocolIndex` | src/aruba_session_tracker/storage/html_report.py:114-122 | One protocol cell enters the protocol index and, once per key, the selector |
| `FilterScript.FilterUi.BuildIndexes` | src/aruba_session_tracker/storage/html_report.py:123-129 | The loop over the history builds all indexes |
| `FilterScript.FilterUi.DirectionalRowSet` | src/aruba_session_tracker/storage/html_report.py:214-219 | The memoised rows of a value are the rows that hold it on either side |
| `FilterScript.FilterUi.ProtocolRowSet` | src/aruba_session_tracker/storage/html_report.py:220-223 | The same for a protocol |
| `FilterScript.FilterUi.EligibleRows` | src/aruba_session_tracker/storage/html_report.py:224-246 | The intersection of the row sets of the other filters, or no restriction; the order of the sets does not matter |
| `FilterScript.FilterUi.CandidateValues` | src/aruba_session_tracker/storage/html_report.py:250-261 | The cached or computed candidates are the answer for the present filters |
| `FilterScript.FilterUi.RenderSuggestions` | src/aruba_session_tracker/storage/html_report.py:321-356 | An open list offers the candidates that match the query |
| `FilterScript.FilterUi.SelectCandidate` | src/aruba_session_tracker/storage/html_report.py:313-320 | Choosing from an open list, also from one that was opened before another filter was cleared, leaves a visible row |
| `FilterScript.FilterUi.InputChanged` | src/aruba_session_tracker/storage/html_report.py:374-390 | Typing closes the list and clears the filter of its kind when the text differs from it |
| `FilterScript.FilterUi.SelectProtocol` | src/aruba_session_tracker/storage/html_report.py:478-483 | The protocol selector sets its filter, drops the caches and closes the lists |
| `FilterScript.FilterUi.Reset` | src/aruba_session_tracker/storage/html_report.py:484-496 | Resetting clears all filters, caches and lists |
| `FilterScript.FilterUi.CacheIsScan` | src/aruba_session_tracker/storage/html_report.py:132-136 | In every valid state of the script a cache that is not empty equals a scan of the history under the other filters |
| `Digits.BoundedCountIff` | src/aruba_session_tracker/offline/parser.py:656-668 | Comparing digit strings by length and then by text is comparing the numbers, at any length and with leading zeros |
| `Datapath.RowRoundTrip` | src/aruba_session_tracker/parsers/datapath.py:114-169 | Printing a row, with, without or with dashed flags, and parsing it gives it back |
| `Datapath.AcceptedRowColumns` | src/aruba_session_tracker/parsers/datapath.py:121-152 | In an accepted row every number stands in the column where it is read; only the flags may be missing, and exactly then |
| `Datapath.ReadTable` | src/aruba_session_tracker/parsers/datapath.py:63-102 | The loop over the data lines yields different sessions within the limit, or the first error |
| `Datapath.ParseSessions` | src/aruba_session_tracker/parsers/datapath.py:37-110 | The whole parser on classified lines |
| `Datapath.PrintedTableParses` | portfolio_demo/fixture_transport.py:135-155 | What a printed table gives for every declared count: its rows if the count is true, and otherwise which error |
| `Datapath.TableRoundTrip` | src/aruba_session_tracker/parsers/datapath.py:37-110 | Printing rows of different sessions with header, separator and footer and parsing them gives the rows back |
| `Datapath.TruncationRejected` | src/aruba_session_tracker/parsers/datapath.py:104-109 | Deleting any row of an accepted table with a footer is rejected, whatever stands before the title or around the rows |
| `Datapath.CountIsKept` | src/aruba_session_tracker/parsers/datapath.py:272-337 | An accepted table with a footer has as many rows as the footer says |
| `OfflineBlock.ParseBlock` | src/aruba_session_tracker/offline/parser.py:316-354 | The loop over an exported block, with its two flags |
| `OfflineBlock.AcceptedIff` | src/aruba_session_tracker/offline/parser.py:316-354 | A block is accepted with these rows if and only if, blank lines aside, it is readable rows and dashes, followed by a prompt, or by the true count and perhaps a prompt |
| `OfflineBlock.DeletionRejected` | src/aruba_session_tracker/offline/parser.py:350-354 | Deleting any row of an accepted block that declares its count is rejected |

## Left out

- The runs of the runtime after a one-shot result was overwritten: `Enabled` ends a run before such a step, whose
  effect is stated by `RuntimeOverlap.RunLostIff`.
- RuntimeScenarios.LateFinallyDropsStop: the cancel token of a running poll, which a stop sets and a late `finally` does
  not take back, is not modelled.
- The SSH pool inside the runtime: closing it when a monitor is detached, and invalidating it with the location.
- The store itself: a receipt map that may refuse an entry that contradicts an earlier one, answer indeterminately,
  or fail. Diagnostic fields such as `last_persistence_status` and `last_shutdown_error` are not kept.
- Exceptions that are not subclasses of `Exception`, and the wording of error messages.
- Instance identifiers: an instance is known by its flow and the prepare generation of the poll that started it,
  instead of a random UUID.
- RuntimeTheorems.ExactlyOnce: the engine of this system commits in one step; that `_commit_prepared` releases its
  outstanding poll in a second locked block, after the callbacks, is modelled in `EngineRuns`.
- `MonitorEngine.run`, `start` and `stop`: the thread that polls periodically, its waiting and its backoff table.
- SshPoolRuns.NoConnectionLeaks: says "aborted or closed at least once", because `_send` and `_close_entries` abort
  and close without a common guard; that each is called once is not claimed.
- SshPoolRuns.OneRetainedPerEndpoint: between `invalidate` and the moment its caller takes the connection, a new
  entry for the same endpoint may already hold another one; the theorem names exactly this window.
- Handshakes, sockets, `known_hosts`, deadlines as clock values (a deadline is a step that cuts a poll).
- Tracker.MatchRows: rows come from an arbitrary reply of the device; that the device's own filter shows exactly the
  rows that contain the filter address is the assumption `Faithful` of the completeness theorem.
- TrackerServices.AuthoritativeIff: a reused location counts as it was stored; what its lookup had doubted is the
  subject of `ReusedLocation`.
- TrackerServices.AuthoritativeIsComplete: complete for the stored location; for the devices that its lookup named see
  `ReusedLocation.AuthoritativeAsksIff`.
- AmbiguousMiss.MissProvesAbsence: polls of one pass; the second pass of a poll looks the location up anew.
- The fair share of the deadline that each device gets, and progress callbacks. White space and case folding are
  arbitrary character tables that leave digits and dots alone.
- Devices and requests are assumed to have passed their constructors' checks of ports and addresses, and a
  configuration its validation (`Configured`).
- The texts of snapshots: an output is its number of bytes, and `Encoding` gives the length of a text as JSON prints it.
- RawLimits.RawFitsIff: the second pass may meet answers of any length; for answers of at most 4 MiB see
  `FewDevices.FewDevicesFit` and `RawScenario.LongAnswersExceed`.
- RawLimits.OnePassFits: the bytes only; `BatchLimits.HeldPollsAreStored` adds the other limits of the store.
- LifecycleHistory.ActiveIsBounded: assumes the bound of each poll, which `PollAnswers.ActiveStaysBounded` proves.
- MonitorEngines.MonitorEngine.CalculatePoll: the immutable snapshots of the active sessions in the poll result.
- The marker text of a release body: a body is its list of owner markers and state markers. Asset names are known
  by the pattern that they match; commits and digests are numbers, so letter case is already folded.
- The release script's downloads, its check that `main` has not moved, and its uploads that stop in the middle
  (an unfinished upload is what `ReleaseSelection` calls a starter asset). One run of the script at a time.
- ReleaseSelection.Select: says which lists are refused, not with which of its messages; the sorted tuples of IDs
  are sets here.
- FilterIndex.AnswerIsScan: the ranking, natural sorting and length limit of the suggestions, and `normalize` for
  letters outside ASCII. The rows of the latest-sessions table are filtered by the same predicate and have no index.
- The DOM, timers and keyboard handling of the report, and its Python formatting helpers.
- Datapath.ParseSessions: the input is a list of classified lines and tokens; regular expressions, IPv4 syntax, the
  search for rejected commands and the raw text of a row are not modelled.
- Datapath.RowRoundTrip: signs, underscores and digits outside ASCII that Python's `int` would accept are refused.
- OfflineBlock.ParseBlock: the fixed-width layout, the parsing of one row, and cancellation during the loop.
- OutputLimits.CounterCountsLines: line breaks other than CR, LF and CRLF, which `splitlines` also honours.
- The desktop interface, the demo, SQLite, packaging, and the offline enrichment tables: they would add easy
  members only.
