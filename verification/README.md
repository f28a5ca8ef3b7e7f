# Build and deployment control plane: a verified model

This project models the parts of the orchestrator whose correctness is hardest to
see by reading: state that crashing workers, duplicate deliveries and competing
operations all write, and the algorithms those operations call. To verify it:
`dafny verify dfyconfig.toml` (Dafny 4.11).

**Protocols** are step systems. A step is one repository call, one external call
or one crash; `Run` plays any schedule of steps, and a step that is not enabled
changes nothing, so a statement about `Run(Initial, schedule)` is about every
interleaving.

- `Manifests`, `CleanupProtocol`, `ManifestRules`, `CleanupRunner`: the per-build lease,
  the fenced resource manifest and the cleanup state machine; what each write does,
  told without the functions; one uninterleaved cleanup pass.
- `Builds`, `Trigger`, `LateReservation`, `Quiescence`, `TriggerProgress`: the build
  status machine, triggering Jenkins at most once, keeping cleanup away from a running
  execution, and getting from an accepted trigger to BUILDING.
- `Delivery`, `DeliveryOutcome`, `LeaseView`: the crash-restartable dynamic check and the delivery around
  it, and why that model may treat the lease as a holder that enters and is lost.
- `RouteRows`, `RouteProtocol`, `RouteProgress`: the generation and compare-and-set protocol of a
  static route check, the dynamic results that share its row, and why no check is stuck.
- `Repository`, `CleanupStore`, `RouteStore`: the in-memory repository as a class, and
  the two protocols played on it: any schedule of callers of these methods is a run of
  the step system, so what is proved of every run holds of the stored records.

**Algorithms** take the source's own form: loops over local state, a recursive walk
over mutable sets, a file tree changed in place, and pure recursion.

- `Names`, `Graphs`, `Ordering`, `Acyclic`: deployment order, depth-first cycle check.
- `Ports`, `PortStability`, `Deployments`: the reservation table, the port allocator,
  and any number of deployments allocating at the same time.
- `Json`, `JsonPath`, `ResponseChecks`, `ProbePayload`, `ProbeRules`: probe comparison,
  paths, the assertions on a response, payload normalisation and repair.
- `Interpolation`: `${VAR}` placeholders (Interpolation section of the Compose
  Specification; the code's own operators, which are a subset).
- `WorkspacePaths`, `Workspace`: the workspace store.

## Findings

- **The Jenkins reservation can be refused unnoticed.** The result of the write that
  sets `jenkins_trigger_pending` (`orchestrator/worker_runtime.py:337`) is not
  looked at. If the lease runs out after the last `guard` and before that write,
  Jenkins is called with nothing on record. `Trigger.TriggersAtMostOnce` proves the
  promise for every run whose reservations are written under the lease;
  `LateReservation.TwoExecutionsAreReachable` shows that it fails otherwise.
  `LateReservation.ReservationDecides` is the exact condition, in every state that a
  run so far in time can reach and known before the write: at most one execution
  starts, whatever is scheduled next, if and only if the worker still holds the lease
  or its call is `Spent`. When nothing is on record the lease alone decides
  (`LateReservation.LeaseDecides`). `Spent` covers the rest: a late call is the only
  one when nothing was started, nobody else is calling, and either a reservation made
  by another worker stays on record for good (no lease holder is about to clear it
  after a rejection while the build is still TRIGGERING), or the build is FAILED or
  CANCELLED and no lease holder is about to reserve. If another worker has already
  started an execution or is calling, a late call makes it two.
- **A dispatch error can race the trigger.** `BuildService` marks a build FAILED
  without holding its lease when enqueueing raises
  (`orchestrator/services.py:536-539`). `Quiescence.DispatchDecides` is the exact
  condition, known before that write: cleanup waits for Jenkins, whatever is scheduled
  next, if and only if no worker is about to reserve under the lease.
  `Quiescence.CleanupWaitsForJenkins` proves the promise for every run that respects
  it, and `Quiescence.RaceIsReachable` reaches the failure from the start with every
  reservation in time.
- **A value containing NaN does not contain itself** (`Json.ContainsIsReflexiveIff`).
  A response is compared only after `json.dumps` has refused NaN and infinities,
  and every value that passes is free of NaN (`Json.StorableIsOrdinary`).
- **Idempotence of `validate_probe_payload` ends at the size limit**: normalising writes
  out the protocol and the headers (`ProbePayload.NormalGrows`).
  `ProbePayload.ValidateTwice` gives the exact condition, and
  `ProbePayload.PlainValidatesOnlyOnce` a request that is accepted once and not twice.
- **A port owner ends with two reservations** exactly when an earlier reservation of
  its own can no longer be used or there were several (`PortStability.OneReservationEach`;
  `PortStability.OccupiedReservationLeavesTwo` gives the table); the allocation itself is
  still stable (`PortStability.CrashesDoNotMatter`).

## Model

| member | source | states |
|---|---|---|
| CleanupProtocol.SucceededMeansRemoved | orchestrator/build_resources.py:273-390 | in every reachable state of any interleaving of requests, cleanup runs, deployments, heartbeats, expiry, crashes and failed enqueues, cleanup SUCCEEDED implies every resource of the manifest is REMOVED |
| CleanupProtocol.SucceededIsFinal | orchestrator/build_resources.py:166-198 | SUCCEEDED is never left and the manifest it was reached on never changes again |
| CleanupProtocol.CleanupCanSucceed | orchestrator/build_resources.py:166-390 | SUCCEEDED is reachable from every state, whoever crashed with the lease and whatever failed before |
| ManifestRules.RecordStores | orchestrator/build_resources.py:35-58 | which entries are refused, and that an accepted one stores its own state, ownership, error and metadata over the registered ones, keeping a native id it does not give |
| ManifestRules.UpdateStores | orchestrator/build_resources.py:60-62 | `update` changes state, error and a given storage note, and nothing else |
| ManifestRules.PutRule | orchestrator/repository.py:511-521 | refused exactly without a live lease of the owner; otherwise one key changes |
| ManifestRules.UpdateRule | orchestrator/repository.py:523-532 | refused exactly when an expected field differs or the expected owner's lease is over; otherwise the given fields are set |
| ManifestRules.ClaimRule | orchestrator/repository.py:534-544 | granted exactly on an allowed status without a live lease, expiry instant included |
| ManifestRules.EntryRule | orchestrator/build_resources.py:77-100 | which kind of worker gets the lease in which cleanup status |
| ManifestRules.VerdictRule | orchestrator/build_resources.py:362-381 | a run under its lease saves SUCCEEDED exactly when its last read finds all removed and nothing was raised |
| ManifestRules.EnqueueFailedRule | orchestrator/build_resources.py:193-197 | the compensation hits exactly the queued request of its own generation |
| CleanupProtocol.QueuedOncePerGeneration | orchestrator/build_resources.py:179-198 | the cleanup generation never decreases, and within a generation QUEUED, once left, does not return, so a failed enqueue can only undo its own request |
| CleanupProtocol.StepGeneration | orchestrator/build_resources.py:179-183 | a step raises the generation by at most one, and entering QUEUED raises it by exactly one |
| CleanupProtocol.LostForGood | orchestrator/build_resources.py:64-73 | an owner that once fails `guard` never passes it again |
| CleanupProtocol.LogIsBlocks | orchestrator/repository.py:511-521 | the log of accepted fenced manifest writes is a concatenation of contiguous per-owner blocks |
| CleanupProtocol.RecordIsAtomic | orchestrator/build_resources.py:35-58 | an accepted `record` acts as one atomic read-modify-write of the stored manifest although it reads first and writes later; a refused one changes nothing |
| CleanupProtocol.RecordedKeepsIdentity | orchestrator/build_resources.py:43-53 | what `record` writes keeps a non-empty native id and a volume's creation token |
| CleanupProtocol.IdentityIsStable | orchestrator/build_resources.py:35-62 | over every run a non-empty native id and a volume creation token, once set, never change and no entry disappears |
| CleanupProtocol.RunInv | orchestrator/repository.py:511-554 | claim, renew, release, put and update keep, under every schedule, that a lease holder's view of the manifest is current |
| CleanupRunner.Runner.Run | orchestrator/build_resources.py:273-390 | only managed, present resources are deleted, in kind order, dependents only after all services and containers are gone and discovery is complete; SUCCEEDED exactly when all is removed and nothing asked outside raised, the builder report, the Docker client, three discoveries, the wait and the final emptiness check having all been asked; every removed resource was removed before, had its deletion confirmed, was settled by the accepted builder report or was recorded so from outside; succeeds when nothing outside fails |
| CleanupRunner.Runner.VerifyBuilder | orchestrator/build_resources.py:293-303 | a refused builder report adds one error and one failed resource, an accepted one marks earlier complaints removed; nothing else changes |
| CleanupRunner.Runner.MayDelete | orchestrator/build_resources.py:333-349 | the checks before a deletion establish the permission rule: managed, present, right target, and for dependents no service or container left and discovery complete |
| CleanupRunner.Runner.CleanOne | orchestrator/build_resources.py:326-360 | an unmanaged resource is blocked and nothing is asked for; a managed one is marked removed exactly when its permitted deletion was confirmed, failed otherwise; no other resource changes, and a lost lease changes nothing |
| CleanupRunner.Runner.CleanAll | orchestrator/build_resources.py:326-360 | every resource of the kind present at the beginning is treated, removed ones and all other kinds stay as they were; with nothing failing outside all end REMOVED |
| CleanupRunner.RemainingRuntime | orchestrator/build_resources.py:333-338 | once earlier kinds are dealt with, a dependent kind finds no service or container left |
| CleanupStore.Workers.Play | orchestrator/repository.py:499-554 | any schedule of lease, read, record and status calls on the repository, interleaved at every call, leaves the manifest that `CleanupProtocol.Run` computes, and no other build is touched |
| CleanupStore.ServeBuild | orchestrator/build_resources.py:166-390 | from the registration of a build on, whatever its workers do on the repository, a stored SUCCEEDED cleanup has removed everything and identities stay |
| CleanupStore.Workers.RequestCleanup | orchestrator/build_resources.py:166-184 | a cleanup request is four steps of the protocol in a row; it queues exactly when cleanup is neither under way nor done and the lease is free, and raises the generation by one |
| CleanupStore.RecordNow | orchestrator/build_resources.py:35-58 | `record` on the repository is the protocol's read and write one after the other |
| Repository.InMemoryRepository.EnsureBuildResources | orchestrator/repository.py:499-504 | the first registration of a build wins; a different owner is refused |
| Repository.InMemoryRepository.PutBuildResource | orchestrator/repository.py:511-521 | the method is the `Put` of the step systems: refused when the owner's lease is gone, one key changed otherwise, other builds untouched |
| Repository.InMemoryRepository.UpdateBuildResources | orchestrator/repository.py:523-532 | the method is the `Update` of the step systems, refused when an expected field differs or the lease expired |
| Repository.InMemoryRepository.ClaimBuildLease | orchestrator/repository.py:534-544 | the method is the `Claim` of the step systems: an allowed status and no live lease |
| Repository.InMemoryRepository.RenewBuildLease | orchestrator/repository.py:546-547 | renews exactly when the owner still holds an unexpired lease, and moves only the expiry |
| Repository.InMemoryRepository.ReleaseBuildLease | orchestrator/repository.py:549-554 | clears the lease only of its own holder |
| Repository.InMemoryRepository.UpdateRouteCheck | orchestrator/repository.py:306-314 | compare-and-set: the row changes exactly when every expected field matches |
| Repository.InMemoryRepository.TransitionBuild | orchestrator/repository.py:412-421 | the status changes exactly when the stored one is expected |
| Repository.InMemoryRepository.DeleteRouteCheck | orchestrator/repository.py:316-325 | removes the row and says whether there was one |
| Repository.ResourceTracker.Update | orchestrator/build_resources.py:60-62 | one fenced write under the resource's key, or nothing |
| Repository.ResourceTracker.Guard | orchestrator/build_resources.py:64-73 | passes exactly when the manifest exists and the owner's lease is unexpired |
| Repository.ResourceTracker.Record | orchestrator/build_resources.py:35-58 | stores the merged resource under its key, or changes nothing because an identity changed or the lease was lost |
| Repository.BuildService.Transition | orchestrator/services.py:552-581 | the status machine of the step systems, given a status read earlier; a missing build and a refusal change nothing |
| Repository.BuildService.Serve | orchestrator/services.py:552-581 | over any sequence of transitions asked for on arbitrarily stale statuses, the stored status moves only along the table and a terminal one is kept |
| Builds.TransitionFollows | orchestrator/services.py:53-62 | a transition asked for on a stale status is refused or moves along the table from the stored one |
| RouteStore.Callers.Play | orchestrator/repository.py:306-325 | any schedule of claims, renewals, verdicts, resubmissions, deletions and dynamic results on the repository leaves the row that `RouteProtocol.Run` computes, and no other row is touched |
| RouteStore.ServeCheck | orchestrator/route_checks.py:208-377 | on the repository each generation gets one verdict, the stored gate opens exactly on a passing one, and a stored dynamic verdict is that of the build and run the row names |
| Trigger.TriggersAtMostOnce | orchestrator/worker_runtime.py:302-361 | over all crashes, redeliveries, lost leases and trigger outcomes at most one possibly started execution, always on record, as long as every reservation is written under the lease |
| Trigger.RunInv | orchestrator/worker_runtime.py:302-361 | what each phase of a delivery knows about the reservation, the queue URL and the starts is kept by every schedule in time |
| LateReservation.ReservationDecides | orchestrator/worker_runtime.py:336-340 | in every state in time, a worker about to reserve can cause no second execution if and only if it still holds the lease or its call is spent |
| LateReservation.LeaseDecides | orchestrator/worker_runtime.py:336-340 | with nothing on record, holding the lease alone decides |
| LateReservation.UnspentStartsTwo | orchestrator/worker_runtime.py:302-361 | a late call that is not spent can be followed by a second execution with all later reservations in time |
| LateReservation.RunAlone | orchestrator/worker_runtime.py:302-361 | after a spent late call no schedule in time starts another execution |
| LateReservation.TwoExecutionsAreReachable | orchestrator/worker_runtime.py:330-340 | from the initial state two executions can start |
| Quiescence.CleanupWaitsForJenkins | orchestrator/build_resources.py:141-172 | cleanup is never queued while a possibly started execution is not known to have ended, in every run with reservations in time and no dispatch error on a build about to be triggered |
| Quiescence.DispatchDecides | orchestrator/services.py:536-539 | marking the build FAILED keeps cleanup waiting under every continuation if and only if no worker is about to reserve under the lease |
| Quiescence.ReachableDispatchDecides | orchestrator/services.py:536-539 | the same after any run in which nothing has gone wrong yet |
| Quiescence.RaceIsReachable | orchestrator/services.py:536-539 | the race is reachable from the initial state with every reservation in time |
| TriggerProgress.AcceptedReachesBuilding | orchestrator/worker_runtime.py:344-361 | an accepted trigger under the lease saves the queue URL, clears the reservation and moves the build to BUILDING |
| TriggerProgress.RejectedClears | orchestrator/worker_runtime.py:340-343 | a definite rejection under the lease clears the reservation and fails the delivery |
| TriggerProgress.PendingFails | orchestrator/worker_runtime.py:302-307 | with a trigger of unknown outcome on record a later delivery fails the build instead of calling |
| TriggerProgress.BuildingIsReachable | orchestrator/worker_runtime.py:246-366 | a fresh build can reach BUILDING with exactly one execution |
| TriggerProgress.QuiescentExactly | orchestrator/build_resources.py:141-164 | when a build is quiescent |
| TriggerProgress.CleanupCanFollow | orchestrator/build_resources.py:166-184 | a build that is over, with its execution ended, can be queued for cleanup |
| Builds.AllowedExactly | orchestrator/services.py:53-62 | one stage further, or FAILED or CANCELLED from any status that is not final |
| LeaseView.StepShows | orchestrator/build_resources.py:77-100 | every step of the lease and cleanup protocol shows in the delivery model as steps of the lease holder and the cleanup status alone |
| LeaseView.HistoriesAreDeliveries | orchestrator/worker_runtime.py:198-223 | every interleaving of the protocol with the steps of a delivery is a run of the delivery model, its holder and cleanup status being those of the protocol |
| Delivery.DeliveryIsSafe | orchestrator/worker_runtime.py:636-654 | a SUCCEEDED build passed its check and owes no teardown; a failed check keeps `teardown_required` until cleanup SUCCEEDED |
| Delivery.TerminalStatusesHold | orchestrator/services.py:53-62 | FAILED and CANCELLED are absorbing over every run |
| Delivery.SucceededIsLeftByResubmission | orchestrator/dynamic_checks.py:69-106 | SUCCEEDED is left only by a resubmitted check, to DEPLOYING, with a fresh run |
| Delivery.EachCallAtMostOnce | orchestrator/dynamic_checks.py:352-405 | for each run at most one initial probe, one Debug Agent call and one retry, over any crashes and re-entries |
| Delivery.VerdictsAreJustified | orchestrator/dynamic_checks.py:352-411 | a retry was made only after a failed initial probe and a repair; "succeeded" is recorded only when the initial or the retry probe of that run passed |
| Delivery.ExecutionConcludes | orchestrator/dynamic_checks.py:334-422 | every execution of a DEPLOYING build that neither crashes nor loses its lease ends in a verdict and the matching build status |
| Delivery.ReachableExecutionConcludes | orchestrator/dynamic_checks.py:334-422 | the same from every reachable state, after any history of crashes and lost leases |
| DeliveryOutcome.ExecutionOutcome | orchestrator/dynamic_checks.py:334-411 | which calls an undisturbed execution makes, given what was saved before it, and that verdict, build status, saved answers and teardown obligation follow from their answers |
| DeliveryOutcome.FreshExecutionPassesIff | orchestrator/dynamic_checks.py:352-411 | a fresh check passes, and the build is delivered, exactly when the initial probe passes, or fails, the agent gives a repair and the retry passes |
| DeliveryOutcome.ReentryDecides | orchestrator/dynamic_checks.py:352-374 | on re-entry a saved passing probe delivers, a saved retry decides, and a begun call without a result fails, all without another call |
| DeliveryOutcome.SavedVerdictStands | orchestrator/dynamic_checks.py:334-342 | a verdict saved before a crash is carried out |
| DeliveryOutcome.TroubleFails | orchestrator/dynamic_checks.py:412-422 | an error in the middle of a check fails the build with a teardown obligation |
| DeliveryOutcome.WorkerFailureFails | orchestrator/worker_runtime.py:1069-1126 | any other worker failure fails the build, with a verdict and a teardown obligation when it was DEPLOYING |
| DeliveryOutcome.ResubmissionReopens | orchestrator/dynamic_checks.py:69-106 | when a check can be resubmitted, and that it then starts with nothing begun or saved |
| DeliveryOutcome.RecoveryFails | orchestrator/dynamic_checks.py:458-483 | a build left DEPLOYING with a failed verdict is failed by recovery |
| DeliveryOutcome.SyncSettles | orchestrator/dynamic_checks.py:424-436 | synchronising ends the obligation exactly with a SUCCEEDED cleanup and mirrors its status |
| Delivery.OwnStepAdvances | orchestrator/dynamic_checks.py:334-422 | every step of an undisturbed execution brings it closer to its end |
| Delivery.StepJustified | orchestrator/dynamic_checks.py:290-332 | every single step keeps the saved record true of the calls actually made |
| Delivery.StepSafe | orchestrator/dynamic_checks.py:424-483 | submission, verdicts, teardown, its synchronisation and recovery each keep the delivery promises |
| RouteProgress.ClaimTakesOver | orchestrator/route_checks.py:271-289 | a worker with a current read takes a row over exactly when it is queued or its run's lease is absent or over, and becomes its current run |
| RouteProgress.StaleClaimFails | orchestrator/route_checks.py:280-286 | a read that is out of date in any of the four fields takes nothing over |
| RouteProgress.UndecidedCanBeDecided | orchestrator/route_checks.py:316-389 | from every reachable state an undecided row can still get either verdict for its generation, and the gate opens on a pass |
| RouteProgress.RenewMovesTheLease | orchestrator/route_checks.py:291-299 | a heartbeat moves the lease of the current run only |
| RouteProgress.ForceOpensTheNext | orchestrator/route_checks.py:208-219 | a forced resubmission of the current generation opens the next one, empty; any other changes nothing |
| RouteProgress.DynamicVerdictCanArrive | orchestrator/dynamic_checks.py:114-160 | a delivery that claims the row and saves a verdict gets it into the row |
| RouteProgress.DynamicFailureArrives | orchestrator/worker_runtime.py:1111-1124 | a worker failure enters the saved failed verdict when the names are as read |
| RouteProtocol.OneVerdictPerGeneration | orchestrator/route_checks.py:270-377 | each static-check generation receives at most one verdict |
| RouteProtocol.VerdictIsFromCurrentRun | orchestrator/route_checks.py:374-377 | a verdict is accepted exactly from the run whose token and generation are current; any other attempt changes nothing |
| RouteProtocol.SupersededForGood | orchestrator/route_checks.py:303-313 | once a run is superseded by a takeover or a newer generation, none of its steps ever changes the row, whatever happens meanwhile |
| RouteProtocol.DecidedIsFrozen | orchestrator/route_checks.py:208-219 | a decided generation keeps its static verdict until a forced resubmission opens a newer one |
| RouteProtocol.DeletedForGood | orchestrator/route_checks.py:261-268 | late workers do not bring a deleted row back |
| RouteProtocol.GateOpensOnTheVerdict | orchestrator/route_checks.py:231-249 | the build gate opens for a frozen generation only on a passing verdict of that generation |
| RouteProtocol.DynamicVerdictIsOwn | orchestrator/dynamic_checks.py:114-160 | a dynamic verdict in the shared row was recorded by the very build and run the row names, in the row's generation |
| RouteProtocol.StepGeneration | orchestrator/route_checks.py:208-219 | no step lowers the generation |
| Names.LessIsPrecedes | orchestrator/docker_services.py:951-951 | names are compared at the first difference, a prefix coming first |
| Names.SortedIsSorted | orchestrator/docker_services.py:951-951 | the tie-break lists the same names in increasing order |
| Graphs.StuckIsCyclic | orchestrator/docker_services.py:950-953 | services that all wait for each other contain a cycle |
| Graphs.OrderedIsAcyclic | orchestrator/docker_services.py:922-959 | an order with dependencies first rules out every cycle |
| Ordering.DeploymentOrder | orchestrator/docker_services.py:922-959 | the loop terminates; on success every service once, each name its `depends_on` lists or maps placed before it, ordered by (longest chain, name); malformed dependencies and cycles are reported with their cause |
| Ordering.OrderExistsIffAcyclic | orchestrator/docker_services.py:948-959 | for known dependencies (orchestrator/docker_services.py:1302-1316) an order exists exactly when the graph has no cycle |
| Ordering.OrderIsUnique | orchestrator/docker_services.py:948-959 | the order is determined by the graph alone, whatever the mapping order |
| Ordering.DepthIsLongestChain | orchestrator/docker_services.py:948-959 | the rank used is the length of the longest dependency chain |
| Ordering.DepthIsLongestWalk | orchestrator/docker_services.py:948-959 | that rank is the length of the longest walk along dependencies |
| Acyclic.NormalizeDependencies | orchestrator/templates.py:633-672 | succeeds exactly when every name is selected and no dependency repeats; the result covers the selection and lists exactly the given edges, sorted |
| Acyclic.CycleCheck.Visit | orchestrator/templates.py:696-705 | the recursive walk finishes a service after all it depends on, or has found a cycle |
| Acyclic.AssertAcyclic | orchestrator/templates.py:688-708 | passes exactly on graphs without a cycle |
| Acyclic.SameDecision | orchestrator/templates.py:688-708 | the depth-first check and the deployment order accept the same graphs |
| Ports.PortLedger.ReservePort | orchestrator/repository.py:560-565 | `setdefault`: granted exactly when free or already held by the same owner |
| Ports.PortLedger.ReleasePort | orchestrator/repository.py:567-576 | removes the entry of the build's own port only |
| Ports.PortLedger.ListBuildPorts | orchestrator/repository.py:578-583 | the build's entries in insertion order |
| Ports.ReserveAdds | orchestrator/repository.py:560-565 | a reservation adds its own entry when the port has none, and nothing else |
| Ports.ReleaseTakes | orchestrator/repository.py:567-576 | a release takes away exactly the build's own entry for the port |
| Ports.NoTwoHolders | orchestrator/repository.py:560-576 | between grants of one port to different holders the first holder's build has released it, whatever all builds do |
| Ports.HeldUntilReleased | orchestrator/repository.py:560-576 | a reservation survives every sequence of calls that does not release it |
| Ports.TablesStayUnique | orchestrator/repository.py:560-576 | over every sequence of calls a port has one holder |
| Ports.ListedIsMine | orchestrator/docker_services.py:1200-1202 | filtering the build's list gives the entries of exactly this declared port |
| Ports.ChoiceIsUnique | orchestrator/docker_services.py:1206-1220 | the rule (remembered or requested port if free, else the first free one of the range) leaves one answer |
| Ports.PortAllocator.ChoosePort | orchestrator/docker_services.py:1195-1220 | the candidate loop computes that answer and reserves only it |
| Ports.PortAllocator.AllocatePorts | orchestrator/docker_services.py:1186-1230 | one service: table, occupied set and result are those of the step-by-step rule, also when it fails half-way |
| Ports.PortAllocator.Deploy | orchestrator/docker_services.py:380-408 | all services in order share one occupied set and one table |
| PortStability.GivenPort | orchestrator/docker_services.py:1195-1220 | the number a tracked declaration is given: its oldest earlier reservation while unoccupied; without one the requested number while open; otherwise the least open number of the range |
| PortStability.GivenUntracked | orchestrator/docker_services.py:1195-1236 | without a tracker: the requested number while unoccupied, else the least unoccupied one, and nothing is reserved |
| PortStability.GivenIsReserved | orchestrator/docker_services.py:1206-1236 | a tracked port that is given is reserved for its declaration |
| PortStability.DeclaredPorts | orchestrator/docker_services.py:1195-1199 | the declarations are exactly the ports of the services, with their requests and owners |
| PortStability.CrashesDoNotMatter | orchestrator/docker_services.py:1186-1236 | after any number of crashes at any points a full run gives the allocation and table of the uninterrupted run |
| PortStability.RerunIsStable | orchestrator/docker_services.py:1186-1236 | a re-run passes through the very states of the first attempt |
| PortStability.ChosenAgain | orchestrator/docker_services.py:1200-1207 | a port already chosen is chosen again and nothing more is reserved |
| PortStability.OneReservationEach | orchestrator/docker_services.py:1200-1236 | a completed run leaves exactly one reservation for a declared port if and only if it began with none, or with one on an unoccupied port |
| PortStability.AllocationIsDisjoint | orchestrator/docker_services.py:984-993 | triples are pairwise distinct and off the initially occupied ones; target, protocol and mode are kept |
| PortStability.TrackedPortsAreDistinct | orchestrator/docker_services.py:1195-1236 | with a tracker (port, protocol) is distinct even across modes |
| PortStability.OccupiedReservationLeavesTwo | orchestrator/docker_services.py:1200-1236 | one earlier reservation on a port since occupied, and a free range, leave the declaration with two reservations |
| Deployments.NoPortIsShared | orchestrator/docker_services.py:1186-1236 | at every moment of every interleaving of deployments at single repository calls, with crashes, restarts and foreign calls, two ports given to different declarations on one target differ in number or protocol |
| Deployments.BuildsDoNotShare | orchestrator/docker_services.py:1195-1236 | in particular no two builds allocating at the same time share a port |
| Deployments.PortsKeepApart | orchestrator/docker_services.py:984-993 | each deployment's ports stay off the occupied ones and off each other in every interleaving |
| Deployments.DeploymentAlone | orchestrator/docker_services.py:1186-1236 | undisturbed, a deployment's single calls add up to the sequential allocator |
| PortStability.FailsIffExhausted | orchestrator/docker_services.py:1209-1220 | allocation fails exactly when at some port the wanted number is not free and the whole range is occupied or reserved by others |
| PortStability.ServicesHaveDistinctOwners | orchestrator/docker_services.py:1199-1199 | services with different names declare ports with different owner strings |
| Json.NumbersCompare | orchestrator/route_probes.py:374-380 | numbers are equal exactly when their values are, across integers and floats; no number equals a truth value, text or anything else |
| Json.EqualIsIdentity | orchestrator/route_probes.py:382-387 | without floats equality is identity |
| Json.ScalarsCompare | orchestrator/route_probes.py:374-380 | on scalars both comparisons are sameness of kind and value, numbers being one kind |
| Json.ContainsIsReflexiveIff | orchestrator/route_probes.py:366-371 | a value contains itself exactly when no NaN is inside |
| Json.StorableIsOrdinary | orchestrator/route_probes.py:589-597 | every response that is compared is free of NaN |
| Json.ContainsIsTransitive | orchestrator/route_probes.py:366-371 | containment is transitive |
| Json.MutualContainmentIsEquality | orchestrator/route_probes.py:366-387 | containment both ways is exactly `_json_equal` |
| Json.EqualIsTransitive | orchestrator/route_probes.py:382-387 | `_json_equal` is transitive, integers and floats being one category |
| Json.EqualIsSymmetric | orchestrator/route_probes.py:382-387 | `_json_equal` is symmetric |
| Json.ContainmentFollowsPaths | orchestrator/route_probes.py:402-416 | a path that resolves in the expected value resolves in any value containing it, to one containing what it found |
| Json.ContainsIffAgrees | orchestrator/route_probes.py:366-380 | containment holds exactly when, on every path of the expected value, the actual value has the same kind of container or the same scalar |
| Json.EqualIffAgreesBothWays | orchestrator/route_probes.py:382-387 | equality is agreement on every path in both directions |
| ResponseChecks.AssertResponse | orchestrator/route_probes.py:390-416 | every failed assertion is reported, and nothing else |
| ResponseChecks.Walk | orchestrator/route_probes.py:406-414 | the walk along a path finds exactly the value it leads to |
| ResponseChecks.LargerResponsePasses | orchestrator/route_probes.py:402-416 | a response that contains a passing one passes the subset check and every path check of a scalar |
| JsonPath.Tokenize | orchestrator/route_probes.py:150-177 | the loop computes the recursive reading, errors included |
| JsonPath.AcceptedPaths | orchestrator/route_probes.py:150-177 | a path is accepted with given tokens exactly when it has 1 to 512 characters and is an optional `$` and dot followed by names and bracketed numbers in the written grammar |
| JsonPath.PathRoundTrip | orchestrator/route_probes.py:150-177 | rendering names and indices and tokenizing gives them back, up to 512 characters |
| JsonPath.AcceptedIsRenderable | orchestrator/route_probes.py:150-177 | every accepted path has a canonical spelling with the same tokens, if it still fits |
| JsonPath.WrittenCharacters | orchestrator/route_probes.py:160-166 | which characters names and numbers are made of, numbers being decimal |
| JsonPath.DigitsRoundTrip | orchestrator/route_probes.py:164-164 | decimal digits of a natural number read back as it |
| Interpolation.MatchIffWritten | orchestrator/worker_runtime.py:54-57 | the matcher is the pattern: it finds a placeholder exactly when the text starts with its written form, a bare name taken as far as it goes |
| Interpolation.SegmentsAreLossless | orchestrator/worker_runtime.py:54-57 | cutting the text into segments loses nothing |
| Interpolation.EscapeIsLiteral | orchestrator/worker_runtime.py:862-927 | with every `$` of a prefix doubled, the prefix comes out as it was and the rest resolves as if alone, errors included, in every environment |
| Interpolation.ValueIsNotRescanned | orchestrator/worker_runtime.py:888-925 | a placeholder is replaced by its value as it stands and reading goes on behind it, whatever characters the value has |
| Interpolation.BareVariable | orchestrator/worker_runtime.py:54-57 | `$NAME` is the variable's value, or an exception |
| Interpolation.BracedVariable | orchestrator/worker_runtime.py:54-57 | so is the braced form |
| Interpolation.DefaultIfUnset | orchestrator/worker_runtime.py:909-912 | the operator `-` gives the default only when the variable is not set |
| Interpolation.DefaultIfEmpty | orchestrator/worker_runtime.py:909-922 | the operator `:-` gives it also when the value is empty |
| Interpolation.RequiredToBeSet | orchestrator/worker_runtime.py:912-918 | the operator `?` raises when the variable is not set |
| Interpolation.RequiredToBeNonEmpty | orchestrator/worker_runtime.py:912-923 | the operator `:?` raises also when the value is empty |
| Interpolation.DoubledDollar | orchestrator/worker_runtime.py:889-890 | `$$` stands for one dollar sign |
| Interpolation.OtherwiseLiteral | orchestrator/worker_runtime.py:54-57 | everything else stays as it is |
| Interpolation.SucceedsIffPermitted | orchestrator/worker_runtime.py:888-923 | resolution succeeds exactly when each reference has a value its operator accepts or a default; otherwise the first one that has neither is reported |
| Interpolation.OnlyMentionedMatter | orchestrator/worker_runtime.py:888-925 | only variables written in the text matter |
| WorkspacePaths.AcceptedPathIsSafe | orchestrator/workspaces.py:50-60 | an accepted path has no part that leads up, names a Git directory or contains a separator |
| WorkspacePaths.AcceptedExactly | orchestrator/workspaces.py:50-60 | which names are accepted, and that they are read as their parts |
| WorkspacePaths.SlashSeparates | orchestrator/workspaces.py:55-60 | the parts of a name are those before a slash and then those after it |
| WorkspacePaths.OnePart | orchestrator/workspaces.py:55-60 | a piece without a slash is one part, unless empty or a single dot |
| WorkspacePaths.SkippedPieces | orchestrator/workspaces.py:55-60 | doubled slashes and single dots make no difference |
| WorkspacePaths.PathRoundTrip | orchestrator/workspaces.py:50-60 | every safe path can be written and is read back as itself |
| Workspace.WorkspaceStore.UploadBatch | orchestrator/workspaces.py:151-187 | all or nothing: the exact error and an unchanged tree, or the whole batch stored, within quota, no empty directory |
| Workspace.AcceptedExactly | orchestrator/workspaces.py:151-179 | the exact condition under which a batch is accepted |
| Workspace.ReadIs | orchestrator/workspaces.py:152-155 | a batch has each name's path with its content |
| Workspace.DeletedExactly | orchestrator/workspaces.py:131-139 | when a deletion is refused, and why |
| Workspace.WorkspaceStore.Stage | orchestrator/workspaces.py:160-179 | staging finds the first conflict or oversize and otherwise the sizes the tree would have |
| Workspace.WorkspaceStore.Commit | orchestrator/workspaces.py:180-186 | no file or directory can stop the commit loop half-way |
| Workspace.WorkspaceStore.Place | orchestrator/workspaces.py:182-185 | creating parents and replacing succeeds exactly when nothing stands in the way |
| Workspace.NextFits | orchestrator/workspaces.py:154-170 | the checks before the commit keep every next item free of conflict with the growing tree |
| Workspace.WorkspaceStore.DeleteFile | orchestrator/workspaces.py:131-149 | one file goes, with every directory this leaves empty; the root stays; the loop terminates; errors change nothing |
| Workspace.PruneOne | orchestrator/workspaces.py:141-149 | removing an empty parent leaves what the other files need and the rest of the chain |
| Workspace.PruneEnds | orchestrator/workspaces.py:144-148 | when a parent is not empty, the remaining directories are exactly the needed ones |
| Workspace.NoEmptyDirectory | orchestrator/workspaces.py:131-187 | in every kept state each directory below the root has an entry |
| Workspace.StoredIsBatch | orchestrator/workspaces.py:180-186 | uploaded files end up as sent and every other file is as it was |
| Workspace.Serve | orchestrator/workspaces.py:131-187 | over every sequence of uploads and deletions the byte and file quotas hold and no directory is empty |
| Workspace.SumSizes | orchestrator/workspaces.py:178-178 | the total does not depend on the order of summation |
| ProbePayload.ValidateHeaders | orchestrator/route_probes.py:130-147 | headers are accepted exactly when well formed, permitted and distinct without regard to case, and come out lowered |
| ProbePayload.ValidateProbePayload | orchestrator/route_probes.py:180-294 | the step-by-step checks and rewriting give exactly the acceptance rule and the normal form |
| ProbePayload.NormaliseAssertions | orchestrator/route_probes.py:220-293 | the assertions are rewritten in place to their normal form or refused |
| ProbePayload.ValidateTwice | orchestrator/route_probes.py:180-294 | validation is idempotent exactly when its output fits the size limit |
| ProbeRules.TransportHeadersRefused | orchestrator/route_probes.py:142-144 | headers that override authority or framing are refused in whatever case they are written |
| ProbeRules.HeadersComeOutSmall | orchestrator/route_probes.py:141-147 | accepted headers come out in lower case with their contents |
| ProbeRules.AcceptedIsHttpRequest | orchestrator/route_probes.py:195-242 | an accepted HTTP request has only known fields, a known method, bounded parameters, the required path and port, and expected statuses |
| ProbeRules.StatusRule | orchestrator/route_probes.py:226-254 | which statuses are accepted, and what gRPC numbers stand for |
| ProbeRules.GrpcBodyRule | orchestrator/route_probes.py:270-277 | how a gRPC request may carry its body |
| ProbeRules.GrpcRefusals | orchestrator/route_probes.py:244-269 | what is refused in a gRPC request |
| ProbeRules.RepairTakesTheRest | orchestrator/dynamic_checks.py:274-288 | an accepted repair takes every other field from the agent where given and from the original where not |
| ProbeRules.RepairTakesHeaders | orchestrator/dynamic_checks.py:274-288 | and its headers likewise, in lower case |
| ProbePayload.NormalGrows | orchestrator/route_probes.py:195-219 | normalising adds fields to every request that leaves the protocol or the headers to defaults |
| ProbePayload.PlainValidatesOnlyOnce | orchestrator/route_probes.py:180-294 | under a limit that a minimal request just meets, it validates once and its normal form does not |
| ProbePayload.ValidationIsNotAlwaysIdempotent | orchestrator/route_probes.py:180-294 | such a limit exists |
| ProbePayload.PlainRequestIsAccepted | orchestrator/route_probes.py:180-294 | the acceptance rule accepts a minimal HTTP request, so results about accepted requests are not vacuous |
| ProbePayload.LoweredAgain | orchestrator/route_probes.py:130-147 | accepted headers stay accepted and unchanged when validated again |
| ProbePayload.CheckRepair | orchestrator/dynamic_checks.py:273-288 | the loop over the pinned fields decides as the rule does |
| ProbePayload.EmptyRepair | orchestrator/dynamic_checks.py:273-288 | an empty repair is accepted unchanged exactly when the original fits the size limit |
| ProbePayload.AcceptedRepairIsStable | orchestrator/dynamic_checks.py:400-405 | an accepted repair that fits is given back by a second repair check after a restart and by the validation before sending |
| ProbePayload.RepairKeepsTheTest | orchestrator/dynamic_checks.py:274-288 | an accepted repair has the original protocol, path, service, port, assertions, descriptors and reflection flag, present or absent alike |

## Assumptions

- Owner tokens and run identifiers (`uuid4`) are drawn once and the clock never runs
  backwards.
- `guard()` and the unfenced `update_build` that follows it are one step, except
  before the Jenkins reservation, where they are apart. External calls are separate
  steps that need no lease.
- While a build is being deployed its ports are not released: its cleanup needs the
  lease that the deployment holds, and a deployment that loses it has ended.
- `resource_key` and the port owner string are kept as their parts, that is, taken
  to be injective. Service names within one deployment are distinct.
- Jenkins answers truthfully when asked about an execution it was asked to start.
- GitLab, Jenkins, Harbor, Docker, Codex, Celery, probes and the Debug Agent are
  nondeterministic: their answers are parameters of steps or methods.
- The size limit, route safety, Base64, Protobuf descriptors and `str.upper` are
  parameters of `ProbePayload`; of the last it is assumed that it leaves the upper
  case method and status names alone.

## Left out

- CleanupRunner.Runner.Run: error texts are constants, no other worker writes meanwhile and Docker, Harbor and Jenkins are oracles; interleavings are the subject of `CleanupProtocol`, and a recorded resource is replaced as a whole.
- CleanupProtocol.SucceededMeansRemoved: which resources a run tries to remove is left open there; the order and the permission rules are in `CleanupRunner`.
- Trigger.TriggersAtMostOnce: false of the code without its proviso; the exact condition is `LateReservation.ReservationDecides`.
- Quiescence.CleanupWaitsForJenkins: false of the code without its provisos; the exact conditions are `LateReservation.ReservationDecides` and `Quiescence.DispatchDecides`.
- Delivery.ExecutionConcludes: the retry, agent and probe payloads are reduced to whether they passed; logs, reports and redaction are not modelled.
- RouteProtocol.DynamicVerdictIsOwn: a verdict is a flag; the copied report, result and dispatch fields are not modelled, nor are reference checks between rows and applications.
- Json.ContainsIsReflexiveIff: the sign of a floating zero and nesting deeper than Python's recursion limit are not modelled.
- ProbePayload.RepairKeepsTheTest: canonical JSON text equality is equality of values, so a negative and a positive floating zero are not told apart.
- ProbePayload.ValidateProbePayload: every refusal is one error, since the source raises one exception type with different texts; payloads are JSON values, so conversion of tuples or non-string keys is not modelled.
- Interpolation.SucceedsIffPermitted: the hint text of `?` and `:?` errors and the walk over the services of a document are not modelled.
- Workspace.WorkspaceStore.UploadBatch: symbolic links, special files, permissions, digests, locking between processes and I/O failures are not modelled; chunked reading is one comparison of the running total.
- Acyclic.NormalizeDependencies: dependency conditions attached to an edge and non-string input are not modelled.
- Ports.PortAllocator.AllocatePorts: the resource entry recorded beside each port and a lease lost between two reservations are not modelled; the latter leaves the table as a crash does.
- Repository.InMemoryRepository.DeleteRouteCheck: the row is named by its key; looking it up by application, commit, route and role version is not modelled.
- Repository.BuildService.Transition: stages, timestamps and events are not modelled.
- `MongoRepository`: its atomic operations mirror the in-memory ones.
- Workspace snapshots, mounts and their path resolution.
- Template rendering, YAML, Compose feature validation other than dependencies.
- HTTP routes, authentication, the web interface and the audit scripts.
- ResponseChecks.AssertResponse: failure texts and the order of headers and paths are not modelled; the expected status is checked by its caller.
- Log collection, failure diagnostics, redaction, alerts and events.
- The contents of Jenkins resource reports; accepting one is an outcome.
- Names derived from truncated hashes.
