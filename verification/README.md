# A verified model of the GR4 control plane

The control plane keeps *sessions*: a stored flow graph (GRC) that can be started,
stopped, restarted and removed, and whose blocks may declare *streams* served on
loopback ports. This project models the parts of it where a mistake would show only
in combination, and proves what they guarantee.

`dafny verify dfyconfig.toml` checks the whole project. Nothing of the original
program is executed.

## What is modelled

**The session lifecycle** (`Lifecycle*`, `RuntimeRace`). `SessionService` claims
a session under its own mutex, lets go of it, makes slow calls into the runtime that
may throw, and takes the mutex again to commit or to record the failure. Under it,
`Gr4RuntimeManager` has a phase machine of its own and two levels of locks, and
`destroy` is spread over two critical sections. `Lifecycle` is a machine whose actions
are these critical sections (each port allocation and each release is an action of its
own, since the allocator has its own lock). Any number of clients run operations and
stream lookups on any number of sessions, and between two sections of one client any
sections of others may run. What the scheduler, the plugin loader, the operating system
and the clock decide comes with the action. Resource objects live in a heap and clients
hold pointers to them, so a pointer may outlive its table entry.

- `LifecycleInvariant` and `LifecycleSteps`: the invariant, one session at a time, and
  why every section keeps it and leaves every other session alone.
- `LifecyclePorts`: port ownership is a partition of the allocated ports.
- `LifecycleLeaks`: exactly when a port can be lost for good.
- `LifecycleRelaunch`: exactly when a scheduler is started that is running already.
- `LifecycleSafety`: what follows in every reachable state.
- `LifecycleProgress`: no deadlock, a measure that every section of an operation lowers,
  teardown on every run, and no wedged session.
- `RuntimeRace`: without the claim of the service the same sections strand a loaded
  graph, so the claim is needed and not only sufficient.

**The objects that implement it** (`Sessions`, `Ports`, `RuntimeSections`,
`RuntimeCalls`, `Gr4Runtime`, `SessionService`, `SessionRecovery`, `SessionVerdicts`). The repository, the port allocator, the
resource object, the runtime manager and the service are classes with the fields the
source updates in place. `RuntimeCalls` states what one uninterrupted runtime call does;
the methods of `Gr4Runtime` are proved to do that; `RuntimeRuns` proves that from every
state of the machine that satisfies the invariant, whatever else is in flight, the
machine has a run with the same effect. `SessionService` carries a ghost copy of the
machine along, so its `Valid()` includes that the copy is a reachable state, and what is
proved of reachable states holds of the objects. Other operations may be under way while
one makes its next step; each step is proved to leave them where they stand. `SessionVerdicts`
says in which phases an operation is refused and what it leaves in the record otherwise;
`SessionRecovery` says exactly when a restart or a start that runs uninterrupted ends with
the session running. `StubRuntime` is the second implementation of the runtime boundary; there
port conservation is exact.

**Streams and graphs** (`PropertyValues`, `SessionStream`, `GraphRewrite`, `BlockReading`,
`ConnectionPorts`, `EndpointInjection`, `UnsettledName`). Stream intent is derived and validated from the raw
graph; the same graph is separately normalised, and endpoints are injected into blocks by
name. `BlockReading` says which key of a submitted block each of the three readers takes each
datum from, and `ConnectionPorts` what becomes of every port token and connection. The
readers of a block's name were written independently. `EndpointInjection`
says exactly when a graph loads, which endpoint each block of a loaded graph carries, and
exactly when that is the endpoint of the stream the block declared.

**The catalog** (`BlockCatalog`, `CatalogService`, `CatalogAliases`): sort, collapse aliases in place, sort
again, and keep an exact index; the result does not depend on the order of the provider.

**Codecs** (`StreamPaths`, `SettingsCodec`, `ReflectionCodec`, with `Text`, `Integers` and
`JsonValues`): stream paths and percent decoding, settings JSON, and the block descriptor
that crosses the reflection pipe.

## Findings kept as they are

- A port allocation that fails partway through `prepare` leaks the ports taken before it,
  because the `try` begins after the allocation loop (src/runtime/gr4_runtime_manager.cpp:993-1016).
  A session with nothing in flight can lose a port this way, in some run from here, exactly when
  its graph declares two streams or more
  (`LifecycleLeaks.LeakIffTwoStreams`; `LifecycleLeaks.LostPortExample` reaches such a state).
  No port loses its holder in any other way (`LifecyclePorts.LeaksOnlyMidAllocation`), and one
  that did never comes back (`LifecyclePorts.LeakIsPermanent`). The stub manager does not
  leak (`StubRuntime.StubRuntimeManager.Prepare`).
- The three phase guards of the runtime manager never fire when it is used through the
  service (`LifecycleSafety.GuardsNeverFire`).
- The planner and the injector name a block differently in some cases; `NameSettled` is the
  exact condition on the block (`EndpointInjection.ReadersAgreeIffSettled`). A graph with such
  a block may never load: `UnsettledName.UnsettledNameExample` is one, and
  `EndpointInjection.GraphLoadsIff` says which graphs load. Or it loads without complaint and
  streams are served from the wrong blocks: `UnsettledName.CrossedNamesExample` is a valid
  graph of two blocks in which each receives the other's endpoint. The graph loads with every
  endpoint in the block that declared the stream exactly when no port overflows, the planned
  names differ, and the names of all declaring blocks are settled
  (`EndpointInjection.EndpointsReachDeclaringBlocksIff`).
- A `start` after a failed `stop` finds the old execution and asks its scheduler to start while
  it is running (src/runtime/gr4_runtime_manager.cpp:736-744). This happens exactly when the
  latest request to stop that scheduler was refused
  (`LifecycleRelaunch.StartsRunningSchedulerIff`), and every running session can come to it
  (`LifecycleRelaunch.RunningCanBeStartedAgain`, `LifecycleRelaunch.StartsRunningSchedulerExample`).
- A complex-valued setting makes the whole settings report of its block fail, like a list, for
  the conversion to JSON has no case for it (src/app/block_settings_service.cpp:122-150;
  `SettingsCodec.ComplexSettingIsRefused`).
- A port token `outN` becomes the number N, a token `inN` stays text: it has no `t` to cut
  at (`ConnectionPorts.PortTable`). `int7` becomes 7 for the same reason
  (`ConnectionPorts.TextTokensIff` says exactly which tokens stay text).
- `normalize_block` is not idempotent for a typed block that nothing names: the second pass
  names it after its type (`GraphRewrite.BlockRewriteIdempotent` gives the exact condition,
  `GraphRewrite.SecondPassExample` a block).
- The path of an HTTP stream whose id poses as the end of a websocket path before a `?`, such
  as `x/ws?`, is read as a websocket path (`StreamPaths.HttpPathIsNotWebSocketIff`).
- Unsigned settings values above the int64 range are meant to be refused, but the earlier
  test for integers accepts them and they wrap (src/app/block_settings_service.cpp:85-94;
  `SettingsCodec.WideNumberIsAcceptedAndWraps`). An unsigned runtime value above it is reported
  as it is, and wraps when it is read back (`SettingsCodec.ReportRoundTripIff`).
- An empty `canonical_type` is lost in the reflection pipe (`ReflectionCodec.BlockSurvivesIff`).
- test/block_catalog_service_test.cpp:89-92 expects the shorter of two alias ids to be
  browsed, src/app/block_catalog_service.cpp:46-48 prefers the longer. The model follows
  the code (`CatalogAliases.ShorterAliasIsNotBrowsed`, and for all providers
  `CatalogService.LongestAliasIsBrowsed`).

## Model

| member | source | states |
|---|---|---|
| LifecycleSafety.LayersAgree | src/app/session_service.cpp:110-267 | in every reachable state a session in phase Running has state Running and a running execution of its own rewritten graph with one binding per derived stream; one in phase Idle is Stopped and has neither execution nor bindings; one in phase Failed is in state Error and its resource, if any, is not in phase Running |
| LifecycleSafety.OneOperationPerSession | src/app/session_service.cpp:112-128 | a session is in phase Starting or Stopping exactly when an operation on it is between claim and commit, and there are never two |
| LifecycleSafety.OperationFindsItsSession | src/app/session_service.cpp:336-361 | until it commits or fails, an operation finds the record it loaded unchanged in the repository, under phase Starting if it is a start or restart and Stopping if not, so the load, update and remove at commit cannot miss |
| LifecycleSafety.NoOrphanedResources | src/runtime/gr4_runtime_manager.cpp:759-780 | every key of the resource table is a stored session, and a resource object outside the table has no execution and no bindings |
| LifecycleSafety.ErasedEntryIsEmpty | src/runtime/gr4_runtime_manager.cpp:765-779 | between the two sections of destroy the entry still leads to the object just emptied, and it is still empty |
| LifecycleSafety.FreeResourcesAreSettled | src/runtime/gr4_runtime_manager.cpp:978-1093 | while its mutex is free a resource is never in phase Stopping; phase Running means a running execution; no execution means no bindings and phase Idle; teardown is complete exactly in Idle and failed exactly in Failed |
| LifecycleSafety.GuardsNeverFire | src/runtime/gr4_runtime_manager.cpp:733-735 | whoever enters a section finds the phase not Stopping, nothing to release before prepare, and an execution already there when it starts |
| LifecycleSafety.ReaderSees | src/runtime/gr4_runtime_manager.cpp:782-800 | a lookup that finds a running resource found the current one of a session stored under the id it asked for, although the service lock was dropped in between |
| LifecycleSafety.ActivePlanIsDerivedPlan | src/runtime/gr4_runtime_manager.cpp:782-800 | every plan a lookup returns equals the plan recomputed from the stored graph |
| LifecycleSafety.RunningSessionShowsItsPlan | src/app/session_service.cpp:269-286 | a session in phase Running shows exactly its derived plan, and none if that is none |
| LifecycleSafety.RouteIsUnambiguous | src/runtime/gr4_runtime_manager.cpp:857-877 | a route comes from the only binding with that stream id, is the loopback address of its kind of transport field by field, and its port is allocated, not leaked and held by this resource alone at the time of the lookup |
| LifecycleSafety.RunningSessionRoutes | src/runtime/gr4_runtime_manager.cpp:802-823 | in a running session a stream is found exactly when the stored graph declares it for that transport, at the loopback address of its kind on an allocated port |
| LifecycleSafety.StoredBindingsAreAllocated | src/runtime/gr4_runtime_manager.cpp:995-1013 | in every reachable state a stored binding has the address the allocator makes for its transport and port, and the browser descriptor repeats its plan field by field |
| LifecycleSafety.EndpointsDiffer | src/runtime/stream_binding_allocator.cpp:76-118 | no two stored bindings, of one session or of two, have the same endpoint |
| LifecycleSafety.RunningGraphServesItsBlocks | src/runtime/gr4_runtime_manager.cpp:1017 | for a running session with streams, whatever its blocks are called: the planned names differ and are borne, the loaded graph carries each endpoint in the block that bears the planned name, and, unless a block was submitted with one of these endpoints, every declaring block carries its own endpoint exactly if the names of all of them are settled |
| LifecycleSteps.ActionKeeps | src/app/session_service.cpp:110-267 | every critical section keeps the invariant and leaves the record, phase, resource and operations of every other session as they were |
| LifecycleSteps.ReachableInv | src/app/session_service.cpp:110-267 | the invariant holds after every run, for every interleaving |
| LifecycleSteps.EnterPrepareKeeps | src/runtime/gr4_runtime_manager.cpp:978-993 | entering prepare or start keeps the invariant |
| LifecycleSteps.BuildKeeps | src/runtime/gr4_runtime_manager.cpp:1016-1037 | installing the loaded graph and its bindings keeps the invariant |
| LifecycleSteps.HaltKeeps | src/runtime/gr4_runtime_manager.cpp:1065-1083 | stopping the scheduler, or failing to, keeps the invariant |
| LifecycleSteps.EraseKeeps | src/runtime/gr4_runtime_manager.cpp:775-779 | erasing the table entry keeps the invariant |
| LifecycleSteps.CommitKeeps | src/app/session_service.cpp:139-147 | a commit leaves the session stable: stored state, phase and resource agree |
| LifecycleSteps.RecordFailureKeeps | src/app/session_service.cpp:344-352 | recording a failure leaves the session stable in state Error |
| LifecyclePorts.ReachablePartition | src/runtime/gr4_runtime_manager.cpp:993-1045 | in every reachable state the allocated ports are the disjoint union of the ports in stored bindings, in the hands of operations in flight, and leaked; no holder has a port twice |
| LifecyclePorts.ActionKeepsPorts | src/runtime/stream_binding_allocator.cpp:76-123 | every critical section keeps that partition, so a release never frees a port of another session |
| LifecyclePorts.LeaksOnlyMidAllocation | src/runtime/gr4_runtime_manager.cpp:997-1013 | over one critical section an allocated port comes to be held by nobody exactly when an allocation fails that the same prepare had taken it before |
| LifecyclePorts.LeakedIsUnowned | src/runtime/gr4_runtime_manager.cpp:997-1013 | the history variable holds exactly the allocated ports that no resource and no operation holds |
| LifecyclePorts.LeakIsPermanent | src/runtime/gr4_runtime_manager.cpp:997-1013 | over every further run a port that nobody holds stays allocated and held by nobody |
| LifecycleLeaks.OneStreamLosesNothing | src/runtime/gr4_runtime_manager.cpp:997-1013 | in no reachable state does a failing allocation lose a port of a session with at most one stream |
| LifecycleLeaks.LeakIffTwoStreams | src/runtime/gr4_runtime_manager.cpp:993-1016 | from every reachable state with nothing in flight on a session, idle, running or failed, some run loses a port of it exactly when its stored graph declares at least two streams |
| LifecycleLeaks.LostPortExample | src/runtime/gr4_runtime_manager.cpp:993-1016 | a reachable state, from one two-stream graph, with an allocated port that nobody holds |
| LifecycleRelaunch.StartsRunningSchedulerIff | src/runtime/gr4_runtime_manager.cpp:736-744 | on every run, a start that is about to launch a scheduler finds it running exactly if the latest request to stop it, by whatever operation, was refused |
| LifecycleRelaunch.RunningCanBeStartedAgain | src/runtime/gr4_runtime_manager.cpp:736-744 | from every reachable state, one refused stop and one start lead a running session to where its running scheduler is about to be started |
| LifecycleRelaunch.StartsRunningSchedulerExample | src/runtime/gr4_runtime_manager.cpp:736-744 | a reachable state in which a scheduler that is running is about to be started |
| LifecycleProgress.NeverStuck | src/app/session_service.cpp:110-267 | every operation in flight in a reachable state has a section it can run at once, whatever others hold |
| LifecycleProgress.OwnSectionAdvances | src/runtime/gr4_runtime_manager.cpp:978-1093 | each section of an operation ends it or lowers a well-founded measure (calls left, place in the call, list left), whatever fails in it |
| LifecycleProgress.OthersDoNotMove | src/app/session_service.cpp:110-267 | no section of another client moves, resets or removes an operation |
| LifecycleProgress.TeardownFailsOnlyByScheduler | src/runtime/gr4_runtime_manager.cpp:1069-1077 | an operation stop or remove starts to fail only where a running scheduler refuses to stop |
| LifecycleProgress.CommitTearsDown | src/app/session_service.cpp:180-187 | when stop or remove commits, no resource of the session holds an execution or bindings; stop leaves Stopped and Idle, remove leaves no record, phase or table entry |
| LifecycleProgress.TeardownIsGranted | src/app/session_service.cpp:152-168 | with nothing in flight on a stored session stop and remove are never refused, and stop answers at once only if the session is already torn down |
| LifecycleProgress.TeardownOnEveryRun | src/app/session_service.cpp:150-267 | on every run, by any clients, in which no scheduler refuses to stop for it, a stop or remove under way either has torn its session down at some point or is still under way, strictly nearer to its end if it had a section of its own and unmoved if not |
| LifecycleProgress.NoWedging | src/app/session_service.cpp:150-267 | from every reachable state with nothing in flight on a session, after failed starts and failed stops too, a run of the operation's own sections alone, with a scheduler that stops, leads to the session torn down; then exactly the ports it held are free, no port has been lost, and a stop has kept the graph |
| RuntimeRace.ClaimIsNeeded | src/runtime/gr4_runtime_manager.cpp:759-780 | no reachable state strands a loaded graph; but from every reachable state a removal and a start of one idle session that both skip the claim have a run that leaves its graph loaded, with all its bindings, where no table entry leads, for any streams, free ports and loadable graph |
| Sessions.InMemorySessionRepository.Create | src/storage/in_memory_session_repository.cpp:7-13 | stores the session unless the id is taken, in which case nothing changes |
| Sessions.InMemorySessionRepository.Get | src/storage/in_memory_session_repository.cpp:15-22 | finds exactly the stored record |
| Sessions.InMemorySessionRepository.Update | src/storage/in_memory_session_repository.cpp:36-43 | replaces a stored record; an unknown id is an error and changes nothing |
| Sessions.InMemorySessionRepository.Remove | src/storage/in_memory_session_repository.cpp:45-48 | erases the record and says whether there was one |
| Ports.StreamBindingAllocator.AllocateHttp | src/runtime/stream_binding_allocator.cpp:76-96 | the first of 64 answers that is not already allocated decides: its port is added and bound to host 127.0.0.1, path /snapshot and the endpoint made of both, or the call fails and nothing changes |
| Ports.StreamBindingAllocator.AllocateWebSocket | src/runtime/stream_binding_allocator.cpp:98-118 | the same for websocket bindings, with path /stream and scheme ws |
| Ports.FoundWithin64 | src/runtime/stream_binding_allocator.cpp:76-118 | the search yields a port exactly if it is free and one of the first 64 answers, after taken ports only; a socket failure likewise; and no unique port exactly if all 64 are taken |
| Ports.BoundFields | src/runtime/gr4_runtime_manager.cpp:997-1013 | every field of a binding made for a plan and a port: address by transport, plan marked ready, browser descriptor |
| Ports.StreamBindingAllocator.Release | src/runtime/stream_binding_allocator.cpp:120-123 | exactly the binding's port becomes free |
| Ports.EndpointNamesPort | src/runtime/stream_binding_allocator.cpp:84-116 | equal endpoint texts name equal ports, across transports |
| Gr4Runtime.SessionRuntimeResources.constructor | src/runtime/gr4_runtime_manager.cpp:670-682 | a fresh resource is idle, torn down, without execution or bindings |
| Gr4Runtime.Gr4RuntimeManager.GetOrCreateResources | src/runtime/gr4_runtime_manager.cpp:962-970 | returns the object of the session, made fresh only if the table had none |
| Gr4Runtime.Gr4RuntimeManager.ReleaseStreamBindingsLocked | src/runtime/gr4_runtime_manager.cpp:1040-1045 | frees exactly the ports of the resource's bindings and clears them |
| Gr4Runtime.Gr4RuntimeManager.AllocateBindings | src/runtime/gr4_runtime_manager.cpp:995-1013 | binds the streams in order, each on the port the allocator settles on given those before, up to the first failure; on failure the ports taken stay allocated |
| Gr4Runtime.Gr4RuntimeManager.PrepareLocked | src/runtime/gr4_runtime_manager.cpp:978-1038 | the section `RuntimeCalls.Prepares`: guard, existing execution, contract, release, allocation with its leak, loading with its give-back, installation |
| Gr4Runtime.Gr4RuntimeManager.StartLocked | src/runtime/gr4_runtime_manager.cpp:728-747 | the section `RuntimeCalls.Starts`: prepare, then launch unless already running; a scheduler that throws leaves phase Starting |
| Gr4Runtime.Gr4RuntimeManager.StopLocked | src/runtime/gr4_runtime_manager.cpp:1047-1093 | only a running scheduler that throws, or a stop already in progress, makes it fail; otherwise execution and bindings are gone and exactly their ports are free |
| Gr4Runtime.Gr4RuntimeManager.Prepare | src/runtime/gr4_runtime_manager.cpp:722-726 | the call `RuntimeCalls.PrepareCall` on the session's entry; every other resource object is unchanged |
| Gr4Runtime.Gr4RuntimeManager.Start | src/runtime/gr4_runtime_manager.cpp:728-747 | the call `RuntimeCalls.StartCall` on the session's entry; every other resource object is unchanged |
| Gr4Runtime.Gr4RuntimeManager.Stop | src/runtime/gr4_runtime_manager.cpp:749-757 | nothing for an unknown session, else the stop section on its entry alone |
| Gr4Runtime.Gr4RuntimeManager.Destroy | src/runtime/gr4_runtime_manager.cpp:759-780 | like stop, and then the entry is gone; a failed stop keeps it |
| Gr4Runtime.Gr4RuntimeManager.ActiveStreamPlan | src/runtime/gr4_runtime_manager.cpp:782-800 | the plans of the bindings in order, for a running resource with bindings only |
| Gr4Runtime.Gr4RuntimeManager.FindStream | src/runtime/gr4_runtime_manager.cpp:802-877 | fails apart for a session that is not running and for an unknown stream, else returns the first binding that serves it |
| RuntimeCalls.TakenPortsWereFree | src/runtime/gr4_runtime_manager.cpp:1024-1028 | giving back what an allocation took restores the allocated ports exactly |
| RuntimeSections.LookupsNeedRunning | src/runtime/gr4_runtime_manager.cpp:782-823 | both lookups answer exactly for a resource in phase Running whose scheduler runs, one if it has bindings, the other if one of them is for the stream and kind of transport asked for |
| RuntimeRuns.PrepareSectionRuns | src/runtime/gr4_runtime_manager.cpp:978-1038 | from any state of the machine, whatever the outcome of prepare, the machine has a run of the client's sections to the same result |
| RuntimeRuns.StopSectionRuns | src/runtime/gr4_runtime_manager.cpp:1047-1093 | the same for stop |
| RuntimeRuns.PrepareCallRuns | src/runtime/gr4_runtime_manager.cpp:722-726 | a whole prepare call, lookup included, is a run of the machine from every state that satisfies the invariant; sessions and phases are untouched |
| RuntimeRuns.StartCallRuns | src/runtime/gr4_runtime_manager.cpp:728-747 | the same for start |
| RuntimeRuns.StopCallRuns | src/runtime/gr4_runtime_manager.cpp:749-757 | the same for stop |
| RuntimeRuns.DestroyCallRuns | src/runtime/gr4_runtime_manager.cpp:759-780 | the same for destroy with its two sections |
| SessionVerdicts.RefusedIff | src/app/session_service.cpp:110-267 | in every reachable state, start of a stored session ends in InvalidState exactly if its phase is Running, Starting or Stopping, and stop, restart and remove exactly if it is Starting or Stopping; then nothing has changed |
| SessionVerdicts.UnknownSessionIff | src/app/session_service.cpp:336-342 | every operation ends in SessionNotFound exactly if the id is not stored, and then nothing has changed |
| SessionVerdicts.StopOfStopped | src/app/session_service.cpp:162-164 | stop of an idle session succeeds and changes nothing |
| SessionVerdicts.OutcomeRecorded | src/app/session_service.cpp:130-267 | an operation that is let through leaves, field by field, Error with the message and phase Failed if the runtime threw, else the state and phase it was asked for with no error, or no record at all; records, phases and runtime entries of other sessions are as before |
| SessionService.SessionService.ClaimStart | src/app/session_service.cpp:112-128 | the locked block decides and, only if it grants, takes phase Starting; it refuses exactly a session that is running or busy |
| SessionService.SessionService.ClaimStop | src/app/session_service.cpp:152-168 | the same for stop, which may also find the session already stopped |
| SessionService.SessionService.ClaimRestart | src/app/session_service.cpp:191-204 | the same for restart |
| SessionService.SessionService.ClaimRemove | src/app/session_service.cpp:233-246 | the same for remove |
| SessionService.SessionService.Start | src/app/session_service.cpp:110-148 | with any operations of others under way, which it leaves where they stand: a refused start changes nothing; a granted one makes its runtime calls until one throws and commits or records accordingly; the objects stay in a reachable state of the machine, reached by a run |
| SessionService.SessionService.Stop | src/app/session_service.cpp:150-187 | the same for stop |
| SessionService.SessionService.Restart | src/app/session_service.cpp:189-229 | the same for restart, stopping first only a running session |
| SessionService.SessionService.Remove | src/app/session_service.cpp:231-267 | the same for remove; on success record and phase are gone, and the removal never misses |
| SessionService.SessionService.CallPrepare | src/app/session_service.cpp:130-132 | one runtime call of an operation under way, with others under way: the objects do what `RuntimeCalls` says and the machine has a run of this operation to the same state |
| SessionService.SessionService.CallDestroy | src/app/session_service.cpp:253 | the same for destroy |
| SessionService.SessionService.Conclude | src/app/session_service.cpp:133-147 | the failure is recorded if the calls threw, else the new state is committed; either way the operation is over and others are untouched |
| SessionService.TeardownSucceedsIff | src/app/session_service.cpp:150-267 | from every reachable state with nothing in flight on the session, whatever is on others, an uninterrupted stop or remove succeeds exactly if a scheduler that still runs lets itself be stopped; then the runtime holds nothing for the session and exactly its ports are free; remove leaves no record, phase or entry |
| SessionRecovery.RestartSucceedsIff | src/app/session_service.cpp:189-229 | from every reachable state with nothing in flight on the session, an uninterrupted restart succeeds exactly if a scheduler that still runs stops, the environment is ready, loads and starts, the stored graph is startable, and with the session's own ports free every stream gets a port; then the session is in phase Running and the runtime runs its graph |
| SessionRecovery.StartSucceedsIff | src/app/session_service.cpp:110-148 | an uninterrupted start of an idle or failed session succeeds exactly if, with an execution left behind, the scheduler starts, or else the environment is ready, loads and starts, the stored graph is startable and every stream gets a port; then the session runs its graph |
| SessionRecovery.RewritesIffNamesServed | src/runtime/gr4_runtime_manager.cpp:1016-1028 | whether a session's graph gets as far as the loader depends on the graph alone, not on the ports: no connection port overflows, the planned names differ and each is borne by a block |
| SessionRecovery.AllocationIsDecided | src/runtime/gr4_runtime_manager.cpp:995-1013 | the answers of the system decide the allocation: it fails exactly if not every stream can get a port |
| SessionService.SessionService.RecordRuntimeFailure | src/app/session_service.cpp:344-352 | the stored record becomes Error with the message and the phase Failed; it always finds the session |
| SessionService.SessionService.Create | src/app/session_service.cpp:66-91 | an empty graph is refused; otherwise a stopped, idle session is stored under an id not in use, and nothing else changes |
| SessionService.SessionService.ActiveStreamPlan | src/app/session_service.cpp:269-286 | a session in phase Running answers with the plan derived from its stored graph, any other stored one with none |
| SessionService.SessionService.ResolveStream | src/app/session_service.cpp:317-334 | succeeds exactly for a session in phase Running whose graph declares the stream for that transport; the answer is the address of a binding of that session for that stream: host, port, path and endpoint of its kind, with the port allocated; InvalidState exactly for a stored session in another phase |
| SessionService.SessionService.LayersAgreeHere | src/app/session_service.cpp:110-267 | the stored sessions, the phases and the resource objects agree on every session no operation is under way on, a claimed phase means one is, and every resource belongs to a stored session |
| StubRuntime.StubRuntimeManager.ReleaseStreams | src/runtime/stub_runtime_manager.cpp:119-128 | frees exactly the session's ports and forgets its bindings |
| StubRuntime.StubRuntimeManager.Prepare | src/runtime/stub_runtime_manager.cpp:15-34 | keeps exact port conservation whatever fails; a broken contract leaves no entry, a failed allocation leaves the bindings made so far with their session; other sessions are untouched |
| StubRuntime.StubRuntimeManager.Stop | src/runtime/stub_runtime_manager.cpp:40-43 | keeps conservation and forgets the session's bindings only |
| StubRuntime.StubRuntimeManager.Destroy | src/runtime/stub_runtime_manager.cpp:45-49 | the same, with the settings of the session erased too |
| StubRuntime.StubRuntimeManager.FindStream | src/runtime/stub_runtime_manager.cpp:64-92 | returns the first binding that serves the stream, with two kinds of failure |
| StubRuntime.PreparedShowsItsPlan | src/runtime/stub_runtime_manager.cpp:51-62 | after a prepare that did not fail the active plan is the derived plan, as with the other manager |
| StubRuntime.NothingHeldNothingAllocated | src/runtime/stub_runtime_manager.cpp:119-128 | the allocator is empty exactly when no session holds a binding |
| SessionStream.NormalizeStreamBlock | src/domain/session_stream.cpp:103-169 | the type, name and intent the declarative reading of a block gives; which keys they come from is `BlockReading.PlannerReads` |
| BlockReading.PlannerReads | src/domain/session_stream.cpp:81-169 | on the keys of the submitted block: what types it, its name by order of preference, that it declares a stream exactly with a `stream` parameter or a text under a flat key, and that id, transport and payload format come from the nested keys if there is a `stream` parameter and from the flat ones if not |
| BlockReading.NestedSinkReads | test/gr4_runtime_manager_test.cpp:105-110 | each text of a nested stream declaration ends up in its own field, for all texts |
| BlockReading.MergedAt | src/domain/session_stream.cpp:129-144 | a parameter is the one in `parameters` if it is there, else the one in `raw_parameters` |
| BlockReading.ContractIff | src/domain/session_stream.cpp:171-200 | on the keys of the submitted blocks: the contract holds exactly if every declaring block is named, carries one of the three transports and a payload format, and no two have the same stream id |
| BlockReading.PlanIff | src/domain/session_stream.cpp:215-268 | a document has a plan exactly if it has a block list, some block declares a stream and the contract holds |
| BlockReading.PlanEntryReads | src/domain/session_stream.cpp:239-260 | every field of a plan entry on the keys of the block that declared it: stream id or else name, name, transport, payload format, path, ready |
| SessionStream.ValidateStreamBlock | src/domain/session_stream.cpp:171-200 | the first rule a block breaks given the ids seen before; a block that passes adds its id |
| SessionStream.FirstBrokenRule | src/domain/session_stream.cpp:171-200 | which error a block earns: missing name, transport, supported transport, payload format and unique stream id are asked for in this order |
| SessionStream.DeriveStreamRuntimePlan | src/domain/session_stream.cpp:215-268 | a plan is returned exactly when some block declares a stream and the contract holds of all that do, one entry per such block in block order |
| SessionStream.ValidateStreamRuntimeContract | src/domain/session_stream.cpp:270-306 | no error exactly when that same contract holds; otherwise the error of the first block that breaks it after a sound prefix |
| SessionStream.PlanProperties | src/domain/session_stream.cpp:239-260 | plan ids are distinct and not empty, transports supported, paths printed from them, order that of the blocks |
| GraphRewrite.NormalizeBlock | src/runtime/gr4_runtime_manager.cpp:394-458 | the in-place rewrite equals the declarative one |
| GraphRewrite.RewriteFrame | src/runtime/gr4_runtime_manager.cpp:394-458 | a rewrite alters only the keys `id` and `parameters` |
| BlockReading.RewriterWrites | src/runtime/gr4_runtime_manager.cpp:394-458 | on the submitted keys, what a rewritten block has under `id`, under each parameter, and under its parameter `name`; other keys are as submitted |
| BlockReading.InjectorReads | src/runtime/gr4_runtime_manager.cpp:546-561 | on the submitted keys, the name by which injection knows a block, by order of preference |
| BlockReading.InjectorWrites | src/runtime/gr4_runtime_manager.cpp:564-571 | the endpoint goes into the parameter `endpoint`, and every other parameter and key is as it was |
| BlockReading.LoadedWithoutStreams | src/runtime/gr4_runtime_manager.cpp:583-615 | without streams the loaded block list is the submitted one, each block rewritten in its place |
| GraphRewrite.BlockRewriteIdempotent | src/runtime/gr4_runtime_manager.cpp:394-458 | rewriting twice equals rewriting once exactly when the submitted block is named (merged parameters, a non-empty id, or a block-level name) or has no type to put in its id |
| GraphRewrite.SecondPassExample | src/runtime/gr4_runtime_manager.cpp:434-439 | a block that says only its type is named after it by the second pass |
| GraphRewrite.NormalizeConnection | src/runtime/gr4_runtime_manager.cpp:460-520 | the rewritten connection, an error for a port out of range, and a changed flag that is never wrongly false |
| GraphRewrite.ConnectionRewriteIdempotent | src/runtime/gr4_runtime_manager.cpp:460-520 | rewriting a rewritten connection changes nothing |
| ConnectionPorts.PortTable | src/runtime/gr4_runtime_manager.cpp:461-476 | `in` and `out` become 0; `N` and `outN` become N up to the int64 maximum and an error above; `inN` stays text; for all N |
| ConnectionPorts.ConvertedTokens | src/runtime/gr4_runtime_manager.cpp:465-473 | every digit string converts to its positional value, leading zeros included, and so do the digits after the last `t` of a token that begins like a port |
| ConnectionPorts.TextTokensIff | src/runtime/gr4_runtime_manager.cpp:461-476 | exactly the other tokens keep their text |
| ConnectionPorts.ListConnection | src/runtime/gr4_runtime_manager.cpp:477-489 | the list form: converts exactly if its second and fourth elements do, which are rewritten as port tokens if they are texts; every other element stays |
| ConnectionPorts.MapConnection | src/runtime/gr4_runtime_manager.cpp:491-520 | the map form becomes the list of source block, source port, destination block and destination port, each from its own key |
| ConnectionPorts.OtherConnection | src/runtime/gr4_runtime_manager.cpp:477-511 | short lists, maps without the four texts and all other values are left alone |
| ConnectionPorts.PlainConnectionExample | test/gr4_runtime_manager_test.cpp:89 | plain ports in both forms give the same connection between ports 0 |
| ConnectionPorts.RewrittenGraphParts | src/runtime/gr4_runtime_manager.cpp:583-615 | the loaded graph has the submitted keys, its connections rewritten one by one in order, and nothing different outside blocks and connections |
| ConnectionPorts.RefusedForPortIff | src/runtime/gr4_runtime_manager.cpp:583-615 | a graph is refused for a port out of range exactly if one of its connections is |
| GraphRewrite.InjectStreamBindings | src/runtime/gr4_runtime_manager.cpp:522-581 | the injected tree or the error, and an unchanged flag that means an unchanged tree |
| GraphRewrite.InjectionAllOrThrow | src/runtime/gr4_runtime_manager.cpp:576-578 | for bindings with distinct streams, injection into a block list succeeds exactly when every binding reached some block |
| GraphRewrite.InjectionFrame | src/runtime/gr4_runtime_manager.cpp:538-574 | only matched blocks change, only in `parameters`, only at `endpoint` |
| GraphRewrite.NormalizeGraphContent | src/runtime/gr4_runtime_manager.cpp:583-615 | the text returned denotes the rewritten and injected tree, so the unchanged shortcut never drops a change; unparsed text is passed on |
| EndpointInjection.ReadersAgreeIffSettled | src/runtime/gr4_runtime_manager.cpp:434-453 | the planner and the injector name a block alike exactly when its name is settled, a condition on the submitted block |
| EndpointInjection.AllReachedIff | src/runtime/gr4_runtime_manager.cpp:564-578 | for any blocks and bindings, every binding reaches a block exactly when the planned names differ and each is borne by some block |
| EndpointInjection.GraphLoadsIff | src/runtime/gr4_runtime_manager.cpp:583-615 | a graph with a block list loads exactly when no connection port overflows, the planned names differ and each is borne; then every block carries the endpoint planned under the name it bears, and none otherwise, whoever declared the stream |
| EndpointInjection.OwnEntriesIff | src/runtime/gr4_runtime_manager.cpp:538-564 | injection matches every declaring block with its own plan entry exactly when the planned names differ and the names of all declaring blocks are settled |
| EndpointInjection.OwnEndpointsIff | src/runtime/gr4_runtime_manager.cpp:564-574 | in a loaded graph, for distinct endpoints that no declaring block was submitted with, all declaring blocks carry the endpoints of their own streams exactly if all their names are settled |
| EndpointInjection.EndpointsReachDeclaringBlocksIff | src/runtime/gr4_runtime_manager.cpp:583-615 | plan, rewrite, inject, for such endpoints: the graph loads with each endpoint in the block that declared the stream exactly when no connection port overflows, the planned names differ and every declaring block's name is settled |
| UnsettledName.UnsettledNameExample | src/domain/session_stream.cpp:147-162 | a graph that passes validation and has a plan, but whose one block is planned under one name and known to injection by another, so that for every binding of the plan the rewrite fails with bindings not injected |
| UnsettledName.CrossedNamesExample | src/domain/session_stream.cpp:147-162 | a graph of two blocks that passes validation, has a plan and loads, in which, for every binding of the plan, each block carries the endpoint of the other's stream |
| CatalogService.Sort | src/app/block_catalog_service.cpp:63-71 | a sorted permutation |
| CatalogService.BetterIsStrictTotal | src/app/block_catalog_service.cpp:40-56 | preference among browse entries is irreflexive, asymmetric and total up to the id |
| CatalogService.BetterTransitive | src/app/block_catalog_service.cpp:40-56 | preference among browse entries is transitive |
| CatalogService.Collapse | src/app/block_catalog_service.cpp:72-87 | one pass gives an index of every id and one browse entry per canonical key, the best of its group among all blocks |
| CatalogService.BlockCatalogService.Catalog | src/app/block_catalog_service.cpp:60-102 | the cache holds a catalog of the provider's blocks: ordered, one entry per canonical key, each the best of its group, with an index of every id |
| CatalogService.BlockCatalogService.List | src/app/block_catalog_service.cpp:12-15 | a list ascending by category, within it by name and within that by id, with one entry per canonical key of the provider's blocks, the same one at every call |
| Text.LessIffDiffers | src/app/block_catalog_service.cpp:63-71 | a text is less than another exactly if it is a proper prefix of it or has the smaller character where they first differ |
| CatalogService.BlockCatalogService.Get | src/app/block_catalog_service.cpp:17-25 | finds exactly the listed ids, with a provider block of that id; of several the last by category and name |
| CatalogService.BrowseMembers | src/app/block_catalog_service.cpp:74-87 | a block is browsed exactly when it is the best of its group |
| CatalogService.BrowseAscends | src/app/block_catalog_service.cpp:88-98 | with distinct ids the browse list is strictly ascending: a smaller category, or the same and a smaller name, or both the same and a smaller id |
| CatalogService.BrowsedIsPreferred | src/app/block_catalog_service.cpp:40-56 | against every block of its group the browsed entry is an alias if there is one, has the longest id among its like, and is the first by category, name and id among the longest |
| CatalogService.GroupOf | src/app/block_catalog_service.cpp:29-34 | blocks are grouped by their canonical type, and by their id if they have none or an empty one |
| CatalogService.LongestAliasIsBrowsed | src/app/block_catalog_service.cpp:40-48 | a browsed entry whose group has an alias is itself an alias, and its id is at least as long as every alias of the group |
| CatalogAliases.ShorterAliasIsNotBrowsed | test/block_catalog_service_test.cpp:84-92 | for a provider with the two aliases of the test the longer is browsed and the expected shorter is not; both are found by exact id |
| CatalogService.CatalogIsDeterministic | src/app/block_catalog_service.cpp:60-102 | provider lists of the same blocks with distinct ids, in any two orders, give the same browse list and the same index |
| StreamPaths.DecodePercentEncoded | src/api/http_server.cpp:298-315 | the index loop computes the declarative decoding, errors of the number parser included |
| StreamPaths.DecodeInvertsEncode | test/http_api_test.cpp:678-691 | decoding inverts the encoder on all byte strings (section 2.1 of RFC 3986) |
| StreamPaths.DecodeIsIdentityIff | src/api/http_server.cpp:298-315 | exactly which texts decoding leaves alone |
| StreamPaths.EscapedByte | src/api/http_server.cpp:303-306 | the byte an escape stands for, for all pairs of digits in either case |
| StreamPaths.OneDigitByte | src/api/http_server.cpp:303-306 | the byte of the malformed escapes that the number parser lets through: one digit with junk behind it or a space or sign before it |
| StreamPaths.BadEscape | src/api/http_server.cpp:303-306 | an escape without a digit stops the decoding |
| StreamPaths.PlainCharacter | src/api/http_server.cpp:307-311 | a plus is read as a space and every other character as itself |
| StreamPaths.NamedByShape | src/api/http_server.cpp:540-563 | a target is a websocket stream path exactly if, up to its first `?`, it is the prefix, a non-empty session id without `/`, the infix, a non-empty rest and the suffix |
| StreamPaths.StreamRouteReads | src/api/http_server.cpp:540-563 | and then it names that session and the decoded rest |
| StreamPaths.WebSocketPathParsesBack | src/api/http_server.cpp:540-563 | for a plain session id, exactly which stream ids a printed websocket path gives back |
| StreamPaths.HttpPathIsNotWebSocketIff | src/api/http_server.cpp:540-563 | for a plain session id, the path of any other transport is taken for a websocket target exactly when the stream id, up to its first `?`, is longer than `/ws` and ends in it, and then for the stream before that |
| StreamPaths.PosingExample | src/api/http_server.cpp:540-563 | the HTTP path of stream `x/ws?` is read as the websocket path of stream `x` |
| StreamPaths.PathsAreInjective | src/domain/session_stream.cpp:44-53 | for session ids without `/`, printed paths are equal only for equal session, stream and kind of transport |
| SettingsCodec.JsonToPropertyMap | src/app/block_settings_service.cpp:66-76 | the loop computes the declarative conversion |
| SettingsCodec.PropertyMapToJson | src/app/block_settings_service.cpp:110-116 | the loop computes the declarative conversion back, which refuses lists and complex numbers |
| SettingsCodec.SettingsConvertIff | src/app/block_settings_service.cpp:66-108 | conversion succeeds exactly when the root is an object and no array occurs at any depth |
| SettingsCodec.RefusedSettings | src/app/block_settings_service.cpp:66-108 | a body that is no object or holds an array at some depth is a validation error |
| SettingsCodec.ConvertedAtPath | src/app/block_settings_service.cpp:78-108 | at every path of names the converted settings hold what the JSON value at that path becomes, unsigned numbers congruent modulo 2^64 |
| SettingsCodec.SettingsRoundTripIff | src/app/block_settings_service.cpp:66-153 | converting there and back gives the original exactly when it converts and no number above the int64 range occurs at any depth |
| SettingsCodec.WideNumberIsAcceptedAndWraps | src/app/block_settings_service.cpp:85-94 | a number the guard should refuse is accepted and comes back negative |
| SettingsCodec.ReportRoundTripIff | src/app/block_settings_service.cpp:118-153 | a runtime value that can be reported is given back by the conversion from JSON exactly when no integer above the int64 range occurs in it at any depth |
| SettingsCodec.ReportConvertsIff | src/app/block_settings_service.cpp:118-153 | a runtime value can be reported exactly when no list and no complex number occurs in it at any depth |
| SettingsCodec.RefusedReport | src/app/block_settings_service.cpp:146-148 | a report that holds a list or a complex number is a runtime error |
| SettingsCodec.ReportedAtPath | src/app/block_settings_service.cpp:118-153 | at every path of names the report holds what the runtime value at that path becomes |
| SettingsCodec.ComplexSettingIsRefused | src/app/block_settings_service.cpp:122-150 | one complex setting, whatever the others are, makes the report of its block an error |
| SettingsCodec.WideReportWraps | src/app/block_settings_service.cpp:85-132 | the unsigned value 2^63 is reported as it is and read back as the most negative integer |
| ReflectionCodec.BlockToJson | src/catalog/gr4_block_catalog_provider.cpp:955-982 | the object built field by field is the declarative one |
| ReflectionCodec.ParseBlock | src/catalog/gr4_block_catalog_provider.cpp:1067-1091 | the parser computes the declarative reading, errors included |
| ReflectionCodec.BlockKeys | src/catalog/gr4_block_catalog_provider.cpp:955-982 | under which key each datum of a block is written |
| ReflectionCodec.PortKeys | src/catalog/gr4_block_catalog_provider.cpp:897-920 | under which key each datum of a port is written |
| ReflectionCodec.ParameterKeys | src/catalog/gr4_block_catalog_provider.cpp:922-953 | under which key each datum of a parameter is written, and which are left out |
| ReflectionCodec.PortFromMembers | src/catalog/gr4_block_catalog_provider.cpp:1003-1031 | which member each field of a parsed port comes from, with integers cut to 32 bits and members of another kind ignored; dynamic exactly if the text says so |
| ReflectionCodec.ParameterFromMembers | src/catalog/gr4_block_catalog_provider.cpp:984-1065 | the same for a parameter, its default, its choices in their order and its labels |
| ReflectionCodec.BlockFromMembers | src/catalog/gr4_block_catalog_provider.cpp:1067-1091 | the same for a block, its ports and parameters read in their order |
| ReflectionCodec.BlockNeedsLists | src/catalog/gr4_block_catalog_provider.cpp:1081-1089 | a payload without one of the three lists, or with an unreadable element in one, is invalid |
| ReflectionCodec.PortSurvives | src/catalog/gr4_block_catalog_provider.cpp:897-1031 | every port descriptor survives printing and parsing |
| ReflectionCodec.ParameterSurvives | src/catalog/gr4_block_catalog_provider.cpp:922-1065 | every parameter descriptor survives printing and parsing |
| ReflectionCodec.BlockSurvivesIff | src/catalog/gr4_block_catalog_provider.cpp:955-1091 | a block descriptor survives printing and parsing exactly when its canonical type is not the empty text, and otherwise loses only that |

## Left out

- SessionService.SessionService.Start: each runtime call of the objects runs through all its critical sections at once, though others may be anywhere in theirs; interleaving between the sections of one call is modelled by the machine in `Lifecycle`, and `RuntimeRuns` connects the two.
- Gr4Runtime.Gr4RuntimeManager.StopLocked: the scheduler is assumed to throw nothing but `std::exception` when it is stopped, since only that is caught; `async_error` is never assigned in the source and its branch is not modelled.
- Gr4Runtime.Gr4RuntimeManager.LoadLocked: likewise the graph loader and the scheduler factory are assumed to throw nothing but `std::exception` (src/runtime/gr4_runtime_manager.cpp:1024); anything else would leave the ports of the session to nobody, so that nothing else leaks rests on this.
- LifecycleProgress.NoWedging: that threads are scheduled fairly is not modelled; that a teardown can only fail to finish by not being scheduled is `LifecycleProgress.TeardownOnEveryRun` with `LifecycleProgress.NeverStuck`.
- SessionService.SessionService.Create: assumes that the random generator eventually names an id that is not stored; the source loops until it does.
- SessionService.SessionService.ResolveStream: says nothing past the lookup; the request to the stream endpoint and its retries happen after the lock is dropped, when the port may be stale.
- GraphRewrite.NormalizeGraphContent: works on value trees; that the YAML library reads back what it serialises is assumed, and YAML syntax is not modelled.
- SettingsCodec.SettingsRoundTripIff: floating point numbers, and the parts of complex ones, are reals, so rounding, infinities and not-a-number are outside the model; so is JSON text syntax. Numbers are compared as they are written, signed or not.
- ReflectionCodec.BlockSurvivesIff: finite floating point defaults only, and integers of the source's 32-bit width.
- Environment: plugin loading, sockets, the clock, random ids and the scheduler are oracles that come with the action or the call.
- Wording of error messages and logs; the text of a teardown error is kept only as whether there is one; the counter of runtime generations is unbounded.
- The destructor of the runtime manager, the HTTP server, the websocket bridge, proxying and the command line.
- GNU Radio itself, the fork and pipe around block reflection, and the merge and readback of settings in the stub manager.
- Settings messages to running blocks with their timeouts, the scheduler catalog, the static block catalog, UI hints and the inference of port sizes.
- CatalogService.Sort: stands for `std::sort`; it is an insertion sort, and nothing relies on more than a sorted permutation.
- Listing sessions in creation order: sorting by two fields, no part of the protocol.
