# Vynkor kernel: verified model

A Dafny model of the stateful core of the Vynkor kernel, which routes frames between plugin
processes, with proofs of what it promises over whole runs. `dafny verify dfyconfig.toml` checks
everything.

Code that changes state appears twice. A pure step function (`...Model`, `...Protocol`,
`Reassembly`) says what one atomic step does, and the theorems speak about every sequence of steps.
A class or method in the code's own form (`ActionKernel`, `ReassemblyTable`, `PluginRegistry`,
`SupervisorProcess`, `OutboxStore`, `EventBus`, `ErrorBudget`, `DependencyOrder`, `LoadPlan`) is
proved to take exactly those steps, or to meet an independent reference.

- **Actions** (`ActionIds`, `ActionProtocol`, `ActionSteps`, `ActionRuns`, `ActionStreams`,
  `ActionProvider`, `ActionEntries`, `ActionLost`, `ActionSafety`, `ActionKernel`): requests, replies, chunks, closes, aborts and the two timeout
  sweeps of the router task. Each handler and each prune tick is one step; whether a send succeeds
  is an input. Messages are attempted sends; chunks and replies record whether the channel took
  them. Run theorems assume that a direct mux request never carries an id of the kernel's
  own form (`MuxClean`), since the mux path stores under the requester's id and may overwrite.
- **Reassembly** (`Reassembly`, `ReassemblyStreams`, `ReassemblyExact`, `ReassemblyLog`, `ReassemblyTable`):
  fragment streams of one connection, with pruning on every frame, caps and byte accounting. The
  accounting update takes `new - replaced` first, which is below zero for a shorter resend. Both
  builds are modelled: with overflow checks such a resend ends the connection, without them the
  count is right.
- **Dependency order** (`DependencyOrder`, `LoadPlan`): the sort and what is started around it.
- **Registry** (`RegistryModel`, `RegistryHistory`, `ActionIndex`, `PluginRegistry`): a plain model of
  the registered plugins, what it must be told from the calls alone, and the index, collision, connection and device maps that must agree with it.
- **Supervisor** (`SupervisorModel`, `SupervisorRuns`, `SupervisorPlaces`, `SupervisorStop`,
  `SupervisorOrphans`, `SupervisorRespawn`, `SupervisorRestart`, `SupervisorHistory`, `SupervisorProcess`): starts, stops, manual restarts, exits, decisions,
  backoffs, spawns and drops. A spawn takes its epoch in one step and inserts its entry in a later
  one, and the monitor carries a decision out in a later step than it makes it.
- **Events** (`OutboxModel`, `OutboxRuns`, `OutboxStore`, `EventBus`): the outbox with its retry
  worker, and the subscription indexes with the fan-out.
- **Error budget** (`ErrorBudget`, `BudgetReference`): the per-connection throttle of the router
  loop, and the same told from the messages alone.
- **Helpers** (`Collections`): options, and sequences without repetition.
- **Calendar** (`Calendar`): the two copies of the civil-date arithmetic, against the Gregorian
  rules of section 5.7 and appendix C of RFC 3339.

Promises that do not hold as written, each with a run that shows it and the exact condition under
which it does hold:

- A stop is terminal: only the latest stop of a plugin is remembered and a spawn under way is not
  checked again (`SupervisorStop.SecondStopUndoesFirst`, `SupervisorStop.StopIsTerminalIff`).
- A stale exit is never attributed to a newer instance: between the decision to drop a plugin and
  the drop the monitor publishes the death, and the drop does not look at the epoch
  (`SupervisorOrphans.LateDropHitsLiveInstance`, `SupervisorOrphans.DropHitsTheExitedIff`).
- A start never overwrites a live entry: the guard is tested before the spawn, the entry is inserted
  after it (`SupervisorOrphans.SecondStartOverwritesFirst`,
  `SupervisorOrphans.StartOverwritesNothingIff`).
- A supervised restart replaces its own dead entry: it inserts over whatever is there
  (`SupervisorRespawn.RespawnOverwritesLiveInstance`,
  `SupervisorRespawn.RespawnOverwritesNothingIff`).
- A manual restart overrides the policy: the mark is consumed by the next exit of the plugin, stale
  or not (`SupervisorRestart.StaleExitEatsMark`, `SupervisorRestart.RestartIsHonouredIff`).
- An entry stands for a process: after a failed respawn the entry stays with nothing behind it
  (`SupervisorOrphans.FailedRespawnLeavesEntry`, `SupervisorPlaces.RegisteredIsHeldUnlessFailed`).
- An acknowledged event is delivered: the bump has no status check
  (`OutboxRuns.AcknowledgedYetDead`, `OutboxRuns.AckIsFinalIff`).
- The requester of an accepted session got the accepting reply: replies are dropped on a full channel
  (`ActionLost.AcceptanceLost`, `ActionStreams.AcceptanceHeardIff`).
- Request chunks arrive without a gap: the lookup by the requester's action id returns any match
  (`ActionLost.ReusedIdLosesChunk`, `ActionStreams.UploadCertainIff`,
  `ActionStreams.NoGapsToProvider`).
- A resent fragment may be shorter: not in a build with overflow checks
  (`Reassembly.ShorterResendLosesConnection`, `Reassembly.ChecksRefuseShorterResends`).

Where comments and code differ the model follows the code: the loader announces a depth-first
search for cycles and runs Kahn's algorithm; the error-budget comment counts every message that
gets an error response, while the code answers rate-limited messages and unreadable targets with an
error before the budget is looked at; the date function claims the whole 64-bit range of days,
which the model takes without overflow.

## Model

| member | source | states |
|---|---|---|
| `ActionRuns.ConversationFollowsAutomaton` | src/ipc/protocol/router.rs:680-1035 | In every run, the messages sent to the requester of a kernel-routed action follow a fixed automaton: chunks and OK replies while pending; gone means ended, unless the requester closed its accepted session; nothing before it is minted and nothing wrong ever |
| `ActionRuns.EndedForGood` | src/plugins/registry.rs:576-653 | Once a minted action is no longer pending, no continuation of the run brings it back or says anything more about it |
| `ActionRuns.NonStreamingAnsweredOnce` | src/plugins/registry.rs:576-598 | In every run a non-streaming kernel-routed action was sent exactly one response once it is no longer pending, and none before |
| `ActionRuns.AcceptedNeverSynthesised` | src/ipc/protocol/helpers.rs:187-259 | After an OK reply accepted a streaming session, its requester never gets a synthesised timeout or backpressure response |
| `ActionRuns.EndingIsLast` | src/ipc/protocol/helpers.rs:214-259 | A final reply, a timeout, a close or a backpressure response is the last message about its action; an abort is followed by at most the backpressure response |
| `ActionRuns.StepPhase` | src/plugins/registry.rs:588-591 | The messages of one step move the automaton exactly as the entry moves: open while it stays, done when it goes, and untouched only when the requester closes its accepted session |
| `ActionRuns.RunInv` | src/ipc/protocol/router.rs:754-778 | In every reachable state pending kernel ids are below the counter and only streaming entries are accepted |
| `ActionProvider.ProviderIsServed` | src/ipc/protocol/router.rs:754-1035 | In every run the provider of a kernel-routed action is sent the request first, then only uploads, then at most one abort or close and nothing after; it is told of the end unless it ended the action itself, the deadline passed, or it was not registered then |
| `ActionProvider.StepTold` | src/ipc/protocol/router.rs:780-1035 | What each kind of step attempts to send a provider about an action, for all keys and all failing sends |
| `ActionEntries.RequestIsAnswered` | src/ipc/protocol/router.rs:690-816 | A request is refused, with one answer on its channel and the status its lookup, its rate or the cap demands and nothing changed; or it is pending under the next kernel id with what it brought and is forwarded |
| `ActionEntries.RequestsAddUp` | src/ipc/protocol/router.rs:680-816 | In every run the requests are as many as the refusals and the minted actions together |
| `ActionEntries.EntryIsTold` | src/ipc/protocol/router.rs:754-778 | In every run a pending action holds the channel, names and flags of the request that became it, the deadline counted from that request, and the time of its last activity |
| `ActionEntries.TickEndsOverdue` | src/plugins/registry.rs:606-653 | In every run a tick ends an action exactly when it is not accepted and the time its request asked for is over, or it is accepted and longer idle than allowed, counted from its acceptance or the last chunk forwarded in either direction |
| `ActionEntries.CloseIsAnswered` | src/ipc/protocol/router.rs:960-1035 | A close ends exactly one accepted session of its sender, or changes nothing and is answered with one error |
| `ActionEntries.DirectRequestIsKept` | src/ipc/protocol/router.rs:1202-1217 | A direct request is kept under the id of the caller: the reply of the device reaches the caller, no other does, and it times out after 30 seconds |
| `ActionStreams.NoGapsToRequester` | src/ipc/protocol/router.rs:916-958 | In every run, the response chunks enqueued for the requester are a prefix of those the provider submitted, and all of them while the action is pending |
| `ActionStreams.HandedOnInOrder` | src/ipc/protocol/router.rs:818-958 | In every run the chunks enqueued and the replies sent, lost ones included, are in order a prefix of what the provider submitted, and all of it while the action is pending |
| `ActionStreams.AcceptanceHeardIff` | src/ipc/protocol/helpers.rs:110-123 | In every run and for every accepting reply to an action not yet accepted: its requester has got a reply of the provider by the time the action is over, in every continuation, if and only if the channel took this one |
| `ActionStreams.AcceptedIffProviderSaidOk` | src/plugins/registry.rs:588-591 | In every run a pending action is an accepted session if and only if its provider replied OK since the mint |
| `ActionLost.AcceptanceLost` | src/ipc/protocol/router.rs:840-849 | A run in which the accepting reply is lost: the requester gets a chunk and an abort and no response at all |
| `ActionStreams.NoGapsToProvider` | src/ipc/protocol/router.rs:864-914 | The same for request chunks towards the provider, when the requester of this action does not reuse its id while it is pending, whatever other plugins and other ids do |
| `ActionStreams.AloneIffNeverReused` | src/plugins/registry.rs:688-697 | In every run an action has its requester and action id to itself all the time if and only if no mint and no mux request puts a second entry under them while it is pending |
| `ActionStreams.UploadCertainIff` | src/ipc/protocol/router.rs:864-914 | In every run a request chunk is certain to be forwarded for its action if and only if no other pending entry carries the same requester and action id |
| `ActionLost.ReusedIdLosesChunk` | src/ipc/protocol/router.rs:864-914 | A run in which a reused action id makes an action miss a chunk of its requester |
| `ActionStreams.LookupDetermined` | src/plugins/registry.rs:688-697 | The reverse lookup is certain to find an action exactly when no other pending entry of the requester carries the same action id |
| `ActionStreams.StepHandsOn` | src/ipc/protocol/router.rs:818-958 | One step hands on the reply or chunk submitted in it, or nothing and the action is gone: the first chunk that cannot be enqueued removes it |
| `ActionStreams.StepForwards` | src/ipc/protocol/router.rs:864-914 | One step forwards the request chunk submitted in it, or nothing and the action is gone |
| `ActionStreams.RunNamesUnique` | src/ipc/protocol/router.rs:864-880 | When nobody reuses an id in flight, each pending entry is the only one under its requester and action id in every reachable state |
| `ActionStreams.NoReuseSuffices` | src/ipc/protocol/router.rs:864-880 | When nobody reuses an id in flight, no action has its id reused |
| `ActionSafety.StrangersChangeNothing` | src/plugins/registry.rs:576-598 | Over every run, a step of a plugin that is neither requester nor routed provider leaves the entry and its conversation unchanged, whatever action id it names |
| `ActionSafety.MessagesReachTheirEnds` | src/ipc/protocol/router.rs:828-1035 | Every message about a kernel-routed action goes to the channel and action id, or the provider, it was minted with |
| `ActionSafety.CapHolds` | src/ipc/protocol/router.rs:732-778 | With the concurrency cap set, no (caller, provider) pair exceeds it in kernel-routed entries in any reachable state |
| `ActionSafety.StepLoad` | src/plugins/registry.rs:661-666 | The load of a pair grows only by the one action a step mints for it |
| `ActionSafety.TickRemovesExactlyOverdue` | src/ipc/protocol/router.rs:147-184 | A tick removes exactly the entries overdue for the one sweep they fall under, the deadline before acceptance and the idle timeout after it, and leaves the rest untouched |
| `ActionSafety.AcceptedSessionsStream` | src/plugins/registry.rs:588-591 | In every reachable state an accepted session is a streaming request |
| `ActionSteps.StepInv` | src/ipc/protocol/router.rs:754-778 | Every step keeps the invariant and advances the id counter exactly when it mints |
| `ActionSteps.StepTrace` | src/ipc/protocol/router.rs:818-1035 | What each kind of step attempts to send about an action, for all keys and all failing sends |
| `ActionSteps.StepKeeps` | src/plugins/registry.rs:576-610 | A pending action that stays keeps its requester, provider, channel, action id and streaming flag; it is accepted afterwards if and only if it was or this step is the accepting OK reply |
| `ActionSteps.StepStays` | src/plugins/registry.rs:576-653 | A pending action stays if and only if its messages of the step do not end it and its requester does not close it |
| `ActionSteps.StepBringsIn` | src/ipc/protocol/router.rs:754-778 | A kernel-routed entry appears if and only if the step mints its id, with the data of that request |
| `ActionIds.KernelIdInjective` | src/ipc/protocol/router.rs:755-758 | Different counter values give different kernel action ids |
| `ActionKernel.Router.ResolveActionResponse` | src/plugins/registry.rs:576-598 | Only the routed provider resolves; an OK reply to a streaming request accepts it in place, any other evicts |
| `ActionKernel.Router.TouchPendingAction` | src/plugins/registry.rs:606-610 | Refreshes the activity time of an entry, if it is there, and nothing else |
| `ActionKernel.Router.FindPendingInternalId` | src/plugins/registry.rs:688-697 | Finds some entry of the requester under its own action id, and none only if there is none |
| `ActionKernel.Router.CountPendingActionsFor` | src/plugins/registry.rs:661-666 | Counts exactly the pending entries of the pair |
| `ActionKernel.Router.CollectExpired` | src/plugins/registry.rs:641-653 | Lists each unaccepted entry past its deadline exactly once |
| `ActionKernel.Router.CollectIdle` | src/plugins/registry.rs:618-634 | Lists each accepted session idle beyond the timeout exactly once |
| `ActionKernel.Router.NotifyForcedTermination` | src/ipc/protocol/helpers.rs:214-259 | Sends the abort to the requester and to a provider still registered, and the backpressure response only if the session was not accepted |
| `ActionKernel.Router.AbortStream` | src/ipc/protocol/helpers.rs:187-192 | Removes the entry and notifies, or does nothing when it is gone |
| `ActionKernel.Router.HandleRequest` | src/ipc/protocol/router.rs:680-816 | Is one request step of the protocol |
| `ActionKernel.Router.HandleResponse` | src/ipc/protocol/router.rs:818-862 | Is one response step of the protocol |
| `ActionKernel.Router.HandleRequestChunk` | src/ipc/protocol/router.rs:864-914 | Is one request-chunk step of the protocol for a legal lookup result |
| `ActionKernel.Router.HandleResponseChunk` | src/ipc/protocol/router.rs:916-958 | Is one response-chunk step of the protocol |
| `ActionKernel.Router.HandleSessionClose` | src/ipc/protocol/router.rs:960-1035 | Is one close step of the protocol for a legal lookup result |
| `ActionKernel.Router.HandleMuxRequest` | src/ipc/protocol/router.rs:1202-1217 | Is one direct mux step: the entry is stored under the requester's own id |
| `ActionKernel.Router.HandlePruneTick` | src/ipc/protocol/router.rs:147-184 | Is one tick of the protocol with complete sweeps |
| `ReassemblyStreams.StreamsAreIndependent` | src/ipc/connection.rs:198-308 | While the connection lives, what is emitted for a stream in any interleaving equals what is emitted when only its frames arrive at the same times, and that connection lives too |
| `ReassemblyStreams.RunProjects` | src/ipc/connection.rs:60-79 | Every run projects onto each stream alone, although every frame prunes all buffers |
| `ReassemblyStreams.SoloRun` | src/ipc/connection.rs:198-308 | With room for one stream, a connection that receives only one stream behaves as that stream alone |
| `ReassemblyExact.EmissionsAreExact` | src/ipc/connection.rs:217-308 | A live connection emits for a stream exactly what a log-based reference emits: a message when the sequences received since the buffer opened cover the total, made of the latest bytes of each in order |
| `ReassemblyLog.LogIsExact` | src/ipc/connection.rs:198-319 | In every run that a connection survives, what it emits is in arrival order each plain frame as it came and each reassembled message at the frame that completes it |
| `ReassemblyLog.PlainFramesPass` | src/ipc/connection.rs:309-319 | In every run that a connection survives, the plain frames come out unchanged, in order, each once, and the router took all of them |
| `ReassemblyLog.SurvivesIff` | src/ipc/connection.rs:198-319 | A connection survives a run if and only if every frame is readable, taken by the router, accepted by its stream and within the stream cap |
| `ReassemblyExact.RoundTrip` | src/ipc/connection.rs:43-58 | Whatever the stream carried before, once its buffer is gone or timed out, any split of a payload within the cap, delivered in any order with repeats, adds exactly one message with the payload |
| `ReassemblyExact.RoundTripAmongOthers` | src/ipc/connection.rs:198-308 | The same in the middle of any other traffic, after any past, of a connection that lives |
| `ReassemblyExact.LaneAgreesRun` | src/ipc/connection.rs:217-308 | Map, counter and count test of one stream agree with the log-based reference after every run |
| `ReassemblyExact.AbsorbAgrees` | src/ipc/connection.rs:229-308 | For one fragment: refused, complete or kept exactly as the reference says, with the same bytes |
| `Reassembly.AccountingHolds` | src/ipc/connection.rs:229-283 | In every reachable state of a live connection each byte count is the sum of the stored lengths and within the payload cap, the stream count is within its cap, and so is the total |
| `Reassembly.ChecksRefuseShorterResends` | src/ipc/connection.rs:271-283 | Over every run that a build without overflow checks survives, a build with them does the same if and only if no frame is a shorter resend to the buffer then open; otherwise it loses the connection |
| `Reassembly.WrapsForShorterResends` | src/ipc/connection.rs:282-282 | The difference taken first is below zero exactly for a shorter resend |
| `Reassembly.ShorterResendLosesConnection` | src/ipc/connection.rs:262-283 | A run with a shorter resend: one build emits the message, the other loses the connection |
| `Reassembly.WrappedUpdate` | src/ipc/connection.rs:271-282 | With wrap-around arithmetic both groupings of the accounting update give the same count |
| `Reassembly.CountIsCoverage` | src/ipc/connection.rs:44-47 | Counting fragments is the same as covering every sequence below the total |
| `Reassembly.TotalBounded` | src/ipc/connection.rs:229-283 | Bytes held over all streams are at most the stream count times the payload cap |
| `Reassembly.StepOk` | src/ipc/connection.rs:198-308 | Every arrival keeps the accounting, range and cap invariants |
| `ReassemblyTable.SortedKeys` | src/ipc/connection.rs:50-51 | The sequences of a buffer in strictly ascending order, none missing |
| `ReassemblyTable.Reassemble` | src/ipc/connection.rs:49-57 | Sorting and appending gives the fragments in sequence order |
| `ReassemblyTable.Store` | src/ipc/connection.rs:262-283 | Replaces or adds a fragment with exact accounting, or refuses it for size |
| `ReassemblyTable.Connection.PruneStale` | src/ipc/connection.rs:60-79 | Drops exactly the buffers that are too old |
| `ReassemblyTable.Connection.OnArrival` | src/ipc/connection.rs:160-320 | One turn of the read loop is one step of the model and keeps the buffers valid |
| `ReassemblyTable.Connection.OnFragment` | src/ipc/connection.rs:217-308 | A valid fragment opens, extends, completes or kills as the model says |
| `ReassemblyTable.Connection.Settle` | src/ipc/connection.rs:284-308 | Puts the buffer back or emits its message and takes it out |
| `DependencyOrder.TopoSort` | src/plugins/loader.rs:199-269 | Ok exactly when no active plugin is blocked, and then a permutation of the active plugins with every dependency strictly earlier; otherwise exactly the blocked ones in config order. Duplicate edges and self-dependencies included |
| `DependencyOrder.ClosedGraphBlocksByCycles` | src/plugins/loader.rs:199-269 | When every dependency is refused or active, blocked means that some dependency walk reaches a cycle |
| `DependencyOrder.LeftoversAreBlocked` | src/plugins/loader.rs:257-268 | At the end of the queue loop the unordered plugins are exactly the blocked ones |
| `DependencyOrder.FollowWaits` | src/plugins/loader.rs:242-265 | Following unmet dependencies from a leftover revisits one or leaves the active plugins |
| `DependencyOrder.OrderedNotBlocked` | src/plugins/loader.rs:235-255 | A plugin with all dependencies before it in an order reaches no cycle |
| `DependencyOrder.StepBlocked` | src/plugins/loader.rs:199-269 | Being blocked passes from a dependency to its dependants |
| `DependencyOrder.InDegrees` | src/plugins/loader.rs:210-221 | In-degree counts one per listed, non-refused dependency, repetitions included |
| `DependencyOrder.Reverse` | src/plugins/loader.rs:223-233 | Reverse adjacency holds each dependant as often as it lists the dependency |
| `DependencyOrder.Drain` | src/plugins/loader.rs:235-255 | The queue loop keeps degree, queue and order consistent and queues every plugin once |
| `LoadPlan.Plan` | src/plugins/loader.rs:78-158 | Exactly the loadable plugins that reach no cycle start; the set is closed under non-refused dependencies; without a cycle dependencies start first, after one the config order is kept |
| `LoadPlan.Resolve` | src/plugins/loader.rs:78-142 | Refusals and dependency lists as the manifests and config demand |
| `LoadPlan.ManifestRefusals` | src/plugins/loader.rs:78-111 | Exactly the plugins whose manifest check failed |
| `LoadPlan.GraphIsClosed` | src/plugins/loader.rs:117-142 | Every dependency handed to the sort is refused or active |
| `LoadPlan.StartedAreClosed` | src/plugins/loader.rs:144-158 | Dependencies of a started plugin are started |
| `LoadPlan.AfterOrder` | src/plugins/loader.rs:144-146 | An ordered verdict starts all loadable plugins in that order |
| `LoadPlan.AfterCycle` | src/plugins/loader.rs:147-158 | A cyclic verdict starts the loadable rest in config order, and it is closed under dependencies |
| `ActionIndex.LookupEqualsScan` | src/plugins/registry.rs:472-539 | After any sequence of calls the lookup equals a scan of all manifests: none, the one, or the duplicate-free set of declarers |
| `RegistryHistory.LookupTells` | src/plugins/registry.rs:472-486 | After any sequence of calls the lookup answers with those whose accepted and standing registration declared the action |
| `ActionIndex.IndexEqualsScan` | src/plugins/registry.rs:491-539 | After any sequence of calls index and collision map hold exactly the declarers of every action |
| `ActionIndex.FindIsScan` | src/plugins/registry.rs:472-486 | An index that agrees with the manifests answers as the scan does |
| `ActionIndex.AddAgrees` | src/plugins/registry.rs:491-514 | Indexing adds the plugin to the declarers of that action and to no other, also when it is listed twice |
| `ActionIndex.DropAgrees` | src/plugins/registry.rs:519-539 | Unindexing removes the plugin, restoring a single remaining declarer from the collision map |
| `ActionIndex.AddAllAgrees` | src/plugins/registry.rs:218-220 | A manifest that lists actions, repeated or not, adds the plugin to exactly those |
| `ActionIndex.DropAllAgrees` | src/plugins/registry.rs:379-397 | Removal of a manifest removes the plugin from exactly its actions |
| `RegistryModel.RunFollows` | src/plugins/registry.rs:149-409 | After any sequence of calls a known device is online exactly when a registered plugin belongs to it, and no two plugins share a connection |
| `RegistryHistory.RegisteredIffStands` | src/plugins/registry.rs:149-397 | After any sequence of calls a plugin is registered if and only if an accepted registration of it stands, and its entry is what that call declared: connection, actions, device and user, with the defaults |
| `RegistryHistory.VerdictIs` | src/plugins/registry.rs:149-349 | After any sequence of calls the answer to a registration, told from the calls: invalid id, connection taken, id taken, or success |
| `RegistryHistory.DeviceTells` | src/plugins/registry.rs:222-252 | After any sequence of calls a device is known if and only if a registration on it was accepted; its description is that of the last one, it was last seen at the last registration or pong of one of its plugins, and it is online if and only if one stands |
| `RegistryModel.ApplyFollows` | src/plugins/registry.rs:149-409 | Each call keeps device state and distinct connections |
| `RegistryModel.RemoveFollows` | src/plugins/registry.rs:379-397 | After an unregistration, too, a device is online exactly when one of its plugins remains |
| `RegistryModel.PongFollows` | src/plugins/registry.rs:399-409 | A pong marks its device online and keeps the rule, because the plugin is still registered |
| `PluginRegistry.Registry.RegisterWithDevice` | src/plugins/registry.rs:149-253 | Registers as the plain model does, stores the declared actions and the pong time and keeps all maps consistent; a refusal changes nothing |
| `PluginRegistry.Registry.RegisterMuxDevice` | src/plugins/registry.rs:258-349 | The same for a multiplexed device with its qualified actions |
| `PluginRegistry.Registry.UnregisterPlugin` | src/plugins/registry.rs:379-397 | Removes the plugin from every map as the plain model does |
| `PluginRegistry.Registry.Ponged` | src/plugins/registry.rs:399-409 | Records the pong as the plain model does: pong time and last sight of the device are now, other devices are unchanged |
| `PluginRegistry.Registry.FindActionProvider` | src/plugins/registry.rs:472-486 | The answer is that of a scan of the registered manifests |
| `PluginRegistry.Registry.GetByConn` | src/plugins/registry.rs:459-466 | The connection map is the inverse of the plugin map |
| `PluginRegistry.Registry.IndexAction` | src/plugins/registry.rs:491-514 | Updates index and collision map as the specified addition |
| `PluginRegistry.Registry.UnindexAction` | src/plugins/registry.rs:519-539 | Updates index and collision map as the specified removal |
| `PluginRegistry.InverseAdds` | src/plugins/registry.rs:205-217 | A new plugin on an unused connection keeps connection and plugin maps inverse |
| `PluginRegistry.InverseRemoves` | src/plugins/registry.rs:379-386 | Removing a plugin with its connection keeps them inverse |
| `SupervisorPlaces.ReplacedAtMostOnce` | src/plugins/supervisor/watchdog.rs:14-136 | Over every interleaving each instance is replaced at most once |
| `SupervisorPlaces.ActsOnlyOnCurrentExits` | src/plugins/supervisor/watchdog.rs:20-43 | In every run the monitor takes an exit up if and only if it is of the instance registered at that moment; the decision leaves the table alone |
| `SupervisorPlaces.RegisteredIsHeldUnlessFailed` | src/plugins/supervisor/watchdog.rs:98-121 | In every run a registered instance is live, has its exit queued or is in the monitor's hand if and only if no spawn in its place failed |
| `SupervisorPlaces.RunPlaces` | src/plugins/supervisor/spawn.rs:293-349 | In every run an epoch is being spawned, live, queued or in the monitor's hand, never two of these, and never again after it was replaced |
| `SupervisorPlaces.RunKept` | src/plugins/supervisor/mod.rs:198-209 | In every run a recorded stop is of an instance that is neither registered nor being spawned |
| `SupervisorRuns.CountsAreRestarts` | src/plugins/supervisor/watchdog.rs:45-59 | In every run the restart count of a registered instance is the number of restarts since the start it goes back to, all under the same configuration; those decided by policy alone are at most max_restarts, and none under Never |
| `SupervisorRuns.RunMatches` | src/plugins/supervisor/spawn.rs:17-24 | In every run the e-th spawn has epoch e and table, queue and monitor agree with the record of all spawns |
| `SupervisorRuns.ChainCounts` | src/plugins/supervisor/watchdog.rs:89-121 | Counts along a chain of replacements |
| `SupervisorStop.StopIsTerminalIff` | src/plugins/supervisor/mod.rs:198-209 | In every run a stop of a registered plugin keeps it stopped until a new start, whatever else happens, if and only if no other spawn of it is under way and the monitor is not backing off for another of its instances |
| `SupervisorStop.StaysOutIff` | src/plugins/supervisor/watchdog.rs:100-121 | A plugin that is not registered stays out until a new start if and only if no spawn and no uncancelled backoff of it is under way |
| `SupervisorStop.Comeback` | src/plugins/supervisor/spawn.rs:26-349 | The continuation in which a spawn or backoff under way registers the plugin again |
| `SupervisorStop.SecondStopUndoesFirst` | src/plugins/supervisor/watchdog.rs:102-116 | A run with a stop, a start and a second stop during one backoff that ends with the plugin registered again |
| `SupervisorOrphans.DropHitsTheExitedIff` | src/plugins/supervisor/watchdog.rs:76-132 | In every run with a drop pending: until it happens, and without a new start, it can only hit the instance that exited if and only if that is so now and no spawn of the plugin is under way |
| `SupervisorOrphans.DropCanAlwaysMiss` | src/plugins/supervisor/watchdog.rs:122-132 | With a stop and a start before a pending drop, it always removes the entry of a new, live instance |
| `SupervisorOrphans.LateDropHitsLiveInstance` | src/plugins/supervisor/watchdog.rs:76-132 | A run in which the drop for instance 1 removes the entry of instance 2, which lives on |
| `SupervisorOrphans.RegisteredIffLastInserted` | src/plugins/supervisor/spawn.rs:293-306 | In every run an instance is registered if and only if the last event that inserted or took away an entry of the plugin is its own insertion |
| `SupervisorOrphans.LiveWithoutEntryIff` | src/plugins/supervisor/spawn.rs:293-306 | In every run a live instance is without its entry if and only if after its insertion a stop or a drop took an entry of the plugin away or another instance was inserted |
| `SupervisorOrphans.StartOverwritesNothingIff` | src/plugins/supervisor/spawn.rs:17-24 | In every run an accepted start overwrites no live instance, whatever happens short of another start, if and only if no other spawn and no uncancelled backoff of the plugin is under way |
| `SupervisorOrphans.SecondStartOverwritesFirst` | src/plugins/supervisor/spawn.rs:17-24 | A run of two accepted starts that ends with two live instances and one entry |
| `SupervisorOrphans.FailedRespawnLeavesEntry` | src/plugins/supervisor/watchdog.rs:117-119 | A run in which a failed respawn leaves the entry with nothing live, queued or under way |
| `SupervisorRespawn.RespawnOverwritesNothingIff` | src/plugins/supervisor/watchdog.rs:98-121 | In every run in a backoff, the respawn overwrites no live instance, whatever happens short of a new start, if and only if there is no live entry and no spawn of the plugin, or, while the recorded stop cancels it, not both an entry and a spawn and not two spawns |
| `SupervisorRespawn.RespawnOverwritesLiveInstance` | src/plugins/supervisor/watchdog.rs:98-121 | A run in which the respawn for instance 1 overwrites live instance 3 |
| `SupervisorRestart.RestartIsHonouredIff` | src/plugins/supervisor/mod.rs:238-254 | In every run a manual restart of a live instance is carried out when it exits, whatever the policy and in every continuation without a stop, if and only if no other instance of the plugin is live, queued or being spawned and the monitor is not about to drop or respawn it |
| `SupervisorRestart.StaleExitEatsMark` | src/plugins/supervisor/watchdog.rs:16-43 | A run in which the stale exit of instance 1 consumes the mark and instance 2, whose restart was asked for, is dropped |
| `SupervisorHistory.MarkedIffAsked` | src/plugins/supervisor/mod.rs:238-254 | In every run a plugin is marked for a restart if and only if one was asked for since it was last stopped and since an exit of it was last taken up |
| `SupervisorHistory.ExitsInOrder` | src/plugins/supervisor/spawn.rs:308-349 | In every run the exits are taken up one by one in the order in which they happened, each with the outcome it had, and the rest is queued |
| `SupervisorHistory.StopsAreRecorded` | src/plugins/supervisor/mod.rs:198-209 | In every run the recorded stop of a plugin is the instance its last stop took out |
| `SupervisorHistory.FinalCountsAreRestarts` | src/plugins/supervisor/watchdog.rs:122-132 | In every run the final count of a plugin is the number of restarts behind the instance its last drop took out |
| `SupervisorModel.BackoffDoubles` | src/plugins/supervisor/mod.rs:316-321 | The backoff starts at the base, doubles for eight restarts and then stays, never falls and never exceeds its cap |
| `SupervisorModel.RestartsIff` | src/plugins/supervisor/watchdog.rs:45-59 | A current exit leads to a restart if and only if the plugin is marked for one at that moment or the policy wants it and one is left; otherwise the plugin is about to be dropped; the mark is consumed |
| `SupervisorProcess.Supervisor.SpawnPlugin` | src/plugins/supervisor/mod.rs:194-196 | Refuses while an entry exists, otherwise takes the next epoch: one start step |
| `SupervisorProcess.Supervisor.FinishSpawn` | src/plugins/supervisor/spawn.rs:293-306 | Inserts the entry over any other, or leaves the table alone on failure |
| `SupervisorProcess.Supervisor.StopPlugin` | src/plugins/supervisor/mod.rs:198-209 | Removes the entry, records its epoch and clears the forced mark |
| `SupervisorProcess.Supervisor.RestartPlugin` | src/plugins/supervisor/mod.rs:241-254 | Marks a registered plugin for a forced restart |
| `SupervisorProcess.Supervisor.ChildExited` | src/plugins/supervisor/spawn.rs:308-349 | Queues the one exit event of a process |
| `SupervisorProcess.Supervisor.Receive` | src/plugins/supervisor/watchdog.rs:16-59 | The decision on one exit event, up to the first suspension: one decide step |
| `SupervisorProcess.Supervisor.DropDead` | src/plugins/supervisor/watchdog.rs:122-132 | The drop after the death was published: one drop step, without a test of the epoch |
| `SupervisorProcess.Supervisor.Awake` | src/plugins/supervisor/watchdog.rs:98-121 | The wake-up after the backoff: one wake step |
| `SupervisorProcess.Supervisor.RestartCount` | src/plugins/supervisor/mod.rs:269-276 | The count of the registered instance, or of the one dropped last, or none |
| `OutboxRuns.RedeliveryIsBounded` | src/events/bus.rs:192-224 | With acknowledgements anywhere, an event is redelivered at most max(1, max_retries) times per insertion |
| `OutboxRuns.UnackedGetsEveryRound` | src/events/store.rs:140-150 | An event that is never acknowledged and is dead or deleted was selected exactly max(1, max_retries) times per insertion |
| `OutboxRuns.SelectedIsSentOnce` | src/events/bus.rs:198-219 | In every run redeliveries and those still in the worker's hand add up to the selections |
| `OutboxRuns.Ledger` | src/events/store.rs:52-150 | Selections of an event: a full round for each past row at most, plus what the present row used; exactly that without acknowledgement |
| `OutboxRuns.RemainingFalls` | src/events/bus.rs:203-219 | The redeliveries left over any rows are never negative, never rise without an insertion and fall by one for each row selected |
| `OutboxRuns.TerminalStays` | src/events/store.rs:68-76 | A delivered or dead row is never pending again while it exists |
| `OutboxRuns.PendingIsNeverDropped` | src/events/store.rs:118-137 | No step deletes or rewrites a pending row, and only its acknowledgement makes it delivered |
| `OutboxRuns.DeletedByAge` | src/events/store.rs:118-137 | In every run a row goes exactly when the worker prunes, the event is delivered or dead, and its retention since the insertion is over; what stays is unchanged |
| `OutboxRuns.SelectedByAge` | src/events/store.rs:79-111 | In every run a sweep selects exactly the pending events inserted ten seconds ago or earlier |
| `OutboxRuns.AckIsFinalIff` | src/events/store.rs:68-76 | In every run an acknowledged event stays delivered for as long as its row exists, whatever happens, if and only if the acknowledgement did not come between the selection and the bump of its last round |
| `OutboxRuns.AcknowledgedYetDead` | src/events/store.rs:140-150 | A run in which an acknowledged event ends dead |
| `OutboxRuns.RedeliversWhatWasInserted` | src/events/store.rs:79-111 | A redelivered event carries a content inserted under its id |
| `OutboxRuns.RunOk` | src/events/store.rs:140-150 | In every reachable state a pending row has a round left, a dead one none, and no row used more than its rounds |
| `OutboxStore.EventStore.Persist` | src/events/store.rs:52-66 | Inserts a pending row, or changes nothing when the id exists |
| `OutboxStore.EventStore.MarkDelivered` | src/events/store.rs:68-76 | Marks the row delivered whatever its status, and no other |
| `OutboxStore.EventStore.PendingOlderThan` | src/events/store.rs:79-111 | Lists each pending row that is old enough exactly once, with its content |
| `OutboxStore.EventStore.IncrementRetryOrDead` | src/events/store.rs:140-150 | Counts up, then marks dead by the new count |
| `OutboxStore.EventStore.Prune` | src/events/store.rs:118-137 | Deletes exactly the delivered and dead rows whose retention is over, leaves the others unchanged and returns the number |
| `OutboxStore.EventStore.Sweep` | src/events/bus.rs:203-214 | The blocking part of a sweep is a selection, one bump per selected row and a pruning of the model |
| `EventBus.Bus.Subscribe` | src/events/bus.rs:53-64 | Adds exactly the named pairs and keeps both indexes inverse |
| `EventBus.Bus.Unsubscribe` | src/events/bus.rs:66-77 | Removes exactly the named pairs and keeps both indexes inverse |
| `EventBus.Bus.UnsubscribeAll` | src/events/bus.rs:79-87 | Through the inverse index alone removes every pair of the plugin and no other |
| `EventBus.Bus.Subscribers` | src/events/bus.rs:89-94 | Exactly the subscribers of the kind |
| `EventBus.Bus.Deliver` | src/events/bus.rs:108-189 | One attempt for each registered plugin subscribed to the kind or to everything, none twice, nobody else |
| `EventBus.Bus.Replay` | src/events/bus.rs:53-94 | After any history of operations a pair is subscribed exactly when the last operation that names it was a subscription |
| `BudgetReference.BudgetIsExact` | src/ipc/protocol/router.rs:284-304 | In every run the table holds exactly the connections with handled errors since their last success or eviction, with their number and the time of the last, told from the messages alone; at most max_conn_errors of them were not exempt |
| `BudgetReference.HandledAreThrough` | src/ipc/protocol/router.rs:224-235 | In every run a message reaches its handler if and only if it is exempt or fewer than max_conn_errors errors stand against its connection |
| `BudgetReference.WellBehavedAreHandled` | src/ipc/protocol/router.rs:224-304 | A connection that does nothing wrong has every message handled, whatever the others do |
| `BudgetReference.BurstIsCut` | src/ipc/protocol/router.rs:224-304 | Of a burst of errors within five minutes exactly the first max_conn_errors of a connection are handled, whatever the others do |
| `BudgetReference.ExemptAreHandled` | src/ipc/protocol/helpers.rs:59-71 | Every exempt message is handled |
| `ErrorBudget.ThrottledUntilIff` | src/ipc/protocol/router.rs:224-235 | A throttled connection that sends nothing exempt stays throttled through every continuation with clock readings below a time if and only if that time is at most the limit of 300 seconds past its last error, or the budget is 0 |
| `ErrorBudget.OthersDoNotMatterIff` | src/ipc/protocol/router.rs:284-304 | A connection has at every moment the tally it would have alone if and only if the table is never pruned while it is stale, its own messages in a table of at most one apart |
| `ErrorBudget.Route` | src/ipc/protocol/router.rs:224-304 | One turn of the loop: throttle, count, evict or reset |
| `ErrorBudget.RouterLoop` | src/ipc/protocol/router.rs:109-304 | The loop leaves the table of the specification and lets through exactly the messages that are not throttled |
| `Calendar.CivilIsTheDate` | src/cli/devices.rs:46-67 | For every day before or after 1970 the code names a valid Gregorian date whose day number is the input |
| `Calendar.CopiesAgree` | src/cli/device.rs:398-419 | Both copies compute the same fields for every second |
| `Calendar.CivilStepsThroughTheCalendar` | src/cli/devices.rs:46-67 | Consecutive days give consecutive dates across months, years, leap rules and eras |
| `Calendar.CivilInvertsDayNumber` | src/cli/devices.rs:46-67 | Every valid date is the answer for its own day number |
| `Calendar.TimestampCounts` | src/cli/devices.rs:46-67 | Clock fields are in range and the printed fields determine the second |
| `Calendar.YearOfEraBounds` | src/cli/devices.rs:53-55 | The closed form names the year of the era that holds the day |
| `Calendar.CivilUnfolded` | src/cli/device.rs:402-411 | The era, year and day offset that both copies reach |
| `Calendar.DayNumberInjective` | src/cli/devices.rs:46-67 | Day numbers identify dates |
| `Calendar.DaysBeforeYearClosed` | src/cli/devices.rs:46-67 | Counting year by year from 1970, in both directions, equals the closed form with the leap rules |

## Left out

- Frame encoding, checksums, compression, message authentication and protobuf: frames, fragment headers and envelopes are datatypes.
- Process creation, namespaces, cgroups and signals: a spawn succeeds or fails, a process exits once. That a stop waits for the process to exit is not modelled.
- HTTP and WebSocket servers, TLS, tokens, permission checks and rate limiters: their outcome is part of a step's input, or the step does not happen.
- The bridge to a remote kernel, configuration, logging, metrics and the command line except the two date functions.
- Database errors: the outbox is a map and each statement is atomic.
- The device credential store, `get_mux` and the action requirements of the registry: they would only add easy members.
- Interleavings inside one registry method or one statement of the shared maps: methods are atomic steps, and so are the stretches of `monitor_loop` and `spawn_internal` between two suspensions.
- Wrap-around of 64-bit counters (kernel action ids, epochs) and 32-bit counts (restarts, retries, errors).
- Padding and formatting of timestamps: the fields are modelled, not the string.
- DependencyOrder.TopoSort: takes distinct ids; loading the configuration refuses an id that a drop-in file defines again (`src/utils/config.rs`), but two inline entries under one id are not modelled.
- LoadPlan.Plan: takes distinct ids, as the sort does.
- LoadPlan.Resolve: takes distinct ids, as the sort does.
- Refusing the dependants of a refused plugin, and an order among plugins after a cycle: the code promises neither.
- A clock that runs backwards inside one connection: arrival times of fragments do not decrease. The outbox and the error budget take any clock.
- The content of the event `system.plugin_died` the monitor publishes, and the retry number a redelivered event carries.
- Watchdog pings and resource limits of `watchdog_loop`.
