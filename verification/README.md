# The Hive agent: lifecycle, inventory, fan-out and aggregates

The Hive agent runs inside a Kubernetes cluster. It registers with a control plane, keeps a websocket
tunnel open, sends heartbeats and inventory deltas, and answers allowlisted read-only commands. The backend
side of the repository keeps a registry of agents and fans a tool invocation out to many clusters.

This project models four parts of it and proves what they are for.

* **The running agent** (`States`, `Registration`, `Commands`, `Lifecycle`). The boot sequence, the tunnel
  loop, the heartbeat loop and one goroutine per received command share the state machine, the token store,
  the gauges and the stored connection. `Lifecycle` is a step system: every operation made under a lock and
  every atomic load or store is one step, and steps of different goroutines interleave in any order. All
  results about it hold for every schedule. `LifecycleInvariants`, `TraceLanguage`, `Reachability`,
  `TraceTheorem`, `Revocation`, `Cancellation`, `CommandProtocol` and `HeartbeatReports` hold the results; `AgentCode`
  (`Agent.dfy`) is the imperative code over shared objects, each of whose executions is proved to be a run of
  the step system.
* **The inventory pipeline** (`Inventory`, `InventoryLaws`, `Agreement`, `Draining`, `InventoryCode`, over `Replay`). Callbacks offer
  events to a bounded queue, one consumer batches and sends them, posts are retried. The replica a control
  plane would build by replaying deliveries is a specification function.
* **The backend** (`Fleet`, `FanOut`, `HolmesRegistry`, `HolmesProvider`, over `Sorting`). `Fleet` and
  `FanOut` say what listings, targets, results and breakdowns mean as values. `HolmesRegistry` and
  `HolmesProvider` are the code over the heap: cluster records refer to their slices, lookups copy, target
  resolution filters an array in place while reading it, and goroutines write into indexed slots.
* **The Kubernetes aggregates** (`Kubernetes`): resource totals, pod lists and health over one snapshot.

Where the code and what one might expect of it differ, the code is modelled and the exact condition proved:

* A successful heartbeat never moves DEGRADED back to ONLINE (`LifecycleInvariants.HeartbeatOnlyDegrades`);
  only the tunnel loop's request after a new connection does (`LifecycleInvariants.OnlyReconnectRestores`).
* The executor counts a failure when the status is "failed", but commands answer "error" or "success". The
  failure counter therefore stays 0. It is right exactly in the runs in which every executed command was
  advertised and its call into the cluster succeeded (`CommandProtocol.FailureCounterExactly`, with a failing
  run in `CommandProtocol.FailureCounterMisses`).
* The replica loses deletions as it loses upserts: after a deletion it disagrees with the cluster exactly when
  an applied upsert has no applied successor on its key (`Agreement.GhostExactly`, with a run in
  `InventoryLaws.LostDeletion`); key by key and as a whole in `Agreement.AgreesExactly` and
  `Agreement.ReplicaIsClusterExactly`. All of these hold at every moment of every run, also between two attempts
  of one send, when a batch may have been applied that nobody has acknowledged.
* A tombstone without a usable object is skipped without any counter. Among runs that lose nothing else the
  replica is right exactly when no such tombstone had the last word on a live key
  (`InventoryLaws.OnlyTombstonesAreSilent`, with a run in `InventoryLaws.SilentLoss`).
* `RegisterAgent` keeps the caller's slices, so the registry is not isolated from its callers: a write to an
  array shows exactly if it changes the text and the array is a slice of a registered record
  (`HolmesRegistry.WriteSlot`). After a registration the caller's slices are such slices
  (`HolmesRegistry.WriteAfterRegister`). The slices that lookups return are not, and do not become so whatever
  others register and remove afterwards: a write changes the copy alone (`HolmesRegistry.WriteAfterLookup`,
  `WriteAfterClusters`, `WriteAfterSearch`, `WriteAfterCapabilities`).
* `resolveClusters` takes the lock once per explicit identifier, so a target need not come from one state of
  the registry: two identifiers can both be found although they were never registered together
  (`Fleet.TornLookup`). Each record is what the registry held at its own lookup, and an invocation fails
  exactly if some identifier was missing at its own (`HolmesProvider.LookUp`, `HolmesProvider.Provider.Invoke`);
  undisturbed, all lookups see the same registry (`Fleet.UndisturbedSeen`).
* `connectAndServe` never returns nil, so every attempt ends in the error branch of `Run`.

Environment choices are parameters: the outcome of a dial, a read, a post or a dispatch, the order of a map
loop or of finishing goroutines, the case a select picks, what others register between two lookups. In `AgentCode` and `InventoryCode` they come from a
script of any length and content; when it is used up the context ends.

## Model

The rows are the results and the operations they are about. Accessors, table look-ups and one-branch lemmas of
the same modules have contracts too but no row.

| member | source | states |
|---|---|---|
| States.RevokedIsTheOnlySink | internal/state/state.go:21-29 | REVOKED is the one state that cannot be left, and PENDING_KEY cannot be re-entered |
| States.EnteredFrom | internal/state/state.go:21-29 | the table read by target: from exactly which states each state can be entered |
| States.Machine.Transition | internal/state/state.go:49-65 | a request succeeds exactly for the present state or an allowed successor; a refusal changes nothing; the callback fires exactly when the state changes, and touches no other metric |
| States.Metrics.SetState | internal/telemetry/telemetry.go:37-45 | after the loop the seven labels are one-hot at the given name and other labels are as before |
| States.OneHotNamesOneState | internal/telemetry/telemetry.go:37-45 | a one-hot family determines the state it shows |
| Registration.ReplaceFirstAt | internal/websocket/manager.go:69 | the scheme replacement changes the first occurrence and nothing else |
| Registration.DerivedFromHttps | internal/websocket/manager.go:67-70 | an https control plane is dialled over wss at /ws |
| Registration.DerivedOtherwise | internal/websocket/manager.go:67-70 | for any other control plane: only the first occurrence of the scheme is replaced, wherever it stands, and an address without it is dialled followed by /ws |
| Registration.LastNonEmptyMeaning | internal/registration/client.go:167-171 | what "the last non-empty one" means for a list of rotations |
| Commands.AdvertisedIsExecutable | internal/commands/commands.go:39-47 | the advertised capabilities and the allowlist are the same set |
| Commands.Execute | internal/commands/commands.go:75-89 | every response repeats the request's identifier, command and cluster; it is a success exactly when the command is allowlisted and the cluster call succeeded, and then holds its data and no error; otherwise no data and the cluster's message, or "unsupported capability" |
| LifecycleInvariants.OnlyHeartbeatIsRefused | internal/websocket/manager.go:45-117 | in every interleaving no request of boot or the tunnel loop is refused; only the heartbeat's DEGRADED is, from REGISTERED, OFFLINE or REVOKED |
| LifecycleInvariants.HeartbeatRefusedExactly | internal/heartbeat/heartbeat.go:38-45 | the DEGRADED request is refused if and only if the machine is in one of those three states |
| LifecycleInvariants.HeartbeatOnlyDegrades | internal/heartbeat/heartbeat.go:38-55 | the heartbeat's only effect on the state is CONNECTING or ONLINE to DEGRADED; success restores nothing |
| LifecycleInvariants.OnlyReconnectRestores | internal/websocket/manager.go:79-80 | DEGRADED becomes ONLINE only at the tunnel loop's request on a new connection |
| LifecycleInvariants.ShapeAlways | internal/websocket/manager.go:40-117 | the inductive invariant tying boot, tunnel and heartbeat program points to the notification trace |
| LifecycleInvariants.TraceInLanguage | internal/state/state.go:49-65 | every run's notifications are complete reconnect rounds, an open one, and at most one revocation at the very end |
| LifecycleInvariants.StateGaugeIsOneHot | cmd/agent/main.go:62-63 | from the first gauge write on, the family is one-hot at the machine's state in every run |
| LifecycleInvariants.GaugesByName | internal/telemetry/telemetry.go:37-45 | the same for the seven names as they are exported: each gauge is 1 exactly in its own state |
| LifecycleInvariants.ConnectedWindow | internal/websocket/manager.go:50-82 | tunnel gauge 1 implies connected; ONLINE only between the ONLINE notification of the present round and the OFFLINE or REVOKED one that ends it, so never after a failed dial; reconnects counts the finished dial attempts |
| LifecycleInvariants.GaugeAndLinkAlways | internal/websocket/manager.go:76-82 | the invariant behind both: gauge, connected flag and stored connection follow the program point |
| LifecycleInvariants.EveryDialIsCurrent | internal/registration/client.go:120-125 | every dial of every run names the cluster of the server's reply as it was sent, presents the last non-empty token among that reply and the rotations read, and goes to the last rotated endpoint, else the reply's websocketUrl, else its wsEndpoint, else the derived address; nothing else dials, and nothing before the reply |
| LifecycleInvariants.OtherEnvelopesChangeNothing | internal/websocket/manager.go:93-116 | commands, revocations, unknown and malformed envelopes move neither token nor address |
| TraceLanguage.ReadIsFaithful | internal/state/state.go:60-63 | the trace reader loses nothing: what it understood spells what it read |
| TraceLanguage.ReadableIsInLanguage | internal/state/state.go:60-63 | whatever it accepts is a prefix of a sentence |
| TraceTheorem.TracesAreExactlyTheLanguage | internal/websocket/manager.go:40-117 | a list of states is the notification trace of some run if and only if it is a prefix of REGISTERED, complete rounds, and perhaps a revoked round |
| TraceTheorem.SentenceRun | internal/websocket/manager.go:40-117 | every sentence of the language is produced by a concrete schedule |
| Revocation.RevocationIsFinal | internal/websocket/manager.go:112-114 | after a revoke envelope no continuation dials, reads, rotates or starts a command; the machine is REVOKED for good after the next tunnel step; at most eight tunnel steps remain |
| Revocation.RevokedRun | internal/websocket/manager.go:45-56 | from REVOKED every continuation keeps state, trace, dials and credentials, and the tunnel loop moves strictly towards its exit |
| Revocation.RevokedLoopReturns | internal/websocket/manager.go:45-56 | after a revoke envelope the tunnel loop is never stuck: it has returned or can take its next step, and at most eight of its steps end it |
| Revocation.RevokeSeenAlways | internal/websocket/manager.go:112-114 | the machine is REVOKED exactly when a revoke envelope was read, up to the transition following the read |
| Revocation.RevokedHeartbeatStillReports | internal/heartbeat/heartbeat.go:26-55 | heartbeats go on after revocation and report REVOKED |
| Cancellation.CancelledDialsAtMostOnce | internal/websocket/manager.go:45-65 | once the context has ended no continuation dials more than once, and none dials unless the loop had just passed its test of the context |
| Cancellation.LoopEndsOnlyWhen | internal/websocket/manager.go:45-64 | the tunnel loop returns for no other reason than the end of the context or a revoked key |
| Cancellation.EnvelopeLeads | internal/websocket/manager.go:90-116 | a failed read and a revocation end the connection and nothing else does; rotations are applied; a well-formed command starts one goroutine for that very request |
| CommandProtocol.EachCommandAnsweredOnce | internal/executor/executor.go:24-33 | one goroutine per well-formed command; first its running status, then one result of that very request, nothing else, neither before a connection exists nor on one older than the command's |
| CommandProtocol.ResultIsOwnOutcome | internal/executor/executor.go:26-32 | the result message of each command holds what its own execution in this run came to: the data of the cluster call, its error message, or the refusal |
| CommandProtocol.NoStrayMessages | internal/websocket/manager.go:118-125 | every message belongs to a received command and goes to a connection that was really dialled |
| CommandProtocol.FailureCounterExactly | internal/executor/executor.go:27-31 | the counters record every execution as a success; the failure counter is short by exactly the executions of an unadvertised command or with a failing cluster call, and right if and only if the run has none |
| CommandProtocol.FailureCounterMisses | internal/commands/commands.go:87-89 | a run in which a command failed and the counters say one success and no failure |
| HeartbeatReports.ReportsFollowTheTrace | internal/heartbeat/heartbeat.go:46-54 | reported states were really notified, in an order that never goes back; successes and failures are exactly the reports and the rounds without health data |
| HeartbeatReports.ReportsAreLooks | internal/heartbeat/heartbeat.go:38-55 | each report is the machine's state at the moment its own round looked, in order; successes are the rounds whose post succeeded, failures the lost posts and the rounds without health data |
| HeartbeatReports.RevokedReportIsFinal | internal/heartbeat/heartbeat.go:47-48 | once REVOKED has been reported, every later report says REVOKED |
| AgentCode.BehaviourIsExec | internal/websocket/manager.go:40-117 | a recorded history of states and actions is the execution of that schedule |
| AgentCode.Agent.Run | internal/websocket/manager.go:40-65 | the tunnel loop is a run of the step system; on return nothing is connected, the machine is REGISTERED, OFFLINE or REVOKED, every dial was counted, and only heartbeats were refused |
| AgentCode.Agent.ConnectAndServe | internal/websocket/manager.go:66-117 | one dial attempt as steps: exactly one dial, a connection exactly when the environment lets it succeed, envelopes only then, and every way out leads to the reconnect counter |
| AgentCode.Agent.Serve | internal/websocket/manager.go:84-117 | the read loop as steps: it ends with the first failed read or revocation and with nothing else, and never dials |
| AgentCode.Agent.ServeOne | internal/websocket/manager.go:85-115 | one turn handles the envelope that arrived, and goes on unless it is a failed read or a revocation |
| AgentCode.Agent.DialEndpoint | internal/websocket/manager.go:67-75 | the dial step, with endpoint fallback, bearer and cluster identifier |
| AgentCode.Agent.RegisterReply | internal/registration/client.go:102-125 | the registration step: websocket address defaulted, token stored, record handed to the tunnel |
| AgentCode.Agent.Once | internal/heartbeat/heartbeat.go:38-55 | one heartbeat as steps, with other goroutines between observing and posting: exactly one of the two counters moves, by one, and there is one more report exactly when the health was collected |
| AgentCode.Agent.HeartbeatRun | internal/heartbeat/heartbeat.go:26-37 | the ticker loop as steps; it ends only when the context is cancelled |
| AgentCode.Agent.ExecuteCommand | internal/executor/executor.go:24-33 | status, execution, result as steps of one goroutine, for the request it was started with |
| AgentCode.Agent.Start | cmd/agent/main.go:61-93 | heartbeat, inventory and tunnel loops are started, in that order, exactly when both registration calls succeed, after REGISTERED was notified first; otherwise none is |
| AgentCode.Agent.Yield | cmd/agent/main.go:89-92 | whatever other goroutines do between two operations, a goroutine's own variables stay and the history stays a run |
| Replay.ReplayedAt | internal/inventory/inventory.go:60-62 | after replaying a list of upserts and deletes a key is as the last operation on it says |
| Replay.ReplayTwice | internal/registration/client.go:186-199 | replaying a batch twice is replaying it once |
| Inventory.EventSaysCallback | internal/inventory/inventory.go:63-82 | the event built for a callback carries that callback's key and meaning |
| Inventory.UpsertCarries | internal/inventory/inventory.go:77-80 | an upsert carries the object's own name, namespace, uid, version and labels, every field its kind's mapper adds, and no other |
| Inventory.DeleteCarries | internal/inventory/inventory.go:80-82 | a deletion, also one known by its tombstone, carries name, namespace, uid and version, and no other field |
| Inventory.RetriesApplyOnce | internal/registration/client.go:173-199 | any number of attempts, also applied ones reported as failed, leaves the replica as if the batch was applied once; acknowledged means applied |
| Inventory.SendDelivers | internal/registration/client.go:186-199 | attempts as steps of their own, then the return of the send: together they deliver the batch and record whether it was acknowledged and whether it was applied |
| InventoryLaws.FifoAlways | internal/inventory/inventory.go:83-118 | in every interleaving sent, in-flight, batched and queued events are together the accepted ones in order, and those are an ordered part of what was offered |
| InventoryLaws.NothingUnaccounted | internal/inventory/inventory.go:83-118 | offered = delivered + failed + dropped + in flight + batched + queued; the counters are exactly these; at most 200 events are missing per counted failure |
| InventoryLaws.Bounded | internal/inventory/inventory.go:90-112 | queue at most 4096, batch below 200 at each select, every send has 1 to 200 events |
| InventoryLaws.DropsExactly | internal/inventory/inventory.go:83-88 | an event is dropped and counted exactly when the queue holds 4096; otherwise it joins the end of the queue |
| InventoryLaws.SendsWhenFull | internal/inventory/inventory.go:98-102 | a receive starts a send exactly when it brings the batch to 200 events |
| InventoryLaws.SurvivorAgrees | internal/inventory/inventory.go:60-123 | for every key whose last callback reached an applied batch the replica agrees with the cluster, whatever was lost before |
| InventoryLaws.AgreesExactlyIfSurvived | internal/inventory/inventory.go:60-123 | the case of a key last upserted with a new version: it agrees if and only if that very event survived |
| Agreement.AgreesExactly | internal/inventory/inventory.go:60-123 | for every key at every moment of every run, also between the attempts of a send, whatever its last callback: replica and cluster agree if and only if what applied batches left standing on the key is what the cluster has |
| Agreement.ObjectShows | internal/inventory/inventory.go:120-155 | for an object the cluster has and a key in step, the replica holds that object's own metadata and fields as last reported |
| Agreement.ReplicaIsClusterExactly | internal/inventory/inventory.go:60-123 | the whole replica is the cluster if and only if that holds for every key |
| Agreement.GhostExactly | internal/inventory/inventory.go:63-89 | after a deletion or tombstone they disagree exactly when an applied upsert has no applied successor on the key |
| InventoryLaws.PendingCompletesReplica | internal/inventory/inventory.go:83-118 | without losses, replaying what is in flight, batched and queued on the replica rebuilds the cluster |
| InventoryLaws.OnlyTombstonesAreSilent | internal/inventory/inventory.go:63-76 | without losses and with nothing pending, the replica is the cluster if and only if no unusable tombstone orphaned a key |
| InventoryLaws.SilentLoss | internal/inventory/inventory.go:70-76 | a run with all counters clean whose replica keeps a deleted pod |
| InventoryLaws.LostDeletion | internal/inventory/inventory.go:110-118 | a run in which a usable deletion is sent, no attempt gets through, all is empty again, and the replica keeps the pod |
| Draining.BacklogShrinks | internal/inventory/inventory.go:94-108 | a ranking function: with producers quiet each receive, flush and end of a send shortens the backlog, attempts leave it, and until it is empty one of these is possible |
| Draining.QuietRun | internal/inventory/inventory.go:94-118 | every quiet schedule, whatever each send comes to: receives made plus queue left is the queue there was, in order; the effective steps are bounded by the backlog; until all is empty one is possible |
| Draining.QuietTail | internal/inventory/inventory.go:103-112 | once the queue is empty, no quiet continuation receives, at most one tick sends, and all is empty exactly when that tick and the sends are done |
| Draining.QuietDrain | internal/inventory/inventory.go:94-118 | every quiet schedule that empties the queue made one receive per queued event, and needs at most one later tick and the sends under way |
| Draining.Drains | internal/inventory/inventory.go:94-108 | from every reachable state and for any attempts of each send yet to start such a schedule exists, and its sends come to what those attempts say |
| InventoryCode.Runner.Enqueue | internal/inventory/inventory.go:63-89 | a callback is one offer step: skip, accept, or drop and count |
| InventoryCode.Runner.Detach | internal/inventory/inventory.go:110-112 | the batch array leaves as the payload and a fresh one takes its place |
| InventoryCode.Runner.Receive | internal/inventory/inventory.go:98-102 | a receive is one take step; what was sent reads as before |
| InventoryCode.Runner.Post | internal/registration/client.go:173-184 | one attempt is one try step |
| InventoryCode.Runner.Retry | internal/registration/client.go:186-199 | the retry loop makes attempts up to the first acknowledgement, each a step, with callbacks in between, and says whether there was one |
| InventoryCode.Runner.Conclude | internal/inventory/inventory.go:113-118 | the end of a send is one conclude step: one counter moves and the batch joins the past |
| InventoryCode.TickerTurn | internal/inventory/inventory.go:103-106 | a ticker turn with a batch sends that batch, whole: the batch is empty and the past has one more entry, saying what the attempts came to |
| InventoryCode.QueueTurn | internal/inventory/inventory.go:98-102 | a queue turn receives the oldest queued event, which joins the batch; exactly when that makes 200 the batch is sent |
| InventoryCode.IdleTurn | internal/inventory/inventory.go:96-107 | any other turn is its callbacks and nothing else |
| InventoryCode.DoneEnds | internal/inventory/inventory.go:96-97 | after the end of the context nothing of the script happens |
| InventoryCode.ScriptEmpties | internal/inventory/inventory.go:94-108 | a script without callbacks that picks the queue at least once per queued event, in any order with ticks, before a last tick leaves queue and batch empty and every accepted event sent, whatever the sends come to |
| InventoryCode.Runner.TakeTurn | internal/inventory/inventory.go:94-108 | one turn: the picked case, and the whole send it starts before anything else is picked, with callbacks still arriving; a ticker pick is a tick, a queue pick a receive |
| InventoryCode.Runner.Flush | internal/inventory/inventory.go:90-109 | for any script of callbacks, selects and attempts the loop makes exactly those turns, with one tick per ticker pick, is a run of the pipeline, so every law holds of the objects, and what was sent stays as it was sent; a script of the kind above leaves nothing unsent |
| Sorting.LessIsAlphabetical | internal/holmesprovider/registry.go:63 | the order is that of the first differing character, a proper prefix first |
| Sorting.SortSorts | internal/holmesprovider/registry.go:63 | with distinct keys the sort result is strictly ascending |
| Sorting.SortContents | internal/holmesprovider/registry.go:63 | sorting permutes |
| Sorting.SortedIsUnique | internal/holmesprovider/registry.go:102 | a strictly ascending list is determined by its elements |
| Fleet.ListingIs | internal/holmesprovider/registry.go:95-104 | the listing is strictly ascending by identifier and holds exactly the registry's entries |
| Fleet.ListingIsUnique | internal/holmesprovider/registry.go:95-104 | any list with those two properties is the listing, so map order cannot show |
| Fleet.AnyCollectionSorts | internal/holmesprovider/registry.go:98-102 | however the entries were collected, sorting gives the listing |
| Fleet.ListedExactlyIfLastRegistered | internal/holmesprovider/registry.go:29-42 | after any history a cluster is listed if and only if the last operation on its identifier registered it, and as last registered |
| Fleet.CapableListing | internal/holmesprovider/registry.go:54-65 | the sorted capable clusters are the sorted clusters, filtered |
| Fleet.TargetsAgree | internal/holmesprovider/provider.go:71-100 | empty target and All resolve alike; a group resolves to the group's part of that list, in order |
| Fleet.ExplicitKeepsOrder | internal/holmesprovider/provider.go:73-80 | explicit identifiers keep the caller's order and repetitions, also while the registry changes between lookups |
| Fleet.ExplicitWins | internal/holmesprovider/provider.go:73-80 | explicit identifiers win over group and All; the result is exactly the capable ones, as found, in the caller's order |
| Fleet.TornLookup | internal/holmesprovider/provider.go:74-80 | for any two clusters there is a run in which both identifiers are found although never registered at the same time |
| Fleet.UndisturbedSeen | internal/holmesprovider/provider.go:71-92 | when nobody else acts, all lookups of a call find the same registry |
| FanOut.SlotIsOwn | internal/holmesprovider/provider.go:52-62 | a slot is empty until its own goroutine finishes and then holds that cluster's result for good |
| FanOut.OrderIrrelevant | internal/holmesprovider/provider.go:52-62 | any two completion orders give equal results up to timestamps the provider made up |
| FanOut.OthersUnaffected | internal/holmesprovider/provider.go:56-60 | an outcome at one cluster leaves every other slot as it was |
| FanOut.FailureIsContained | internal/holmesprovider/provider.go:102-105 | a dispatch error makes exactly that result "failed" with its message, and changes no other |
| FanOut.ResultsAreOwn | internal/holmesprovider/provider.go:102-110 | result i carries cluster i's registry identity; an answer's status, data, error and time are passed on as they are; a failed dispatch reads "failed" with its message and no data; a missing time is read by that goroutine |
| FanOut.BreakdownTotals | internal/holmesprovider/provider.go:112-118 | provider counts add up to the number of clusters |
| HolmesRegistry.CopyCluster | internal/holmesprovider/registry.go:106-110 | same values, new slices |
| HolmesRegistry.ToolRegistry.RegisterAgent | internal/holmesprovider/registry.go:29-36 | exactly one entry is replaced, by the caller's own record; a zero time becomes now; only the two slices of that record can become the registry's own |
| HolmesRegistry.ToolRegistry.UnregisterAgent | internal/holmesprovider/registry.go:38-42 | exactly that entry is gone, and no slice becomes the registry's own |
| HolmesRegistry.ToolRegistry.Churn | internal/holmesprovider/registry.go:29-42 | any registrations and removals by others leave what replaying them says, and no slice that existed before becomes the registry's own |
| HolmesRegistry.ToolRegistry.GetCapabilities | internal/holmesprovider/registry.go:44-52 | a private copy; empty for an unknown cluster |
| HolmesRegistry.ToolsAreLastDefined | internal/holmesprovider/registry.go:15-21 | a tool is known if and only if it was defined, as it was defined last |
| HolmesRegistry.ToolRegistry.Cluster | internal/holmesprovider/registry.go:85-93 | found if and only if registered, as a private copy |
| HolmesRegistry.ToolRegistry.Gather | internal/holmesprovider/registry.go:58-62 | the map loop visits every key once, in any order, and copies exactly the wanted entries |
| HolmesRegistry.PickedSorts | internal/holmesprovider/registry.go:58-63 | whatever the order of the keys, the copies sort to the same listing |
| HolmesRegistry.ToolRegistry.Collect | internal/holmesprovider/registry.go:58-63 | the map loop's copies sort to the listing of the wanted entries |
| HolmesRegistry.ToolRegistry.Clusters | internal/holmesprovider/registry.go:95-104 | the unique sorted listing, in memory the registry does not own |
| HolmesRegistry.ToolRegistry.GetClustersForCapability | internal/holmesprovider/registry.go:54-65 | the filter of that listing, in memory the registry does not own |
| HolmesRegistry.SortedArray | internal/holmesprovider/registry.go:63 | sorting records in place is sorting their values |
| HolmesRegistry.WriteSlot | internal/holmesprovider/registry.go:35 | for any array and slot, a write leaves the registry's contents as they were if and only if the array is no registered record's slice or the text is unchanged |
| HolmesRegistry.WriteAfterRegister | internal/holmesprovider/registry.go:29-36 | both slices of a registered record become the registry's own, and a later write to either shows |
| HolmesRegistry.WriteAfterLookup | internal/holmesprovider/registry.go:85-93 | found if and only if registered; after any later registrations and removals a write to any slot of the returned record changes that slot of the copy, which the registry still does not own, and leaves the registry as the others made it |
| HolmesRegistry.WriteAfterClusters | internal/holmesprovider/registry.go:95-104 | the same of any record of the listing |
| HolmesRegistry.WriteAfterSearch | internal/holmesprovider/registry.go:54-65 | the same of any record found by capability |
| HolmesRegistry.WriteAfterCapabilities | internal/holmesprovider/registry.go:44-52 | the same of the returned capabilities |
| HolmesProvider.Compact | internal/holmesprovider/provider.go:93-99 | the filter that writes the array it ranges over keeps exactly the capable records in order, and leaves the rest of the array alone |
| HolmesProvider.FilterInPlace | internal/holmesprovider/provider.go:93-99 | the same in terms of cluster values |
| HolmesProvider.LookUp | internal/holmesprovider/provider.go:74-80 | with others registering and removing before each lookup: all of the caller's identifiers in order, each as the registry held it at its own lookup, or the first one missing at its own |
| HolmesProvider.SelectGroup | internal/holmesprovider/provider.go:82-86 | the group's members in listing order |
| HolmesProvider.Provider.Choose | internal/holmesprovider/provider.go:72-91 | the four target branches over what each lookup finds, in fresh memory |
| HolmesProvider.Provider.ResolveClusters | internal/holmesprovider/provider.go:71-100 | fails exactly for an identifier unregistered at its lookup; otherwise the capable clusters of the target, in fresh memory, and the registry is as the others left it |
| HolmesProvider.Provider.Admit | internal/holmesprovider/provider.go:38-50 | which error, exactly when |
| HolmesProvider.Provider.StartNext | internal/holmesprovider/provider.go:54-58 | some goroutine that has not started calls its own cluster; no slot changes |
| HolmesProvider.Provider.EndNext | internal/holmesprovider/provider.go:59-60 | some goroutine that has its answer writes its own slot; no call is made |
| HolmesProvider.Provider.RunAll | internal/holmesprovider/provider.go:54-62 | for every interleaving of starts and ends each cluster is called once and each slot holds its own result |
| HolmesProvider.Provider.DispatchAll | internal/holmesprovider/provider.go:52-62 | the same from fresh slots |
| HolmesProvider.Provider.Invoke | internal/holmesprovider/provider.go:36-69 | whatever others register and remove before each lookup, it succeeds exactly when dispatcher, tool, identifiers and capability allow; any failure means no dispatch and no audit record; success means one result per cluster in target order, exact counts, and one audit record naming them |
| HolmesProvider.InvokeAddsUp | internal/holmesprovider/provider.go:64-68 | provider counts sum to the clusters and to the results, and the audited identifiers are the results' own, in order |
| HolmesProvider.InvokeAnswers | internal/holmesprovider/provider.go:54-62 | each cluster is asked once, for the invoked tool with the caller's parameters, and its result passes on what came back in that very call |
| HolmesProvider.ContextFor | internal/holmesprovider/provider.go:112-118 | every provider with its exact count and no other |
| HolmesProvider.NormalizeRecord | internal/holmesprovider/provider.go:102-110 | the result built from the heap record is the one its value calls for |
| Kubernetes.GetResourceUsage | internal/kubernetes/client.go:264-287 | each of the four counters is the 64-bit sum over all containers of the listed pods |
| Kubernetes.AddPod | internal/kubernetes/client.go:271-284 | the inner loop adds one pod's containers, missing quantities counting nothing |
| Kubernetes.StarIsTheSum | internal/kubernetes/client.go:264-287 | for all four counters the "*" total is the 64-bit sum of the per-namespace totals |
| Kubernetes.TotalModulo | internal/kubernetes/client.go:269-285 | a total is the exact sum modulo 2 to the 64, and is exact if and only if that fits in 64 bits |
| Kubernetes.UsageByName | internal/kubernetes/client.go:269-286 | each of the four figures is, as a 64-bit number, the sum of the quantity it is named after over all containers of the listed pods |
| Kubernetes.PodFailing | internal/kubernetes/client.go:395-405 | failed or pending, or some container waits for a reason that contains "crash" in any case |
| Kubernetes.CrashingReason | internal/kubernetes/client.go:399-403 | a waiting reason counts exactly when it contains the letters of "crash", each in either case |
| Kubernetes.PodCrashLooping | internal/kubernetes/client.go:406-413 | some container waits in CrashLoopBackOff |
| Kubernetes.GetFailedPods | internal/kubernetes/client.go:130-142 | exactly the failing pods of the namespace, in listing order, unless the API fails |
| Kubernetes.GetPendingPods | internal/kubernetes/client.go:349-361 | exactly the pending ones |
| Kubernetes.GetCrashLoopPods | internal/kubernetes/client.go:363-375 | exactly the crash-looping ones |
| Kubernetes.PartOfFailed | internal/kubernetes/client.go:349-375 | pending and crash-looping pods are an ordered part of the failed list |
| Kubernetes.NamespaceIsAPart | internal/kubernetes/client.go:389-394 | the answer for a namespace is that namespace's part of the answer for all |
| Kubernetes.NodeReady | internal/kubernetes/client.go:104-111 | the first Ready condition decides, none means not ready |
| Kubernetes.Health | internal/kubernetes/client.go:60-103 | an answer exactly when all five lists succeed, with exact counts |
| Kubernetes.HealthyExactly | internal/kubernetes/client.go:112-117 | "healthy" if and only if every node is ready and no pod failed, else "degraded" |
| Kubernetes.CommandsAgree | internal/kubernetes/client.go:349-361 | the pending count is the length of the pending list, and failed plus pending never exceed the failed list |

## Left out

- AgentCode.Agent.Run: termination is over a finite script of environment choices; a tunnel loop that runs for ever is covered by the step system, whose results hold at every point of every schedule.
- HolmesRegistry.ToolRegistry.Churn: others register records in slices of their own and do not write to them afterwards; what a write to a registered slice does is `HolmesRegistry.WriteSlot`.
- Kubernetes.StarIsTheSum: the pods' namespaces are proper names, never empty and never "*", as Kubernetes requires of them.
- Kubernetes.GetFailedPods: a pod stands for the field map the command returns of it.
- Kubernetes.PodFailing: lower-casing is that of ASCII letters.
- Kubernetes.Health: what is returned beside an error is not specified; its only callers discard it.
- Inventory.EventSaysCallback: an event's time is the number of its callback, since only order matters.
- AgentCode.Agent.Start: the inventory loop is started as a step and modelled on its own in `InventoryCode`; it shares no variable with the tunnel and heartbeat loops but the token it presents.
- Commands.Execute: the call behind the allowlist is an outcome; time stamps and durations are not modelled.
- Sorting.SortSorts: stands for the library's sort.Slice as an insertion sort.
- Dialling, TLS, compression, ping and pong, deadlines, two goroutines writing one websocket, backoff durations.
- HTTP status codes and JSON: a post succeeds or fails, an envelope is decoded or malformed.
- Token refresh, which nothing calls, and the health server, which only reads the connected flag.
- Informers and cache synchronisation: any sequence of callbacks may arrive.
- The twenty Kubernetes commands beyond the aggregates above, and tool schemas: tables and field copies.
- The default registry a provider gets when none is passed, and the provider's accessors.
- ListAvailableTools: a second sorted listing, of tool definitions.
- Configuration, logging, tracing, the gRPC dialer, charts and images.
