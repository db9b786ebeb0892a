# Nullnet in Dafny

Nullnet builds encrypted overlay tunnels between hosts on demand. A server hands out
network ids, tells both ends of an edge to set a tunnel up, releases packets once both
have confirmed, and takes the tunnel down again when nobody uses it. This project models
the stateful parts of that system and proves what they keep over every run.

| module | models |
|---|---|
| `Basics` | optional values and instants |
| `NetIdPools` | the pool of network ids |
| `NetLifecycle`, `NetLifecycleSafety`, `NetLifecycleTheorems` | the setup, ready and teardown protocol of egress edges: server tasks, one stream per node, kernel state and trigger table of each client |
| `EdgeRegistries`, `ChainSetups` | the edges that concurrent chain setups share, and their references |
| `BackendSessions`, `BackendSessionTheorems`, `BackendSessionTables` | claims on trigger chains, their generations and history rows |
| `Reaping` | when idle entries are reaped, and how long the loop sleeps |
| `Triggers` | the client's trigger table |
| `Flows`, `OpenFlowSpec`, `OpenFlowSets`, `OpenFlowTheorems` | which connections are open, per owner and destination, and what is reported |
| `Ctnetlink`, `CtnetlinkRoundTrip` | the netlink parser behind it |
| `Pressures`, `SetupPressures` | congestion detection over windows of load samples |
| `HostRates`, `HostRateTheorems`, `CongestionControl`, `CongestionTheorems` | the token bucket of each host and admissions that need two of them |
| `Firewalls` | the stateful packet filter |
| `Overlay` | the addresses of a network id, and transport ids |
| `Routes`, `RouteTheorems` | the HTTP route bundle, table and resolution |

Objects the program updates in place are classes whose methods are proved against
functions on values; what the program promises is proved of those functions, over every
input or every run. Asynchronous tasks are step machines: a step is the code between two
await points, and a run is any interleaving of steps.

Some promises do not hold as stated, and the exact condition is proved instead.

- The timeout loop can sleep past a due reap. Its sleep is computed once, and neither an
  idle report nor a finished build wakes it: with nothing idle it sleeps a minute, so an
  edge that goes idle after one second is due at 31 seconds and reaped at 60
  (`Reaping.LoopOversleeps`). It cannot if and only if the sleep is no longer than the
  debounce and than any idle entry, half built ones included, has left
  (`Reaping.LoopIsPunctualIff`); a report is never overdue by more than 30 seconds
  (`Reaping.ReportsWaitAtMostAMinute`).
- `run_net_chain_setup` recognises its own edges by net id alone, and the walk that ends a
  completed chain by key alone. So a chain gives back exactly what it took if and only if
  no edge that others hold stands under a key for which it holds an earlier edge it cannot
  tell from this one (`ChainSetups.GivesBackExactlyIff`, with the failing run in
  `ChainSetups.RebuiltIsReached` and `ChainSetups.OthersEdgeIsTaken`). No run is misled in
  which an edge is only built once nobody holds an earlier one under its key
  (`ChainSetups.FreshKeysKeepRefsExact`); a fresh net id is enough as long as no completed
  chain gives back (`ChainSetups.FreshIdsKeepRefsExact`), and not beyond
  (`ChainSetups.FreshIdsDoNotSuffice`).
- The setup counters are narrow and saturate, so arrivals equal completions plus pending
  exactly until one of two counters that move together is full
  (`SetupPressures.BeginKeepsBalanceIff`, `SetupPressures.FinishKeepsBalanceIff`; the
  failing input is in `SetupPressures.FullPendingUnbalances`).
- The pool accepts an id that was never handed out (`NetIdPools.FreeKeepsPartitionIff`), and
  then hands it out twice (`NetIdPools.FreshFreeIsHandedOutTwice`).
- The open-flow indexes part ways exactly when a flow is filed under a second owner
  (`OpenFlowSets.InsertAgreement`, `OpenFlowSets.ReconcileAgreement`; the failing input is
  in `OpenFlowSets.SecondOwnerParts`).

## Assumptions

- The lifecycle protocol is in VXLAN mode. A client runs the commands of one id in order
  (members/nullnet-client/src/control_channel/lifecycle.rs:15-38), purges its kernel state
  before it registers again (members/nullnet-client/src/main.rs:107-108), and has one
  control stream at a time. Message ids and generations are never reused.
- Instants are natural numbers of nanoseconds. `duration_since` is zero for an instant in
  the future, as in Rust. Theorems on token buckets and on trigger claims assume that the
  clock read under the lock does not run backwards.
- Tokens are real numbers and rates natural ones; rounding of `f64` is not modelled.
- Revisions, generations, sequence numbers and sample totals do not overflow their 64 bits.
- A `HashMap` is walked in any order: where the order matters, the element found is
  unspecified, and where a list is built from it, that list is an argument.

## Model

| member | source | states |
|---|---|---|
| NetIdPools.AllocateKeepsPartition | members/nullnet-server/src/net_id_pool.rs:53-67 | An id handed out is in range and held by nobody; allocation fails only when every id is held |
| NetIdPools.FreeKeepsPartitionIff | members/nullnet-server/src/net_id_pool.rs:71-75 | Freeing keeps every id in exactly one place if and only if the id had been handed out or is out of range |
| NetIdPools.FreshFreeIsHandedOutTwice | members/nullnet-server/src/net_id_pool.rs:53-75 | Freeing 102 in a new pool breaks that, and the third allocation hands 102 out again |
| NetIdPools.ReuseIsOldestFirst | members/nullnet-server/src/net_id_pool.rs:53-57 | The id queued at position n is handed out after exactly the n ids freed before it |
| NetIdPools.NetIdPool.Take | members/nullnet-server/src/net_id_pool.rs:53-67 | The object allocates as the value-level pool does, and its queue and membership index stay in step |
| NetIdPools.NetIdPool.Return | members/nullnet-server/src/net_id_pool.rs:71-75 | A free in range is queued once, a double or out-of-range free changes nothing |
| NetLifecycleSafety.RunKeepsInv | members/nullnet-server/src/orchestrator.rs:282-433 | The invariant of the whole protocol survives every run: ids, edges, phases, queues, kernels, triggers, teardown legs and acks |
| NetLifecycleSafety.TeardownCleans | members/nullnet-client/src/control_channel.rs:853-991 | A confirmed teardown leaves nothing of its tunnel at that end: no kernel object, no steering, no queued command |
| NetLifecycleSafety.SettledMeansGone | members/nullnet-server/src/orchestrator.rs:1307-1372 | Once both legs are settled, no connected node holds anything of the tunnel |
| NetLifecycleSafety.ReadyActivatesItsOwnTunnel | members/nullnet-client/src/control_channel.rs:214-274 | A NetReady that finds an entry finds the one its own generation installed |
| NetLifecycleTheorems.ReusedIdIsClean | members/nullnet-server/src/orchestrator.rs:1256-1372 | On every run, when an id can be handed out no connected node has kernel state, steering or a queued message for it |
| NetLifecycleTheorems.ActiveSteeringIsItsOwn | members/nullnet-client/src/triggers.rs:131-174 | On every run, active steering was activated by the NetReady of the generation that installed it, after both ends confirmed that generation's setup |
| NetLifecycleTheorems.IdsAreConserved | members/nullnet-server/src/orchestrator.rs:282-433 | Every id allocated is in exactly one of a running build, a live edge, a teardown or the freed queue |
| NetLifecycleTheorems.AllocationsAndFreesBalance | members/nullnet-server/src/orchestrator.rs:1307-1372 | Over a run an id is freed as often as it was handed out, less one while it is held |
| NetLifecycleTheorems.LiveEdgesNeverShareAnId | members/nullnet-server/src/orchestrator.rs:410-433 | No two live edges have the same id |
| NetLifecycleTheorems.StaleBuildIsHarmless | members/nullnet-server/src/orchestrator.rs:396-433 | A task whose reservation was removed or replaced leaves what stands there as it is |
| NetLifecycleTheorems.TeardownWaitsOnlyForConfirmation | members/nullnet-server/src/orchestrator.rs:1307-1372 | A teardown that cannot move on waits for an end that is connected, was told and has not confirmed |
| EdgeRegistries.EdgeRegistry.ClaimEdge | members/nullnet-server/src/nullnet_grpc_impl.rs:2449-2514 | A claim takes a reference to a live edge, names the builder of a reserved one, reserves it, or is refused because the service is gone or no replica can take it |
| EdgeRegistries.EdgeRegistry.RemovePendingIf | members/nullnet-server/src/services/service_info.rs:794-813 | Only the caller's own reservation is dropped |
| EdgeRegistries.EdgeRegistry.Promote | members/nullnet-server/src/nullnet_grpc_impl.rs:2709-2752 | Only the caller's own reservation becomes live, with its one reference, and only if the replica is still there; otherwise it is dropped |
| EdgeRegistries.EdgeRegistry.DecrementChain | members/nullnet-server/src/services/service_info.rs:568-598 | One reference is given back, the last takes the edge away, a reservation is left alone |
| EdgeRegistries.EdgeRegistry.Unwind | members/nullnet-server/src/nullnet_grpc_impl.rs:2344-2353 | The loop gives back one reference for each edge whose net id still matches, in order |
| EdgeRegistries.EdgeRegistry.Spend | members/nullnet-server/src/services/changes.rs:613-626 | The walk that ends a completed chain gives back one reference for each live edge, by key alone |
| ChainSetups.UnwindLosesHits | members/nullnet-server/src/nullnet_grpc_impl.rs:2344-2353 | Giving back takes from each live edge as many references as holds are taken for one on it, and from nothing else |
| ChainSetups.GivesBackExactlyIff | members/nullnet-server/src/nullnet_grpc_impl.rs:2277-2360 | A chain leaves every edge with the other chains' references if and only if no edge that others hold stands under a key for which it holds an earlier edge it cannot tell from this one: by net id if it failed or lost its owner, at all if it had completed |
| ChainSetups.RebuiltEdgeIsUntouched | members/nullnet-server/src/nullnet_grpc_impl.rs:2344-2353 | An edge rebuilt under a different net id is not touched |
| ChainSetups.RebuiltIsReached | members/nullnet-server/src/nullnet_grpc_impl.rs:2449-2514 | Five steps lead to an edge rebuilt, under any id, beside a chain that still holds the one before |
| ChainSetups.OthersEdgeIsTaken | members/nullnet-server/src/nullnet_grpc_impl.rs:2344-2353 | There, giving back takes the edge another chain holds: on unwinding if the id is the same again, on completion whatever the id |
| ChainSetups.RunKeepsInv | members/nullnet-server/src/nullnet_grpc_impl.rs:2163-2360 | Claims, aborts, promotions, removals and harmless give-backs, in any order, keep references, ids, reservations and incarnations consistent |
| ChainSetups.RefsAreHolders | members/nullnet-server/src/nullnet_grpc_impl.rs:2449-2514 | After any run whose give-backs are harmless, completed chains included, a live edge has as many references as chains hold it for, and a reserved one is being built |
| ChainSetups.FreshKeysKeepRefsExact | members/nullnet-server/src/nullnet_grpc_impl.rs:2163-2360 | If no edge is built while a chain holds an earlier one under its key, no give-back of any run is misled, unwound or completed, and references equal holders throughout |
| ChainSetups.FreshIdsKeepRefsExact | members/nullnet-server/src/nullnet_grpc_impl.rs:2277-2360 | On runs in which only unwinds give back, it is enough that no build is given an id that a chain still holds for the same edge |
| ChainSetups.FreshIdsDoNotSuffice | members/nullnet-server/src/services/changes.rs:613-626 | With completed chains it is not: after five steps with fresh ids, ending a completed chain takes the edge another one holds |
| BackendSessionTables.BackendSessionTable.ClaimSession | members/nullnet-server/src/orchestrator.rs:772-789 | The call is a step of the machine; one claim per key at a time, under a generation nobody ever held |
| BackendSessionTables.BackendSessionTable.FinishSession | members/nullnet-server/src/orchestrator.rs:792-813 | The call is a step of the machine; a build still owns its claim exactly if its generation was not consumed meanwhile, and otherwise changes nothing |
| BackendSessionTables.BackendSessionTable.AttachRow | members/nullnet-server/src/orchestrator.rs:815-836 | The call is a step of the machine; the row comes back to be closed exactly if its generation was consumed between open and attach |
| BackendSessionTables.BackendSessionTable.CancelSession | members/nullnet-server/src/orchestrator.rs:838-853 | The call is a step of the machine; a generation still held is consumed and its row left to close, a stale one changes nothing |
| BackendSessionTables.BackendSessionTable.CancelBuilding | members/nullnet-server/src/orchestrator.rs:856-864 | The call is a step of the machine; exactly a session still being built is consumed, and it has no row to leave behind |
| BackendSessionTables.BackendSessionTable.SetLiveness | members/nullnet-server/src/orchestrator.rs:871-875 | The call is a step of the machine; a report invents no session |
| BackendSessionTables.BackendSessionTable.TakeDueSessions | members/nullnet-server/src/orchestrator.rs:882-908 | The call is a step of the machine; exactly the due sessions leave, with exactly their rows |
| BackendSessionTables.BackendSessionTable.ForgetSessions | members/nullnet-server/src/orchestrator.rs:934-954 | The call is a step of the machine; exactly the named sessions leave, with exactly their rows |
| BackendSessionTheorems.RunKeepsInv | members/nullnet-server/src/orchestrator.rs:772-954 | Generations, build stages and rows stay conserved over every run |
| BackendSessionTheorems.GenerationsAreConsumedOnce | members/nullnet-server/src/orchestrator.rs:772-954 | On every run each generation claimed is held by exactly one session or consumed, never both |
| BackendSessionTheorems.ConsumptionIsFinal | members/nullnet-server/src/orchestrator.rs:838-954 | Only a held generation is consumed, it is when it leaves, and it never comes back |
| BackendSessionTheorems.StaleGenerationIsHarmless | members/nullnet-server/src/orchestrator.rs:792-853 | A late finish, cancel or history of a consumed generation touches no session, and its row goes to be closed |
| BackendSessionTheorems.RowsAreClosedOnce | members/nullnet-server/src/timeout.rs:132-162 | On every run a row is live exactly while it is neither closed nor due to be, and is closed at most once, whichever of open and removal came first |
| Reaping.NearestExpiry | members/nullnet-server/src/orchestrator.rs:740-750 | The loop finds the least time left of the entries that tick, and none exactly when none do |
| Reaping.TakeDue | members/nullnet-server/src/orchestrator.rs:882-908 | What is listed and taken out is exactly what is due, once each |
| Reaping.ZeroIffReaps | members/nullnet-server/src/orchestrator.rs:705-750 | The nearest expiry is zero if and only if a reap at that instant removes something |
| Reaping.ReapLeavesNothingDue | members/nullnet-server/src/orchestrator.rs:705-750 | After a reap the nearest expiry is absent or positive, so the loop does not spin |
| Reaping.HalfBuiltIsIgnored | members/nullnet-server/src/orchestrator.rs:705-750 | Half-built entries change neither the expiry nor the reap |
| Reaping.ExpiryIsExact | members/nullnet-server/src/orchestrator.rs:740-750 | Of a table that does not change, a reap removes something exactly from the nearest expiry on |
| Reaping.LoopIsExactAtRest | members/nullnet-server/src/timeout.rs:37-69 | If neither table changes, nothing is due while the loop sleeps, and something is when it wakes before the ingress deadline |
| Reaping.LoopIsPunctualIff | members/nullnet-server/src/timeout.rs:37-69 | With reports and builds going on, the loop cannot sleep past a due entry if and only if its sleep is no longer than the debounce and than any idle entry, half built ones included, has left |
| Reaping.LoopOversleeps | members/nullnet-server/src/timeout.rs:37-69 | With nothing idle the loop sleeps a minute, and an edge idle after one second is due for 29 of them |
| Reaping.LatenessIsBounded | members/nullnet-server/src/orchestrator.rs:684-750 | An entry reported meanwhile is overdue at the wake by at most the sleep less the debounce, one idle and built before not at all |
| Reaping.ReportsWaitAtMostAMinute | members/nullnet-server/src/timeout.rs:37-69 | With the program's constants no report is overdue by more than 30 seconds when the loop wakes |
| Triggers.TriggersState.Claim | members/nullnet-client/src/triggers.rs:81-108 | A claim elects its caller only if nobody is at work or the work has expired; others get the token to wait on |
| Triggers.TriggersState.MarkPrepared | members/nullnet-client/src/triggers.rs:131-155 | The entry becomes installed and not ready, and keeps its waiters |
| Triggers.TriggersState.MarkReady | members/nullnet-client/src/triggers.rs:157-174 | An entry installed for the id becomes ready if there is one, and nothing else changes |
| Triggers.TriggersState.ForgetPending | members/nullnet-client/src/triggers.rs:191-198 | Only the caller's own pending claim is dropped |
| Triggers.TriggersState.RemoveByVxlan | members/nullnet-client/src/triggers.rs:203-224 | The entry removed is one installed for the id, and there is none only if no entry is |
| Triggers.SendersAreApart | members/nullnet-client/src/triggers.rs:81-108 | On every run, two claims that both elect their caller while the entry lasts are at least 35 seconds apart |
| Triggers.OnlyOwnersEnd | members/nullnet-client/src/triggers.rs:191-224 | A pending claim ends only by its owner, by installation or by expiry; installed steering only by removal or reinstallation |
| Triggers.WaitersStayWithEntry | members/nullnet-client/src/triggers.rs:131-174 | Installing and activating keep the token that waiters hold |
| OpenFlowSets.InsertAgreement | members/nullnet-client/src/conntrack.rs:463-486 | After an insert both indexes agree if and only if no other owner holds the flow |
| OpenFlowSets.SecondOwnerParts | members/nullnet-client/src/conntrack.rs:463-486 | A flow inserted under two owners stays filed under both while the reverse index names the second |
| OpenFlowSets.ReconcileAgreement | members/nullnet-client/src/conntrack.rs:553-612 | After a snapshot both indexes agree if and only if no other owner holds one of its flows |
| OpenFlowSets.OpenFlows.Insert | members/nullnet-client/src/conntrack.rs:463-486 | The nested sets refine the flat map, and the report is the flat one |
| OpenFlowSets.OpenFlows.Remove | members/nullnet-client/src/conntrack.rs:488-522 | The same for a close, which leaves no empty set or map behind |
| OpenFlowSets.OpenFlows.SuppressFor | members/nullnet-client/src/conntrack.rs:543-547 | The same for suppression |
| OpenFlowSets.OpenFlows.Reconcile | members/nullnet-client/src/conntrack.rs:553-612 | The same for a snapshot of one owner |
| OpenFlowSets.OpenFlows.ReconcileAt | members/nullnet-client/src/conntrack.rs:437-448 | The same for a snapshot guarded by a revision |
| OpenFlowTheorems.OwnerReportsAreCrossings | members/nullnet-client/src/conntrack.rs:463-612 | Active is reported exactly on the first flow inserted, Idle exactly when the last goes while emptiness is trusted |
| OpenFlowTheorems.DestinationReportsAreCrossings | members/nullnet-client/src/conntrack.rs:463-612 | The same for each destination, in both directions |
| OpenFlowTheorems.ReportsReplayToOpenDestinations | members/nullnet-client/src/conntrack.rs:474-611 | Replaying the reports of any run gives exactly the open destinations plus those whose last close was suppressed |
| OpenFlowTheorems.UnsuppressedReplayIsExact | members/nullnet-client/src/conntrack.rs:474-611 | Without suppression the replay is exactly the open destinations |
| OpenFlowTheorems.SnapshotIsLinearizable | members/nullnet-client/src/conntrack.rs:428-448 | For any interleaving a guarded snapshot is applied exactly when its owner was not touched since the read, whatever others did, and otherwise changes nothing |
| Ctnetlink.FindAttr | members/nullnet-client/src/conntrack.rs:56-77 | The walk stays in bounds, ends, and returns the payload of the first attribute of the type |
| Ctnetlink.ParseOrigTuple | members/nullnet-client/src/conntrack.rs:99-116 | The original-direction tuple as the reference reads it |
| Ctnetlink.ParseDestroyBatch | members/nullnet-client/src/conntrack.rs:120-143 | The walk over any bytes ends, in bounds, with the reference result |
| CtnetlinkRoundTrip.FindInEncoded | members/nullnet-client/src/conntrack.rs:56-77 | In encoded attributes, with any flags and padding, the first of the type is found |
| CtnetlinkRoundTrip.OrigTupleOfEncoded | members/nullnet-client/src/conntrack.rs:99-116 | From an encoded tree the parser reads the original tuple of the tree, nested two levels down |
| CtnetlinkRoundTrip.TreeTupleOfHeld | members/nullnet-client/src/conntrack.rs:99-116 | A tree that holds the fields of a flow yields that flow if it is TCP or UDP, and otherwise none |
| CtnetlinkRoundTrip.BatchRoundTrip | members/nullnet-client/src/conntrack.rs:120-143 | Any encoded batch parses to exactly the tuples of its DELETE events, in order, then whatever follows it |
| CtnetlinkRoundTrip.BatchIsSane | members/nullnet-client/src/conntrack.rs:120-143 | Whatever the bytes, only TCP and UDP tuples are read, at most one per message header |
| Pressures.Pressure.Observe | members/nullnet-server/src/congestion.rs:166-251 | A new epoch starts afresh, a sample running backwards changes nothing, and otherwise the totals, verdict and history are those of the logged samples cut into windows; windows recorded before are kept |
| Pressures.Pressure.Reset | members/nullnet-server/src/congestion.rs:149-164 | A new epoch keeps only the history and the sequence |
| Pressures.Pressure.EndWindow | members/nullnet-server/src/congestion.rs:181-250 | Closing a window judges, records and counts it after those recorded before, and starts the next; differences never underflow |
| Pressures.TilingIsCut | members/nullnet-server/src/congestion.rs:166-251 | There is only one way to cut a log into windows that end with the first sample a second or more after their start |
| Pressures.TotalsAreOfTheLog | members/nullnet-server/src/congestion.rs:166-251 | So two detectors with the same log have the same windows, totals and verdict |
| Pressures.CongestedIffEvenRun | members/nullnet-server/src/congestion.rs:213-227 | The trend is Congested if and only if the unbroken run of growing windows is positive and even |
| Pressures.OpenIsOrdered | members/nullnet-server/src/congestion.rs:171-187 | Within a window no counter runs backwards |
| Pressures.RecentAppend | members/nullnet-server/src/congestion.rs:229-240 | The history holds at most 60 windows, the latest ones |
| SetupPressures.BeginKeepsBalanceIff | members/nullnet-server/src/congestion.rs:325-329 | Starting keeps arrivals equal to completions plus pending exactly when both counters, or neither, are full |
| SetupPressures.FinishKeepsBalanceIff | members/nullnet-server/src/congestion.rs:331-336 | The same for completing |
| SetupPressures.FullPendingUnbalances | members/nullnet-server/src/congestion.rs:325-329 | With 2^32 - 1 attempts pending, one more is counted as an arrival and not as pending |
| SetupPressures.AttemptsBalance | members/nullnet-server/src/congestion.rs:325-336 | On every run of attempts within the counters' range, arrivals are the attempts begun and equal completions plus pending |
| SetupPressures.SetupPressure.Started | members/nullnet-server/src/congestion.rs:325-329 | A start is counted and its sample is never refused |
| SetupPressures.SetupPressure.Completed | members/nullnet-server/src/congestion.rs:331-336 | A completion is counted and its sample is never refused |
| CongestionControl.HostRate.TrimCompletions | members/nullnet-server/src/congestion.rs:414-422 | Completions older than ten seconds are dropped from the front |
| CongestionControl.HostRate.RecordCompletion | members/nullnet-server/src/congestion.rs:424-434 | A completion joins the queue, or restarts it after a gap |
| CongestionControl.HostRate.SustainedCompletions | members/nullnet-server/src/congestion.rs:436-445 | Whether the trimmed queue spans the last five seconds |
| CongestionControl.HostRate.ApplyAll | members/nullnet-server/src/congestion.rs:452-531 | The verdict moves the host as the value-level controller does, and the transition reported is the one made |
| CongestionControl.HostRate.RefillTokens | members/nullnet-server/src/congestion.rs:549-557 | The bucket gains the rate times the time passed, up to the burst |
| CongestionControl.CongestionController.AllowDedicated | members/nullnet-server/src/congestion.rs:644-715 | With the detectors as they stand, both ends are judged, then all of them charged or none, and the changes of mode are reported |
| CongestionControl.CongestionController.ObserveProxy | members/nullnet-server/src/congestion.rs:603-615 | A sample goes to its own proxy's detector, which the first one makes; a later one starts it afresh if its epoch is new, changes nothing if it runs backwards, and otherwise joins its log |
| CongestionControl.CongestionController.StartSetup | members/nullnet-server/src/congestion.rs:617-634 | An attempt is counted and logged at its own host, whose counters the first one makes |
| CongestionControl.CongestionController.EndSetup | members/nullnet-server/src/congestion.rs:578-592 | A dropped attempt is counted at its host and logged with the microseconds it took |
| CongestionControl.CongestionController.RecordDedicatedCompletion | members/nullnet-server/src/congestion.rs:725-741 | A completion is recorded once at each distinct end |
| HostRateTheorems.ChargesAreFunded | members/nullnet-server/src/congestion.rs:486-557 | On every run tokens lie in [0, 32], charges since the last congested verdict never exceed the rate times the time since, and are none while Multiplexing |
| HostRateTheorems.LeavesMultiplexingIff | members/nullnet-server/src/congestion.rs:485-529 | Multiplexing ends if and only if a fresh healthy verdict directly follows another, and it ends in Recovery at one setup a second |
| HostRateTheorems.RecoveryProbesByOne | members/nullnet-server/src/congestion.rs:498-522 | In Recovery a fresh healthy verdict adds one to the rate, a congested one stops it, and nothing else moves it |
| HostRateTheorems.SustainedIff | members/nullnet-server/src/congestion.rs:414-445 | The queue is sustained if and only if completions since the last refusal kept coming, without a gap over five seconds, from one five to ten seconds old to one at most five |
| HostRateTheorems.EntersNormalIff | members/nullnet-server/src/congestion.rs:498-516 | Normal returns only from Recovery, if and only if a fresh healthy verdict finds a full bucket, no refusal for five seconds and completions that kept coming since |
| CongestionTheorems.ChargesAllOrNone | members/nullnet-server/src/congestion.rs:690-709 | An admission charges one token to every rate-limited host involved or nothing to any, the former exactly when each has one, and touches nobody else |
| CongestionTheorems.HostsFollowTheirEvents | members/nullnet-server/src/congestion.rs:644-741 | Every host of every run of the controller is where its own judgements, charges, refusals and completions take it, and their record is the account kept on the run |
| CongestionTheorems.SetupsAreFunded | members/nullnet-server/src/congestion.rs:644-715 | On every run tokens lie in [0, 32], and the dedicated setups let through a rate-limited host since its last congested verdict never exceed its rate times the time since: none while Multiplexing |
| CongestionTheorems.RequestEndsMultiplexingIff | members/nullnet-server/src/congestion.rs:485-529 | On every run a request ends Multiplexing, at rate one, exactly if it brings a fresh healthy verdict right after another |
| CongestionTheorems.RequestRestoresNormalIff | members/nullnet-server/src/congestion.rs:498-516 | On every run a request restores Normal exactly from Recovery, with a fresh healthy verdict, a full bucket, no refusal for five seconds and completions that kept coming since |
| Firewalls.ParseReadsTuple | ebpf/src/main.rs:124-161 | From any frame carrying a TCP, UDP or ESP packet the filter reads that packet's tuple |
| Firewalls.KeyIsFlow | ebpf/src/main.rs:240-254 | Two tuples have one key if and only if they are equal or each other's reverse |
| Firewalls.AllowKeyIsInjective | ebpf/src/main.rs:234-236 | Direction, protocol and port can be told from the packed key |
| Firewalls.PlumbingIsSymmetric | ebpf/src/main.rs:177-224 | The structural rules admit a packet exactly when they admit its reverse |
| Firewalls.Firewall.Filter | ebpf/src/main.rs:124-173 | A packet is let through, and its flow remembered, exactly as the rules and the table say |
| Firewalls.AcceptedWasAllowed | ebpf/src/main.rs:124-201 | On every run of packets, evictions and configurations, each tracked packet let through is, up to reversal, one the rules allowed then or before |
| Firewalls.RepliesAreAccepted | ebpf/src/main.rs:163-173 | The reverse of a packet let through is let through while its key is not evicted |
| Overlay.AddressIsInBlock | members/nullnet-server/src/net.rs:149-155 | For every id of the pool no byte overflows and the address is the id's block plus its place |
| Overlay.EndsAgree | members/nullnet-server/src/net.rs:204-253 | The client's host mapping is the server's own address, and the four addresses of a tunnel are distinct |
| Overlay.VlanEndsAgree | members/nullnet-server/src/net.rs:149-168 | The same for a VLAN, each end being told the other's address |
| Overlay.SetupsStayInBlock | members/nullnet-server/src/net.rs:204-253 | Every address used is neither the network nor the broadcast address of its block |
| Overlay.VlanSetupsStayInBlock | members/nullnet-server/src/net.rs:149-168 | The same for a VLAN |
| Overlay.BlocksAreDisjoint | members/nullnet-server/src/net.rs:204-207 | No address lies in the blocks of two ids |
| Overlay.Transports.Transport | members/nullnet-server/src/orchestrator.rs:1132-1149 | Two hosts share one id in either order, for good, and pairs are numbered in turn |
| Overlay.EitherOrder | members/nullnet-server/src/orchestrator.rs:1132-1138 | The key of a pair does not depend on who asks, and stands for no other pair |
| Overlay.SharedIdsDiffer | members/nullnet-server/src/orchestrator.rs:1132-1149 | Different pairs have different ids below 2^32 pairs |
| Overlay.SharedMeetsNoGroupIff | members/nullnet-server/src/orchestrator.rs:1151-1160 | A shared id differs from every group id exactly below 2^20 + 101 pairs, or past the ids of the pool |
| Routes.BuildBundle | members/nullnet-server/src/nullnet_grpc_impl.rs:197-254 | The bundle is every explicit rule in order, then an implicit route for each reachable http service no rule names |
| Routes.FromBundle | members/nullnet-proxy/src/routes.rs:69-78 | The table has exactly the bundle's hosts, each with its routes sorted by prefix length |
| Routes.Resolve | members/nullnet-proxy/src/routes.rs:81-114 | The first route that covers the path and has a target answers |
| RouteTheorems.SortedIsStable | members/nullnet-proxy/src/routes.rs:74-76 | Longer prefixes come first, equal lengths keep their order, and nothing is lost or added |
| RouteTheorems.StableSortIsUnique | members/nullnet-proxy/src/routes.rs:74-76 | Any two stable sorts of the same routes are equal |
| RouteTheorems.ResolvesByRule | members/nullnet-proxy/src/routes.rs:69-114 | For every bundle, host and path, the answer is that of the longest matching targeted prefix, the earliest on ties; NotFound and Fallback exactly when there is none |
| RouteTheorems.UnclaimedServicesServeThemselves | members/nullnet-server/src/nullnet_grpc_impl.rs:235-248 | Every reachable http service whose name is no explicit host serves all its own '/' paths |

## Left out

- Chain walks: that the walk of a completed chain (members/nullnet-server/src/services/changes.rs) visits exactly the keys the chain set up is assumed; how it finds them by topology is not modelled.
- Removal of entries when replicas or services go: one step that may take any entry away at any time.
- Ingress deadlines: `nearest_timeout` and `reap_ingress_timeouts` enter only as the time the loop may sleep.
- Replicas and pausing: which replica serves an edge, and resuming it, is reduced to a build that may fail.
- VLAN teardown and encrypted group edges in the lifecycle protocol: only their ids and addresses are modelled.
- Kernel commands: bridges, tunnels, XFRM and DNAT rules are one kernel entry per id and side, which a failing command may leave behind.
- Storage, geo lookups, events, logging and gRPC transport: only the order in which history rows are opened and closed is modelled.
- Rule matching of egress policy, the endpoint filters of ebpf/src/endpoint_tc.rs and the DNS, TLS and UI code: not modelled.
- Transition and window snapshots for display: only the window history is modelled.
- Pressures.Pressure.Observe: its running totals are one record field, updated at once rather than field by field.
- CongestionControl.CongestionController.AllowDedicated: hosts are held by value rather than as `HostRate` objects, so aliasing between them is not modelled.
- BackendSessionTables.BackendSessionTable.FinishSession: a builder finishes the generation it claimed, and once, as the one caller does.
- Routes.FromBundle: prefixes are measured in characters rather than bytes, which orders the prefixes of one path alike; the library sort is an insertion sort, equal to any stable one by RouteTheorems.StableSortIsUnique.
- Overlay.Transports.Transport: the encryption key beside each id is left out.
- Firewalls.Firewall.Filter: the table has no capacity of its own; eviction and failed insertion are events that may remove any keys at any time.
