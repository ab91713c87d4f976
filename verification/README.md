# Burrow, modelled and verified in Dafny

Burrow is a small service mesh. One *council* holds the shared state: *kings*, which offer port ranges and
tunnels, *lings*, which offer services and proxy to them, and the *services* placed on kings. Peers send PUT
requests, the council provisions and cleans, and every peer reacts to snapshots of the council's state. This
project models the council's state machine, the snapshot cache, the readiness handshake and the concurrent
protocols and codecs of the peers, and proves what they promise in every reachable state.

`dafny verify dfyconfig.toml` checks everything.

## How the modules fit together

| file | what it holds |
|---|---|
| `Basics`, `Text` | the order-preserving filter, first matches; port ranges and address keys as text |
| `CouncilState` | kings, lings, services and the state a snapshot shows |
| `Provisioner`, `Placement` | what one provisioning run computes; stability, maximality, idempotence |
| `Cleaner` | one cleaner pass; the in-place compaction loop |
| `Handlers` | the PUT handlers as threads; `Segment` is what a handler does between taking the mutex and giving it up |
| `Council` | class `Council`: the fields and loops of the source, each method proved to compute the functions above |
| `Registry`, `Runs`, `Freshness` | what a segment keeps; the council as a transition system; ling integrity and the revision |
| `Effects` | what a step of a request brings about: registrations, readiness, evacuation of a king |
| `Requests`, `KingRequests` | a whole request of a ling, of a king, from its first segment to its reply |
| `Watcher` | the revision-keyed snapshot cache: storing under the mutex, handing on after it |
| `Pointers`, `PointerCouncil` | placements as pointers into the kings' backing array; the whole council by pointer, against the council by value |
| `KingTunnel`, `KingReact` | the connection map and the drain signal; a king's reaction to a snapshot |
| `LingReact`, `LingProxy`, `Frame` | tunnel groups and proxy targets; the target channel and round robin; the service ID frame |
| `Reactions` | what peers do with the snapshots a watcher hands on, along a run of the council |
| `Mesh` | the whole system: council, kings and lings with delayed, repeated, reordered and lost messages |
| `MeshProgress` | from every world of every run the readiness handshake can be completed |
| `Scenarios`, `PointerScenario` | concrete runs in which something does not go as one might expect |

The handlers release and retake the mutex around every broadcast. The atomic step is therefore one locked
segment, and `Runs` lets segments of any number of requests, cleaner passes and clock steps interleave freely.
`Council.Resume` is the imperative form of a segment, `Council.RunCleaner` that of a pass; the theorems of
`Runs`, `Freshness` and `Mesh` are about the functions these two methods are proved to compute.

## Assumptions, by name

- *KingsUnique* (`CouncilState`): no two king entries share (host, bindPort). The council looks kings up by
  (ports, host) and never checks it. Only the lemmas that name it need it; idempotence and evacuation need the
  weaker *Uncontested* (`Placement`), that no address is shared by a king that is shutting down and a running king
  with a range to give out.
- *CleanIsFresh* (`Freshness`): a cleaner pass does not remove the ling of a request that is between the unlock
  in `ensureLingExists` and the append of its service. It is stated about the ling's heartbeat: that the
  request's own time is not stale is not enough, since an older overlapping request can write an older heartbeat
  later (`Scenarios.FreshTimesNotEnough` is such a run). `PromptRunsAreFresh` derives it from a clock that does
  not run backwards and requests that finish within half the staleness window. `LingIntegrityIff` and
  `RevisionFaithful` do without it and say exactly which steps break what it protects.
- *OneCallAtATime* (`Watcher`): calls of `doFetchState` do not overlap. The source does not serialize them: the
  polling loop and the web socket listener each fetch, and `onChange` is called after the mutex was given up. Only
  `OneCallAgrees` assumes it; the other lemmas are about any schedule of stores and hand-ons.
- *Reactions in turn*: `Reactions.ListenersFollowCouncil` takes each reaction to a snapshot as done before the next
  begins, in whatever order the snapshots are handed on. `KingReaction.PortOpenIff` and `ListeningIff` are about
  reactions that interleave, port by port.
- *Late beat*: `existingKing.Beat = now` runs after the mutex was given up, through an old pointer. The step
  that models it writes the heartbeat of any one king, or of none; in `PointerCouncil` the pointer itself is kept,
  and the king is the one whose cell it has become, if any. `KingRequests.KingRequestTakesEffect` alone assumes that
  it finds its king (*LateFinds*), as it does when no cleaner pass comes in between.
- *Fresh IDs*: a new service ID has never been issued before. Tokens are arbitrary.
- *Values*: `Host` and `BindPort` of a service are values, as in the JSON. `PointerCouncil` stores the
  pointers of the source and says exactly when the two agree.
- *One council lifetime*: a restart resets the revision. Integers are unbounded except where a word size
  matters: parsed ports and the proxy's 64-bit counter.

## Where the code does not do what one might expect

Each has a concrete run or input, and the exact condition.

- A service can change hosts: when a stale king that is not in the trailing run of stale kings is removed,
  compaction moves a later king into the cell that a surviving service points at
  (`PointerScenario.ServiceChangesHost`, a run of the council). A run by pointer shows a run by value exactly when
  no pass does this (`PointerCouncil.PointerRunShowsValueRun`); stale suffixes never do (`SuffixRunShows`).
- A service can be left without its ling (`Scenarios.FreshTimesNotEnough`), exactly when a parked request finds
  neither ling nor service and appends the service (`Freshness.LingIntegrityIff`).
- A change can go uncounted: the next request for such a service appends the ling without raising the revision
  (`Scenarios.UncountedChange`). Equal revisions mean equal states exactly when no handler meets such a ling
  (`Freshness.RevisionFaithful`).
- Provisioning twice can differ from provisioning once, in a state the council reaches
  (`Scenarios.SecondRunDiffers`). For given kings it never does exactly when no address is contested
  (`Placement.ProvisionIdempotent`, `Registry.IdempotentAmongRegistered`).
- Responses that come in out of order put an older snapshot back in the cache (`Scenarios.CacheGoesBack`). The
  cached revision never falls exactly when the fetched ones do not (`WatcherCache.GoesBackIff`).
- Calls that overlap can hand on crosswise although they stored in order. The peer then acts on the older snapshot,
  and later responses with the newer one are dropped as already cached (`Scenarios.HandsOnCrosswise`). With
  responses in order and nothing pending, the peer acts on the council's state exactly when the snapshot stored
  last was handed on last (`WatcherCache.LastHandOnDecides`).
- Reactions that overlap can shut each other's ports (`KingReaction.OverlapShutsBoth`). A port is listened on
  exactly when some step opened it and no later one shut it (`PortOpenIff`).
- A listener keeps the service it was started for. A watcher whose calls do not overlap can be handed a
  snapshot in which a port is one service's and next one in which it is another's (`Scenarios.HandoverHappens`);
  listeners follow exactly when that does not happen (`Reactions.ListenersFollowCouncil`).
- A ling request stops at its first tunnel that has a service already, so tunnels behind it may get none
  (`Scenarios.StopsAtFirst`); all are served exactly when none that is new comes after one that is known
  (`Requests.EveryTunnelServedIff`).
- A king is always registered as running, whatever `shutting_down` its request carries
  (`internal/council/routes.go:215`); `Effects.KingRegistered` states it. Location and bind port of a known
  king are never updated.
- A range with a negative lower bound never parses (`Text.RangeRoundTrip`), and the loop over a range up to the
  largest 64-bit integer never ends (`Text.PortLoopEndsIff`).
- Round robin is fair across a wrap of the 64-bit counter exactly when the number of targets divides 2^64
  (`LingProxy.WrapUnfair`, `LingProxy.FairAcrossWrap`).

## Model

| member | source | states |
|---|---|---|
| Mesh.Readiness | internal/king/king.go:348-392 | in every council state of every run of council, kings and lings: a king-ready service had a connection registered by then, with its own token, by a king that had before updated that tunnel from an earlier council state which assigned the service, with this token, to the tunnel's address; a ling-ready service was king-ready, and so explained, in a strictly earlier council state |
| Mesh.ProxyTargetsExplained | internal/ling/ling.go:572-631 | whatever past state a ling acts on, each proxy target is a placed service of the right name whose connection is explained in an earlier state |
| MeshProgress.HandshakeCanComplete | internal/king/king.go:348-392 | from every world of every run, if a service is placed on a tunnel of a king of the mesh, no king at its address is shutting down, its ling is running and offers it, there is a way to go on, no longer than twice the number of services and twelve moves, after which both sides have reported it ready and a proxy for its name has it as a target where it is; nothing a run has done before can block this |
| Mesh.IdentityStable | internal/council/routes.go:429-443 | over a whole run an ID stands for one service: name, token and ling never change and no ID is reused |
| Mesh.SoundEverywhere | internal/king/tunnel.go:234-281 | the invariant of the handshake over every move: tokens, handshakes, connections, reports being put together, requests in flight, handlers and flags all have their reason in the past |
| Mesh.SegmentFlags | internal/council/routes.go:179-182 | a flag that is set after a segment was set before, or the segment's own request reports that service |
| Runs.PortExclusivity | internal/council/provisioner.go:87-160 | in every reachable state host, bind port and remote port are all set or all absent, no two services share all three, every placed service has a king entry at its address, and IDs, (name, ling), ling IDs and (ports, host) are registered once |
| Runs.PlacementIntegrity | internal/council/cleaner.go:107-172 | while addresses are unique, each placed service has exactly one king entry, a live one with its port in range; with disjoint ranges per host no two services share (host, remotePort) |
| Runs.SettledEverywhere | internal/council/provisioner.go:135-160 | while addresses are unique, no reachable state has a service on a shutting-down king or outside its king's range |
| Registry.SegmentKeeps | internal/council/routes.go:157-251 | one locked segment, from any state that meets the registry invariant, meets it again |
| Registry.SegmentCounts | internal/council/routes.go:376-449 | one locked segment raises the revision or changes heartbeats only, except exactly when the handler meets a ling that was dropped while its service was not |
| Registry.CommitsIff | internal/council/routes.go:237-248 | a step of a handler raises the revision and broadcasts if and only if it changed more than heartbeats, unless the change is such a ling |
| Registry.ReadyLoopPasses | internal/council/routes.go:319-352 | a ling's handler reaches its tunnels in the same segment exactly when it has nothing new to report |
| Registry.NobodyOnNewKing | internal/council/routes.go:211-221 | with unique addresses, no service sits at the address of a king that is just registering |
| Handlers.SegmentShape | internal/council/routes.go:192-226 | a segment is heartbeats of kings followed by the one step that gives up the mutex |
| Freshness.LingIntegrityIff | internal/council/routes.go:418-443 | in any run, every service has its ling in every state if and only if no parked handler that finds neither its ling nor its service goes on to append the service |
| Freshness.LingIntegrityEverywhere | internal/council/routes.go:406-449 | with fresh passes that never happens, and every handler parked between its broadcasts has its ling |
| Freshness.RevisionFaithful | internal/council/cleaner.go:50-55 | in any run, equal revisions mean states equal but for heartbeats if and only if no handler meets a ling that was dropped while its service was not |
| Freshness.RevisionNeverFalls | internal/council/routes.go:181-182 | in every run, whatever the cleaner does, the revision never falls |
| Freshness.FreshRunsCount | internal/council/routes.go:384-403 | with fresh passes no handler meets such a ling |
| Freshness.PromptRunsAreFresh | internal/council/cleaner.go:86-105 | with a clock that does not run backwards and requests shorter than half the staleness window, every pass is fresh |
| Freshness.SegmentKeepsLings | internal/council/routes.go:376-404 | a segment forgets no ling, and leaves every service with its ling unless it is such an append |
| Scenarios.UncountedChange | internal/council/routes.go:384-403 | a nine-step run in which two states with the same revision have different lings |
| Scenarios.FreshTimesNotEnough | internal/council/routes.go:376-404 | a run in which every pass finds the times of all requests in flight fresh, and yet a service is appended without its ling |
| Effects.KingReportTakesEffect | internal/council/routes.go:157-190 | a king's report makes exactly the named service king-ready unless its king is shutting down; no other service gains a flag; an unknown ID changes nothing and ends the request with the refusal |
| Effects.LingReportTakesEffect | internal/council/routes.go:319-352 | a ling's report makes exactly the named service ling-ready and withdraws no ling-ready flag; king-ready flags go exactly when the report is recorded and the service's king is shutting down; an unknown ID changes nothing and ends the request with the refusal |
| Effects.KingRegistered | internal/council/routes.go:192-251 | after a tunnel of a king request there is one king with these ports and host, with the request's certificate and, if it was known, its shutting-down flag; no other king changes |
| Effects.ShutdownEvacuates | internal/council/provisioner.go:125-160 | when a known king starts shutting down and no address is contested, no service remains at its address; each is at another king or unplaced because no live king has a free port |
| Effects.ServiceRegistered | internal/council/routes.go:420-446 | a tunnel's service exists afterwards: the request ends at one that existed and changes nothing, or a new one with the fresh ID and token and no flags is appended; all others keep their identity |
| Requests.EveryTunnelServedIff | internal/council/routes.go:319-374 | an uninterrupted ling request whose reported services are registered is accepted within a number of segments known beforehand, every service it reports is then ling-ready, and it leaves every one of its tunnels with a service if and only if none is new behind one that was registered or that the request repeats |
| Requests.LingHeartbeatIsQuiet | internal/council/routes.go:376-427 | a ling request without news is accepted in one segment that changes heartbeats only |
| KingRequests.KingRequestTakesEffect | internal/council/routes.go:157-251 | an uninterrupted king request whose reported services are registered is accepted within a number of segments known beforehand; every one of its tunnels then has exactly one king with its ports and host, carrying the request's certificate, one heartbeat, the time at which the handler read the clock, and the request's shutting-down flag if it was known; no other king changes; each service it reports is king-ready, or a provisioning run took it off a king that was shutting down |
| KingRequests.HeartbeatIsQuiet | internal/council/routes.go:228-251 | a king request without news is accepted and changes heartbeats only |
| Scenarios.StopsAtFirst | internal/council/routes.go:418-427 | a reachable state and an accepted request one of whose tunnels gets no service |
| Effects.LingRegistered | internal/council/routes.go:376-404 | after any step of a ling's tunnel the ling is known with the request's time and shutting-down flag; no other ling changes |
| Provisioner.ProvisionServiceChooses | internal/council/provisioner.go:87-121 | a placement takes the least free port of the first offering king at the preferred location, else of the first offering king, and raises the revision by one; with no offering king nothing changes |
| Provisioner.SelectedIsFirst | internal/council/provisioner.go:95-107 | the selected king is the first such king in registration order |
| Provisioner.KingPortsFree | internal/council/provisioner.go:39-66 | the listed ports are exactly the free ones of the range, the first is the least |
| Placement.ProvisionKeeps | internal/council/provisioner.go:125-133 | provisioning leaves kings and lings alone, never moves a service whose address has no shutting-down king, and keeps ports exclusive, hosted and in range |
| Placement.ProvisionMaximal | internal/council/provisioner.go:125-133 | the number newly placed is exactly the minimum of unplaced services and free (host, bindPort, port) slots, the revision rises by it, and a service stays unplaced only when no slot is left |
| Placement.ProvisionIdempotent | internal/council/provisioner.go:125-160 | for given kings, provisioning twice is the same as once for whatever services, the revision included, if and only if no address is shared by a king that is shutting down and a running king with a range |
| Registry.IdempotentAmongRegistered | internal/council/provisioner.go:125-160 | the same over the states that keep the registry invariant and ling integrity, for kings with distinct (ports, host) |
| Scenarios.SecondRunDiffers | internal/council/provisioner.go:125-160 | a run of the council to a state, left by a provisioning run, in which one more run counts a change |
| Placement.SecondRunChanges | internal/council/provisioner.go:135-160 | for given services too: a second run is the identity if and only if the first left no service at a shutting-down king's address |
| Placement.ProvisionReady | internal/council/provisioner.go:135-160 | king readiness is withdrawn from exactly the services at a shutting-down king and granted to none |
| Placement.PlacementKeepsTidy | internal/council/provisioner.go:68-83 | placing a service at an unused port keeps (host, bindPort, remotePort) exclusive |
| Cleaner.CleanRevision | internal/council/cleaner.go:38-63 | a pass is the identity or raises the revision by one; it is the identity exactly when nothing is stale or orphaned |
| Cleaner.CleanFixpoint | internal/council/cleaner.go:38-63 | a second pass for the same time changes nothing |
| Cleaner.CleanRestores | internal/council/cleaner.go:107-149 | after a pass from any state every placed service has its king and every service its ling |
| Cleaner.CleanKeeps | internal/council/cleaner.go:65-149 | a pass keeps exclusivity, uniqueness, ranges and liveness, and adds no service |
| Cleaner.PassKeeps | internal/council/cleaner.go:12-63 | a pass at a given time keeps, in order, exactly the kings and lings heard of less than ten seconds before, and exactly the services that have such a ling and, if placed, such a king |
| Cleaner.CompactInPlace | internal/council/cleaner.go:65-84 | the loop that reads and writes one array leaves the order-preserving filter in front and every cell behind it untouched |
| CouncilServer.Council.constructor | internal/council/council.go:82-87 | the initial state |
| CouncilServer.Council.FindService | internal/council/routes.go:452-463 | the first service with the ID, or none |
| CouncilServer.Council.FindServiceByNameAndLing | internal/council/routes.go:466-478 | the first service with the name and ling, or none |
| CouncilServer.Council.FindKing | internal/council/routes.go:481-493 | the first king with the ports and host, or none |
| CouncilServer.Council.FindLing | internal/council/routes.go:496-507 | the first ling with the ID, or none |
| CouncilServer.Council.CollectUsedPorts | internal/council/provisioner.go:68-83 | the keys are exactly the remote ports in use at the king's address |
| CouncilServer.Council.ParseKingPorts | internal/council/provisioner.go:39-66 | the loop's ports are the king's free ports in ascending order, none if the range does not parse |
| CouncilServer.Council.AvailableKingPorts | internal/council/provisioner.go:20-37 | the kings that offer, in order, each with its free ports |
| CouncilServer.Council.ProvisionService | internal/council/provisioner.go:87-121 | the whole new state is the one that the placement rule is proved about |
| CouncilServer.Council.DeprovisionFromShuttingDownKings | internal/council/provisioner.go:135-160 | exactly the services at a shutting-down king are cleared |
| CouncilServer.Council.Provision | internal/council/provisioner.go:125-133 | the whole new state is that of the run proved maximal and stable |
| CouncilServer.Council.ProcessKingReadyServices | internal/council/routes.go:157-190 | state and continuation of the segment, up to the broadcast, the refusal, or the end of the list |
| CouncilServer.Council.ProcessKingTunnels | internal/council/routes.go:192-251 | state and continuation of the segment through any number of heartbeats |
| CouncilServer.Council.ProcessLingReadyServices | internal/council/routes.go:319-352 | state and continuation of the segment |
| CouncilServer.Council.ProcessLingTunnel | internal/council/routes.go:376-449 | state and continuation of one tunnel's step |
| CouncilServer.Council.EnsureService | internal/council/routes.go:420-446 | state and continuation of the lookup and append |
| CouncilServer.Council.Resume | internal/council/routes.go:96-143 | a handler that holds the mutex computes exactly one segment of the transition system |
| CouncilServer.Council.HasLing | internal/council/cleaner.go:164-172 | whether the ling is registered |
| CouncilServer.Council.HasKingForService | internal/council/cleaner.go:151-162 | whether some king is at the service's address |
| CouncilServer.Council.CleanStaleKings | internal/council/cleaner.go:65-84 | exactly the fresh kings remain, in order; the flag says whether any went |
| CouncilServer.Council.CleanStaleLings | internal/council/cleaner.go:86-105 | exactly the fresh lings remain, in order; the flag says whether any went |
| CouncilServer.Council.CleanOrphanedServices | internal/council/cleaner.go:107-149 | exactly the services with a ling and, if placed, a king remain, in order |
| CouncilServer.Council.RunCleaner | internal/council/cleaner.go:38-63 | the whole new state is that of the pass proved a fixpoint |
| WatcherCache.Watcher.Store | internal/state/watcher.go:151-156 | under the mutex, the cache is replaced exactly when there is none or the revision differs, and the new state is then to be handed on |
| WatcherCache.Watcher.HandOn | internal/state/watcher.go:155-156 | the peer acts on the snapshot handed on; the cache is not touched |
| WatcherCache.Watcher.DoFetchState | internal/state/watcher.go:110-162 | a call that no other comes in between does both or neither |
| WatcherCache.CacheAgrees | internal/state/watcher.go:151-161 | in a run whose changes are all counted, with responses in any order, the cache holds the council's state at the last successful fetch, heartbeats aside |
| WatcherCache.CurrentAgreesIff | internal/state/watcher.go:151-161 | for any schedule of stores and hand-ons with nothing pending, the snapshot handed on last is the council's state at the last successful fetch, heartbeats aside, if and only if its revision is the cached one |
| WatcherCache.LastHandOnDecides | internal/state/watcher.go:153-156 | with responses in order, if and only if the snapshot stored last was handed on last |
| WatcherCache.OneCallAgrees | internal/state/watcher.go:110-162 | calls that do not overlap get there whenever none is going on |
| Scenarios.HandsOnCrosswise | internal/state/watcher.go:153-156 | a run and two overlapping calls, with responses in order, after which the peer acts on the older state and the newer one is dropped from then on |
| Reactions.SkippingLosesNothing | internal/state/watcher.go:151-161 | once the snapshot stored last has been handed on last, every reaction of a king or ling to it equals its reaction to the council's state at the last successful fetch |
| WatcherCache.GoesBackIff | internal/state/watcher.go:151-161 | the cached revision never falls, at any prefix of the fetches, if and only if the fetched revisions never fall |
| WatcherCache.InOrderNeverGoesBack | internal/state/watcher.go:151-161 | responses in the order of the states they bring never make the cache go back, in any run |
| Reactions.HandedFromRun | internal/state/watcher.go:153-156 | every snapshot handed on is a state the council was in |
| WatcherCache.CacheIsFetched | internal/state/watcher.go:151-161 | the cached state is one of the fetched ones |
| Scenarios.CacheGoesBack | internal/state/watcher.go:151-161 | a run of the council and two fetches after which the cache holds the older state |
| Pointers.CleanCommutesIff | internal/council/cleaner.go:65-84 | a pass keeps pointers in step with values if and only if it shifts no cell that a service with a ling points at |
| Pointers.CleanCommutes | internal/council/cleaner.go:107-149 | a pass by pointer that shifts no such cell shows exactly the cleaner pass by value: kings, lings, surviving services with their addresses, and revision |
| Pointers.ShiftedDiverges | internal/council/cleaner.go:74-83 | a pass that shifts the cell of a service with a ling leaves it at a spare cell or reading another king |
| PointerCouncil.SegmentShows | internal/council/routes.go:157-449 | a locked segment that appends, edits, places and clears by pointer shows exactly the segment by value, however the arrays grow |
| PointerCouncil.ProvisionServiceShows | internal/council/provisioner.go:109-111 | pointing a service at the selected king's cell shows exactly the placement by value |
| PointerCouncil.EditShows | internal/council/routes.go:211-250 | appends in place or reallocating, edits in place and the late heartbeat write show exactly the edit by value |
| Pointers.SuffixShiftsNothing | internal/council/cleaner.go:65-84 | removing a suffix shifts no cell |
| PointerCouncil.PointerRunShowsValueRun | internal/council/cleaner.go:65-84 | while addresses are unique at passes, a run of the whole council by pointer shows a run by value, step by step, if and only if no pass shifts a cell that a service with a ling points at |
| PointerCouncil.SuffixRunShows | internal/council/provisioner.go:109-111 | with stale suffixes at every pass it shows a run of the transition system, so all theorems about those hold of what the pointers read |
| PointerScenario.ServiceChangesHost | internal/council/cleaner.go:65-84 | a run of the council by pointer after whose pass a service reads another king's address, with a port out of that king's range |
| KingTunnelServer.ConnectionIsLatest | internal/king/tunnel.go:270-304 | over any history a service maps to a connection exactly when that connection was the latest to register it and has not unregistered it |
| KingTunnelServer.DrainNeverLosesWakeup | internal/king/tunnel.go:283-324 | in every interleaving, a blocked waiter whose map is empty has its token in the channel or an unregister still has its send to do |
| KingTunnelServer.DrainedIff | internal/king/tunnel.go:306-324 | in every interleaving a drain is over exactly when it was cancelled or the waiter has looked at an empty map; a look at a map with connections leaves it blocked, and only a token or a cancellation ends that |
| KingTunnelServer.WakeupsAccounted | internal/king/tunnel.go:283-324 | in every interleaving, each removal that emptied the map woke the waiter once, is the token in the channel, has its send still to do, or found the channel full, and nothing else woke it |
| KingTunnelServer.DrainCompletes | internal/king/tunnel.go:306-324 | from there at most a send, a receive and a check finish the drain |
| KingTunnelServer.TunnelServer.AuthenticateMessages | internal/king/tunnel.go:234-268 | accepted exactly when every message names a known service with its token; then all IDs in order, else none |
| KingTunnelServer.TunnelServer.RegisterConnections | internal/king/tunnel.go:270-281 | the map after a registration event |
| KingTunnelServer.TunnelServer.DeleteConnections | internal/king/tunnel.go:283-299 | the map after a removal event, and whether it is empty |
| KingTunnelServer.TunnelServer.SignalDrain | internal/king/tunnel.go:299-303 | the slot holds a token if it did before or the map was seen empty |
| KingTunnelServer.TunnelServer.LookDrained | internal/king/tunnel.go:306-316 | the waiter is done exactly when no service has a connection, and otherwise blocks |
| KingTunnelServer.TunnelServer.UpdateServices | internal/king/tunnel.go:78-85 | the tokens are replaced |
| KingReaction.DesiredPortsBijective | internal/king/king.go:456-485 | on any reachable snapshot the desired ports and the accepted services are in one-to-one correspondence, service by service as assigned |
| KingReaction.TunnelServices | internal/king/king.go:456-497 | on any reachable snapshot a tunnel accepts an ID if and only if a service with it is placed at this bind port and host and no registered ling of the service is shutting down, with that service's token; it wants exactly the ports of those services, each for its own |
| KingReaction.TokenOfAssigned | internal/king/king.go:456-485 | every accepted token is that of a service assigned to this tunnel |
| KingReaction.FilterServicesForTunnel | internal/king/king.go:456-485 | the loop builds the two maps that the correspondence is proved about |
| KingReaction.OnStateChanged | internal/king/king.go:436-454 | every configured tunnel gets its new tokens and its new listeners, by port and by served service; no connection is touched |
| KingReaction.UpdateTunnel | internal/king/king.go:444-452 | the same for one tunnel |
| KingReaction.EnsureDesiredListeners | internal/king/king.go:499-507 | listeners are added for exactly the missing desired ports that can be listened on; none is replaced |
| KingReaction.RemoveStaleListeners | internal/king/king.go:509-528 | exactly the listeners on undesired ports go |
| KingReaction.ReconciledServes | internal/king/tunnel.go:326-373 | if every missing port can be listened on, the listener ports equal the desired ports, and each serves its desired service exactly when no listening port changed owner |
| KingReaction.ListenersFollow | internal/king/tunnel.go:326-408 | through any sequence of desired ports listeners serve the desired services throughout exactly when no port passes directly between services |
| Reactions.ListenersFollowCouncil | internal/king/king.go:436-528 | the same along a run of the council, for the snapshots in the order in which they are handed on and reactions in turn: exactly when no port is one assigned service's in one and another's in the next |
| KingReaction.PortOpenIff | internal/king/tunnel.go:326-408 | for reactions that interleave in any way, a port is listened on exactly when some step opened it and no later one shut it |
| KingReaction.ListeningIff | internal/king/tunnel.go:333-337 | and it serves the service of the first opening since it was last shut |
| KingReaction.OverlapShutsBoth | internal/king/king.go:499-528 | two overlapping reactions after which nothing is listened on |
| Scenarios.HandoverHappens | internal/king/tunnel.go:333-337 | a run and two calls that do not overlap after which a listener serves a service that is gone |
| KingReaction.IsServiceReady | internal/king/king.go:368-433 | ready exactly when placed on one of the host's tunnels, with an active ling and an open connection |
| KingReaction.ComputeReadyServiceIDs | internal/king/king.go:348-366 | the IDs of the ready services, in snapshot order |
| KingReaction.ReadyIDIs | internal/king/king.go:348-433 | an ID is reported if and only if some service with it sits at the king's host and at one of its bind ports, a ling entry of its ling is running, and the ID is among the connections of that bind port's server |
| KingReaction.ReadyIDsAre | internal/king/king.go:348-366 | once per such service, in snapshot order, and nothing else |
| KingReaction.KingIgnoresBeats | internal/king/king.go:456-497 | all of a king's reactions agree on snapshots that differ in heartbeats only |
| LingReaction.GroupsPartition | internal/ling/ling.go:478-525 | each eligible service is in exactly one group, its own address's, under the certificate of a healthy king there, the only one if addresses are unique; no group is empty; local addresses cover exactly the eligible IDs |
| LingReaction.TunnelsAre | internal/ling/ling.go:478-525 | an address has a group if and only if some service of this ling, with a tunnel of that name, is placed there and the king there is not shutting down; the group lists those services in snapshot order with their own IDs, tokens and local addresses; local addresses exist for exactly the IDs of such services |
| LingReaction.BuildTunnelGroups | internal/ling/ling.go:478-525 | the loop's groups hold, per address key, the eligible services in snapshot order |
| LingReaction.BuildKingIndex | internal/ling/ling.go:463-476 | the loop builds the index that the next row is about |
| LingReaction.IndexFindsKing | internal/ling/ling.go:463-476 | a look-up by address key finds exactly the last king registered at that host and port |
| LingReaction.KingAtLast | internal/ling/ling.go:463-476 | that king is the entry with this host and port behind which there is none |
| LingReaction.ComputeReadyServiceIDs | internal/ling/ling.go:408-431 | the loop's list of reported IDs, in snapshot order |
| LingReaction.ReportedAre | internal/ling/ling.go:408-431 | an ID is reported exactly when one of the ling's own services with a tunnel has it and the snapshot shows it king-ready |
| LingReaction.LingReadyIDsAre | internal/ling/ling.go:408-431 | once per such service, in snapshot order, and nothing else |
| LingReaction.CollectProxyTargets | internal/ling/ling.go:596-631 | the targets at the preferred location if there are any, else all, in snapshot order |
| LingReaction.TargetsAre | internal/ling/ling.go:572-631 | the targets are exactly the placed services of the name that both sides reported ready and whose king, by host and port, is registered, running and at the location asked for |
| LingReaction.TargetsInOrder | internal/ling/ling.go:596-631 | once per such service, in snapshot order, and nothing else |
| LingReaction.LingIgnoresBeats | internal/ling/ling.go:463-476 | the king index, on which all of a ling's reactions depend, ignores heartbeats |
| LingProxy.TCPProxy.constructor | internal/ling/proxy.go:47-60 | one open channel and no targets |
| LingProxy.TCPProxy.UpdateTargets | internal/ling/proxy.go:70-90 | the current channel is closed exactly when there are targets, every earlier one stays closed, and no closed channel is closed again |
| LingProxy.TCPProxy.Look | internal/ling/proxy.go:222-225 | the targets, and a channel that, without targets and before close, is open |
| LingProxy.TCPProxy.Pick | internal/ling/proxy.go:227-231 | of the targets seen, the one in turn, and a counter one higher modulo 2^64, whatever the targets are by now |
| LingProxy.TCPProxy.CloseProxy | internal/ling/proxy.go:242-270 | the first call leaves no channel open, stops listening, and closes and forgets every tracked connection; later ones do nothing, and none closes a closed channel |
| LingProxy.TCPProxy.NoWaiterStuck | internal/ling/proxy.go:218-240 | every channel ever handed to a waiter is closed while there are targets |
| LingProxy.RoundRobinFair | internal/ling/proxy.go:227-231 | m consecutive picks from n targets take each position floor(m/n) or ceil(m/n) times if the counter does not wrap on the way or n divides 2^64 |
| LingProxy.FairAcrossWrap | internal/ling/proxy.go:227-231 | selection is fair from every counter value over every number of picks if and only if n divides 2^64 |
| LingProxy.WrapUnfair | internal/ling/proxy.go:227-231 | otherwise a window around the wrap takes one position twice |
| ServiceFrame.WriteServiceIDHeader | internal/king/tunnel.go:477-508 | an ID over 65535 bytes is refused before anything is written; otherwise as much of its frame as the stream takes has been sent |
| ServiceFrame.ReadServiceID | internal/ling/tunnel.go:253-270 | the ID that decoding finds, with exactly its frame consumed, or nothing |
| ServiceFrame.DecodeInvertsFrame | internal/ling/tunnel.go:253-270 | bytes decode to an ID and a rest if and only if they are its frame followed by the rest |
| ServiceFrame.CutFrameNeverDecodes | internal/king/tunnel.go:477-508 | no strict prefix of a frame decodes |
| Text.RangeRoundTrip | internal/council/provisioner.go:39-66 | a range written in decimal parses back to itself exactly when its lower bound is not negative |
| Text.ParseRangeIff | internal/council/provisioner.go:39-53 | text is a range if and only if what is before its first dash and all that is behind it both read as integers |
| Text.PortLoopEndsIff | internal/council/provisioner.go:59-63 | the loop over a range of 64-bit bounds ends if and only if the upper bound is below the largest integer, and then counts up to one past it |
| Text.AtoiItoa | internal/council/provisioner.go:45-53 | a 64-bit integer survives printing and parsing, and no other does |
| Text.AtoiIff | internal/council/provisioner.go:45-53 | text reads as an integer if and only if it is one or more decimal digits, perhaps behind one sign, whose value fits in 64 bits |
| Text.AddressInjective | internal/ling/ling.go:463-476 | distinct (host, port) pairs have distinct address keys, bracketed hosts included |

## Left out

- LingProxy.TCPProxy.TryTarget: is one turn of the wait loop; blocking, waking and the deadline are not modelled.
- LingProxy.TCPProxy.TrackUpstream: taking a connection off the list again is left out.
- CouncilServer.Council.ParseKingPorts: describes the loop for ranges on which it ends, and counts on where the
  source's would not; `Text.PortLoopEndsIff` says which.
- CouncilServer.Council.CleanStaleKings: copies the slice to an array, compacts that in place and reads the slice
  back; what sharing the array does to services is in `Pointers` and `PointerCouncil`.
- Requests.EveryTunnelServedIff: is about a handler that is not interrupted; what other handlers do in between is in
  `Runs`.
- KingRequests.KingRequestTakesEffect: is about a handler that is not interrupted and whose late heartbeat write finds
  its king; the registrations of one step, whatever comes in between, are in `Effects.KingRegistered`.
- MeshProgress.HandshakeCanComplete: shows that a way to readiness is always open; that peers take it is up to their
  timers.
- PointerCouncil.EditShows: takes what a handler decides from the state its pointers show, and models where it
  writes; host and bind port of a service are one pointer to a king's cell.
- KingReaction.EnsureDesiredListeners: whether listening on a port succeeds is an input set, so a failure's log line
  and retry are not modelled.
- CouncilServer.Council.Resume: runs one segment; the interleaving of segments at the broadcasts is the transition
  system of `Runs`.
- KingTunnelServer.DrainCompletes: shows that an end is always reachable; that the send, receive and check are
  eventually scheduled is up to the runtime.
- HTTP, JSON, websockets, QUIC, TLS, certificates and copying bytes between connections: input and output.
- Argument parsing, logging, the debug requester and the process entry points.
- Random tokens and UUIDs: inputs, with the fresh-ID assumption.
- Timers, retry delays, deadlines and context cancellation: time is an input of the cleaner, and cancelling a drain
  is a step.
- `TunnelServer.close`, `openServiceStream` and the ling's map of open connections: shutdown and dialling, with easy
  claims only.
- Council restart: every property of the revision is per council lifetime.
