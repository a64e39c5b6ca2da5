# Verification model of kubeUI's stateful core

kubeUI is a multi-cluster Kubernetes console: a Go backend that keeps one runtime per cluster, an
agent tunnel for clusters it cannot reach, and a browser client on one WebSocket. This project models
the parts of it whose correctness depends on more than one function, in Dafny 4.11, and proves what
they keep. `dafny verify dfyconfig.toml` checks everything.

| files | what they model |
|---|---|
| `watch_keys`, `informer_pool`, `pool_agreement`, `watch_hub`, `watch_runs` | the watch fan-out: the hub's two indexes over the reference-counted informer pools, with the reaper's clock, rollback of a failed watch and delivery of events |
| `ws_manager`, `watch_end_to_end`, `watch_delivery` | the browser's subscription manager, alone and joined to the hub by the frames on its connection, in both directions |
| `tunnel_registry`, `tunnel_protocol`, `tunnel_isolation`, `tunnel_delivery`, `stale_sessions`, `byte_stream` | the agent hub's lock sections, the tunnel protocol as a transition system over all interleavings of them, whom a dial reaches and what it gets, which entries are dead, and the byte stream on top |
| `string_order`, `rbac_model`, `rbac_meaning`, `rbac_invariant`, `rbac_service`, `rbac_requests` | RBAC tables, cascading deletes and permission resolution against a derivation relation |
| `backoff`, `health` | the health loop and the two reconnect backoffs against closed forms of the probe history |
| `refresh_tokens`, `kubeconfig_issue` | login sessions with refresh rotation; one-time kubeconfig downloads against a store that never cleans up |
| `list_order`, `list_page` | keyword filter, in-place stable sort and paging on 64-bit integers |

Every mutex-protected section is one atomic step. Code that updates fields is a class whose methods are
proved against functions of the old state; the properties are proved about those functions. Ghost fields
(`rel`, `owner`, `lastOp`, `taken`, `claimed`, `history`, `log`, `root`, `ideal`, `past`) record what happened, so that an
invariant can speak about whole runs. Times are integers that callers pass in; secrets, hashes and random
codes are numbers drawn once.

## What the code does differently from what it says

- `watchID` joins free text with bars, so two keys can share an id (`WatchKeys.WatchIdsCollide`). It does no harm: within a pool entry the id is unique (`WatchKeys.WatchIdIdentifiesWithinEntry`).
- The hub unwatches after it releases its lock. A subscriber that comes in between loses its handler (`PoolAgreement.LateUnwatchLosesHandler`); with atomic calls it cannot happen.
- It also watches after it releases its lock. A second subscriber that comes in before the watch of the first fails is accepted and keeps a key nobody serves (`WatchRuns.FailedWatchStrandsSecond`).
- A page that is subscribed to a resource both for all namespaces and for one gets each event of that namespace twice, and calls each handler of either subscription twice (`WatchDelivery.CallsPerEvent` states exactly when it is once).
- A replaced runtime starts an empty pool and watches nothing again; that is harmless exactly when no ordinary key of the cluster is subscribed (`PoolAgreement.FreshPoolServes`).
- `WatchHub.Stop` empties `subs` but not `conns` (`WatchHubs.WatchHub.Stop` states when the two still agree).
- The hub keeps one clusters filter per connection, while the browser can subscribe to several (`WatchEndToEnd.ClusterFilterIsOverwritten`), and unsubscribing one of them drops the filter of another; `WatchEndToEnd.FilterAgreesIff` states exactly when the filter still agrees.
- The browser's subscription key also joins free text with bars, so one subscription can swallow another (`WsManagers.TopicKeysCollide`). It takes two clusters of which one name is the other followed by a bar, and a namespace that ends in or holds a bar, which Kubernetes does not allow (`WsManagers.TopicKeysCollideIff`, `WsManagers.TopicKeyIdentifiesByNamespace`).
- A comment in `ws.ts` says a cancel function only removes its own handler. Called a second time it unsubscribes whatever now holds its key (`WsManagers.StaleCancelDropsSubscription`; `WsManagers.WsManager.Cancel` states exactly when).
- `close()` on a connecting socket never resets `connecting`, so the manager does not connect again (`WsManagers.CloseWhileConnectingSticks`; `Cancel` and `Close` state that this is the only way).
- `register` drops its lock while it closes the old session, so two agents can stay open at once (`TunnelProtocol.SplitRegisterLeavesTwoOpen`, `TunnelProtocol.InstallKeepsOneOpen`).
- `SessionOf` promises nothing while the agent is offline. A registration that fails after the session was installed closes it and leaves it in the map, and dials go on taking pipes under its key (`StaleSessions.FailedRegistrationStays`). With `register` and `Close` as single steps the closed entries are exactly those closed on their own account (`StaleSessions.StaleEntriesIff`), and one goes by its own exit, a takeover or a shutdown (`StaleSessions.StaleEntryGoes`).
- The mapper reset, which the comment ties to a recovery from reconnecting, happens on every success after the first recorded status.
- The backoff cap applies only after the first doubling (`Backoff.ClosedForm`).
- `DeleteUser` leaves the user's grants and memberships in place. References stay intact exactly when nothing names the user (`RbacModel.DeleteUserKeepsRefsIff`); otherwise every listing of grants that selects one of them fails (`RbacService.DeleteUserBreaksListing`, `RbacService.DeletedViewer`; `RbacService.RoleService.ListGrants` states exactly when). No permission is lost or gained by it (`RbacModel.DeleteUserKeepsPermissions`), and since ids are not given twice a new user inherits nothing (`RbacService.RoleService.CreateUser`).
- `AllPermissionPoints` is said to return every permission point, but leaves out clusters:write, so no role can be given it (`RbacRequests.PermissionPoints`).
- Cleanup of issued kubeconfigs shows in the answer of a revocation, and in the error code of a late download (`KubeconfigStore.CleanupSeenByRevoke`, `KubeconfigStore.CleanupHiddenFromDownload`).
- `Parse` bounds the page size but not the page, so `(page-1)*size` can wrap; `ListPage.Page` states exactly when the page is still right, `ListPage.WrappedPage` shows a page far past the end that repeats the first items, `ListPage.PanickingPage` one that panics.

## Model

| member | source | states |
|---|---|---|
| `WatchKeys.EntryKeyInjective` | backend/internal/k8s/informer.go:79-82 | pool entries of different resources or namespaces never share a key, whatever the namespace text |
| `WatchKeys.WatchIdsCollide` | backend/internal/service/watchhub.go:415-417 | two different ordinary keys can have the same handler id |
| `WatchKeys.WatchIdIdentifiesWithinEntry` | backend/internal/service/watchhub.go:415-417 | keys of one cluster that share a pool entry and a handler id are equal |
| `WatchKeys.GvrResourceInjective` | backend/internal/k8s/runtime.go:26-43 | the resource table maps no two watchable names to one resource, although crds is renamed |
| `InformerPools.InformerPool.Watch` | backend/internal/k8s/informer.go:85-119 | refused exactly when closed; else the entry exists, holds the handler and its idle clock is the time of the call; stop channels stay open for exactly the entries |
| `InformerPools.InformerPool.Unwatch` | backend/internal/k8s/informer.go:122-133 | removes one handler, restarts the idle clock only of an entry left idle, closes no stop channel |
| `InformerPools.InformerPool.EnsureEventInformer` | backend/internal/k8s/informer.go:136-166 | the events entry becomes resident, keeping the handlers and stop channel of a lazily started one |
| `InformerPools.InformerPool.Tick` | backend/internal/k8s/informer.go:186-213 | removes exactly the entries without handlers, not resident, whose last watch or unwatch is at least the TTL ago, and closes exactly their stop channels |
| `InformerPools.InformerPool.StopInformer` | backend/internal/k8s/informer.go:197-211 | closes one open stop channel together with its entry, so none is closed twice |
| `InformerPools.InformerPool.Stop` | backend/internal/k8s/informer.go:169-183 | every stop channel is closed and the pool is empty and refuses watches, also on a second call |
| `PoolAgreement.WatchServes` | backend/internal/k8s/informer.go:85-119 | a watch for a hub key keeps handlers and keys in one-to-one agreement |
| `PoolAgreement.UnwatchServes` | backend/internal/k8s/informer.go:122-133 | an unwatch removes the handler of its key and no other key's |
| `PoolAgreement.UnwatchServesIff` | backend/internal/k8s/informer.go:122-133 | an unwatch leaves pool and keys in agreement if and only if its key is not subscribed any more |
| `PoolAgreement.ReapServes` | backend/internal/k8s/informer.go:186-213 | the reaper takes no handler from any subscribed key |
| `PoolAgreement.HandlerCount` | backend/internal/k8s/informer.go:39-51 | the handler count of an entry is the number of hub keys mapped to it |
| `PoolAgreement.FreshPoolServes` | backend/internal/k8s/manager.go:152-159 | an empty replacement pool agrees with the hub if and only if no ordinary key of the cluster is subscribed |
| `PoolAgreement.LateUnwatchLosesHandler` | backend/internal/service/watchhub.go:199-210 | watch then late unwatch of a key that is subscribed again always breaks agreement; the other order keeps it |
| `WatchHubs.WatchHub.Subscribe` | backend/internal/service/watchhub.go:112-175 | the error and the subscribed pairs are SubscribeOutcome's, with rollback of a failed watch; both indexes and every pool agree afterwards |
| `WatchHubs.WatchHub.SubscribePodLogs` | backend/internal/service/watchhub.go:351-365 | a log key takes one subscriber and one follower; a second subscription is refused and changes nothing |
| `WatchHubs.WatchHub.StartWatch` | backend/internal/service/watchhub.go:159-173 | fails exactly on a closed pool, and then the new pair is gone from both indexes |
| `WatchHubs.WatchHub.Unsubscribe` | backend/internal/service/watchhub.go:178-212 | removes exactly one pair, and the handler when it was the key's last; unknown pairs change nothing |
| `WatchHubs.WatchHub.RemoveConn` | backend/internal/service/watchhub.go:215-252 | the connection is in no map, every other connection keeps its keys, and handlers only it needed are released |
| `WatchHubs.WatchHub.AddPair` | backend/internal/service/watchhub.go:148-156 | a subscription enters both indexes at once and they stay inverses of each other |
| `WatchHubs.WatchHub.DropPair` | backend/internal/service/watchhub.go:187-204 | a subscription leaves both indexes, no key keeps an empty connection set, and the caller learns whether it was the key's last; a log follower is cancelled with its key |
| `WatchHubs.WatchHub.ReaperTick` | backend/internal/k8s/informer.go:186-213 | a reaper pass changes no subscription and keeps pools and hub in agreement |
| `WatchHubs.WatchHub.EnsureEvents` | backend/internal/k8s/manager.go:277-281 | a resident event informer changes no subscription and keeps pools and hub in agreement |
| `WatchHubs.WatchHub.StopPool` | backend/internal/k8s/runtime.go:117-122 | stopping one runtime's pool under a live hub leaves every subscription and every other pool as they were |
| `WatchHubs.WatchHub.Deliver` | backend/internal/service/watchhub.go:255-278 | exactly one frame to each subscriber of the key, none to others |
| `WatchHubs.WatchHub.Dispatch` | backend/internal/k8s/informer.go:233-255 | an event of an entry sends exactly one frame for each pair subscribed through that entry and none to anyone else |
| `WatchHubs.WatchHub.Stop` | backend/internal/service/watchhub.go:92-103 | every log follower is cancelled and subs is empty, which agrees with conns if and only if nothing but audit streams was subscribed |
| `WatchRuns.Drive` | backend/internal/service/watchhub.go:112-252 | any run of subscribes, unsubscribes, lost connections, reaper passes, event informers and stopping pools keeps the hub and its pools consistent and ends with the pairs, filters and audit streams Run computes |
| `WatchRuns.SubscribedIff` | backend/internal/service/watchhub.go:112-252 | after any run a pair is subscribed if and only if some accepted subscribe of it was not ended later |
| `WatchRuns.OutcomeMeans` | backend/internal/service/watchhub.go:112-175 | when a subscribe of each kind is accepted, what it leaves subscribed, and that no other pair changes |
| `WatchRuns.FailedWatchStrandsSecond` | backend/internal/service/watchhub.go:157-173 | a second subscriber between the unlock and a failed watch keeps a key without a handler; one call after the other both are refused |
| `WsManagers.TopicKeysCollide` | frontend/src/api/ws.ts:208-208 | two different subscriptions can have the same key in the browser |
| `WsManagers.TopicKeyIdentifies` | frontend/src/api/ws.ts:208-208 | keys determine the subscription as long as cluster and resource names hold no bar |
| `WsManagers.TopicKeyIdentifiesByNamespace` | frontend/src/api/ws.ts:208-208 | and as long as namespace and resource names hold no bar, whatever the cluster names hold |
| `WsManagers.TopicKeysCollideIff` | frontend/src/api/ws.ts:208-208 | two clusters can share a key if and only if the resources are the same and one name is the other followed by a bar and more |
| `WsManagers.WsManager.Connect` | frontend/src/api/ws.ts:141-151 | opens one socket unless one exists or is being opened |
| `WsManagers.WsManager.Announce` | frontend/src/api/ws.ts:94-112 | whether the frame of a new subscription is sent now or dropped until the replay, the wire of an open socket equals subs |
| `WsManagers.WsManager.Reconnect` | frontend/src/api/ws.ts:128-139 | the timer opens a new socket unless the manager is stuck |
| `WsManagers.WsManager.OnOpen` | frontend/src/api/ws.ts:152-160 | after the replay the frames sent on the new socket amount to the current subscriptions; a socket given up meanwhile closes unused |
| `WsManagers.WsManager.Replay` | frontend/src/api/ws.ts:157-159 | replaying in any order makes the net effect of the frames the key set of subs |
| `WsManagers.WsManager.OnClose` | frontend/src/api/ws.ts:162-173 | a lost socket leaves the subscriptions alone and a reconnect timer running if there are any |
| `WsManagers.WsManager.ScheduleReconnect` | frontend/src/api/ws.ts:128-139 | one timer at most, started only when something is subscribed, with a delay in the upper half of min(30s, 1s*2^n) after n timers since a socket last opened |
| `WsManagers.WsManager.Subscribe` | frontend/src/api/ws.ts:203-238 | a shared key adds a handler and sends nothing; a new key is sent or waits for the replay, and the open wire equals subs again |
| `WsManagers.WsManager.OnMessage` | frontend/src/api/ws.ts:176-195 | an event frame calls every handler of every current matching subscription once and no other |
| `WsManagers.WsManager.Cancel` | frontend/src/api/ws.ts:227-238 | other subscriptions are spared unless the object is stale; gets stuck exactly on the last subscription of a connecting socket |
| `WsManagers.WsManager.Unsubscribe` | frontend/src/api/ws.ts:241-259 | removes one key from subs and from the wire, closes with the last |
| `WsManagers.WsManager.Close` | frontend/src/api/ws.ts:261-288 | no socket, timer or heartbeat is left; stuck afterwards exactly if the socket was connecting |
| `WsManagers.StaleCancelDropsSubscription` | frontend/src/api/ws.ts:227-238 | from any state, a second call of one cancel function drops another component's subscription |
| `WsManagers.CloseWhileConnectingSticks` | frontend/src/api/ws.ts:273-282 | cancelling the only subscription before the socket opens leaves a manager with a subscription that never connects |
| `WatchEndToEnd.HubFollowsWire` | backend/internal/service/watchhub.go:112-212 | for any frames and however others interleave, the hub holds no pair of the connection its frames do not ask for, and every asked-for topic it takes unless the pool stopped on the way |
| `WatchEndToEnd.BrowserMatchesHub` | frontend/src/api/ws.ts:94-112 | with the wire drained, the hub serves exactly the browser's current subscriptions that it takes at all |
| `WatchDelivery.Deliveries` | backend/internal/service/watchhub.go:255-278 | an event reported by the informers of all namespaces and of its own calls a matching handler once per subscribed key of the connection, and no other handler |
| `WatchDelivery.CallsPerEvent` | frontend/src/api/ws.ts:176-195 | with the wire drained that is once per current topic that receives the event: exactly once if and only if the resource is not subscribed both for all namespaces and the event's own |
| `WatchEndToEnd.FilterFollowsWire` | backend/internal/service/watchhub.go:121-126 | the hub's cluster filter for a connection is a function of the connection's own frames |
| `WatchEndToEnd.FilterAgreesIff` | backend/internal/service/watchhub.go:178-186 | after a clusters subscribe the filter agrees with the browser if and only if no topic of another cluster was in effect; after an unsubscribe if and only if no other clusters topic was |
| `WatchEndToEnd.ClusterFilterIsOverwritten` | backend/internal/service/watchhub.go:121-126 | two cluster subscriptions leave only the last at the hub, which then disagrees with the browser |
| `TunnelRegistry.AgentHub.TakePipe` | backend/internal/agent/tunnel.go:95-113 | succeeds exactly under the cluster's current session key and registers a fresh id |
| `TunnelRegistry.DropUndoesTake` | backend/internal/agent/tunnel.go:95-120 | takePipe followed by dropPipe, with or without a channel in between, leaves the registry as it was |
| `TunnelRegistry.AgentHub.ClaimPipe` | backend/internal/agent/tunnel.go:57-69 | a success is the first claim ever of a pipe taken under exactly the presented key; a failure changes nothing |
| `TunnelRegistry.AgentHub.Register` | backend/internal/agent/hub.go:244-252 | the new session becomes its cluster's entry and displaces the one it reports closed and no other |
| `TunnelRegistry.LateExitSpares` | backend/internal/agent/hub.go:325-337 | the exit of a replaced session changes nothing, whether it comes before or after its successor is installed |
| `TunnelRegistry.AgentHub.Evict` | backend/internal/agent/hub.go:325-337 | the exiting session is no cluster's entry any more and every other entry stays |
| `TunnelRegistry.AgentHub.TakeSessions` | backend/internal/agent/hub.go:164-176 | hands out exactly the sessions some dial could use, and leaves no cluster a dial could use |
| `TunnelProtocol.InvStep` | backend/internal/agent/tunnel.go:50-164 | every lock-sized step keeps: pipes belong to dials still in flight, channels carry their pipe's key, buffers hold only their own channel |
| `TunnelProtocol.TunnelSafety` | backend/internal/agent/tunnel.go:50-164 | in every run a pipe has at most one channel, a dial gets only a channel with the id of its own pipe, taken for its own cluster, and that pipe's session key, the duplicate branch is unreachable, and no pipe is left when no dial is in flight |
| `TunnelProtocol.OriginWasCurrent` | backend/internal/agent/tunnel.go:95-113 | the session a pipe is bound to was the map entry of the dial's own cluster at the very step that took the pipe |
| `TunnelIsolation.DialReachesItsCluster` | backend/internal/agent/tunnel.go:131-164 | in every run a dial started for a cluster that returns a connection holds a channel that presented the key of the session that was this cluster's entry when its pipe was taken, and no other session ever had that key |
| `TunnelIsolation.DialWasStarted` | backend/internal/agent/tunnel.go:131-139 | a dial works for the cluster it was started for |
| `TunnelDelivery.ReturnsIffReceived` | backend/internal/agent/tunnel.go:153-163 | in every run a dial that has returned holds a connection if and only if it took one out of its pipe |
| `TunnelDelivery.NoChannelLost` | backend/internal/agent/tunnel.go:74-85 | in every run an injected channel waits in its own pipe or is in the hands of the dial that took that pipe |
| `TunnelDelivery.SuccessfulDial` | backend/internal/agent/tunnel.go:131-164 | for any session, dial, pipe and channel nine steps are a legal run after which the dial has returned exactly that channel and no pipe is left |
| `TunnelProtocol.EntryStays` | backend/internal/agent/hub.go:325-337 | a session stays the entry until a takeover, shutdown or its own exit; no interleaving lets a replaced session's exit evict it |
| `TunnelProtocol.AtMostOneOpenSession` | backend/internal/agent/hub.go:244-276 | with register and Close as single steps no run has two open sessions of one cluster |
| `TunnelProtocol.InstallKeepsOneOpen` | backend/internal/agent/hub.go:244-252 | the second half of a split register keeps the property if and only if the entry it overwrites is closed |
| `TunnelProtocol.SplitRegisterLeavesTwoOpen` | backend/internal/agent/hub.go:244-252 | a legal run of split registers ends with two open sessions of one cluster |
| `StaleSessions.FailedRegistrationStays` | backend/internal/agent/hub.go:257-268 | for any session a legal run leaves it closed and still the entry, with a pipe taken under its key |
| `StaleSessions.StaleEntriesIff` | backend/internal/agent/hub.go:244-276 | in every run with single-step register and Close an entry is closed if and only if it was closed on its own account |
| `StaleSessions.StaleEntryGoes` | backend/internal/agent/hub.go:325-337 | a closed entry goes only by its own exit, a takeover or a shutdown, and its own exit is always possible |
| `ByteStream.CarriedBytes` | backend/internal/agent/tunnel.go:184-208 | the bytes readable from frames, with text and empty frames anywhere and a cut anywhere, are a prefix of the bytes written |
| `ByteStream.DeliveredBytes` | backend/internal/agent/tunnel.go:184-208 | and all of them when nothing is missing |
| `ByteStream.DisturbedIsHonest` | backend/internal/agent/tunnel.go:184-208 | a network may put control and empty frames anywhere and break off anywhere, and frames still carry the writes |
| `ByteStream.WsNetConn.Read` | backend/internal/agent/tunnel.go:184-208 | returns the next bytes in order for any buffer size; an end error sticks and consumes nothing more |
| `ByteStream.WsNetConn.Write` | backend/internal/agent/tunnel.go:211-219 | sends the slice as one binary frame or nothing |
| `ByteStream.CopyFromTunnel` | backend/internal/agent/client.go:246-257 | the target gets a prefix of what the tunnel delivers, and all of it unless it refused a write after taking the given number |
| `ByteStream.CopyToTunnel` | backend/internal/agent/client.go:246-257 | the writes concatenate to the part sent, which is the whole source unless the tunnel failed after the given number of writes |
| `ByteStream.ReadWith` | backend/internal/agent/tunnel.go:184-208 | any reads get the pending bytes in order, and as many reads as there are bytes plus one drain them |
| `ByteStream.RelayedRead` | backend/internal/agent/client.go:246-257 | target to platform through copy loop, network and reads: a prefix of the source for any chunking, frames in between and buffers, and all of it when the tunnel takes enough writes, nothing is lost and the reader reads often enough |
| `ByteStream.RelayedWrite` | backend/internal/agent/client.go:246-257 | platform to target through writes, network and the other copy loop: a prefix, and all of it when writes suffice and nothing is lost |
| `StringOrder.StrictlySortedUnique` | backend/internal/service/role.go:499-506 | a sorted duplicate-free list is determined by its contents |
| `StringOrder.LessMeans` | backend/internal/service/role.go:499-506 | the order of strings is decided where they first differ, a proper prefix first |
| `StringOrder.Sort` | backend/internal/service/role.go:499-506 | the elements of a set, strictly sorted |
| `RbacModel.QueryMonotone` | backend/internal/service/role.go:556-569 | a permission held at (cluster, namespace) is held with either part left empty |
| `RbacMeaning.GrantedMeans` | backend/internal/store/rbac.go:279-289 | a permission is granted if and only if the rows are there: a grant to the user or a group of theirs, of a role or a role group that holds it, with a scope row that equals the query part by part or has a star |
| `RbacMeaning.RoleToUser` | backend/internal/service/role.go:556-569 | a grant of a role to a user with one scope adds exactly the role's permissions, for that user, for exactly the queries the scope answers |
| `RbacMeaning.RoleGroupToUserGroup` | backend/internal/service/role.go:528-553 | a grant of a role group to a user group adds exactly the permissions of the group's roles, for its members |
| `RbacMeaning.JoinGroup` | backend/internal/service/role.go:215-229 | joining a user group adds exactly what the group's grants give, for the one who joins |
| `RbacMeaning.ExtendRoleGroup` | backend/internal/service/role.go:340-354 | putting a role into a role group adds exactly the role's permissions, for everyone granted the group |
| `RbacMeaning.DeleteSpares` | backend/internal/store/rbac.go:62-83 | a delete spares exactly the derivations over other grants, roles, role groups and user groups |
| `RbacModel.DeleteUserKeepsRefsIff` | backend/internal/store/repos.go:71-80 | deleting a user keeps user references intact if and only if no grant and no membership names the user |
| `RbacModel.DeleteUserKeepsPermissions` | backend/internal/store/rbac.go:279-289 | deleting a user changes nobody's derivable permissions |
| `RbacModel.NewIdHoldsNothing` | backend/internal/store/rbac.go:279-289 | an id not given out yet has no derivation |
| `RbacModel.WithoutKeepsUserRefs` | backend/internal/store/rbac.go:62-83 | a cascade leaves no dangling user reference that was not there |
| `RbacModel.WithoutConsistent` | backend/internal/store/rbac.go:62-83 | a cascade keeps every reference intact and removes its victim |
| `RbacInvariant.WithoutSound` | backend/internal/store/rbac.go:62-83 | and keeps ids and names unique as well |
| `RbacModel.DeleteRemovesExactly` | backend/internal/store/rbac.go:62-83 | a delete removes exactly the derivations through its victim |
| `RbacModel.DeleteShrinks` | backend/internal/store/rbac.go:138-159 | a delete adds no permission and spares users with no derivation through its victim |
| `RbacModel.GrantAddsExactly` | backend/internal/service/role.go:408-457 | a new grant adds exactly the derivations through it |
| `RbacModel.DeleteUndoesGrant` | backend/internal/store/rbac.go:254-276 | deleting the grant just created restores the tables |
| `RbacService.RoleService.RepoDeleteRole` | backend/internal/store/rbac.go:62-83 | all or nothing: Without(role), or no change when the role is missing |
| `RbacService.RoleService.RepoDeleteRoleGroup` | backend/internal/store/rbac.go:138-159 | all or nothing, with the group's grants, scopes and role rows |
| `RbacService.RoleService.RepoDeleteUserGroup` | backend/internal/store/rbac.go:341-362 | all or nothing, with the group's grants, scopes and members |
| `RbacService.RoleService.RepoDeleteGrant` | backend/internal/store/rbac.go:262-276 | all or nothing, with the grant's scopes |
| `RbacService.RoleService.CreateUser` | backend/internal/store/repos.go:22-27 | a new user under an id never used before, who holds nothing |
| `RbacService.RoleService.DeleteUser` | backend/internal/store/repos.go:71-80 | removes the user row only, reports a missing one, and keeps the store consistent |
| `RbacService.RoleService.CreateRole` | backend/internal/service/role.go:46-67 | validates, refuses a used name, keeps the store consistent |
| `RbacService.RoleService.UpdateRole` | backend/internal/service/role.go:70-100 | refuses in the order of the code's checks, changes one role only |
| `RbacService.RoleService.DeleteRole` | backend/internal/service/role.go:103-117 | refuses built-in and missing roles without a change, else deletes with the cascade |
| `RbacService.RoleService.CreateUserGroup` | backend/internal/service/role.go:139-154 | adds a group under an unused name |
| `RbacService.RoleService.CreateRoleGroup` | backend/internal/service/role.go:264-279 | adds a role group under an unused name |
| `RbacService.RoleService.DeleteUserGroup` | backend/internal/service/role.go:185-193 | cascade, or not found without a change |
| `RbacService.RoleService.DeleteRoleGroup` | backend/internal/service/role.go:310-318 | cascade, or not found without a change |
| `RbacService.RoleService.AddGroupMember` | backend/internal/service/role.go:215-229 | adds a membership only between existing rows |
| `RbacService.RoleService.RemoveGroupMember` | backend/internal/service/role.go:232-242 | removes one membership, not found when there is none |
| `RbacService.RoleService.AddRoleGroupRole` | backend/internal/service/role.go:340-354 | adds a role to a role group only between existing rows |
| `RbacService.RoleService.RemoveRoleGroupRole` | backend/internal/service/role.go:357-374 | removes one role from a role group, not found when there is none |
| `RbacService.RoleService.CreateGrant` | backend/internal/service/role.go:408-457 | refused exactly for GrantRefusal's reasons in their order; else one grant with its scope rows, and the store stays consistent |
| `RbacService.RoleService.DeleteGrant` | backend/internal/service/role.go:460-468 | removes the grant and its scopes, or not found without a change |
| `RbacService.RoleService.ListGrants` | backend/internal/service/role.go:377-404 | exactly the selected grants by id; refused for unknown type names, and with user not found if and only if a selected grant names a missing user |
| `RbacService.DeleteUserBreaksListing` | backend/internal/service/role.go:394-402 | from any state, deleting a user who holds a grant makes every listing fail that selects the grant |
| `RbacService.DeletedViewer` | backend/internal/service/role.go:394-402 | a run from a new database that ends with a failing listing of all grants |
| `RbacService.RoleService.GrantsForUser` | backend/internal/store/rbac.go:279-289 | exactly the grants that reach the user directly or through a group, by id |
| `RbacService.RoleService.ScopeMatches` | backend/internal/service/role.go:556-569 | true if and only if the query is empty or one scope row covers it |
| `RbacService.RoleService.PermissionsForObject` | backend/internal/service/role.go:528-553 | exactly the permissions of the roles the object expands to |
| `RbacService.RoleService.EffectivePermissions` | backend/internal/service/role.go:477-507 | sorted, duplicate-free, and exactly the built-in and derivable permissions |
| `RbacService.RoleService.Authorize` | backend/internal/service/role.go:510-525 | true if and only if the user is admin or the permission or the wildcard is built in or derivable |
| `RbacRequests.AuthorizeAfterGrant` | backend/internal/service/role.go:510-525 | from any state, a user who held nothing for a query is let through after a grant exactly for the role's permissions and where the scope answers the query |
| `RbacRequests.GrantAccepted` | backend/internal/service/role.go:408-440 | a grant request is accepted if and only if subject and object exist, every scope is complete with a namespace star under a cluster star, and the grant is new |
| `RbacRequests.SelectsMeans` | backend/internal/store/rbac.go:213-232 | which grants the parameters of a listing select |
| `RbacRequests.PermissionPoints` | backend/internal/service/user.go:154-175 | the fourteen permission points and the star are valid, clusters:write is not |
| `RbacRequests.BuiltinRoles` | backend/internal/service/user.go:138-151 | what operators hold and viewers do not, and the other way round |
| `Backoff.WaitDoubles` | backend/internal/k8s/health.go:60-67 | one doubling step leads from the n-th wait to the next |
| `Backoff.ClosedForm` | backend/internal/k8s/manager.go:23-29 | every wait is min(60, start*2^n) if and only if the start is within the cap |
| `ProbeHistory.CountClosedForm` | backend/internal/k8s/health.go:15-71 | for any history: one publication at 3 failures, one per failure from 10 on, one per recovery from 3 or more; mapper resets are the successes less one if the first came within three probes |
| `ProbeHistory.BeforeFirstStatus` | backend/internal/k8s/health.go:30-46 | a history without a success has only trailing failures, and an early success is one of the first three probes |
| `Health.ClusterHealth.SetStatus` | backend/internal/k8s/runtime.go:104-114 | the published sequence ends with the current status and message and never repeats an element |
| `Health.ClusterHealth.Probe` | backend/internal/k8s/health.go:28-70 | the wait depends only on the trailing failures: the interval below 10, min(60, start*2^(n-10)) doubling from there |
| `Health.ClusterHealth.Escalate` | backend/internal/k8s/health.go:48-69 | ready below 3 failures, degraded to 9, reconnecting from 10, one publication per change |
| `Health.Loop` | backend/internal/k8s/health.go:15-71 | waits, status, number of publications and of resets of a whole run as functions of its probe history; the last publication is the current status and no two in a row are equal |
| `Health.AgentClient.Turn` | backend/internal/agent/client.go:70-95 | the wait is min(60, 2^k) for k failed attempts since the last registered session, or k earlier failures at startup |
| `SessionHistory.LoggedSnoc` | backend/internal/service/auth.go:79-115 | a step that spends only unrevoked, unexpired tokens and revokes what it cuts off keeps: no token refreshes twice, none after a cut that followed its issue, none later than seven days after it |
| `SessionHistory.HistorySnoc` | backend/internal/service/auth.go:79-115 | a history stays sound when the refreshed token was neither spent nor expired |
| `SessionHistory.RevokeRotates` | backend/internal/store/repos.go:106-112 | revoking keeps one unrevoked token per lineage at most, and leaves none when it was the live one |
| `RefreshTokens.Sessions.Issue` | backend/internal/service/auth.go:157-186 | a fresh token joins a lineage only when all others in it are revoked |
| `SessionHistory.IssueRotates` | backend/internal/service/auth.go:157-186 | a fresh token keeps one unrevoked token per lineage when the rest of its lineage is revoked |
| `RefreshTokens.Sessions.RevokeRefreshToken` | backend/internal/store/repos.go:106-112 | revokes one row if it is on record; a token spent by a refresh leaves its lineage without an unrevoked one |
| `RefreshTokens.Sessions.CreateUser` | backend/internal/service/user.go:27-46 | validates, refuses a used name, gives an id no user had |
| `RefreshTokens.Sessions.Login` | backend/internal/service/auth.go:60-76 | succeeds exactly for an enabled user with the right password and starts a new lineage |
| `RefreshTokens.Sessions.Refresh` | backend/internal/service/auth.go:79-105 | succeeds exactly for an unrevoked unexpired token of an existing enabled user; revokes it and issues its successor in the same lineage; unauthorized for an unknown, revoked or expired token |
| `RefreshTokens.RefreshChain` | backend/internal/service/auth.go:60-105 | from any state, the token of a login refreshes if and only if seven days have not passed, does not refresh again, and its successor lives seven days from its own issue |
| `RefreshTokens.DisableEndsSessions` | backend/internal/service/user.go:49-67 | from any state, a token does not refresh once its user was disabled, not even after enabling |
| `RefreshTokens.Sessions.Revoke` | backend/internal/service/auth.go:108-110 | revokes the token if it is on record and touches no other |
| `RefreshTokens.Sessions.RevokeAllForUser` | backend/internal/store/repos.go:115-121 | revokes exactly the user's tokens |
| `RefreshTokens.Sessions.DisableUser` | backend/internal/service/user.go:49-67 | disabling revokes all tokens of the user and no other, and cuts the user off; enabling brings no token back |
| `RefreshTokens.Sessions.ChangePassword` | backend/internal/service/user.go:70-93 | refuses in the order of the code's checks without a change, else revokes the user's tokens and no other and cuts the user off |
| `RefreshTokens.Sessions.ResetPassword` | backend/internal/service/user.go:253-277 | revokes the user's tokens and no other and cuts the user off |
| `RefreshTokens.Sessions.DeleteUser` | backend/internal/service/user.go:280-298 | refuses oneself and admin, else revokes the user's tokens and no other, cuts the user off and removes the row |
| `KubeconfigStore.CleanupHiddenFromVerify` | backend/internal/service/kubeissue.go:192-204 | token verification answers as on a store that is never cleaned |
| `KubeconfigStore.CleanupHiddenFromDownload` | backend/internal/service/kubeissue.go:125-156 | a download succeeds in the same cases; the error differs exactly on a good code whose expired credential was cleaned away |
| `KubeconfigStore.CleanupSeenByRevoke` | backend/internal/service/kubeissue.go:172-188 | revocation answers differently if and only if the credential was cleaned away, and then says not found |
| `KubeconfigStore.DownloadKeeps` | backend/internal/service/kubeissue.go:125-156 | a successful download is the credential's first, at most ten minutes after its issue, of an unrevoked unexpired credential; every attempt keeps the invariant |
| `KubeconfigStore.IssueRequestKeeps` | backend/internal/service/kubeissue.go:68-119 | an issue with its cleanup, at any three clock readings and whether or not the delete fails, keeps the invariant and draws fresh secrets |
| `KubeconfigStore.RevokeKeeps` | backend/internal/service/kubeissue.go:172-188 | a revocation, refused or not, keeps the cleaned and the uncleaned store in step |
| `KubeconfigStore.RevokeAllowed` | backend/internal/service/kubeissue.go:172-188 | a credential may be revoked by its owner and by an admin, a missing one by nobody |
| `KubeconfigStore.RevokeEndsCredential` | backend/internal/service/kubeissue.go:192-204 | after an accepted revocation the credential verifies at no time, and every other credential as before |
| `KubeconfigStore.RevokeEndsCodes` | backend/internal/service/kubeissue.go:125-156 | nor do its pending codes download, while those of every other credential do as before |
| `KubeconfigStore.NewCredential` | backend/internal/service/kubeissue.go:88-119 | a new credential verifies to the end of its lifetime, and its code downloads it for ten minutes of that |
| `KubeconfigIssue.KubeconfigService.CleanupExpired` | backend/internal/service/kubeissue.go:207-219 | from the time of the cleanup on, every verification and every successful download answers as if nothing had been deleted |
| `KubeconfigIssue.KubeconfigService.Issue` | backend/internal/service/kubeissue.go:68-119 | refused exactly for an unknown cluster or a lifetime out of bounds; else the credential and its code with their expiries |
| `KubeconfigIssue.KubeconfigService.Lifetime` | backend/internal/service/kubeissue.go:69-82 | default for non-positive lifetimes, refusal below a minute and above seven days |
| `KubeconfigIssue.KubeconfigService.Download` | backend/internal/service/kubeissue.go:125-156 | any attempt spends the code; the answer is that of the stored code and credential |
| `KubeconfigIssue.KubeconfigService.VerifyShortToken` | backend/internal/service/kubeissue.go:192-204 | the answer of the never-cleaned store |
| `KubeconfigIssue.KubeconfigService.Revoke` | backend/internal/service/kubeissue.go:172-188 | not found, forbidden for a stranger, else revoked |
| `KubeconfigIssue.IssueAndUse` | backend/internal/service/kubeissue.go:68-156 | from any state: which requests are issued, until when the credential verifies and downloads, and that it does not download twice |
| `KubeconfigIssue.RevokeAndUse` | backend/internal/service/kubeissue.go:172-204 | from any state: who may revoke, and that neither verification nor download succeeds afterwards |
| `ListOrder.BeforeCompares` | backend/internal/service/resource_helpers.go:132-161 | every order a request can name is a strict weak order |
| `ListOrder.OrderNames` | backend/internal/service/resource_helpers.go:121-131 | which parameters name which order, newest first by default, and that no others do |
| `ListOrder.NamedOrders` | backend/internal/service/resource_helpers.go:132-161 | for each named order what stands before what, by field and direction, items without a time at the zero time |
| `ListOrder.SameTiesPermute` | backend/internal/service/resource_helpers.go:139-157 | a stable sort is a permutation |
| `ListOrder.StablySortedUnique` | backend/internal/service/resource_helpers.go:139-157 | there is only one stably sorted list |
| `ListOrder.SwapKeepsTies` | backend/internal/service/resource_helpers.go:139-157 | swapping neighbours out of order moves no item past one it is tied with |
| `ListOrder.SortStable` | backend/internal/service/resource_helpers.go:139-157 | sorts in place, in order, equal items in their old order |
| `ListOrder.SortItems` | backend/internal/service/resource_helpers.go:121-161 | refuses exactly an unknown order or field and then leaves the items alone; else sorts by the named order |
| `ListPage.Parse` | backend/internal/pkg/pagination/pagination.go:27-50 | which inputs are refused, the defaults, and the clamp to 200 |
| `ListPage.WrapMeans` | backend/internal/pkg/pagination/pagination.go:24-24 | the wrapped value is the one 64-bit value that differs by a multiple of 2^64 |
| `ListPage.MatchingCounts` | backend/internal/service/resource_helpers.go:280-292 | the filter keeps every copy of a matching item and nothing else |
| `ListPage.MatchesMeans` | backend/internal/service/resource_helpers.go:284-289 | an item matches if and only if the keyword occurs in its name character by character, both lower-cased |
| `ListPage.EmptyKeywordMatchesAll` | backend/internal/service/resource_helpers.go:280-283 | the shortcut for an empty keyword agrees with the filter |
| `ListPage.FilterByKeyword` | backend/internal/service/resource_helpers.go:280-292 | the matching items in their own order, for any mapping of characters to lower case |
| `ListPage.WrappedSlice` | backend/internal/service/resource.go:129-138 | slicing at the wrapped offset is the page if and only if the offset fits in 64 bits or wraps past the end |
| `ListPage.Page` | backend/internal/service/resource.go:129-138 | right if and only if the offset fits or wraps past the end; panics if and only if it wraps below zero |
| `ListPage.PagesPartition` | backend/internal/service/resource.go:129-138 | pages 1 to k concatenate to the first k*size items, for every size |
| `ListPage.WrappedPage` | backend/internal/pkg/pagination/pagination.go:27-50 | a page Parse accepts, far past the end, whose slice is the first four items again |
| `ListPage.PanickingPage` | backend/internal/pkg/pagination/pagination.go:27-50 | a page Parse accepts that panics on any list |
| `ListPage.List` | backend/internal/service/resource.go:120-139 | filter, sort and page compose; the total is the number of matches |
| `ListPage.PagesComplete` | backend/internal/service/resource.go:120-139 | requests for the same items page the same list, and their pages concatenate to a permutation of the matches |

## Left out

- The row list of the resource table (useResourceListSync.ts): its reducer handles one event at a time and adds easy members.
- Log following: the goroutine that reads a log, and a stream that ends by itself; which followers are cancelled is modelled.
- The subscribe payload kept per connection: no code reads it.
- Cluster status and audit frames, and the snapshot sent on a clusters subscription: they fan out over clusterSubs and auditSubs, which are modelled as state only.
- Registering, replacing and removing runtimes while the hub runs: one runtime per cluster is assumed, and `FreshPoolServes` states what replacement breaks.
- Resources found by discovery: an informer-backed resource is one of the built-in table's names the watch endpoint accepts.
- Status listeners and their registry: a publication is one entry of the published sequence.
- Locks themselves: each locked section is atomic. Session and token operations that take several database statements are atomic as well, and database errors occur only where the code carries on after them.
- The two directions of a relay run as two separate copies, each after the other side has written; how one closing the connection ends the other is not modelled.
- A closing handshake in the browser: a socket goes from open to closed in the step of its callback.
- Heartbeats and pings: only whether the heartbeat timer runs.
- Access tokens: a cut revokes refresh tokens only; an access token already issued stays valid to its own expiry.
- The in-place duplicate removal of permission lists: the resolved list is a set before it is sorted.
- bcrypt, JWT, SHA-256 and random strings: a password equals itself only, a secret is drawn once.
- SQL: tables are finite maps, a transaction is one assignment.
- Renaming user groups and role groups, listings other than that of grants, DTOs and error texts.
- ListOrder.SortStable: sort.SliceStable merges longer blocks; the model uses its insertion sort throughout, to the same contract, which `StablySortedUnique` shows to leave one possible result.
- ListPage.Page: assumes a list of at most 2^63-201 items, which no memory exceeds.
- WatchHubs.WatchHub.Stop: does not model the removal of the status and audit listeners, because the frames they bring are not modelled.
- HTTP and WebSocket plumbing, TLS, proxying, exec, Kubernetes clients, YAML and JSON, Vue components, configuration and deployment.
