# A model of the towonel operator's control protocols

The operator keeps Kubernetes objects and a remote hub in step although it owns neither. This project models the four
protocols that do the work, and proves what they keep in every run.

- **The tunnel against the hub** (`Environment`, `Api`, `TunnelInvite`, `PortDemand`, `PortProtocol`, `TunnelPorts`,
  `TunnelDNS`, `TunnelController`, `TunnelDelete`). `Environment.Env` is the hub together with the cluster's DNS objects.
  Every call on it meets a fate from an oracle: it works, it is refused, it is rejected, or it works and its reply is lost.
  Every world there has been is recorded in a ghost history, so a contract can speak of each instant of a pass. A pass that
  is cut off is one whose remaining calls are all refused and whose status write is lost; the run theorems cover both.
- **The sources over server-side apply** (`SourceStore`, `SourceBase`, `RouteMeaning`, `RouteSource`). `SourceStore` is a transition
  system: agents are routing leaves with owners, and sources, collectors and users take steps in any order. `SourceBase`
  is one source's imperative reconcile against that store, with other parties' steps interleaved before every call.
  `RouteSource` reads opt-in, tunnel and routing of an HTTPRoute off the cluster and runs that reconcile on them;
  `RouteMeaning` says what the route, its Gateways and their annotations mean, without the functions that read them.
- **The agent** (`AgentRender`, `AgentMeaning`, `AgentHash`, `AgentDeploy`, `AgentController`). Rendering, the text the rollout hash is
  taken of, the test that decides whether a Deployment is written, and the retry loop around them. `AgentMeaning` says
  variable by variable what a spec and a tunnel's status ask the environment to hold. Before every call
  others may edit agent, tunnel, token and Deployment. The history says of each state whose doing it is and how many calls
  had been made, and accounts for every edit of others, each before its call; so a contract can say what our own steps
  were, lost replies included, and how long before them their inputs were looked at.
- **Events and watches** (`EventDedupe`, `WatchMappers`). The bounded dedupe cache against an unbounded map, and which
  sources a change wakes.

`Histories` says what it is for a history to grow by allowed steps. `Text` and `Conventions` hold string order, sorting,
and the names and labels the other proofs rest on.

## Assumptions

- The hub's own laws, kept by every call of the model: an active invite's hostname belongs to no other active invite, and
  a (protocol, port) is held at most once. The hub answers a reservation with the protocol asked for, and grants a
  preferred port or none.
- Nobody else changes this tunnel's invite, its tenant's reservations or the listed DNS objects between two calls of one
  tunnel pass; other tunnels' calls come between passes. (`PortProtocol` also lets other labels' reservations come and go
  at any step, and `TunnelController.SyncSurvivesOthers` interleaves other tunnels' calls one by one.)
- SHA-256 has no collision on the two inputs at hand, owner hashes of distinct tunnels differ and hold no dot, and JSON
  encoding of a non-empty list opens with a bracket and can be read back. Hashed fields hold no NUL. `AgentHash` shows
  what goes wrong without the bracket or with a NUL. Text of the form host:port is at least as long as its host.
- A forced apply makes the object what was sent. Lists and gets return current state. A release on a missing agent does
  nothing, as the comment at internal/controller/source_contribute.go:89 says.

## Where documentation and code differ

- docs/source-layer.md:185-187 says a source without a tunnel reference releases its routing once there is a second
  tunnel. The reconcilers return without touching anything (internal/controller/httproute_source_controller.go:193-199,
  internal/controller/service_source_controller.go:49-55), and so does `RouteSource.Reconcile`: a route that has opted in
  without a reference, among any number of tunnels but one, keeps whatever it has.
- docs/source-layer.md:165 says an emitted origin follows its Service's ClusterIP. For an HTTPRoute no watch covers the
  proxy's Service. `WatchMappers.OriginSafeFromServiceIff` says when that matters: a route's origin is unmoved by every
  change of a Service exactly when no existing parent Gateway proxies through it. `WatchMappers.ServiceChangeMovesOrigin`
  is an example, and `WatchMappers.RouteKeepsOriginIff` says the same of the one origin a route has.
- `sourceTargetsAgent` is documented for explicit agent-refs; it also needs an explicit tunnel-ref.
  `WatchMappers.AgentMapperFindsIff` gives the exact condition.

## What fails, and exactly when

- Reserving a port without having read the hub's list can hold two ports for one service: `PortProtocol.BlindReserveSafeIff`
  and `PortProtocol.BlindReserveCanDuplicate`.
- A lost status write can leave an allocation naming a port the hub has since given to another label:
  `TunnelDelete.StaleEntryCanNameForeignPort`. A finished delete spares every port under another label exactly when
  status recorded none of them: `TunnelDelete.OtherLabelsSparedIff`.
- A pass cut off between the hub and DNS can leave a record for a name already released:
  `TunnelController.CutOffPassCanPublishReleasedName`, with the exact condition in `TunnelController.HostnameCallKeepsSyncIff`.
- A live Deployment that calls for no write need not be the desired one: its pod template is exactly when the fields the
  write test does not read agree too, `AgentDeploy.SuppressedWriteCorrectIff`. An environment edited by hand is an
  example, `AgentDeploy.EditedEnvGoesUnseen`. Between Deployments of ours the test is exact:
  `AgentController.RewrittenOnlyIfDifferent`.
- A Deployment can be applied for inputs no longer stored, since nothing locks them: `AgentController.EditCanSlipPastRechecks`.
  It is for the very inputs stored as it lands exactly when no edit of the spec took effect before one of the last three
  calls (tunnel recheck, read of the Deployment, apply) and none of the tunnel before one of the last two; edits earlier
  in the attempt do no harm: `AgentController.AppliedIsCurrentIff`.
- Contributing and releasing restores the routing exactly when no wanted leaf stood there unowned:
  `SourceStore.ContributeReleaseRestoresIff`.
- Evicting a key from a full dedupe cache is harmless exactly when that key has expired,
  `EventDedupe.EvictionIsHarmlessIffExpired`; for the oldest key, exactly when no more than 1024 keys are unexpired,
  `EventDedupe.EvictionIsHarmlessIff`.

## Model

| member | source | states |
|---|---|---|
| `Environment.Env.AddHostname` | internal/towonel/towoneltest/hub.go:231-254 | a name is granted only to an active invite and only if no active invite holds it; a conflict means somebody does and nothing changed |
| `Environment.Env.RemoveHostname` | internal/towonel/towoneltest/hub.go:255-268 | the name leaves that invite only; other invites keep theirs |
| `Environment.Env.ReservePort` | internal/towonel/towoneltest/hub.go:281-303 | success grants a free port of the protocol asked for under the label asked for, and the very port preferred if one is; an error may still have granted one, unless no reply is lost |
| `Environment.Env.ReleasePort` | internal/towonel/towoneltest/hub.go:311-329 | success or not-found leaves the port unheld; nothing else is freed |
| `Conventions.PortLabelDecodes` | internal/controller/conventions.go:105-113 | the label is namespace, name and service with slashes between; a tunnel's prefix matches exactly its own labels, and a label names one tunnel and service |
| `Conventions.SrcFieldManagerInjective` | internal/controller/conventions.go:173-179 | two sources share a field manager only if they are the same object, and every one carries the source prefix |
| `Conventions.AllocKeyInjective` | internal/controller/towoneltunnel_ports.go:90 | an allocation key names one (protocol, service) |
| `Conventions.DnsEndpointNameInjective` | internal/controller/towoneltunnel_dns.go:40-45 | the name is the prefix, namespace and name with dots between, or the prefix and owner hash where that is too long; distinct tunnels in dot-free namespaces get distinct names of at most 253 characters |
| `Text.Dedupe` | internal/controller/towoneltunnel_invite.go:224-235 | the strictly sorted list of exactly the non-empty entries |
| `TunnelInvite.DesiredHostnames` | internal/controller/towoneltunnel_invite.go:99-107 | exactly the extra hostnames and all agents' HTTPS hostnames, sorted, without repeats or blanks |
| `TunnelInvite.RunConverges` | internal/controller/towoneltunnel_invite.go:150-222 | over any number of passes cut off anywhere: no desired name lost, no undesired one gained, nothing else touched, and each effective call brings the set one name closer |
| `TunnelInvite.ConvergeHostnames` | internal/controller/towoneltunnel_invite.go:150-222 | every call adds a missing desired name or removes an undesired one; a finished pass leaves desired minus names held elsewhere on the hub, reports exactly that set and the region the invite means, blanks dropped and in capitals, EU if it says none; it records the desired list; gone and revoked invites are reported untouched; with no failing call the pass finishes |
| `TunnelInvite.FinishedPassSettles` | internal/controller/towoneltunnel_invite.go:171-221 | adding then removing leaves exactly the desired names nobody else holds, whatever the hub set was |
| `PortDemand.DesiredPorts` | internal/controller/towoneltunnel_ports.go:36-80 | the accumulating loops compute the fold over declarations: one entry a key, winners and conflicts |
| `PortDemand.WinnerIsFirstPreference` | internal/controller/towoneltunnel_ports.go:43-66 | the preferred port kept is the first non-zero one for its key, none before it states another |
| `PortDemand.ClashesAreLosers` | internal/controller/towoneltunnel_ports.go:56-64 | a conflict is reported exactly for each later preference that differs from the one kept then |
| `PortDemand.FirstsCoverKeys` | internal/controller/towoneltunnel_ports.go:43-55 | each declared (protocol, name) gets exactly one entry |
| `PortDemand.ListingOrderIrrelevant` | internal/controller/towoneltunnel_ports.go:36-40 | any permutation of the agents gives the same ports and the same conflicts |
| `PortProtocol.PortRunIsSafe` | internal/controller/towoneltunnel_ports.go:132-186 | in every run, replies and status writes lost anywhere: no service of the tunnel holds two ports, and no held port differs from the one status records |
| `PortProtocol.BlindReserveSafeIff` | internal/controller/towoneltunnel_ports.go:120-168 | reserving after the list failed keeps one port per service exactly when none was held |
| `PortProtocol.BlindReserveCanDuplicate` | internal/controller/towoneltunnel_ports.go:120-168 | a concrete state where it does not |
| `PortProtocol.AgreeIsSafe` | internal/controller/towoneltunnel_ports.go:188-192 | one-to-one agreement of status and hub implies the safety invariant |
| `TunnelPorts.ConvergePorts` | internal/controller/towoneltunnel_ports.go:111-209 | a service that had no entry and held no port gets the first preference stated for it, if one is, and its entry is a reservation the hub was seen to hold; with no failing call each such service whose preferred port is free and nobody else's preference has its entry; every hub call is a move of the protocol, and of its safe moves unless a list call of this pass failed; then safety holds at each instant and after either status; kept keys keep their allocation and port; status ends sorted with unique keys, its edges are exactly the entries' addresses, sorted; success means status covers exactly the declared keys, and a pass with nothing new to reserve succeeds; from agreement, with no call lost, the pass ends in agreement whichever calls failed |
| `TunnelPorts.PassAgrees` | internal/controller/towoneltunnel_ports.go:132-192 | from one-to-one agreement, adopting, reserving and pruning with any failures ends in one-to-one agreement |
| `TunnelPorts.PassWritesStatus` | internal/controller/towoneltunnel_ports.go:132-192 | every entry a pass writes was recorded before or is not contradicted by the hub |
| `TunnelPorts.PassIsSafeThroughout` | internal/controller/towoneltunnel_ports.go:132-186 | safety holds at every instant of a pass, so a pass may be cut off at any call |
| `TunnelPorts.PassEndsSafe` | internal/controller/towoneltunnel_ports.go:188-192 | safety holds after a pass whether its status write lands or is lost |
| `TunnelPorts.RepeatedPasses` | internal/controller/towoneltunnel_ports.go:111-209 | pass after pass, with any agents and any replies and status writes lost: while no list call fails, no service of the tunnel holds two ports and none drifts from the status recorded at that instant |
| `TunnelPorts.Prune` | internal/controller/towoneltunnel_ports.go:170-186 | only undesired recorded ports are released, and each one still held stays in status |
| `TunnelPorts.ReserveAll` | internal/controller/towoneltunnel_ports.go:132-168 | each desired key is kept, adopted or reserved once; unless a list call failed, new ports go only to services that held none; no reservation is lost from status unless a reply was |
| `TunnelDNS.PublishedExactly` | internal/controller/towoneltunnel_dns.go:75-90 | the names published are exactly the confirmed ones that are neither opted out nor unwanted wildcards |
| `TunnelDNS.DNSOptOutHostnames` | internal/controller/towoneltunnel_dns.go:248-258 | any agent's opt-out wins |
| `TunnelDNS.SweepDNSEndpoints` | internal/controller/towoneltunnel_dns.go:134-153 | only owned objects go, the kept one never does, and success means no other is left in any namespace |
| `TunnelDNS.ReconcileDNS` | internal/controller/towoneltunnel_dns.go:159-242 | the object that stands when synced, and the records reported, have one CNAME for each name wanted, in order and no other, all to the spec's own target less a trailing dot if it names one, else to the region's, with the operator's labels over the user's; with neither target no object and no record; what the condition reports is so: withdrawn means none, foreign means a stranger's object stands at the name; no other object is touched; with no failing call, the CRD installed and the namespace there, only a stranger's object asks for a retry |
| `TunnelDNS.OthersUntouched` | internal/controller/towoneltunnel_dns.go:127-153 | a pass of one tunnel leaves every other tunnel's objects as they were, shared namespace or not |
| `TunnelDNS.FleetNeverBlocksItself` | internal/controller/towoneltunnel_dns.go:159-242 | over any run of many tunnels' passes, no tunnel finds another's object at its own name |
| `TunnelController.ListReferencingAgents` | internal/controller/towoneltunnel_controller.go:167-183 | exactly the agents that name the tunnel, an empty namespace meaning their own, in strict ns/name order |
| `TunnelController.Reconcile` | internal/controller/towoneltunnel_controller.go:124-161 | a pass that ends synced publishes exactly the hub-held names minus opt-outs and unwanted wildcards; a revoked invite ends with nothing published unless a retry is asked for; ports are safe throughout unless a list call failed; nothing of anyone else's is touched; with no failing call a publishable tunnel ends in sync, whatever an earlier cut-off pass left |
| `TunnelController.ReconcileNames` | internal/controller/towoneltunnel_controller.go:124-145 | an invite the hub no longer knows has its records withdrawn or a retry asked for; a failed call leaves DNS alone |
| `TunnelController.SyncSurvivesOthers` | internal/controller/towoneltunnel_controller.go:52-162 | once in sync, a tunnel stays in sync through any interleaving of other tunnels' single calls: being issued an invite, converging, and being deleted |
| `TunnelController.RunKeepsHostnamesExclusive` | internal/towonel/towoneltest/hub.go:231-254 | through any interleaving of any tunnels' calls no two active invites come to hold one name |
| `TunnelController.InSyncPublishDisjoint` | internal/controller/towoneltunnel_invite.go:171-190 | two tunnels in sync on different invites publish disjoint names, and a name held elsewhere is never published |
| `TunnelController.SyncedTunnelsStayDisjoint` | internal/controller/towoneltunnel_controller.go:52-162 | passes of two tunnels in either order, any calls of the rest of the fleet between and after: once both ended in sync and neither has acted again, they publish disjoint names and none held elsewhere |
| `TunnelController.ReconcileInTurn` | internal/controller/towoneltunnel_controller.go:124-161 | two tunnels reconciled one after the other publish disjoint names if both report sync |
| `TunnelController.HostnameCallKeepsSyncIff` | internal/controller/towoneltunnel_controller.go:124-145 | a hostname call breaks the agreement exactly when the name is publishable |
| `TunnelController.CutOffPassCanPublishReleasedName` | internal/controller/towoneltunnel_controller.go:124-145 | a concrete cut-off pass that leaves a record for a released name |
| `TunnelDelete.ReconcileDelete` | internal/controller/towoneltunnel_delete.go:21-64 | every call of a delete pass is one the run theorem allows, and one that read the port list unless a list call failed; a delete that reports the finalizer gone under the Delete policy leaves no owned DNS object, no invite and no recorded port; with no failing call a pass completes without any key under Retain or without an invite, completes with the key found, asks to be tried again with the key missing, and fails only where a key was needed and its lookup failed |
| `TunnelDelete.ReleasePorts` | internal/controller/towoneltunnel_delete.go:69-108 | success leaves every recorded port free and, unless the list call failed, every port under the prefix |
| `TunnelDelete.DeleteRunIsOrderly` | internal/controller/towoneltunnel_delete.go:21-108 | over any run of partly failing delete passes: the hub is touched only once no owned DNS object is left, the finalizer goes only once the hub is clear, others' objects, invites, tenants and labels stay, and under Retain only the finalizer changes |
| `TunnelDelete.OtherLabelsSparedIff` | internal/controller/towoneltunnel_delete.go:83-107 | any run of delete passes, of which the last dropped the finalizer and read the port list, spares every port under another label exactly when status recorded no such port |
| `TunnelDelete.FinishedDeleteClears` | internal/controller/towoneltunnel_delete.go:69-108 | such a run leaves the tenant exactly the ports neither recorded nor labelled for the tunnel |
| `TunnelDelete.OtherTunnelsSpared` | internal/controller/towoneltunnel_delete.go:83-107 | and, where status names only its own, leaves another tunnel's port held under that tunnel's label |
| `TunnelDelete.StaleEntryCanNameForeignPort` | internal/controller/towoneltunnel_ports.go:136-139 | a protocol run after which status names another label's port |
| `SourceStore.AppliedContributes` | internal/controller/source_contribute.go:65-87 | an accepted apply gives the manager exactly what it asked for and changes nobody else's contribution |
| `SourceStore.ContributeReleaseRestoresIff` | internal/controller/source_contribute.go:65-99 | contribute then release restores the routing exactly when no wanted leaf stood there unowned |
| `SourceStore.AppliesCommute` | internal/controller/source_contribute.go:65-99 | two sources' accepted applies give the same routing in either order |
| `SourceStore.RunKeepsInv` | internal/controller/source_contribute.go:65-173 | in every interleaving of sources, users and collectors, each leaf a source owns has the value it last applied there |
| `SourceStore.OnlyIdleAgentsGo` | internal/controller/source_contribute.go:154-173 | whatever happens between the collector's read and its delete, an agent goes only at an instant when it is auto-created, empty and unclaimed |
| `SourceBase.PeacefulLeavesUnmoved` | internal/controller/source_contribute.go:65-173 | nobody else's apply, release, creation or collection takes anything from a source |
| `SourceBase.QuietRunUnmoved` | internal/controller/source_base.go:84-188 | a source that does nothing keeps exactly what it has through any stretch of others' steps |
| `SourceBase.ContributingRunCovered` | internal/controller/source_base.go:111-120 | through the apply, the source has all of its old routing or all of its new, at every instant |
| `SourceBase.ReleasingRunKeeps` | internal/controller/source_base.go:120-123 | releasing elsewhere leaves the new contribution standing throughout |
| `SourceBase.ReleaseFromOtherAgents` | internal/controller/source_contribute.go:105-129 | success means the source owns fields on the kept agent at most, cluster-wide |
| `SourceBase.EnsureDefaultAgent` | internal/controller/source_target.go:145-184 | the agent chosen was seen operator-owned at some instant; a skip has seen a stranger's there; an undisturbed call leaves an existing agent as it is, and makes a missing one: managed, marked as auto-created, for that tunnel and with no routing |
| `SourceBase.ResolveTarget` | internal/controller/source_target.go:188-231 | routing goes only to the agent under the agent-ref or the tunnel's default name, seen bound to the tunnel and not observe-only, or operator-owned; skipping and observing have their reason seen too; undisturbed, it is written to exactly if it is fit for it or can be created |
| `SourceBase.ApplyContribution` | internal/controller/source_base.go:84-140 | make before break at every instant; the agent chosen, skipped or observed has its reason seen; success means the new routing is on the target and nothing anywhere else; a conflict is real and releases nothing; undisturbed it never fails, and writes exactly if the named agent is fit |
| `SourceBase.OrphanGCIfEmpty` | internal/controller/source_contribute.go:154-173 | reports an apply in flight only when the agent was seen empty yet claimed, and collected only when it is gone |
| `SourceBase.ReleaseEverywhere` | internal/controller/source_base.go:160-188 | unless it fails, the source owns nothing anywhere afterwards and every operator agent listed was collected, in use, changed meanwhile, or, if a retry is asked for, seen claimed by an apply in flight |
| `SourceBase.ReconcileSource` | internal/controller/service_source_controller.go:35-63 | for the view read of a source, a reconcile that does not fail leaves what it says: nothing anywhere and every operator agent considered, everything untouched when no tunnel resolves or nothing can be derived, or the routing on the agent named; left without routing only with a reason seen; never without cover while it moves |
| `RouteMeaning.OptedInOptsIn` | internal/controller/httproute_source_controller.go:127-186 | the route's own word counts if it says one; else some parent Gateway must allow the namespace by its list, have auto-routes on and name a service |
| `RouteMeaning.AllowsIsListed` | internal/controller/httproute_source_controller.go:84-125 | the list is "all" in any case, or the namespace is one of its comma-separated entries, blanks around it dropped |
| `RouteMeaning.ResolvedIsMeant` | internal/controller/source_target.go:46-102 | the tunnel resolved is the one written as namespace/name or as a name in the route's namespace, or with nothing written the only one there is |
| `RouteMeaning.OnlyOriginIsOne` | internal/controller/httproute_source_controller.go:236-287 | an origin is derived exactly if some parent Gateway's proxy leads there, at the port named or else its first, and no other leads elsewhere |
| `RouteMeaning.WakesConcerned` | internal/controller/httproute_source_controller.go:354-409 | the tunnel mapper's test passes exactly the routes that name the tunnel or none, those silent on both keys only if a readable parent Gateway welcomes them |
| `RouteSource.ReadView` | internal/controller/httproute_source_controller.go:160-207 | opted out exactly if neither the route nor a Gateway of its says yes; no tunnel exactly if it means none; else the tunnel meant, the agent-ref as written, and leaf by leaf the routing: for each hostname its name, the one origin all its Gateways lead to, and dnsRecord false if the route declines a record; undecided only when a parent could not be read |
| `RouteSource.Reconcile` | internal/controller/httproute_source_controller.go:160-207 | a route gone or opted out ends owning nothing; one that opted in without a reference among no or several tunnels keeps everything on every agent; one with tunnel, hostnames, one origin and a fit agent ends, undisturbed, with each hostname standing there, to that origin, and with nothing anywhere else, or in a real conflict; any other target has its reason seen |
| `AgentRender.ItoaInjective` | internal/controller/towonelagent_connectivity.go:68-72 | distinct pinned ports render distinct text |
| `AgentRender.AgentEnvDistinct` | internal/controller/towonelagent_deploy.go:191-240 | given connectivity variables in their order, the container environment names nothing twice and every operator variable keeps the operator's value |
| `AgentRender.EachEntryKeptOrIgnored` | internal/controller/towonelagent_deploy.go:191-202 | each extra entry is kept or reported ignored, never both, and none twice |
| `AgentRender.KeptAndIgnoredWereAsked` | internal/controller/towonelagent_deploy.go:191-202 | only asked-for entries are kept, and only an operator's name is ignored |
| `AgentRender.ParseAgentEnv` | internal/controller/towonelagent_deploy.go:167-184 | refused exactly when a flag is malformed, misnamed or repeated; else sorted by name |
| `AgentRender.FlagOrderIrrelevant` | internal/controller/towonelagent_deploy.go:161-184 | no permutation of the flags changes acceptance or result |
| `AgentRender.CutFlagSplits` | internal/controller/towonelagent_deploy.go:170-173 | name, first equals sign and value give the flag back, and the name holds no equals sign |
| `AgentMeaning.ConnectivityEnvConnects` | internal/controller/towonelagent_connectivity.go:39-90 | the pinned port in decimal if set, the extra addresses joined by commas if any, and the four autodiscovery variables exactly if autodiscovery, the node port and a pinned port are all asked for |
| `AgentMeaning.ExtendedEnvTells` | internal/controller/towonelagent_deploy.go:191-240 | each variable of the operator's holds what spec and status say or is absent, and of the operator-wide entries all are there but those with such a name |
| `AgentHash.Hash` | internal/controller/towonelagent_deploy.go:73-90 | the pieces written are the NUL-terminated fields the decoding lemmas are about |
| `AgentHash.HashInputIs` | internal/controller/towonelagent_deploy.go:73-90 | image, invite, the three routing texts, relay, service account and connectivity text, then the marker and the extra environment if set, each ended by a NUL |
| `AgentHash.HashInputDecodes` | internal/controller/towonelagent_deploy.go:73-90 | for NUL-free fields the hash text is equal exactly when all eight fields, the flag and the extra environment are |
| `AgentHash.HashInputDecodesIff` | internal/controller/towonelagent_deploy.go:73-90 | without knowing that the extra environment is JSON, exactly the optional fields could be confused |
| `AgentHash.MarkerCouldBeConfused` | internal/controller/towonelagent_deploy.go:79-88 | two configs the bracket of JSON keeps apart |
| `AgentHash.NulCouldBeConfused` | internal/controller/towonelagent_deploy.go:75-78 | two configs a NUL inside a field would confuse |
| `AgentDeploy.RenderConfig` | internal/controller/towonelagent_deploy.go:113-159 | field by field what spec and status say: HTTPS services in full, of the TCP and of the UDP services exactly those with a port, in order, at the port recorded last for (protocol, name), the rest pending in order; and the loops compute the specification |
| `AgentDeploy.FullyAllocated` | internal/controller/towonelagent_deploy.go:92-110 | when every key has a port nothing is pending and every service appears once, in order, at its key's port |
| `AgentDeploy.BuiltAsDeclared` | internal/controller/towonelagent_deploy.go:242-334 | names, labels, selector, replicas, scheduling, security, ports, probes and memory bounds are the spec's, or the default where it has none |
| `AgentDeploy.ControllersAgree` | internal/controller/towoneltunnel_ports.go:135-170 | after a successful convergePorts every agent declaring a (protocol, name) renders the one port status records |
| `AgentDeploy.NothingPending` | internal/controller/towonelagent_deploy.go:92-145 | and no agent of that pass has anything pending |
| `AgentDeploy.ConnectivityEnvFixesPort` | internal/controller/towonelagent_connectivity.go:68-102 | the pinned port can be read off the connectivity environment |
| `AgentDeploy.WriteSuppressionExact` | internal/controller/towonelagent_deploy.go:272-350 | for two Deployments built for one agent, no write is called for exactly when whole pod templates and replicas are equal |
| `AgentDeploy.SuppressedWriteCorrectIff` | internal/controller/towonelagent_deploy.go:336-350 | of any live Deployment for which no write is called for, the pod template is the desired one exactly when the fields the test does not read agree |
| `AgentDeploy.EditedEnvGoesUnseen` | internal/controller/towonelagent_deploy.go:336-350 | for every desired Deployment there is a live one with another environment for which no write is called for |
| `AgentController.RenderedEnvIsOurs` | internal/controller/towonelagent_deploy.go:113-240 | for every spec and tunnel the environment rendered names nothing twice, and holds every operator variable at the operator's value |
| `AgentController.DeploymentAsDeclared` | internal/controller/towonelagent_deploy.go:113-334 | the Deployment of a spec and a tunnel carries the TCP services under the TCP variable, the UDP ones under the UDP variable and the HTTPS ones under theirs, each there exactly if some service is to be told; the token reference, relay URL and image are the spec's; and its hash is of a config that says so |
| `AgentController.RewrittenOnlyIfDifferent` | internal/controller/towonelagent_deploy.go:272-350 | of two Deployments of ours for one agent, the second is written over the first exactly when templates or replicas differ |
| `AgentController.RunIsSound` | internal/controller/towonelagent_controller.go:54-181 | in every run each persisted status is Ready exactly when all four conditions are true, waiting exactly when the tunnel is known not ready, and Ready carries the hash of the spec at its observed generation |
| `AgentController.GenerationFixesSpec` | internal/controller/towonelagent_controller.go:192-202 | over any run, an agent found with the same UID and generation has the same spec, and with the same version is the same in full |
| `AgentController.TunnelStoodBetween` | internal/controller/towonelagent_controller.go:204-214 | over any run, a tunnel found at the version it was read at has stood unchanged at every instant between |
| `AgentController.AgentStoodBetween` | internal/controller/towonelagent_controller.go:192-202 | over any run, an agent found under the UID and generation it had before has had them at every instant between |
| `AgentController.AppliedIsCurrentIff` | internal/controller/towonelagent_controller.go:145-155 | a Deployment of ours is for the agent generation and tunnel version stored as it lands exactly when no edit took effect between a recheck and the apply, however much was edited before |
| `AgentController.RestingInputsGetTheirDeployment` | internal/controller/towonelagent_controller.go:145-155 | if nobody edits spec or tunnel before the last three calls of an apply, its Deployment is the one for what is stored at that very instant |
| `AgentController.EditCanSlipPastRechecks` | internal/controller/towonelagent_controller.go:145-155 | from any sound cluster, a run that applies the Deployment of a spec already replaced |
| `AgentController.RollupStatus` | internal/controller/towonelagent_status.go:38-75 | the derived conditions, the hash, and a phase that fits the conditions |
| `AgentController.AgentClient.WriteStatus` | internal/controller/towonelagent_status.go:79-85 | only a sound status for the generation read is persisted, under the version read, and success means it is stored or was already |
| `AgentController.CheckUnchanged` | internal/controller/towonelagent_controller.go:192-214 | two calls with edits between them: if both pass, agent and tunnel as read stood together at the first and the tunnel still at the second; a conflict means that at one of them they did not |
| `AgentController.EnsureDeployment` | internal/controller/towonelagent_deploy.go:354-375 | just after the rechecks: whatever is applied, its reply lost or not, is the Deployment of the agent and tunnel rechecked, no other call than its read between; if it reports the workload live, one that calls for no further write stood within two calls; undisturbed it always does |
| `AgentController.Reconcile` | internal/controller/towonelagent_controller.go:54-181 | whatever is edited before any call, each step of ours is a sound status write or a Deployment for the agent that stood three calls earlier and the tunnel that stood then and at the next; done means such a Deployment stood and the status stored says so; asking to be called again means the status stored says the tunnel is awaited or nothing was rendered, all else in it as it was; at most four attempts, again only on conflict; undisturbed the first attempt is the last: done if tunnel and token are there and the other objects applied, else ended as each missing or failing piece demands, with the status that says so |
| `EventDedupe.EventKeyInjective` | internal/controller/saferecorder.go:51 | the key is uid, reason and message with bars between, and two events share one only if all three agree |
| `EventDedupe.EvictionIsHarmlessIff` | internal/controller/saferecorder.go:58-67 | letting an event through, oldest key evicted if full, loses nothing exactly when no more than 1024 keys are then unexpired |
| `EventDedupe.EvictionIsHarmlessIffExpired` | internal/controller/saferecorder.go:58-67 | evicting any one key loses nothing exactly when that key has expired |
| `EventDedupe.Cache.Emit` | internal/controller/saferecorder.go:47-72 | never more than 1024 entries; an event goes out exactly if the cache has no entry of its key less than 3600 seconds old |
| `EventDedupe.Replay` | internal/controller/saferecorder.go:47-72 | on every run with at most 1024 keys unexpired at once the cache decides as an unbounded map does: an event goes out exactly if none of its key that went out before is less than an hour older |
| `WatchMappers.SourcesForTunnel` | internal/controller/httproute_source_controller.go:359-409 | exactly the routes the mapper's test accepts, in list order; `RouteMeaning.WakesConcerned` says which these are |
| `WatchMappers.TunnelMapperComplete` | internal/controller/httproute_source_controller.go:160-409 | every route whose reconcile resolves to the tunnel passes that test, unless one of its parents could not be read |
| `WatchMappers.RoutesForGateway` | internal/controller/httproute_source_controller.go:321-347 | exactly the routes naming the Gateway as a parent, once each |
| `WatchMappers.GatewayMapperComplete` | internal/controller/httproute_source_controller.go:127-347 | if two states differ in one Gateway and a route's selection or origin differs, the route names that Gateway |
| `WatchMappers.AutoSelectedByGateway` | internal/controller/httproute_source_controller.go:127-158 | selected exactly when some parent allows the namespace, has auto-routes on and names a service; undecided only when a parent could not be read |
| `WatchMappers.ResolveParentGatewayProxy` | internal/controller/httproute_source_controller.go:236-287 | an origin exactly when all usable parents lead to that one |
| `WatchMappers.ParseTunnelRefReadsBack` | internal/controller/source_target.go:46-58 | a qualified reference reads back as the tunnel it names |
| `WatchMappers.AgentMapperFindsIff` | internal/controller/source_target.go:104-114 | exactly the sources heading for the agent by agent-ref are found, if their tunnel-ref is explicit |
| `WatchMappers.AgentMapperMissesDefaultTunnel` | internal/controller/source_target.go:104-114 | a concrete source it misses |
| `WatchMappers.OriginSafeFromServiceIff` | internal/controller/httproute_source_controller.go:236-419 | a route's origins are unmoved by every change of a Service exactly when no existing parent Gateway proxies through it |
| `WatchMappers.RouteKeepsOriginIff` | internal/controller/httproute_source_controller.go:236-419 | a route that has its one origin keeps it under every change of a Service exactly when no existing parent Gateway proxies through it |
| `WatchMappers.ServiceChangeMovesOrigin` | internal/controller/httproute_source_controller.go:411-419 | two states that differ in one Service only, with different origins |
| `WatchMappers.OptedSourceRequests` | internal/controller/source_target.go:275-294 | every listed source that carries the tunnel key and matches, in list order |

## Left out

- SourceBase.ApplyContribution: the steps interleaved do not include hand edits of routing fields or deletion of an agent by a user, which may take a source's leaves at any time; `SourceStore.RunKeepsInv` and `SourceStore.OnlyIdleAgentsGo` do include them. For a source other than an HTTPRoute the dns-record stamp is part of the routing given.
- TunnelController.Reconcile: starts once the invite is issued; creating or adopting the invite, the deferral while no hostname is desired, the token Secret, region endpoints and their endpoints call are not modelled.
- AgentController.RunIsSound: the optional connectivity condition, condition reasons and messages are not modelled, since none of them gates a phase.
- Server-side apply is the leaf-ownership model of `SourceStore`; atomic lists, schema defaulting and pruning of unknown fields are not modelled. An apply that would create an agent is refused, because an agent needs a tunnelRef.
- Deriving routing from Services, Gateways and listeners, port-scoped annotations and public ports: for these sources the view read is given. For an HTTPRoute it is derived, lists and gets other than of parent Gateways always succeeding.
- Annotation vocabularies (truthiness), gateway-service references and host:port text are functions given to the proofs.
- The connectivity objects (ServiceAccount, NodePort Service, RBAC, node-reader subjects) and the agent's token copy: only whether applying them succeeded, clashed or failed.
- Event texts, recorder plumbing, the per-call deadlines and the back-off on rate limits.
- Provider-specific DNS properties; the CRD's defaulted fields on live Deployments, which the write test is assumed to see as built.
- Admission of watch events (the predicates on generation, annotation and label changes) and the informer caches.
- The mutex around the dedupe cache: emits are taken one at a time.
