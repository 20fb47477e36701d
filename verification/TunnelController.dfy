/** One tunnel's reconcile: hostnames, then DNS, then ports; and many tunnels against one hub. */
module TunnelController {
  import opened Text
  import opened Histories
  import opened Conventions
  import opened Environment
  import opened Api
  import opened TunnelInvite
  import opened PortDemand
  import opened PortProtocol
  import opened TunnelPorts
  import opened TunnelDNS
  import TunnelDelete

  // ---- the agents of a tunnel ----

  /** resolvedTunnelRef. */
  function ResolvedTunnelRef(a: Agent): ObjectKey {
    ObjectKey(if a.tunnelRef.namespace != "" then a.tunnelRef.namespace else a.key.namespace, a.tunnelRef.name)
  }

  predicate References(a: Agent, t: ObjectKey) {
    a.tunnelRef.name != "" && ResolvedTunnelRef(a) == t
  }

  /** listReferencingAgents: from whatever order the list arrives in, one list in ns/name order. */
  method ListReferencingAgents(items: seq<Agent>, t: ObjectKey) returns (agents: seq<Agent>)
    requires DistinctBy(items, AgentName)
    ensures StrictlySortedBy(agents, AgentName)
    ensures Elements(agents) == set a | a in items && References(a, t)
    ensures forall a :: a in agents <==>
              && a in items && a.tunnelRef.name == t.name && t.name != ""
              && t.namespace == if a.tunnelRef.namespace == "" then a.key.namespace else a.tunnelRef.namespace
  {
    agents := [];
    for i := 0 to |items|
      invariant Elements(agents) == set a | a in items[..i] && References(a, t)
      invariant DistinctBy(agents, AgentName)
      invariant forall a :: a in agents ==> a in items[..i]
    {
      assert items[..i + 1] == items[..i] + [items[i]];
      if References(items[i], t) {
        forall a | a in agents ensures AgentName(a) != AgentName(items[i]) {
          var j :| 0 <= j < i && items[..i][j] == a;
        }
        assert Elements(agents + [items[i]]) == Elements(agents) + {items[i]};
        agents := agents + [items[i]];
      }
    }
    assert items[..|items|] == items;
    SortBySorts(agents, AgentName);
    SortByContents(agents, AgentName);
    agents := SortBy(agents, AgentName);
    assert forall a :: a in agents <==> a in Elements(agents);
  }

  // ---- what is published, against what the hub holds ----

  /** A tunnel as the hub and the cluster know it. */
  datatype Party = Party(t: ObjectKey, invite: string, tenant: string)

  /** Which of the names held get a record. */
  datatype Policy = Policy(includeWildcards: bool, optOut: set<string>)

  function PublishedFor(w: World, hash: string): set<string> {
    set k, i | k in Owned(w, hash) && 0 <= i < |w.dns[k].endpoints| :: w.dns[k].endpoints[i].dnsName
  }

  function PublishableNames(names: set<string>, policy: Policy): set<string> {
    set h | h in names && Published(h, policy.includeWildcards, policy.optOut)
  }

  /** The names published are exactly those the hub holds for the invite, less the ones left out. */
  ghost predicate InSync(w: World, digest: string -> string, p: Party, policy: Policy) {
    && Active(w, p.invite)
    && PublishedFor(w, OwnerHash(digest, p.t)) == PublishableNames(Names(w, p.invite), policy)
  }

  lemma OneObjectPublishes(w: World, hash: string, key: ObjectKey, names: seq<string>, target: string, ttl: int)
    requires Owned(w, hash).Keys == {key} && w.dns[key].endpoints == Endpoints(names, target, ttl)
    ensures PublishedFor(w, hash) == Elements(names)
  {
    forall h ensures h in PublishedFor(w, hash) <==> h in Elements(names) {
      if h in names {
        var i :| 0 <= i < |names| && names[i] == h;
        assert key in Owned(w, hash) && w.dns[key].endpoints[i].dnsName == h;
      }
    }
  }

  lemma OwnedPublishes(w: World, hash: string, key: ObjectKey, obj: DNSObject, names: seq<string>, target: string,
                       ttl: int)
    requires obj.endpoints == Endpoints(names, target, ttl)
    requires Owned(w, hash) == if names == [] then map[] else map[key := obj]
    ensures PublishedFor(w, hash) == Elements(names)
  {
    if names != [] {
      assert Owned(w, hash)[key] == obj;
      OneObjectPublishes(w, hash, key, names, target, ttl);
    }
  }

  lemma NamesArePublishable(tt: Tunnel, view: InviteView, optOut: set<string>, held: set<string>)
    requires !view.revoked && StrictlySorted(view.confirmed) && "" !in view.confirmed
    requires Elements(view.confirmed) == held
    ensures Elements(NamesToPublish(tt, view, optOut)) ==
            PublishableNames(held, Policy(tt.dns.includeWildcards, optOut))
  {
    DedupFixesSorted(view.confirmed);
    PublishedExactly(view.confirmed, tt.dns.includeWildcards, optOut);
    assert forall h :: h in view.confirmed <==> h in held;
  }

  /** A synced condition, read back: hub and DNS agree. */
  lemma SyncedMeansInSync(tt: Tunnel, w: World, digest: string -> string, view: InviteView, optOut: set<string>,
                          target: string, retry: bool)
    requires Reports(tt, w, digest, NamesToPublish(tt, view, optOut), target, retry)
    requires tt.status.dnsSynced.Some? && tt.status.dnsSynced.value.status
    requires !view.revoked && Active(w, tt.status.inviteID) && StrictlySorted(view.confirmed) && "" !in view.confirmed
    requires Elements(view.confirmed) == Names(w, tt.status.inviteID)
    ensures InSync(w, digest, Party(tt.key, tt.status.inviteID, tt.status.tenantID),
                   Policy(tt.dns.includeWildcards, optOut))
  {
    var names, hash := NamesToPublish(tt, view, optOut), OwnerHash(digest, tt.key);
    var key := EndpointKey(tt, digest);
    OwnedPublishes(w, hash, key, EndpointObject(tt, digest, names, target), names, target, tt.dns.defaultTTL);
    NamesArePublishable(tt, view, optOut, Names(w, tt.status.inviteID));
  }

  // ---- one call of one tunnel ----

  ghost predicate TunnelStep(w: World, v: World, p: Party, digest: string -> string) {
    || (exists desired: set<string> :: HostnameStep(w, v, p.invite, desired))
    || OnlyOwnDNS(w, v, OwnerOf(digest, p.t))
    || OnlyPorts(w, v, p.tenant)
  }

  ghost function TunnelSteps(p: Party, digest: string -> string): Rule<World> {
    (w, v) => TunnelStep(w, v, p, digest)
  }

  lemma HostnameCallsAreSteps(a: seq<World>, b: seq<World>, desired: set<string>, p: Party, digest: string -> string)
    requires Extends(a, b, HostnameSteps(p.invite, desired))
    ensures Extends(a, b, TunnelSteps(p, digest))
  {}

  lemma DNSCallsAreSteps(a: seq<World>, b: seq<World>, p: Party, digest: string -> string)
    requires Extends(a, b, DNSSteps(OwnerOf(digest, p.t)))
    ensures Extends(a, b, TunnelSteps(p, digest))
  {}

  lemma PortCallsAreSteps(a: seq<World>, b: seq<World>, t: ObjectKey, status: seq<PortAllocation>, blind: bool,
                          p: Party, digest: string -> string)
    requires Extends(a, b, PortSteps(t, p.tenant, status, blind))
    ensures Extends(a, b, TunnelSteps(p, digest))
  {}

  /** No reservation of any tenant changes along the way. */
  ghost predicate SameTenants(before: seq<World>, after: seq<World>) {
    && before != [] && before <= after
    && forall i :: |before| <= i + 1 && i < |after| ==> after[i].tenants == before[|before| - 1].tenants
  }

  lemma KeepingTenants(a: seq<World>, b: seq<World>, step: Rule<World>)
    requires Extends(a, b, step) && forall w, v :: step(w, v) ==> v.tenants == w.tenants
    ensures SameTenants(a, b)
  {
    var run := b[|a| - 1..];
    Constant(run, step, (w: World) => w.tenants);
    forall i | |a| <= i + 1 && i < |b| ensures b[i].tenants == a[|a| - 1].tenants {
      assert b[i] == run[i - (|a| - 1)];
    }
  }

  // ---- one pass ----

  /** How far the names half got: a view of the invite, no invite at all, or a failed call. */
  datatype NamesPass = Reported(retry: bool) | Withdrawn(retry: bool) | Stuck

  datatype Pass = NamesFailed | PortsFailed | Finished(retrySoon: bool)

  /** The view names what the invite holds once converged, or nothing when it is revoked. */
  ghost predicate ViewIsTrue(w: World, id: string, view: InviteView, desired: seq<string>) {
    && id in w.invites && Active(w, id) == !view.revoked
    && (!view.revoked ==>
        Settled(w, id, desired) && StrictlySorted(view.confirmed) && Elements(view.confirmed) == Names(w, id))
  }

  ghost predicate SameButNames(s: TunnelStatus, s': TunnelStatus) {
    s' == s.(authorizedHostnames := s'.authorizedHostnames, hostnamesSynced := s'.hostnamesSynced,
             dnsSynced := s'.dnsSynced, dnsRecords := s'.dnsRecords)
  }

  function PartyOf(tt: Tunnel): Party
    reads tt
  {
    Party(tt.key, tt.status.inviteID, tt.status.tenantID)
  }

  function DesiredSet(tt: Tunnel, agents: seq<Agent>): set<string> {
    Elements(tt.extraHostnames) + ServiceHostnames(agents) - {""}
  }

  /** What the DNS half leaves when it has a view to work from. */
  ghost predicate DNSOutcome(tt: Tunnel, w: World, digest: string -> string, agents: seq<Agent>, retry: bool)
    reads tt
  {
    var id, hash := tt.status.inviteID, OwnerHash(digest, tt.key);
    && (tt.status.dnsSynced.Some? && tt.status.dnsSynced.value.status ==>
          && InSync(w, digest, PartyOf(tt), Policy(tt.dns.includeWildcards, OptedOut(agents)))
          && (forall h :: h in Names(w, id) <==> h in DesiredSet(tt, agents) && !HeldElsewhere(w, id, h)))
    && (!Active(w, id) && !retry ==> Owned(w, hash) == map[])
    && (tt.dns.mode.Disabled? && !retry ==> Owned(w, hash) == map[])
  }

  lemma DNSOutcomeHolds(tt: Tunnel, converged: World, w: World, digest: string -> string, view: InviteView,
                        agents: seq<Agent>, desired: seq<string>, target: string, retry: bool)
    requires w == converged.(dns := w.dns) && WellFormed(converged)
    requires Reports(tt, w, digest, NamesToPublish(tt, view, OptedOut(agents)), target, retry)
    requires ViewIsTrue(converged, tt.status.inviteID, view, desired)
    requires view.revoked ==> tt.status.dnsSynced.None? || !tt.status.dnsSynced.value.status
    requires view.revoked && !retry ==> Owned(w, OwnerHash(digest, tt.key)) == map[]
    requires tt.dns.mode.Disabled? && !retry ==> Owned(w, OwnerHash(digest, tt.key)) == map[]
    requires Elements(desired) == DesiredSet(tt, agents)
    ensures DNSOutcome(tt, w, digest, agents, retry)
  {
    if tt.status.dnsSynced.Some? && tt.status.dnsSynced.value.status {
      var id := tt.status.inviteID;
      NoEmptyNames(converged, id);
      assert "" !in Elements(view.confirmed);
      SyncedMeansInSync(tt, w, digest, view, OptedOut(agents), target, retry);
      forall h ensures h in Names(w, id) <==> h in DesiredSet(tt, agents) && !HeldElsewhere(w, id, h) {
        SameInvitesSameHolders(converged, w, id, h);
        assert h in desired <==> h in Elements(desired);
      }
    }
  }

  lemma SameInvitesSameHolders(w: World, v: World, id: string, h: string)
    requires v.invites == w.invites
    ensures HeldElsewhere(v, id, h) == HeldElsewhere(w, id, h) && Names(v, id) == Names(w, id)
  {
    SameHolders(w, w.(invites := v.invites), id, h);
    if HeldElsewhere(w, id, h) {
      var other :| other != id && Active(w, other) && h in Names(w, other);
      assert Active(v, other) && h in Names(v, other);
    }
    if HeldElsewhere(v, id, h) {
      var other :| other != id && Active(v, other) && h in Names(v, other);
      assert Active(w, other) && h in Names(w, other);
    }
  }

  lemma PortsKeepDNSOutcome(tt: Tunnel, w: World, v: World, digest: string -> string, agents: seq<Agent>, retry: bool)
    requires OnlyPorts(w, v, tt.status.tenantID) && DNSOutcome(tt, w, digest, agents, retry)
    ensures DNSOutcome(tt, v, digest, agents, retry)
  {
    var id := tt.status.inviteID;
    assert Owned(v, OwnerHash(digest, tt.key)) == Owned(w, OwnerHash(digest, tt.key));
    assert PublishedFor(v, OwnerHash(digest, tt.key)) == PublishedFor(w, OwnerHash(digest, tt.key));
    forall h ensures HeldElsewhere(v, id, h) == HeldElsewhere(w, id, h) {
      SameInvitesSameHolders(w, v, id, h);
    }
  }

  /** Nobody else's invites, tenants or DNS objects differ, and nothing but those three does. */
  ghost predicate OnlyThisTunnel(w: World, v: World, p: Party, digest: string -> string) {
    && v == w.(invites := v.invites, tenants := v.tenants, dns := v.dns)
    && (forall other :: other != p.invite ==> Names(v, other) == Names(w, other))
    && (forall u :: u != p.tenant ==> Ports(v, u) == Ports(w, u))
    && (forall k :: k in w.dns && !OwnedBy(w.dns[k], OwnerHash(digest, p.t)) ==> k in v.dns && v.dns[k] == w.dns[k])
  }

  lemma HostnamesOnlyThis(start: World, w: World, before: seq<World>, after: seq<World>, desired: set<string>, p: Party,
                          digest: string -> string)
    requires Extends(before, after, HostnameSteps(p.invite, desired)) && before[|before| - 1] == start
    requires after[|after| - 1] == w
    ensures OnlyHostnames(start, w, p.invite) && OnlyThisTunnel(start, w, p, digest)
  {
    var run := after[|before| - 1..];
    RunConverges(run, p.invite, desired);
    assert run[0] == start && run[|run| - 1] == w;
  }

  /** What convergeHostnames found, with nothing but this invite's hostnames touched. */
  method ConvergeNames(env: Env, tt: Tunnel, agents: seq<Agent>, ghost digest: string -> string)
    returns (got: ViewResult, ghost desired: seq<string>)
    requires env.Valid()
    modifies env`w, env`calls, env`history, tt`status
    ensures env.Valid() && Extends(old(env.history), env.history, TunnelSteps(PartyOf(tt), digest))
    ensures OnlyThisTunnel(old(env.w), env.w, PartyOf(tt), digest) && env.w == old(env.w).(invites := env.w.invites)
    ensures tt.status ==
            old(tt.status).(authorizedHostnames := tt.status.authorizedHostnames,
                            hostnamesSynced := tt.status.hostnamesSynced)
    ensures tt.status.hostnamesSynced ==
            Some(if !got.View? then Condition(false, APIError)
                 else if got.view.revoked then Condition(false, InviteRevoked) else Condition(true, Synced))
    ensures Elements(desired) == DesiredSet(tt, agents)
    ensures got.View? ==> ViewIsTrue(env.w, tt.status.inviteID, got.view, desired)
    ensures got.InviteGone? ==> tt.status.inviteID !in env.w.invites && env.w == old(env.w)
    ensures OnlyHostnames(old(env.w), env.w, tt.status.inviteID)
    ensures got.View? ==>
              && tt.status.inviteID in old(env.w).invites
              && got.view.region == HubRegion(old(env.w).invites[tt.status.inviteID].region)
    ensures SameTenants(old(env.history), env.history)
    ensures env.Flawless() ==> !got.Failed?
  {
    ghost var p, start := PartyOf(tt), env.w;
    var hosts := DesiredHostnames(tt.extraHostnames, agents);
    desired := hosts;
    got := ConvergeHostnames(env, tt, hosts);
    HostnameCallsAreSteps(old(env.history), env.history, Elements(hosts), p, digest);
    KeepingTenants(old(env.history), env.history, HostnameSteps(p.invite, Elements(hosts)));
    HostnamesOnlyThis(start, env.w, old(env.history), env.history, Elements(hosts), p, digest);
    tt.status := tt.status.(hostnamesSynced :=
      Some(if !got.View? then Condition(false, APIError)
           else if got.view.revoked then Condition(false, InviteRevoked) else Condition(true, Synced)));
  }

  /** The invite is active, DNS is wanted, and nothing in the cluster stands in the way. */
  predicate Publishable(w: World, tt: Tunnel, digest: string -> string, edgeTargets: map<string, string>)
    reads tt
  {
    var id := tt.status.inviteID;
    Active(w, id) && CanPublish(w, tt, digest, EdgeTarget(tt.dns, edgeTargets, HubRegion(w.invites[id].region)))
  }

  /** The hostname and DNS half of Reconcile. */
  method ReconcileNames(env: Env, tt: Tunnel, digest: string -> string, agents: seq<Agent>,
                        edgeTargets: map<string, string>)
    returns (r: NamesPass)
    requires env.Valid()
    modifies env`w, env`calls, env`history, tt`status
    ensures env.Valid() && Extends(old(env.history), env.history, TunnelSteps(PartyOf(tt), digest))
    ensures OnlyThisTunnel(old(env.w), env.w, PartyOf(tt), digest) && env.w.tenants == old(env.w.tenants)
    ensures match r
            case Reported(retry) => DNSOutcome(tt, env.w, digest, agents, retry)
            case Withdrawn(retry) =>
              && tt.status.inviteID !in old(env.w).invites
              && (!retry ==> Owned(env.w, OwnerHash(digest, tt.key)) == map[])
            case Stuck => env.w.dns == old(env.w.dns) && tt.status.dnsSynced == old(tt.status.dnsSynced)
    ensures tt.status.hostnamesSynced ==
            Some(if !r.Reported? then Condition(false, APIError)
                 else if Active(env.w, tt.status.inviteID) then Condition(true, Synced)
                     else Condition(false, InviteRevoked))
    ensures SameButNames(old(tt.status), tt.status)
    ensures SameTenants(old(env.history), env.history)
    ensures env.Flawless() ==> !r.Stuck?
    ensures env.Flawless() && Publishable(old(env.w), tt, digest, edgeTargets) ==>
              r.Reported? && tt.status.dnsSynced == Some(Condition(true, Synced))
  {
    ghost var p, start := PartyOf(tt), env.w;
    var got;
    ghost var desired;
    got, desired := ConvergeNames(env, tt, agents, digest);
    if got.Failed? {
      return Stuck;
    }
    ghost var converged, between := env.w, env.history;
    r := PublishGot(env, tt, digest, got, agents, edgeTargets, desired);
    Joined(old(env.history), between, env.history, TunnelSteps(p, digest));
    TenantsStillSame(old(env.history), between, env.history);
    NamesThenDNSOnlyThis(start, converged, env.w, p, digest);
  }

  /** The DNS half, given what the hub said of the invite. */
  method PublishGot(env: Env, tt: Tunnel, digest: string -> string, got: ViewResult, agents: seq<Agent>,
                    edgeTargets: map<string, string>, ghost desired: seq<string>)
    returns (r: NamesPass)
    requires env.Valid() && !got.Failed? && Elements(desired) == DesiredSet(tt, agents)
    requires got.View? ==> ViewIsTrue(env.w, tt.status.inviteID, got.view, desired)
    modifies env`w, env`calls, env`history, tt`status
    ensures env.Valid() && Extends(old(env.history), env.history, TunnelSteps(PartyOf(tt), digest))
    ensures OnlyOwnDNS(old(env.w), env.w, OwnerOf(digest, tt.key)) && SameTenants(old(env.history), env.history)
    ensures match r
            case Reported(retry) => got.View? && DNSOutcome(tt, env.w, digest, agents, retry)
            case Withdrawn(retry) => got.InviteGone? && (!retry ==> Owned(env.w, OwnerHash(digest, tt.key)) == map[])
            case Stuck => false
    ensures tt.status == old(tt.status).(dnsSynced := tt.status.dnsSynced, dnsRecords := tt.status.dnsRecords)
    ensures env.Flawless() && got.View? && !got.view.revoked
            && CanPublish(old(env.w), tt, digest, EdgeTarget(tt.dns, edgeTargets, got.view.region)) ==>
              tt.status.dnsSynced == Some(Condition(true, Synced))
  {
    ghost var converged := env.w;
    var view := if got.View? then got.view else InviteView([], "", true);
    var optOut := {};
    if got.View? {
      optOut := DNSOptOutHostnames(agents);
    }
    var again := PublishView(env, tt, digest, view, edgeTargets, optOut, PartyOf(tt));
    if got.InviteGone? {
      return Withdrawn(again);
    }
    DNSOutcomeHolds(tt, converged, env.w, digest, view, agents, desired, EdgeTarget(tt.dns, edgeTargets, view.region),
                    again);
    return Reported(again);
  }

  lemma TenantsStillSame(a: seq<World>, b: seq<World>, c: seq<World>)
    requires SameTenants(a, b) && SameTenants(b, c)
    ensures SameTenants(a, c)
  {
    assert forall i :: |a| <= i + 1 && i < |b| ==> c[i] == b[i];
  }

  lemma NamesThenDNSOnlyThis(start: World, converged: World, w: World, p: Party, digest: string -> string)
    requires OnlyThisTunnel(start, converged, p, digest) && OnlyOwnDNS(converged, w, OwnerOf(digest, p.t))
    ensures OnlyThisTunnel(start, w, p, digest)
  {}

  /** The DNS step, as one stretch of this tunnel's calls. */
  method PublishView(env: Env, tt: Tunnel, digest: string -> string, view: InviteView, edgeTargets: map<string, string>,
                     optOut: set<string>, ghost p: Party)
    returns (retry: bool)
    requires env.Valid() && p.t == tt.key
    modifies env`w, env`calls, env`history, tt`status
    ensures env.Valid() && Extends(old(env.history), env.history, TunnelSteps(p, digest))
    ensures OnlyOwnDNS(old(env.w), env.w, OwnerOf(digest, p.t))
    ensures Reports(tt, env.w, digest, NamesToPublish(tt, view, optOut), EdgeTarget(tt.dns, edgeTargets, view.region),
                    retry)
    ensures view.revoked ==> tt.status.dnsSynced.None? || !tt.status.dnsSynced.value.status
    ensures (view.revoked || tt.dns.mode.Disabled?) && !retry ==> Owned(env.w, OwnerHash(digest, tt.key)) == map[]
    ensures SameTenants(old(env.history), env.history)
    ensures env.Flawless() && !view.revoked
            && CanPublish(old(env.w), tt, digest, EdgeTarget(tt.dns, edgeTargets, view.region)) ==>
              tt.status.dnsSynced == Some(Condition(true, Synced))
    ensures tt.status == old(tt.status).(dnsSynced := tt.status.dnsSynced, dnsRecords := tt.status.dnsRecords)
  {
    ghost var past := env.history;
    retry := ReconcileDNS(env, tt, digest, view, edgeTargets, optOut);
    KeepingTenants(past, env.history, DNSSteps(OwnerOf(digest, tt.key)));
    DNSCallsAreSteps(past, env.history, p, digest);
  }

  lemma NamesThenPortsKeepSafe(start: seq<World>, between: seq<World>, end: seq<World>, t: ObjectKey, tenant: string,
                               status: seq<PortAllocation>, status': seq<PortAllocation>)
    requires SameTenants(start, between) && between <= end
    ensures PassKeepsSafe(between, end, t, tenant, status, status') ==>
              PassKeepsSafe(start, end, t, tenant, status, status')
  {
    assert forall i :: |start| <= i + 1 && i < |between| ==>
           between[i] == end[i] && Ports(between[i], tenant) == Ports(start[|start| - 1], tenant);
  }

  lemma NamesThenPortsOnlyThis(start: World, named: World, w: World, p: Party, digest: string -> string)
    requires OnlyThisTunnel(start, named, p, digest) && OnlyPorts(named, w, p.tenant)
    ensures OnlyThisTunnel(start, w, p, digest)
  {}

  /** Reconcile, from the point where the invite is issued: names first, so that ports never hold them up. */
  method Reconcile(env: Env, tt: Tunnel, digest: string -> string, agents: seq<Agent>, edgeTargets: map<string, string>)
    returns (r: Pass, ghost blind: bool)
    requires env.Valid()
    modifies env, tt`status
    ensures env.Valid() && Extends(old(env.history), env.history, TunnelSteps(PartyOf(tt), digest))
    ensures OnlyThisTunnel(old(env.w), env.w, PartyOf(tt), digest) && PartyOf(tt) == old(PartyOf(tt))
    ensures !r.NamesFailed? ==>
              exists retry :: DNSOutcome(tt, env.w, digest, agents, retry) && (r.Finished? ==> r.retrySoon == retry)
    ensures env.failedLists == old(env.failedLists) + if blind then 1 else 0
    ensures env.failedLists == old(env.failedLists) && !r.NamesFailed? ==>
              PassKeepsSafe(old(env.history), env.history, tt.key, tt.status.tenantID, old(tt.status.portAllocations),
                            tt.status.portAllocations)
    ensures env.Flawless() && Publishable(old(env.w), tt, digest, edgeTargets) ==>
              !r.NamesFailed? && InSync(env.w, digest, PartyOf(tt), Policy(tt.dns.includeWildcards, OptedOut(agents)))
    ensures env.Flawless() && tt.status.inviteID in old(env.w).invites ==> !r.NamesFailed?
    ensures r.NamesFailed? ==> env.w.tenants == old(env.w.tenants) && SameButNames(old(tt.status), tt.status)
    ensures !r.NamesFailed? ==>
              PassStatus(old(tt.status.portAllocations), tt.status.portAllocations, DeclaredKeys(agents), r.Finished?)
    ensures !r.NamesFailed? ==>
              PassOutcome(Ports(old(env.w), tt.status.tenantID), Ports(env.w, tt.status.tenantID), tt.key,
                          old(tt.status.portAllocations), tt.status.portAllocations, blind, env.Lossless())
  {
    ghost var p := PartyOf(tt);
    blind := false;
    var names := ReconcileNames(env, tt, digest, agents, edgeTargets);
    if !names.Reported? {
      return NamesFailed, false;
    }
    ghost var named, between := env.w, env.history;
    var ok;
    ok, blind := PortsAfterNames(env, tt, agents, digest);
    Joined(old(env.history), between, env.history, TunnelSteps(p, digest));
    NamesThenPortsKeepSafe(old(env.history), between, env.history, tt.key, tt.status.tenantID,
                           old(tt.status.portAllocations), tt.status.portAllocations);
    NamesThenPortsOnlyThis(old(env.w), named, env.w, p, digest);
    PortsKeepDNSOutcome(tt, named, env.w, digest, agents, names.retry);
    r := if ok then Finished(names.retry) else PortsFailed;
  }

  /** The port half, as one stretch of this tunnel's calls. */
  method PortsAfterNames(env: Env, tt: Tunnel, agents: seq<Agent>, ghost digest: string -> string)
    returns (ok: bool, ghost blind: bool)
    requires env.Valid()
    modifies env, tt`status
    ensures env.Valid() && Extends(old(env.history), env.history, TunnelSteps(PartyOf(tt), digest))
    ensures OnlyPorts(old(env.w), env.w, tt.status.tenantID)
    ensures tt.status ==
            old(tt.status).(portAllocations := tt.status.portAllocations, edges := tt.status.edges,
                            portsReserved := tt.status.portsReserved)
    ensures PassStatus(old(tt.status.portAllocations), tt.status.portAllocations, DeclaredKeys(agents), ok)
    ensures PassOutcome(Ports(old(env.w), tt.status.tenantID), Ports(env.w, tt.status.tenantID), tt.key,
                        old(tt.status.portAllocations), tt.status.portAllocations, blind, env.Lossless())
    ensures env.failedLists == old(env.failedLists) + if blind then 1 else 0
    ensures !blind ==>
              PassKeepsSafe(old(env.history), env.history, tt.key, tt.status.tenantID, old(tt.status.portAllocations),
                            tt.status.portAllocations)
  {
    ok, blind := ConvergePorts(env, tt, agents);
    PortCallsAreSteps(old(env.history), env.history, tt.key, old(tt.status.portAllocations), blind, PartyOf(tt),
                      digest);
  }

  // ---- many tunnels, any interleaving ----

  /** A call of another tunnel leaves this one's names, records and agreement alone. */
  lemma OthersKeepSync(w: World, v: World, digest: string -> string, fleet: set<ObjectKey>, p: Party, q: Party,
                       policy: Policy)
    requires Fleet(fleet, digest) && p.t in fleet && q.t in fleet && p.t != q.t && p.invite != q.invite
    requires TunnelStep(w, v, q, digest) && InSync(w, digest, p, policy)
    ensures InSync(v, digest, p, policy)
  {
    var hash := OwnerHash(digest, p.t);
    if desired: set<string> :| HostnameStep(w, v, q.invite, desired) {
      if v != w {
        StepShrinks(w, v, q.invite, desired);
      }
      assert v.dns == w.dns && Active(v, p.invite) && Names(v, p.invite) == Names(w, p.invite);
      SameDNSSamePublished(w, v, hash);
    } else if OnlyOwnDNS(w, v, OwnerOf(digest, q.t)) {
      OthersUntouched(w, v, fleet, digest, q.t, p.t);
      assert v.invites == w.invites;
      SameOwnedSamePublished(w, v, hash);
    } else {
      assert OnlyPorts(w, v, q.tenant);
      SameDNSSamePublished(w, v, hash);
    }
  }

  lemma SameDNSSamePublished(w: World, v: World, hash: string)
    requires v.dns == w.dns
    ensures PublishedFor(v, hash) == PublishedFor(w, hash)
  {}

  lemma SameOwnedSamePublished(w: World, v: World, hash: string)
    requires Owned(v, hash) == Owned(w, hash)
    ensures PublishedFor(v, hash) == PublishedFor(w, hash)
  {}

  /** A call of a tunnel's delete pass. */
  ghost predicate Deletes(w: World, v: World, q: Party, digest: string -> string, d: TunnelDelete.Doomed,
                          listed: bool) {
    && d.t == q.t && d.hash == OwnerHash(digest, q.t) && d.invite == q.invite && d.tenant == q.tenant
    && TunnelDelete.DeleteStep(w, v, d, listed)
  }

  /** The hub issues a tunnel its invite, for names no active invite holds. */
  ghost predicate Issues(w: World, v: World, q: Party) {
    && q.invite !in w.invites && v == w.(invites := v.invites) && v.invites.Keys == w.invites.Keys + {q.invite}
    && (forall id :: id in w.invites ==> v.invites[id] == w.invites[id])
    && (forall h :: h in Names(v, q.invite) ==> !Reserved(w, h))
  }

  /** Anything a tunnel may do: be issued an invite, converge, or be deleted. */
  ghost predicate PartyStep(w: World, v: World, q: Party, digest: string -> string) {
    || TunnelStep(w, v, q, digest)
    || (exists d, listed :: Deletes(w, v, q, digest, d, listed))
    || Issues(w, v, q)
  }

  lemma DeleteStepKeeps(w: World, v: World, d: TunnelDelete.Doomed, listed: bool)
    requires TunnelDelete.DeleteStep(w, v, d, listed)
    ensures forall id :: id in v.invites ==> id in w.invites && v.invites[id] == w.invites[id]
    ensures forall id :: id in w.invites && id != d.invite ==> id in v.invites
    ensures v.dns == w.dns || OnlyOwnDNS(w, v, Owner(d.hash, None))
  {}

  lemma DeletesKeepSync(w: World, v: World, digest: string -> string, fleet: set<ObjectKey>, p: Party, q: Party,
                        policy: Policy, d: TunnelDelete.Doomed, listed: bool)
    requires Fleet(fleet, digest) && p.t in fleet && q.t in fleet && p.t != q.t && p.invite != q.invite
    requires Deletes(w, v, q, digest, d, listed) && InSync(w, digest, p, policy)
    ensures InSync(v, digest, p, policy)
  {
    var hash := OwnerHash(digest, p.t);
    DeleteStepKeeps(w, v, d, listed);
    if v.dns == w.dns {
      SameDNSSamePublished(w, v, hash);
    } else {
      OthersUntouched(w, v, fleet, digest, q.t, p.t);
      SameOwnedSamePublished(w, v, hash);
    }
  }

  lemma OthersStepKeepsSync(w: World, v: World, digest: string -> string, fleet: set<ObjectKey>, p: Party, q: Party,
                            policy: Policy)
    requires Fleet(fleet, digest) && p.t in fleet && q.t in fleet && p.t != q.t && p.invite != q.invite
    requires PartyStep(w, v, q, digest) && InSync(w, digest, p, policy)
    ensures InSync(v, digest, p, policy)
  {
    if TunnelStep(w, v, q, digest) {
      OthersKeepSync(w, v, digest, fleet, p, q, policy);
    } else if Issues(w, v, q) {
      SameDNSSamePublished(w, v, OwnerHash(digest, p.t));
    } else {
      var d, listed :| Deletes(w, v, q, digest, d, listed);
      DeletesKeepSync(w, v, digest, fleet, p, q, policy, d, listed);
    }
  }

  ghost predicate OthersStep(w: World, v: World, digest: string -> string, fleet: set<ObjectKey>, p: Party) {
    exists q: Party :: q.t in fleet && q.t != p.t && q.invite != p.invite && PartyStep(w, v, q, digest)
  }

  ghost function OthersSteps(digest: string -> string, fleet: set<ObjectKey>, p: Party): Rule<World> {
    (w, v) => OthersStep(w, v, digest, fleet, p)
  }

  /**
   * Once in sync, a tunnel stays so through any interleaving of the other tunnels' calls: being
   * issued an invite, converging, and being deleted.
   */
  lemma {:induction false} SyncSurvivesOthers(run: seq<World>, digest: string -> string, fleet: set<ObjectKey>,
                                              p: Party, policy: Policy)
    requires run != [] && Fleet(fleet, digest) && p.t in fleet && InSync(run[0], digest, p, policy)
    requires Chain(run, OthersSteps(digest, fleet, p))
    ensures InSync(run[|run| - 1], digest, p, policy)
  {
    if |run| > 1 {
      var n := |run| - 1;
      SyncSurvivesOthers(run[..n], digest, fleet, p, policy);
      SyncSurvivesStep(run[n - 1], run[n], digest, fleet, p, policy);
    }
  }

  lemma SyncSurvivesStep(w: World, v: World, digest: string -> string, fleet: set<ObjectKey>, p: Party, policy: Policy)
    requires Fleet(fleet, digest) && p.t in fleet && OthersSteps(digest, fleet, p)(w, v) && InSync(w, digest, p, policy)
    ensures InSync(v, digest, p, policy)
  {
    var q: Party :| q.t in fleet && q.t != p.t && q.invite != p.invite && PartyStep(w, v, q, digest);
    OthersStepKeepsSync(w, v, digest, fleet, p, q, policy);
  }

  // ---- the hub's law over runs ----

  lemma HostnameStepKeepsLaw(w: World, v: World, id: string, desired: set<string>)
    requires HostnamesExclusive(w) && HostnameStep(w, v, id, desired)
    ensures HostnamesExclusive(v)
  {
    if h :| h in desired && Adds(w, v, id, h) {
      forall a, b, n | Active(v, a) && Active(v, b) && n in Names(v, a) && n in Names(v, b) ensures a == b {
        assert Active(w, a) && Active(w, b);
        assert a != id ==> n in Names(w, a);
        assert b != id ==> n in Names(w, b);
      }
    } else if h :| h !in desired && Removes(w, v, id, h) {
      forall a, b, n | Active(v, a) && Active(v, b) && n in Names(v, a) && n in Names(v, b) ensures a == b {
        assert Active(w, a) && Active(w, b) && n in Names(w, a) && n in Names(w, b);
      }
    }
  }

  lemma IssueKeepsLaw(w: World, v: World, q: Party)
    requires HostnamesExclusive(w) && Issues(w, v, q)
    ensures HostnamesExclusive(v)
  {
    forall a, b, n | Active(v, a) && Active(v, b) && n in Names(v, a) && n in Names(v, b) ensures a == b {
      assert a != q.invite ==> Active(w, a) && n in Names(w, a);
      assert b != q.invite ==> Active(w, b) && n in Names(w, b);
    }
  }

  lemma FewerInvitesKeepLaw(w: World, v: World)
    requires HostnamesExclusive(w) && forall id :: id in v.invites ==> id in w.invites && v.invites[id] == w.invites[id]
    ensures HostnamesExclusive(v)
  {
    forall a, b, n | Active(v, a) && Active(v, b) && n in Names(v, a) && n in Names(v, b) ensures a == b {
      assert Active(w, a) && Active(w, b) && n in Names(w, a) && n in Names(w, b);
    }
  }

  ghost function FleetSteps(digest: string -> string): Rule<World> {
    (w, v) => exists q: Party :: PartyStep(w, v, q, digest)
  }

  lemma TunnelStepKeepsLaw(w: World, v: World, q: Party, digest: string -> string)
    requires HostnamesExclusive(w) && TunnelStep(w, v, q, digest)
    ensures HostnamesExclusive(v)
  {
    if desired: set<string> :| HostnameStep(w, v, q.invite, desired) {
      HostnameStepKeepsLaw(w, v, q.invite, desired);
    } else {
      FewerInvitesKeepLaw(w, v);
    }
  }

  lemma PartyStepKeepsLaw(w: World, v: World, digest: string -> string)
    requires HostnamesExclusive(w) && FleetSteps(digest)(w, v)
    ensures HostnamesExclusive(v)
  {
    var q: Party :| PartyStep(w, v, q, digest);
    if TunnelStep(w, v, q, digest) {
      TunnelStepKeepsLaw(w, v, q, digest);
    } else if Issues(w, v, q) {
      IssueKeepsLaw(w, v, q);
    } else {
      var d, listed :| Deletes(w, v, q, digest, d, listed);
      DeleteStepKeeps(w, v, d, listed);
      FewerInvitesKeepLaw(w, v);
    }
  }

  /** Through any interleaving of any tunnels' calls, no two active invites come to hold one name. */
  lemma {:induction false} RunKeepsHostnamesExclusive(run: seq<World>, digest: string -> string)
    requires run != [] && HostnamesExclusive(run[0]) && Chain(run, FleetSteps(digest))
    ensures HostnamesExclusive(run[|run| - 1])
  {
    if |run| > 1 {
      RunKeepsHostnamesExclusive(run[..|run| - 1], digest);
      PartyStepKeepsLaw(run[|run| - 2], run[|run| - 1], digest);
    }
  }

  /** Two tunnels in sync never publish a common name, and neither publishes a name another invite holds. */
  lemma InSyncPublishDisjoint(w: World, digest: string -> string, p: Party, q: Party, mine: Policy, theirs: Policy,
                              h: string)
    requires HostnamesExclusive(w) && p.invite != q.invite
    requires InSync(w, digest, p, mine) && InSync(w, digest, q, theirs)
    ensures PublishedFor(w, OwnerHash(digest, p.t)) !! PublishedFor(w, OwnerHash(digest, q.t))
    ensures HeldElsewhere(w, p.invite, h) ==> h !in PublishedFor(w, OwnerHash(digest, p.t))
  {
    var a, b := PublishedFor(w, OwnerHash(digest, p.t)), PublishedFor(w, OwnerHash(digest, q.t));
    forall n | n in a ensures n !in b {
      assert n in Names(w, p.invite);
    }
    if HeldElsewhere(w, p.invite, h) {
      var other :| other != p.invite && Active(w, other) && h in Names(w, other);
    }
  }

  /**
   * However the passes of two tunnels are ordered and whatever the rest of the fleet does between and after them: once
   * both have ended in sync, and until one of the two acts again, they publish no common name and no name held
   * elsewhere.
   */
  lemma SyncedTunnelsStayDisjoint(run: seq<World>, digest: string -> string, fleet: set<ObjectKey>, p: Party,
                                  mine: Policy, i: nat, q: Party, theirs: Policy, j: nat, h: string)
    requires run != [] && HostnamesExclusive(run[0]) && Chain(run, FleetSteps(digest)) && i < |run| && j < |run|
    requires Fleet(fleet, digest) && p.t in fleet && q.t in fleet && p.invite != q.invite
    requires InSync(run[i], digest, p, mine) && Chain(run[i..], OthersSteps(digest, fleet, p))
    requires InSync(run[j], digest, q, theirs) && Chain(run[j..], OthersSteps(digest, fleet, q))
    ensures var w := run[|run| - 1];
      && PublishedFor(w, OwnerHash(digest, p.t)) !! PublishedFor(w, OwnerHash(digest, q.t))
      && (HeldElsewhere(w, p.invite, h) ==> h !in PublishedFor(w, OwnerHash(digest, p.t)))
      && (HeldElsewhere(w, q.invite, h) ==> h !in PublishedFor(w, OwnerHash(digest, q.t)))
  {
    RunKeepsHostnamesExclusive(run, digest);
    SyncSurvivesOthers(run[i..], digest, fleet, p, mine);
    SyncSurvivesOthers(run[j..], digest, fleet, q, theirs);
    InSyncPublishDisjoint(run[|run| - 1], digest, p, q, mine, theirs, h);
    InSyncPublishDisjoint(run[|run| - 1], digest, q, p, theirs, mine, h);
  }

  predicate SaysSynced(tt: Tunnel)
    reads tt
  {
    tt.status.dnsSynced.Some? && tt.status.dnsSynced.value.status
  }

  /** One pass, as far as others are concerned. */
  method ReconcileOne(env: Env, tt: Tunnel, digest: string -> string, agents: seq<Agent>,
                      edgeTargets: map<string, string>)
    returns (r: Pass)
    requires env.Valid()
    modifies env, tt`status
    ensures env.Valid() && PartyOf(tt) == old(PartyOf(tt))
    ensures Extends(old(env.history), env.history, TunnelSteps(PartyOf(tt), digest))
    ensures !r.NamesFailed? && SaysSynced(tt) ==>
              InSync(env.w, digest, PartyOf(tt), Policy(tt.dns.includeWildcards, OptedOut(agents)))
  {
    ghost var blind;
    r, blind := Reconcile(env, tt, digest, agents, edgeTargets);
  }

  /** Two tunnels reconciled one after the other: if both report sync, they publish no common name. */
  method ReconcileInTurn(env: Env, first: Tunnel, second: Tunnel, digest: string -> string, agents: seq<Agent>,
                         others: seq<Agent>, edgeTargets: map<string, string>)
    returns (r: Pass, s: Pass)
    requires env.Valid() && first != second && first.key != second.key && Fleet({first.key, second.key}, digest)
    requires first.status.inviteID != second.status.inviteID
    modifies env, first`status, second`status
    ensures env.Valid()
    ensures !r.NamesFailed? && !s.NamesFailed? && SaysSynced(first) && SaysSynced(second) ==>
              PublishedFor(env.w, OwnerHash(digest, first.key)) !! PublishedFor(env.w, OwnerHash(digest, second.key))
  {
    hide InSync, HeldElsewhere, Chain, PublishedFor, Fleet;
    r := ReconcileOne(env, first, digest, agents, edgeTargets);
    ghost var past, p, mine := env.history, PartyOf(first), Policy(first.dns.includeWildcards, OptedOut(agents));
    ghost var synced := !r.NamesFailed? && SaysSynced(first);
    assert synced ==> InSync(past[|past| - 1], digest, p, mine);
    s := ReconcileOne(env, second, digest, others, edgeTargets);
    if synced && !s.NamesFailed? && SaysSynced(second) {
      DisjointAfterBoth(past, env.history, digest, p, mine, PartyOf(second),
                        Policy(second.dns.includeWildcards, OptedOut(others)));
    }
  }

  lemma DisjointAfterBoth(before: seq<World>, after: seq<World>, digest: string -> string, p: Party, mine: Policy,
                          q: Party, theirs: Policy)
    requires Extends(before, after, TunnelSteps(q, digest)) && HostnamesExclusive(after[|after| - 1])
    requires Fleet({p.t, q.t}, digest) && p.t != q.t && p.invite != q.invite
    requires InSync(before[|before| - 1], digest, p, mine) && InSync(after[|after| - 1], digest, q, theirs)
    ensures var w := after[|after| - 1];
      PublishedFor(w, OwnerHash(digest, p.t)) !! PublishedFor(w, OwnerHash(digest, q.t))
  {
    OneTunnelIsOthers(before, after, digest, {p.t, q.t}, p, q);
    SyncSurvivesOthers(after[|before| - 1..], digest, {p.t, q.t}, p, mine);
    InSyncPublishDisjoint(after[|after| - 1], digest, p, q, mine, theirs, "");
  }

  lemma OneTunnelIsOthers(before: seq<World>, after: seq<World>, digest: string -> string, fleet: set<ObjectKey>,
                          p: Party, q: Party)
    requires Extends(before, after, TunnelSteps(q, digest)) && q.t in fleet && q.t != p.t && q.invite != p.invite
    ensures Extends(before, after, OthersSteps(digest, fleet, p))
  {
    forall w, v | TunnelSteps(q, digest)(w, v) ensures OthersSteps(digest, fleet, p)(w, v) {
      assert PartyStep(w, v, q, digest);
    }
  }

  /**
   * A hostname call that takes effect breaks the agreement exactly when its name is publishable,
   * which is what the DNS half of the same pass repairs.
   */
  lemma HostnameCallKeepsSyncIff(w: World, v: World, digest: string -> string, p: Party, policy: Policy,
                                 desired: set<string>, h: string)
    requires InSync(w, digest, p, policy)
    requires (h in desired && Adds(w, v, p.invite, h)) || (h !in desired && Removes(w, v, p.invite, h))
    ensures InSync(v, digest, p, policy) <==> !Published(h, policy.includeWildcards, policy.optOut)
  {
    var hash := OwnerHash(digest, p.t);
    assert v.dns == w.dns && Active(v, p.invite);
    SameDNSSamePublished(w, v, hash);
    var before, after := PublishableNames(Names(w, p.invite), policy), PublishableNames(Names(v, p.invite), policy);
    if Published(h, policy.includeWildcards, policy.optOut) {
      assert (h in before) != (h in after);
    } else {
      assert before == after;
    }
  }

  /** So a pass cut off between hub and DNS can leave a record for a name the hub has released. */
  lemma CutOffPassCanPublishReleasedName(digest: string -> string)
    returns (w: World, v: World, p: Party, policy: Policy, h: string)
    ensures WellFormed(w) && InSync(w, digest, p, policy) && HostnameStep(w, v, p.invite, {})
    ensures h in PublishedFor(v, OwnerHash(digest, p.t)) && !Reserved(v, h)
  {
    h := "old";
    assert h[0] == 'o' && "*."[0] == '*';
    p, policy := Party(ObjectKey("apps", "edge"), "inv", "ten"), Policy(false, {});
    var labels := map[LABEL_MANAGED_BY := MANAGED_BY_VALUE][LABEL_OWNER_TUNNEL := OwnerHash(digest, p.t)];
    var key, obj := ObjectKey("dns", "towonel.apps.edge"), DNSObject(labels, map[], [Endpoint(h, "edge", 300)]);
    w := World(map[p.invite := Invite([h], false, "eu")], map[], map[key := obj], true, {}, {});
    v := Deauthorize(w, p.invite, h);
    assert |LABEL_MANAGED_BY| != |LABEL_OWNER_TUNNEL|;
    assert OwnedBy(obj, OwnerHash(digest, p.t)) && key in Owned(w, OwnerHash(digest, p.t));
    assert w.dns[key].endpoints[0].dnsName == h && !IsWildcard(h);
    assert Elements([h]) == {h};
    assert Removes(w, v, p.invite, h);
    SameDNSSamePublished(w, v, OwnerHash(digest, p.t));
  }
}
