/** An HTTPRoute's reconcile: opt-in, tunnel and routing read off the cluster, then the shared source flow. */
module RouteSource {
  import opened Text
  import opened Conventions
  import opened SourceStore
  import opened SourceBase
  import opened RouteMeaning
  import W = WatchMappers

  const KIND := "HTTPRoute"

  function ManagerOf(route: ObjectKey): Manager {
    Manager(SrcFieldManager(KIND, route), true)
  }

  lemma RouteManagersAreSources(a: ObjectKey, b: ObjectKey)
    requires ':' !in a.namespace && ':' !in b.namespace
    ensures IsSource(ManagerOf(a))
    ensures ManagerOf(a) == ManagerOf(b) <==> a == b
  {
    SrcFieldManagerInjective(KIND, a, KIND, b);
  }

  const DNS_RECORD := "towonel.io/dns-record"

  /** One passthrough entry per hostname, all to the parents' proxy, and stamped if they are to have no DNS record. */
  function RoutingOf(hostnames: seq<string>, origin: string, stamped: bool): Routing {
    map l | l in (set h | h in hostnames :: Leaf("services", h, "hostname"))
                 + (set h | h in hostnames :: Leaf("services", h, "origin"))
                 + (set h | h in hostnames && stamped :: Leaf("services", h, "dnsRecord"))
      :: if l.field == "hostname" then l.key else if l.field == "origin" then origin else "false"
  }

  /** The tunnel a route means, if it means one. */
  function TunnelOf(c: W.Cluster, r: W.Route): Option<ObjectKey> {
    W.ResolveTunnel(c, W.Get(r.annotations, W.TUNNEL_REF), r.key.namespace)
  }

  /** Every hostname to that origin, without a DNS record if so said, and nothing else. */
  ghost predicate Exposes(routing: Routing, hostnames: seq<string>, origin: string, unpublished: bool) {
    && (forall h :: h in hostnames ==>
          && Leaf("services", h, "hostname") in routing && routing[Leaf("services", h, "hostname")] == h
          && Leaf("services", h, "origin") in routing && routing[Leaf("services", h, "origin")] == origin)
    && (forall h :: h in hostnames && unpublished ==>
          Leaf("services", h, "dnsRecord") in routing && routing[Leaf("services", h, "dnsRecord")] == "false")
    && (forall l :: l in routing ==>
          && l.list == "services" && l.key in hostnames
          && (l.field in {"hostname", "origin"} || (unpublished && l.field == "dnsRecord")))
  }

  /** The route has something to say of its DNS records, and it is not yes. */
  ghost predicate Unpublished(r: W.Route, v: W.Reading) {
    "towonel.io/dns-record" in r.annotations && !v.truthy(r.annotations["towonel.io/dns-record"])
  }

  lemma RoutingExposes(hostnames: seq<string>, origin: string, stamped: bool)
    ensures Exposes(RoutingOf(hostnames, origin, stamped), hostnames, origin, stamped)
    ensures hostnames != [] ==> RoutingOf(hostnames, origin, stamped) != map[]
  {
    var routing := RoutingOf(hostnames, origin, stamped);
    forall h | h in hostnames
      ensures Leaf("services", h, "hostname") in routing && Leaf("services", h, "origin") in routing
      ensures stamped ==> Leaf("services", h, "dnsRecord") in routing
    {}
    if hostnames != [] {
      assert hostnames[0] in hostnames && Leaf("services", hostnames[0], "origin") in routing;
    }
  }

  ghost predicate OptedIn(c: W.Cluster, found: Option<W.Route>, v: W.Reading) {
    found.Some? && OptsIn(c, found.value, v)
  }

  /** What the view says of the route and the cluster it was read from. */
  ghost predicate ViewFits(c: W.Cluster, found: Option<W.Route>, v: W.Reading, agentNSConfig: string,
                           defaultName: ObjectKey -> string, view: SourceView) {
    && (view.NotFoundOrOptedOut? <==> !OptedIn(c, found, v))
    && (view.NoTunnel? <==> OptedIn(c, found, v) && forall t :: !MeansTunnel(c, found.value, t))
    && (view.Wants? ==>
          && MeansTunnel(c, found.value, view.tunnel)
          && view.agentNS == (if agentNSConfig == "" then view.tunnel.namespace else agentNSConfig)
          && view.defaultName == defaultName(view.tunnel)
          && Says(found.value.annotations, "towonel.io/agent-ref", view.agentRef)
          && exists o :: OneOrigin(c, found.value, v, o)
                         && Exposes(view.want, found.value.hostnames, o, Unpublished(found.value, v)))
    && (view.Underivable? ==> found.value.hostnames == [] || forall o :: !OneOrigin(c, found.value, v, o))
    && !view.NothingToRoute?
  }

  /** What the reading below works out is what the objects say. */
  lemma ReadAsMeant(c: W.Cluster, r: W.Route, v: W.Reading)
    ensures W.OptedIn(c, r, v) <==> OptsIn(c, r, v)
    ensures TunnelOf(c, r).None? <==> forall t :: !MeansTunnel(c, r, t)
    ensures TunnelOf(c, r).Some? ==> forall t :: MeansTunnel(c, r, t) <==> t == TunnelOf(c, r).value
    ensures Says(r.annotations, "towonel.io/agent-ref", W.Get(r.annotations, W.AGENT_REF))
    ensures forall o :: W.Origins(c, r, v) == {o} <==> OneOrigin(c, r, v, o)
  {
    hide MeansTunnel, OneOrigin, W.ResolveTunnel;
    OptedInOptsIn(c, r, v);
    forall t ensures TunnelOf(c, r) == Some(t) <==> MeansTunnel(c, r, t) {
      ResolvedIsMeant(c, r, t);
    }
    if TunnelOf(c, r).Some? {
      assert MeansTunnel(c, r, TunnelOf(c, r).value);
    }
    forall o ensures W.Origins(c, r, v) == {o} <==> OneOrigin(c, r, v, o) {
      OnlyOriginIsOne(c, r, v, o);
    }
  }

  predicate UnreadableParent(r: W.Route, i: nat, unreadable: set<ObjectKey>)
    requires i < |r.parentRefs|
  {
    W.IsGatewayParent(r.parentRefs[i]) && W.ParentKey(r.parentRefs[i], r.key.namespace) in unreadable
  }

  /** The reading half of Reconcile; None when a parent Gateway could not be read, so the caller tries again. */
  method ReadView(c: W.Cluster, unreadable: set<ObjectKey>, found: Option<W.Route>, v: W.Reading, agentNSConfig: string,
                  defaultName: ObjectKey -> string)
    returns (view: Option<SourceView>)
    ensures view.Some? ==> ViewFits(c, found, v, agentNSConfig, defaultName, view.value)
    ensures view.Some? && view.value.Wants? ==> view.value.want != map[]
    ensures view.None? ==> found.Some? && exists g :: g in unreadable && W.Parents(found.value, g)
  {
    hide OptsIn, MeansTunnel, OneOrigin, Says, Exposes, TunnelOf, RoutingOf, W.Origins;
    if found.None? {
      return Some(NotFoundOrOptedOut);
    }
    var r := found.value;
    ReadAsMeant(c, r, v);
    if W.TUNNEL in r.annotations {
      if !v.truthy(r.annotations[W.TUNNEL]) {
        return Some(NotFoundOrOptedOut);
      }
    } else {
      var selected := W.AutoSelectedByGateway(c, unreadable, r, v);
      if selected.None? {
        return None;
      }
      if !selected.value {
        return Some(NotFoundOrOptedOut);
      }
    }
    var tunnel := TunnelOf(c, r);
    if tunnel.None? {
      return Some(NoTunnel);
    }
    if r.hostnames == [] {
      return Some(Underivable);
    }
    if i :| 0 <= i < |r.parentRefs| && UnreadableParent(r, i, unreadable) {
      assert W.Parents(r, W.ParentKey(r.parentRefs[i], r.key.namespace));
      return None;
    }
    var origin := W.ResolveParentGatewayProxy(c, r, v);
    if origin.None? {
      return Some(Underivable);
    }
    assert OneOrigin(c, r, v, origin.value);
    var stamped := DNS_RECORD in r.annotations && !v.truthy(r.annotations[DNS_RECORD]);
    RoutingExposes(r.hostnames, origin.value, stamped);
    view := Some(Wants(RoutingOf(r.hostnames, origin.value, stamped), W.AgentNamespaceFor(agentNSConfig, tunnel.value),
                       defaultName(tunnel.value), tunnel.value, W.Get(r.annotations, W.AGENT_REF)));
  }

  /** A route that has opted in but names no tunnel, in a cluster with no tunnel or with several. */
  ghost predicate Ambiguous(c: W.Cluster, found: Option<W.Route>, v: W.Reading) {
    && OptedIn(c, found, v) && |c.tunnels| != 1
    && exists raw :: Says(found.value.annotations, "towonel.io/tunnel-ref", raw) && Blank(raw)
  }

  /** A route whose routing is due there: opted in, with a tunnel, hostnames, one origin and an agent fit for it. */
  ghost predicate Due(c: W.Cluster, found: Option<W.Route>, v: W.Reading, agentNSConfig: string,
                      defaultName: ObjectKey -> string, s: Sys, tunnel: ObjectKey, agentRef: string, nn: ObjectKey) {
    && OptedIn(c, found, v) && found.value.hostnames != [] && (exists o :: OneOrigin(c, found.value, v, o))
    && MeansTunnel(c, found.value, tunnel) && Says(found.value.annotations, "towonel.io/agent-ref", agentRef)
    && nn.namespace == (if agentNSConfig == "" then tunnel.namespace else agentNSConfig)
    && nn.name == (if agentRef == "" then defaultName(tunnel) else agentRef)
    && Fit(s, nn, agentRef, tunnel)
  }

  /** The route's hostnames stand on that agent, to the one origin, and nothing of it anywhere else. */
  ghost predicate Stands(c: W.Cluster, r: W.Route, v: W.Reading, m: Manager, nn: ObjectKey, s: Sys) {
    && OwnsOnlyOn(s, m, Some(nn))
    && exists o :: OneOrigin(c, r, v, o) && Exposes(ContributionAt(s, nn, m), r.hostnames, o, Unpublished(r, v))
  }

  lemma AmbiguousMeansNone(c: W.Cluster, found: Option<W.Route>, v: W.Reading, t: ObjectKey)
    requires Ambiguous(c, found, v)
    ensures !MeansTunnel(c, found.value, t)
  {
    hide OptsIn, Stripped, TrimSpace;
    var raw :| Says(found.value.annotations, "towonel.io/tunnel-ref", raw) && Blank(raw);
    BlankIsNothing(raw);
    StrippedIsTrimmed(raw, "");
    if MeansTunnel(c, found.value, t) {
      var other, text :| Says(found.value.annotations, "towonel.io/tunnel-ref", other) && Stripped(other, text)
                         && Names(c, found.value, text, t);
      StrippedIsTrimmed(other, text);
    }
  }

  /** A route whose routing is due is read as one that wants it, there. */
  lemma DueIsWanted(c: W.Cluster, found: Option<W.Route>, v: W.Reading, agentNSConfig: string,
                    defaultName: ObjectKey -> string, s: Sys, view: SourceView, tunnel: ObjectKey, agentRef: string,
                    nn: ObjectKey)
    requires ViewFits(c, found, v, agentNSConfig, defaultName, view)
    requires Due(c, found, v, agentNSConfig, defaultName, s, tunnel, agentRef, nn)
    ensures view.Wants? && view.tunnel == tunnel && view.agentRef == agentRef
    ensures nn == NamedAgent(view.agentNS, view.defaultName, view.agentRef) && Fit(s, nn, agentRef, tunnel)
  {
    hide OptsIn, MeansTunnel, OneOrigin, Exposes, Fit;
    ReadAsMeant(c, found.value, v);
    assert MeansTunnel(c, found.value, tunnel);
  }

  /**
   * Reconcile. A route gone or opted out lets go of everything; an ambiguous one is left with
   * whatever it had, on every agent; one whose routing is due gets it, unless that conflicts.
   */
  method Reconcile(store: AgentStore, key: ObjectKey, c: W.Cluster, unreadable: set<ObjectKey>, found: Option<W.Route>,
                   v: W.Reading, agentNSConfig: string, defaultName: ObjectKey -> string)
    returns (r: SourceResult, target: Target, ghost view: Option<SourceView>)
    requires ':' !in key.namespace && store.Valid() && store.PeacefulTo(ManagerOf(key))
    modifies store
    ensures store.Valid()
    ensures view.Some? ==> ViewFits(c, found, v, agentNSConfig, defaultName, view.value)
    ensures view.None? ==> r.Failed? && (exists g :: g in unreadable) && store.s == old(store.s)
    ensures r.Settled? || r.Retry? ==>
              view.Some? && Converged(old(store.history), store.history, ManagerOf(key), view.value, target, r.Retry?)
    ensures view.Some? && view.value.Wants? ==>
              Chosen(old(store.history), store.history, ManagerOf(key), view.value, target)
    ensures r.Conflicted? ==>
              && view.Some? && view.value.Wants? && target.Write? && Unmoved(old(store.s), store.s, ManagerOf(key))
              && target.nn in store.s.agents && Conflicts(store.s.agents[target.nn], ManagerOf(key), view.value.want)
    ensures unreadable == {} && Ambiguous(c, found, v) ==> r.Settled? && store.history == old(store.history)
    ensures unreadable == {} && !OptedIn(c, found, v) && !r.Failed? ==>
              OwnsOnlyOn(store.s, ManagerOf(key), None)
    ensures unreadable == {} && store.Undisturbed() ==> !r.Failed?
    ensures unreadable == {} && store.Undisturbed() ==>
              forall tunnel, agentRef, nn ::
                Due(c, found, v, agentNSConfig, defaultName, old(store.s), tunnel, agentRef, nn) ==>
                  && target == Write(nn)
                  && (r.Conflicted? || (r.Settled? && Stands(c, found.value, v, ManagerOf(key), nn, store.s)))
  {
    RouteManagersAreSources(key, key);
    target := Skip;
    var read := ReadView(c, unreadable, found, v, agentNSConfig, defaultName);
    view := read;
    if read.None? {
      r := SourceResult.Failed;
      return;
    }
    hide OptsIn, MeansTunnel, OneOrigin, Exposes, Fit, Converged, Chosen, Conflicts, Unmoved;
    forall t | Ambiguous(c, found, v) ensures !MeansTunnel(c, found.value, t) {
      AmbiguousMeansNone(c, found, v, t);
    }
    r, target := ReconcileSource(store, ManagerOf(key), read.value);
    forall tunnel, agentRef, nn | Due(c, found, v, agentNSConfig, defaultName, old(store.s), tunnel, agentRef, nn)
      ensures read.value.Wants? && read.value.tunnel == tunnel && read.value.agentRef == agentRef
      ensures nn == NamedAgent(read.value.agentNS, read.value.defaultName, read.value.agentRef)
      ensures Fit(old(store.s), nn, agentRef, tunnel)
    {
      DueIsWanted(c, found, v, agentNSConfig, defaultName, old(store.s), read.value, tunnel, agentRef, nn);
    }
  }
}
