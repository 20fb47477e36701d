/**
 * Which sources a change wakes: what an HTTPRoute's reconcile depends on, and the mappers that
 * must enqueue every route depending on the changed object.
 */
module WatchMappers {
  import opened Text
  import opened Conventions
  import opened Api

  const TUNNEL := "towonel.io/tunnel"
  const TUNNEL_REF := "towonel.io/tunnel-ref"
  const AGENT_REF := "towonel.io/agent-ref"
  const AUTO_ROUTES := "towonel.io/auto-routes"
  const AUTO_ROUTES_NAMESPACES := "towonel.io/auto-routes-namespaces"
  const GATEWAY_SERVICE := "towonel.io/gateway-service"
  const GATEWAY_GROUP := "gateway.networking.k8s.io"

  type Annotations = map<string, string>

  datatype Gateway = Gateway(annotations: Annotations)

  datatype ProxyService = ProxyService(clusterIP: string, ports: seq<int>)

  /** A parentRef; group, kind and namespace default when omitted. */
  datatype ParentRef = ParentRef(group: Option<string>, kind: Option<string>, namespace: Option<string>, name: string)

  datatype Route = Route(key: ObjectKey, annotations: Annotations, parentRefs: seq<ParentRef>, hostnames: seq<string>)

  datatype ServiceRef = ServiceRef(key: ObjectKey, port: int)

  datatype Cluster = Cluster(gateways: map<ObjectKey, Gateway>, services: map<ObjectKey, ProxyService>,
                             tunnels: seq<ObjectKey>)

  /** How annotation values read: truthiness, a gateway-service reference, and host:port text. */
  datatype Reading = Reading(truthy: string -> bool, serviceRef: (string, string) -> Option<ServiceRef>,
                             origin: (string, int) -> string)

  /** A Go map lookup: absent reads as empty. */
  function Get(ann: Annotations, key: string): string {
    if key in ann then ann[key] else ""
  }

  // ---- text ----

  function LowerChar(c: char): char {
    if 'A' <= c <= 'Z' then c - 'A' + 'a' else c
  }

  /** strings.EqualFold against an ASCII word. */
  predicate EqualFold(s: string, word: string) {
    |s| == |word| && forall i :: 0 <= i < |s| ==> LowerChar(s[i]) == LowerChar(word[i])
  }

  /** The pieces between separators. */
  function Pieces(s: string, sep: char): seq<string> {
    if s == "" then [""]
    else
      var rest := Pieces(s[..|s| - 1], sep);
      if s[|s| - 1] == sep then rest + [""]
      else rest[..|rest| - 1] + [rest[|rest| - 1] + [s[|s| - 1]]]
  }

  function NonBlank(pieces: seq<string>): seq<string> {
    if pieces == [] then []
    else
      var p, x := NonBlank(pieces[..|pieces| - 1]), TrimSpace(pieces[|pieces| - 1]);
      if x != "" then p + [x] else p
  }

  /** splitNamespaces. */
  method SplitNamespaces(raw: string) returns (out: seq<string>)
    ensures out == NonBlank(Pieces(raw, ','))
  {
    var pieces := Pieces(raw, ',');
    out := [];
    for i := 0 to |pieces|
      invariant out == NonBlank(pieces[..i])
    {
      assert pieces[..i + 1][..i] == pieces[..i];
      var ns := TrimSpace(pieces[i]);
      if ns != "" {
        out := out + [ns];
      }
    }
    assert pieces[..|pieces|] == pieces;
  }

  // ---- which tunnel a source means ----

  /** strings.Cut at a slash. */
  function CutSlash(s: string): Option<(string, string)> {
    if s == "" then None
    else if s[0] == '/' then Some(("", s[1..]))
    else match CutSlash(s[1..])
         case None => None
         case Some((a, b)) => Some(([s[0]] + a, b))
  }

  lemma {:induction false} CutSlashSplits(s: string)
    ensures match CutSlash(s)
            case Some((a, b)) => s == a + "/" + b && '/' !in a
            case None => '/' !in s
  {
    if s != "" && s[0] != '/' {
      CutSlashSplits(s[1..]);
      assert s == [s[0]] + s[1..];
    }
  }

  /** parseTunnelRef: "[<ns>/]<name>". */
  function ParseTunnelRef(raw: string, sourceNS: string): Option<ObjectKey> {
    var ref := TrimSpace(raw);
    if ref == "" then None
    else match CutSlash(ref)
         case None => Some(ObjectKey(sourceNS, ref))
         case Some((ns, name)) => if ns == "" || name == "" then None else Some(ObjectKey(ns, name))
  }

  /** A qualified reference reads back as the tunnel it names, from any namespace. */
  lemma ParseTunnelRefReadsBack(t: ObjectKey, sourceNS: string)
    requires t.namespace != "" && t.name != "" && '/' !in t.namespace
    requires TrimSpace(QualifiedName(t)) == QualifiedName(t)
    ensures ParseTunnelRef(QualifiedName(t), sourceNS) == Some(t)
  {
    CutSlashSplits(QualifiedName(t));
    assert QualifiedName(t)[|t.namespace|] == '/';
    var cut := CutSlash(QualifiedName(t)).value;
    assert cut.0 + ['/'] + cut.1 == t.namespace + ['/'] + t.name;
    CutIsUnique(cut.0, cut.1, t.namespace, t.name, '/');
  }

  /** resolveTunnel: the reference, or else the only tunnel there is. */
  function ResolveTunnel(c: Cluster, raw: string, sourceNS: string): Option<ObjectKey> {
    if TrimSpace(raw) != "" then ParseTunnelRef(raw, sourceNS)
    else if |c.tunnels| == 1 then Some(c.tunnels[0])
    else None
  }

  function AgentNamespaceFor(configured: string, tunnel: ObjectKey): string {
    if configured != "" then configured else tunnel.namespace
  }

  /** sourceTargetsTunnel. */
  predicate SourceTargetsTunnel(ann: Annotations, sourceNS: string, tunnel: ObjectKey) {
    TrimSpace(Get(ann, TUNNEL_REF)) != "" ==> ParseTunnelRef(Get(ann, TUNNEL_REF), sourceNS) == Some(tunnel)
  }

  /** sourceTargetsAgent. */
  predicate SourceTargetsAgent(ann: Annotations, sourceNS: string, agentNSConfig: string, agent: ObjectKey) {
    var ref, tunnel := Get(ann, AGENT_REF), ParseTunnelRef(Get(ann, TUNNEL_REF), sourceNS);
    ref != "" && ref == agent.name && tunnel.Some? && AgentNamespaceFor(agentNSConfig, tunnel.value) == agent.namespace
  }

  // ---- which routes a Gateway selects, and where they go ----

  /** isGatewayParent. */
  predicate IsGatewayParent(p: ParentRef) {
    (p.group.Some? ==> p.group.value == GATEWAY_GROUP) && (p.kind.Some? ==> p.kind.value == "Gateway")
  }

  /** parentRefNamespace, and with it the Gateway's key. */
  function ParentKey(p: ParentRef, routeNS: string): ObjectKey {
    ObjectKey(if p.namespace.Some? then p.namespace.value else routeNS, p.name)
  }

  predicate Parents(r: Route, g: ObjectKey) {
    exists i :: 0 <= i < |r.parentRefs| && IsGatewayParent(r.parentRefs[i])
        && ParentKey(r.parentRefs[i], r.key.namespace) == g
  }

  /** gatewayAllowsRouteNamespace. */
  predicate AllowsNamespace(gw: Gateway, gatewayNS: string, routeNS: string) {
    var raw := TrimSpace(Get(gw.annotations, AUTO_ROUTES_NAMESPACES));
    gatewayNS == routeNS || (raw != "" && (EqualFold(raw, "all") || routeNS in NonBlank(Pieces(raw, ','))))
  }

  /** One Gateway selecting one route. */
  predicate Selects(gw: Gateway, g: ObjectKey, routeNS: string, v: Reading) {
    AllowsNamespace(gw, g.namespace, routeNS) && v.truthy(Get(gw.annotations, AUTO_ROUTES))
        && Get(gw.annotations, GATEWAY_SERVICE) != ""
  }

  predicate Selected(c: Cluster, r: Route, v: Reading) {
    exists g :: g in c.gateways && Parents(r, g) && Selects(c.gateways[g], g, r.key.namespace, v)
  }

  method AllowsRouteNamespace(gw: Gateway, gatewayNS: string, routeNS: string) returns (ok: bool)
    ensures ok == AllowsNamespace(gw, gatewayNS, routeNS)
  {
    if gatewayNS == routeNS {
      return true;
    }
    var raw := TrimSpace(Get(gw.annotations, AUTO_ROUTES_NAMESPACES));
    if raw == "" {
      return false;
    }
    if EqualFold(raw, "all") {
      return true;
    }
    var allowed := SplitNamespaces(raw);
    ok := routeNS in allowed;
  }

  /** autoSelectedByGateway; None when a parent could not be read, so the caller tries again. */
  method AutoSelectedByGateway(c: Cluster, unreadable: set<ObjectKey>, r: Route, v: Reading)
    returns (selected: Option<bool>)
    ensures selected.Some? && selected.value ==> Selected(c, r, v)
    ensures selected == Some(false) ==> !Selected(c, r, v)
    ensures selected.None? ==> exists g :: g in unreadable && Parents(r, g)
  {
    for i := 0 to |r.parentRefs|
      invariant forall j :: 0 <= j < i && IsGatewayParent(r.parentRefs[j]) ==>
                  var g := ParentKey(r.parentRefs[j], r.key.namespace);
                  g in c.gateways ==> !Selects(c.gateways[g], g, r.key.namespace, v)
    {
      var p := r.parentRefs[i];
      if !IsGatewayParent(p) {
        continue;
      }
      var g := ParentKey(p, r.key.namespace);
      if g in unreadable {
        assert Parents(r, g);
        return None;
      }
      if g !in c.gateways {
        continue;
      }
      var gw := c.gateways[g];
      var allowed := AllowsRouteNamespace(gw, g.namespace, r.key.namespace);
      if !allowed || !v.truthy(Get(gw.annotations, AUTO_ROUTES)) || Get(gw.annotations, GATEWAY_SERVICE) == "" {
        continue;
      }
      assert Parents(r, g);
      return Some(true);
    }
    selected := Some(false);
  }

  /** The proxy origin of one Gateway, if it names a usable service. */
  function OriginOf(c: Cluster, g: ObjectKey, v: Reading): Option<string>
    requires g in c.gateways
  {
    var raw := Get(c.gateways[g].annotations, GATEWAY_SERVICE);
    if raw == "" then None
    else match v.serviceRef(raw, g.namespace)
         case None => None
         case Some(ref) =>
           if ref.key !in c.services then None
           else
             var svc := c.services[ref.key];
             if ref.port != 0 then Some(v.origin(svc.clusterIP, ref.port))
             else if svc.ports != [] then Some(v.origin(svc.clusterIP, svc.ports[0]))
             else None
  }

  function Origins(c: Cluster, r: Route, v: Reading): set<string> {
    set g | g in c.gateways && Parents(r, g) && OriginOf(c, g, v).Some? :: OriginOf(c, g, v).value
  }

  /** Where the i-th parentRef leads, if anywhere. */
  function OriginAt(c: Cluster, r: Route, v: Reading, i: nat): Option<string>
    requires i < |r.parentRefs|
  {
    var p := r.parentRefs[i];
    var g := ParentKey(p, r.key.namespace);
    if IsGatewayParent(p) && g in c.gateways then OriginOf(c, g, v) else None
  }

  /** The loop of resolveParentGatewayProxy: the distinct origins. */
  method CollectOrigins(c: Cluster, r: Route, v: Reading) returns (origins: set<string>)
    ensures origins == Origins(c, r, v)
  {
    origins := {};
    for i := 0 to |r.parentRefs|
      invariant forall o :: o in origins <==> exists j :: 0 <= j < i && OriginAt(c, r, v, j) == Some(o)
    {
      var found := OriginAt(c, r, v, i);
      if found.Some? {
        origins := origins + {found.value};
      }
    }
    OriginsByParent(c, r, v, origins);
  }

  /** resolveParentGatewayProxy: the one origin its parents agree on. */
  method ResolveParentGatewayProxy(c: Cluster, r: Route, v: Reading) returns (origin: Option<string>)
    ensures forall o :: origin == Some(o) <==> Origins(c, r, v) == {o}
    ensures origin == OnlyOrigin(c, r, v)
  {
    var origins := CollectOrigins(c, r, v);
    if |origins| != 1 {
      return None;
    }
    var o :| o in origins;
    OnlyElement(origins, o);
    origin := Some(o);
  }

  /** The one origin all usable parents share, if they do. */
  ghost function OnlyOrigin(c: Cluster, r: Route, v: Reading): (origin: Option<string>)
    ensures forall o :: origin == Some(o) <==> Origins(c, r, v) == {o}
  {
    if |Origins(c, r, v)| == 1 then
      var o :| o in Origins(c, r, v);
      OnlyElement(Origins(c, r, v), o);
      Some(o)
    else None
  }

  lemma OnlyElement<T>(s: set<T>, x: T)
    requires |s| == 1 && x in s
    ensures s == {x}
  {
    assert |s - {x}| == 0;
  }

  lemma OriginsByParent(c: Cluster, r: Route, v: Reading, origins: set<string>)
    requires forall o :: o in origins <==> exists j :: 0 <= j < |r.parentRefs| && OriginAt(c, r, v, j) == Some(o)
    ensures origins == Origins(c, r, v)
  {
    forall o ensures o in origins <==> o in Origins(c, r, v) {
      if o in origins {
        var j :| 0 <= j < |r.parentRefs| && OriginAt(c, r, v, j) == Some(o);
        assert Parents(r, ParentKey(r.parentRefs[j], r.key.namespace));
      }
      if o in Origins(c, r, v) {
        var g :| g in c.gateways && Parents(r, g) && OriginOf(c, g, v) == Some(o);
        var j :| 0 <= j < |r.parentRefs| && IsGatewayParent(r.parentRefs[j])
            && ParentKey(r.parentRefs[j], r.key.namespace) == g;
        assert OriginAt(c, r, v, j) == Some(o);
      }
    }
  }

  // ---- what a reconcile depends on ----

  /** Whether a route's reconcile goes on to resolve a tunnel: its own key decides if present. */
  predicate OptedIn(c: Cluster, r: Route, v: Reading) {
    if TUNNEL in r.annotations then v.truthy(r.annotations[TUNNEL]) else Selected(c, r, v)
  }

  predicate ResolvesTo(c: Cluster, r: Route, v: Reading, tunnel: ObjectKey) {
    OptedIn(c, r, v) && ResolveTunnel(c, Get(r.annotations, TUNNEL_REF), r.key.namespace) == Some(tunnel)
  }

  /** A parent that has auto-routes on for this route, as far as it could be read. */
  predicate MaySelect(c: Cluster, unreadable: set<ObjectKey>, r: Route, v: Reading, g: ObjectKey) {
    && g in c.gateways && g !in unreadable && AllowsNamespace(c.gateways[g], g.namespace, r.key.namespace)
    && v.truthy(Get(c.gateways[g].annotations, AUTO_ROUTES))
  }

  /** What sourcesForTunnel tests of one route. */
  predicate TunnelWakes(c: Cluster, unreadable: set<ObjectKey>, r: Route, v: Reading, tunnel: ObjectKey) {
    if TUNNEL in r.annotations || Get(r.annotations, TUNNEL_REF) != "" then
      SourceTargetsTunnel(r.annotations, r.key.namespace, tunnel)
    else
      exists g :: g in c.gateways && Parents(r, g) && MaySelect(c, unreadable, r, v, g)
  }

  function KeysWhere(routes: seq<Route>, p: Route -> bool): seq<ObjectKey> {
    if routes == [] then []
    else
      var rest, r := KeysWhere(routes[..|routes| - 1], p), routes[|routes| - 1];
      if p(r) then rest + [r.key] else rest
  }

  lemma {:induction false} KeysWhereIncludes(routes: seq<Route>, p: Route -> bool, r: Route)
    requires r in routes && p(r)
    ensures r.key in KeysWhere(routes, p)
  {
    var rest, last := routes[..|routes| - 1], routes[|routes| - 1];
    assert routes == rest + [last];
    if r != last {
      KeysWhereIncludes(rest, p, r);
    }
  }

  /** The inner loop of sourcesForTunnel: any parent with auto-routes on. */
  method AnyParentMaySelect(c: Cluster, unreadable: set<ObjectKey>, r: Route, v: Reading) returns (found: bool)
    ensures found <==> exists g :: g in c.gateways && Parents(r, g) && MaySelect(c, unreadable, r, v, g)
  {
    for i := 0 to |r.parentRefs|
      invariant forall j :: 0 <= j < i && IsGatewayParent(r.parentRefs[j]) ==>
                  !MaySelect(c, unreadable, r, v, ParentKey(r.parentRefs[j], r.key.namespace))
    {
      var p := r.parentRefs[i];
      if !IsGatewayParent(p) {
        continue;
      }
      var g := ParentKey(p, r.key.namespace);
      if g in unreadable || g !in c.gateways {
        continue;
      }
      var allowed := AllowsRouteNamespace(c.gateways[g], g.namespace, r.key.namespace);
      if allowed && v.truthy(Get(c.gateways[g].annotations, AUTO_ROUTES)) {
        assert Parents(r, g);
        return true;
      }
    }
    found := false;
  }

  /** sourcesForTunnel. */
  method SourcesForTunnel(c: Cluster, unreadable: set<ObjectKey>, routes: seq<Route>, v: Reading, tunnel: ObjectKey)
    returns (reqs: seq<ObjectKey>)
    ensures reqs == KeysWhere(routes, (r: Route) => TunnelWakes(c, unreadable, r, v, tunnel))
    ensures forall r :: r in routes && TunnelWakes(c, unreadable, r, v, tunnel) ==> r.key in reqs
  {
    ghost var wakes := (r: Route) => TunnelWakes(c, unreadable, r, v, tunnel);
    reqs := [];
    for i := 0 to |routes|
      invariant reqs == KeysWhere(routes[..i], wakes)
    {
      assert routes[..i + 1][..i] == routes[..i];
      var r := routes[i];
      if TUNNEL in r.annotations {
        if SourceTargetsTunnel(r.annotations, r.key.namespace, tunnel) {
          reqs := reqs + [r.key];
        }
        continue;
      }
      if Get(r.annotations, TUNNEL_REF) == "" {
        var any := AnyParentMaySelect(c, unreadable, r, v);
        if any {
          reqs := reqs + [r.key];
        }
      } else if SourceTargetsTunnel(r.annotations, r.key.namespace, tunnel) {
        reqs := reqs + [r.key];
      }
    }
    assert routes[..|routes|] == routes;
    forall r | r in routes && TunnelWakes(c, unreadable, r, v, tunnel) ensures r.key in reqs {
      KeysWhereIncludes(routes, wakes, r);
    }
  }

  /** No route whose reconcile resolves to the tunnel is missed, unless a parent of it could not be read. */
  lemma TunnelMapperComplete(c: Cluster, unreadable: set<ObjectKey>, r: Route, v: Reading, tunnel: ObjectKey)
    requires ResolvesTo(c, r, v, tunnel)
    ensures TunnelWakes(c, unreadable, r, v, tunnel) || exists g :: g in unreadable && Parents(r, g)
  {
    if TUNNEL !in r.annotations && Get(r.annotations, TUNNEL_REF) == "" {
      var g :| g in c.gateways && Parents(r, g) && Selects(c.gateways[g], g, r.key.namespace, v);
      if g !in unreadable {
        assert MaySelect(c, unreadable, r, v, g);
      }
    }
  }

  /** routesForGateway: every route that names it as a Gateway parent, once. */
  method RoutesForGateway(routes: seq<Route>, g: ObjectKey) returns (reqs: seq<ObjectKey>)
    ensures reqs == KeysWhere(routes, (r: Route) => Parents(r, g))
    ensures forall r :: r in routes && Parents(r, g) ==> r.key in reqs
  {
    ghost var parents := (r: Route) => Parents(r, g);
    reqs := [];
    for i := 0 to |routes|
      invariant reqs == KeysWhere(routes[..i], parents)
    {
      assert routes[..i + 1][..i] == routes[..i];
      var r := routes[i];
      var found := false;
      for j := 0 to |r.parentRefs|
        invariant found <==>
                  exists k :: 0 <= k < j && IsGatewayParent(r.parentRefs[k])
                      && ParentKey(r.parentRefs[k], r.key.namespace) == g
      {
        if !IsGatewayParent(r.parentRefs[j]) || ParentKey(r.parentRefs[j], r.key.namespace) != g {
          continue;
        }
        found := true;
      }
      if found {
        reqs := reqs + [r.key];
      }
    }
    assert routes[..|routes|] == routes;
    forall r | r in routes && Parents(r, g) ensures r.key in reqs {
      KeysWhereIncludes(routes, parents, r);
    }
  }

  /** Two states that differ in one Gateway only. */
  ghost predicate DifferOnlyIn(c: Cluster, d: Cluster, g: ObjectKey) {
    && c.services == d.services && c.tunnels == d.tunnels
    && forall k :: k != g ==>
         (k in c.gateways <==> k in d.gateways) && (k in c.gateways ==> c.gateways[k] == d.gateways[k])
  }

  /** If the change makes any difference to a route's selection or origin, the route is woken. */
  lemma GatewayMapperComplete(c: Cluster, d: Cluster, g: ObjectKey, r: Route, v: Reading)
    requires DifferOnlyIn(c, d, g)
    requires Selected(c, r, v) != Selected(d, r, v) || Origins(c, r, v) != Origins(d, r, v)
    ensures Parents(r, g)
  {
    if !Parents(r, g) {
      SelectionUnmoved(c, d, g, r, v);
      SelectionUnmoved(d, c, g, r, v);
      OriginsUnmoved(c, d, g, r, v);
      OriginsUnmoved(d, c, g, r, v);
      assert false;
    }
  }

  lemma SelectionUnmoved(c: Cluster, d: Cluster, g: ObjectKey, r: Route, v: Reading)
    requires DifferOnlyIn(c, d, g) && !Parents(r, g)
    ensures Selected(c, r, v) ==> Selected(d, r, v)
  {}

  lemma OriginsUnmoved(c: Cluster, d: Cluster, g: ObjectKey, r: Route, v: Reading)
    requires DifferOnlyIn(c, d, g) && !Parents(r, g)
    ensures Origins(c, r, v) <= Origins(d, r, v)
  {}

  /** Two states that differ in one Service only: no watch tells them apart. */
  ghost predicate DifferOnlyInService(c: Cluster, d: Cluster, s: ObjectKey) {
    && c.gateways == d.gateways && c.tunnels == d.tunnels
    && forall k :: k != s ==>
         (k in c.services <==> k in d.services) && (k in c.services ==> c.services[k] == d.services[k])
  }

  /** A Gateway whose gateway-service reads as that Service. */
  predicate ProxiesThrough(c: Cluster, g: ObjectKey, s: ObjectKey, v: Reading) {
    && g in c.gateways && Get(c.gateways[g].annotations, GATEWAY_SERVICE) != ""
    && var ref := v.serviceRef(Get(c.gateways[g].annotations, GATEWAY_SERVICE), g.namespace);
       ref.Some? && ref.value.key == s
  }

  /** host:port text is at least as long as its host. */
  ghost predicate HoldsHost(v: Reading) {
    forall host, port :: |v.origin(host, port)| >= |host|
  }

  /**
   * The origin also hangs on the proxy's Service, which no watch covers. A route's origin is safe
   * from every change of a Service exactly when no existing parent of the route proxies through it.
   */
  lemma OriginSafeFromServiceIff(c: Cluster, r: Route, v: Reading, s: ObjectKey)
    requires HoldsHost(v)
    ensures (forall d :: DifferOnlyInService(c, d, s) ==> Origins(d, r, v) == Origins(c, r, v))
            <==> (forall g :: g in c.gateways && Parents(r, g) ==> !ProxiesThrough(c, g, s, v))
  {
    if forall g :: g in c.gateways && Parents(r, g) ==> !ProxiesThrough(c, g, s, v) {
      forall d | DifferOnlyInService(c, d, s) ensures Origins(d, r, v) == Origins(c, r, v) {
        OriginsKeptIfElsewhere(c, d, r, v, s);
        OriginsKeptIfElsewhere(d, c, r, v, s);
      }
    }
    if g :| g in c.gateways && Parents(r, g) && ProxiesThrough(c, g, s, v) {
      var d := MovedService(c, r, v, s, g);
    }
  }

  /**
   * So a route that has its one origin keeps it under every change of a Service exactly when no parent proxies through
   * it.
   */
  lemma RouteKeepsOriginIff(c: Cluster, r: Route, v: Reading, s: ObjectKey)
    requires HoldsHost(v) && OnlyOrigin(c, r, v).Some?
    ensures (forall d :: DifferOnlyInService(c, d, s) ==> OnlyOrigin(d, r, v) == OnlyOrigin(c, r, v))
            <==> (forall g :: g in c.gateways && Parents(r, g) ==> !ProxiesThrough(c, g, s, v))
  {
    OriginSafeFromServiceIff(c, r, v, s);
    forall d | DifferOnlyInService(c, d, s)
      ensures OnlyOrigin(d, r, v) == OnlyOrigin(c, r, v) <==> Origins(d, r, v) == Origins(c, r, v)
    {
      var o := OnlyOrigin(c, r, v).value;
      assert Origins(c, r, v) == {o};
      assert OnlyOrigin(d, r, v) == Some(o) <==> Origins(d, r, v) == {o};
    }
  }

  lemma OriginsKeptIfElsewhere(c: Cluster, d: Cluster, r: Route, v: Reading, s: ObjectKey)
    requires DifferOnlyInService(c, d, s)
    requires forall g :: g in c.gateways && Parents(r, g) ==> !ProxiesThrough(c, g, s, v)
    ensures Origins(c, r, v) <= Origins(d, r, v)
  {
    forall o | o in Origins(c, r, v) ensures o in Origins(d, r, v) {
      var g :| g in c.gateways && Parents(r, g) && OriginOf(c, g, v) == Some(o);
      assert !ProxiesThrough(c, g, s, v) && OriginOf(d, g, v) == Some(o);
    }
  }

  /** Give the Service an address longer than any origin so far: the route's origins change. */
  lemma MovedService(c: Cluster, r: Route, v: Reading, s: ObjectKey, g: ObjectKey) returns (d: Cluster)
    requires HoldsHost(v) && Parents(r, g) && ProxiesThrough(c, g, s, v)
    ensures DifferOnlyInService(c, d, s) && Origins(d, r, v) != Origins(c, r, v)
  {
    var n := LongerThanAll(Origins(c, r, v));
    var host := seq(n, i => 'x');
    d := c.(services := c.services[s := ProxyService(host, [443])]);
    var o := OriginOf(d, g, v);
    assert o.Some? && |o.value| >= n;
    assert o.value in Origins(d, r, v) && o.value !in Origins(c, r, v);
  }

  lemma {:induction false} LongerThanAll(ss: set<string>) returns (n: nat)
    ensures forall x :: x in ss ==> |x| < n
  {
    n := 0;
    if ss != {} {
      var x :| x in ss;
      var m := LongerThanAll(ss - {x});
      n := if |x| < m then m else |x| + 1;
      forall y | y in ss ensures |y| < n {
        if y != x { assert y in ss - {x}; }
      }
    }
  }

  /** For instance the proxy's Service getting another address. */
  lemma ServiceChangeMovesOrigin(v: Reading) returns (c: Cluster, d: Cluster, r: Route)
    requires v.serviceRef("proxy", "web") == Some(ServiceRef(ObjectKey("web", "proxy"), 443))
    requires v.origin("10.0.0.1", 443) != v.origin("10.0.0.2", 443)
    ensures DifferOnlyInService(c, d, ObjectKey("web", "proxy")) && Origins(c, r, v) != Origins(d, r, v)
  {
    var g, key := ObjectKey("web", "external"), ObjectKey("web", "proxy");
    var gateways := map[g := Gateway(map[GATEWAY_SERVICE := "proxy"])];
    c := Cluster(gateways, map[key := ProxyService("10.0.0.1", [])], []);
    d := Cluster(gateways, map[key := ProxyService("10.0.0.2", [])], []);
    r := Route(ObjectKey("web", "app"), map[], [ParentRef(None, None, None, "external")], []);
    assert r.parentRefs[0] == ParentRef(None, None, None, "external") && Parents(r, g);
    assert OriginOf(c, g, v) == Some(v.origin("10.0.0.1", 443));
    assert v.origin("10.0.0.1", 443) in Origins(c, r, v);
    assert forall k :: k in d.gateways ==> OriginOf(d, k, v) == Some(v.origin("10.0.0.2", 443));
  }

  // ---- agents ----

  /** A source's reconcile would look for its routing's home at this agent, by explicit agent-ref. */
  predicate HeadsFor(c: Cluster, ann: Annotations, sourceNS: string, agentNSConfig: string, agent: ObjectKey) {
    var tunnel := ResolveTunnel(c, Get(ann, TUNNEL_REF), sourceNS);
    && Get(ann, AGENT_REF) != "" && tunnel.Some?
    && ObjectKey(AgentNamespaceFor(agentNSConfig, tunnel.value), Get(ann, AGENT_REF)) == agent
  }

  /** The agent mapper finds exactly such sources, if their tunnel-ref is explicit. */
  lemma AgentMapperFindsIff(c: Cluster, ann: Annotations, sourceNS: string, agentNSConfig: string, agent: ObjectKey)
    ensures SourceTargetsAgent(ann, sourceNS, agentNSConfig, agent) <==>
            HeadsFor(c, ann, sourceNS, agentNSConfig, agent) && TrimSpace(Get(ann, TUNNEL_REF)) != ""
  {}

  /** So a source relying on the sole tunnel is not woken when its agent appears. */
  lemma AgentMapperMissesDefaultTunnel() returns (c: Cluster, ann: Annotations, agent: ObjectKey)
    ensures HeadsFor(c, ann, "apps", "", agent) && !SourceTargetsAgent(ann, "apps", "", agent)
  {
    c := Cluster(map[], map[], [ObjectKey("edge", "main")]);
    ann, agent := map[AGENT_REF := "web"], ObjectKey("edge", "web");
    assert |AGENT_REF| != |TUNNEL_REF|;
    assert Get(ann, TUNNEL_REF) == "" && TrimSpace("") == "";
  }

  /** Sources of any kind, as the shared mappers see them. */
  datatype Source = Source(key: ObjectKey, annotations: Annotations)

  function OptedKeys(items: seq<Source>, accept: Source -> bool): seq<ObjectKey> {
    if items == [] then []
    else
      var rest, s := OptedKeys(items[..|items| - 1], accept), items[|items| - 1];
      if TUNNEL in s.annotations && accept(s) then rest + [s.key] else rest
  }

  /** optedSourceRequests: the items that carry the tunnel key and match, in list order. */
  method OptedSourceRequests(items: seq<Source>, accept: Source -> bool) returns (reqs: seq<ObjectKey>)
    ensures reqs == OptedKeys(items, accept)
    ensures forall s :: s in items && TUNNEL in s.annotations && accept(s) ==> s.key in reqs
  {
    reqs := [];
    for i := 0 to |items|
      invariant reqs == OptedKeys(items[..i], accept)
      invariant forall j :: 0 <= j < i && TUNNEL in items[j].annotations && accept(items[j]) ==> items[j].key in reqs
    {
      assert items[..i + 1][..i] == items[..i];
      if TUNNEL in items[i].annotations && accept(items[i]) {
        reqs := reqs + [items[i].key];
      }
    }
    assert items[..|items|] == items;
  }
}
