/** What an HTTPRoute, its Gateways and the tunnels say, read off the objects themselves rather than off the code. */
module RouteMeaning {
  import opened Text
  import opened Conventions
  import opened Api
  import W = WatchMappers

  // ---- annotation text ----

  ghost predicate Says(ann: W.Annotations, key: string, value: string) {
    if key in ann then ann[key] == value else value == ""
  }

  // ---- comma-separated lists ----

  /** The text is these entries, commas between them. */
  ghost predicate Entries(text: string, ps: seq<string>) {
    ps != [] && (forall p :: p in ps ==> ',' !in p) && text == CommaJoined(ps)
  }

  lemma LastLonger(front: seq<string>, last: string, x: string)
    ensures CommaJoined(front + [last + x]) == CommaJoined(front + [last]) + x
  {
    hide CommaJoined;
    CommaJoinedMore(front, last);
    CommaJoinedMore(front, last + x);
    if front != [] {
      var head := CommaJoined(front) + ",";
      assert head + (last + x) == (head + last) + x;
    }
  }

  lemma {:induction false} PiecesAreEntries(s: string)
    ensures Entries(s, W.Pieces(s, ','))
  {
    if s != "" {
      var p, c := s[..|s| - 1], s[|s| - 1];
      PiecesAreEntries(p);
      var rest := W.Pieces(p, ',');
      assert s == p + [c];
      hide CommaJoined;
      if c == ',' {
        CommaJoinedMore(rest, "");
        assert p + "," + "" == s;
      } else {
        var front, last := rest[..|rest| - 1], rest[|rest| - 1];
        assert rest == front + [last];
        LastLonger(front, last, [c]);
        assert last in rest;
      }
    }
  }

  lemma {:induction false} EntriesEndAsPieces(s: string, front: seq<string>, last: string)
    requires Entries(s, front + [last])
    ensures W.Pieces(s, ',') == front + [last]
    decreases |s|
  {
    hide CommaJoined;
    CommaJoinedMore(front, last);
    assert last in front + [last];
    if last != "" {
      var less, c := last[..|last| - 1], last[|last| - 1];
      assert last == less + [c] && c in last;
      LastLonger(front, less, [c]);
      var p := CommaJoined(front + [less]);
      assert s[..|s| - 1] == p && s[|s| - 1] == c;
      assert forall q :: q in front + [less] ==> q == less || q in front + [last];
      EntriesEndAsPieces(p, front, less);
    } else if front != [] {
      var p, m := CommaJoined(front), |front| - 1;
      assert s == p + ",";
      assert s[..|s| - 1] == p && s[|s| - 1] == ',';
      assert front == front[..m] + [front[m]];
      assert forall q :: q in front ==> q in front + [last];
      EntriesEndAsPieces(p, front[..m], front[m]);
    }
  }

  lemma EntriesArePieces(s: string, ps: seq<string>)
    requires Entries(s, ps)
    ensures ps == W.Pieces(s, ',')
  {
    var n := |ps| - 1;
    assert ps == ps[..n] + [ps[n]];
    EntriesEndAsPieces(s, ps[..n], ps[n]);
  }

  lemma {:induction false} NonBlankTrims(ps: seq<string>, x: string)
    ensures x in W.NonBlank(ps) <==> x != "" && exists p :: p in ps && TrimSpace(p) == x
  {
    if ps != [] {
      var q, p := ps[..|ps| - 1], ps[|ps| - 1];
      NonBlankTrims(q, x);
      assert ps == q + [p];
    }
  }

  // ---- Gateways and routes ----

  ghost predicate IsParent(r: W.Route, g: ObjectKey) {
    exists p :: p in r.parentRefs && RefersTo(p, r.key.namespace, g)
  }

  /** To a Gateway of that name, in the namespace given or else the route's own. */
  ghost predicate RefersTo(p: W.ParentRef, routeNS: string, g: ObjectKey) {
    && p.group in {None, Some("gateway.networking.k8s.io")} && p.kind in {None, Some("Gateway")}
    && g.name == p.name
    && p.namespace in (if g.namespace == routeNS then {None, Some(routeNS)} else {Some(g.namespace)})
  }

  lemma ParentsAreParents(r: W.Route, g: ObjectKey)
    ensures W.Parents(r, g) <==> IsParent(r, g)
  {
    if i :| 0 <= i < |r.parentRefs| && W.IsGatewayParent(r.parentRefs[i])
              && W.ParentKey(r.parentRefs[i], r.key.namespace) == g {
      assert RefersTo(r.parentRefs[i], r.key.namespace, g);
    }
    if IsParent(r, g) {
      var p :| p in r.parentRefs && RefersTo(p, r.key.namespace, g);
      var i :| 0 <= i < |r.parentRefs| && r.parentRefs[i] == p;
      assert W.IsGatewayParent(p) && W.ParentKey(p, r.key.namespace) == g;
    }
  }

  /** The allowlist is "all", in any case, or has an entry that is this namespace. */
  ghost predicate Allows(list: string, ns: string) {
    || (|list| == 3 && list[0] in {'a', 'A'} && list[1] in {'l', 'L'} && list[2] in {'l', 'L'})
    || (ns != "" && exists ps, p :: Entries(list, ps) && p in ps && Stripped(p, ns))
  }

  lemma AllowsIsListed(list: string, ns: string)
    ensures Allows(list, ns) <==> W.EqualFold(list, "all") || ns in W.NonBlank(W.Pieces(list, ','))
  {
    NonBlankTrims(W.Pieces(list, ','), ns);
    PiecesAreEntries(list);
    forall p ensures Stripped(p, ns) <==> ns == TrimSpace(p) {
      StrippedIsTrimmed(p, ns);
    }
    if ns != "" {
      if ps, p :| Entries(list, ps) && p in ps && Stripped(p, ns) {
        EntriesArePieces(list, ps);
      }
    }
    AllInAnyCase(list);
  }

  lemma AllInAnyCase(s: string)
    ensures W.EqualFold(s, "all") <==> |s| == 3 && s[0] in {'a', 'A'} && s[1] in {'l', 'L'} && s[2] in {'l', 'L'}
  {
    var w := "all";
    assert |w| == 3 && w[0] == 'a' && w[1] == 'l' && w[2] == 'l';
  }

  /** The Gateway has opted in for this route. */
  ghost predicate Welcomes(gw: W.Gateway, gatewayNS: string, routeNS: string, v: W.Reading) {
    && (gatewayNS == routeNS
        || exists raw, list :: Says(gw.annotations, "towonel.io/auto-routes-namespaces", raw) && Stripped(raw, list)
                               && Allows(list, routeNS))
    && (exists flag :: Says(gw.annotations, "towonel.io/auto-routes", flag) && v.truthy(flag))
  }

  /** And has somewhere to send it. */
  ghost predicate Admits(gw: W.Gateway, gatewayNS: string, routeNS: string, v: W.Reading) {
    Welcomes(gw, gatewayNS, routeNS, v) && !Says(gw.annotations, "towonel.io/gateway-service", "")
  }

  lemma SelectsAdmits(gw: W.Gateway, g: ObjectKey, routeNS: string, v: W.Reading)
    ensures W.Selects(gw, g, routeNS, v) <==> Admits(gw, g.namespace, routeNS, v)
    ensures W.AllowsNamespace(gw, g.namespace, routeNS) && v.truthy(W.Get(gw.annotations, W.AUTO_ROUTES)) <==>
            Welcomes(gw, g.namespace, routeNS, v)
  {
    var raw, flag := W.Get(gw.annotations, W.AUTO_ROUTES_NAMESPACES), W.Get(gw.annotations, W.AUTO_ROUTES);
    forall x ensures Says(gw.annotations, W.AUTO_ROUTES_NAMESPACES, x) <==> x == raw
             ensures Says(gw.annotations, W.AUTO_ROUTES, x) <==> x == flag
             ensures Stripped(raw, x) <==> x == TrimSpace(raw) {
      StrippedIsTrimmed(raw, x);
    }
    assert Says(gw.annotations, W.AUTO_ROUTES_NAMESPACES, raw) && Stripped(raw, TrimSpace(raw));
    assert Says(gw.annotations, W.AUTO_ROUTES, flag);
    AllowsIsListed(TrimSpace(raw), routeNS);
    NonBlankTrims(W.Pieces("", ','), routeNS);
  }

  /** The route's own word, or else a Gateway's. */
  ghost predicate OptsIn(c: W.Cluster, r: W.Route, v: W.Reading) {
    if "towonel.io/tunnel" in r.annotations then v.truthy(r.annotations["towonel.io/tunnel"])
    else exists g :: g in c.gateways && IsParent(r, g) && Admits(c.gateways[g], g.namespace, r.key.namespace, v)
  }

  lemma OptedInOptsIn(c: W.Cluster, r: W.Route, v: W.Reading)
    ensures W.OptedIn(c, r, v) <==> OptsIn(c, r, v)
  {
    forall g ensures W.Parents(r, g) <==> IsParent(r, g) {
      ParentsAreParents(r, g);
    }
    forall g | g in c.gateways
      ensures W.Selects(c.gateways[g], g, r.key.namespace, v) <==>
              Admits(c.gateways[g], g.namespace, r.key.namespace, v)
    {
      SelectsAdmits(c.gateways[g], g, r.key.namespace, v);
    }
  }

  // ---- the tunnel meant ----

  /** By "namespace/name", by a bare name in the route's own namespace, or, unsaid, as the only one there is. */
  ghost predicate MeansTunnel(c: W.Cluster, r: W.Route, t: ObjectKey) {
    exists raw, text :: Says(r.annotations, "towonel.io/tunnel-ref", raw) && Stripped(raw, text) && Names(c, r, text, t)
  }

  ghost predicate Names(c: W.Cluster, r: W.Route, text: string, t: ObjectKey) {
    if text == "" then c.tunnels == [t] else Writes(r, text, t)
  }

  ghost predicate Writes(r: W.Route, text: string, t: ObjectKey) {
    if '/' in text then
      text == t.namespace + "/" + t.name && '/' !in t.namespace && t.namespace != "" && t.name != ""
    else t == ObjectKey(r.key.namespace, text)
  }

  lemma ResolvedIsMeant(c: W.Cluster, r: W.Route, t: ObjectKey)
    ensures W.ResolveTunnel(c, W.Get(r.annotations, W.TUNNEL_REF), r.key.namespace) == Some(t) <==> MeansTunnel(c, r, t)
  {
    var raw := W.Get(r.annotations, W.TUNNEL_REF);
    var text := TrimSpace(raw);
    forall x ensures Says(r.annotations, W.TUNNEL_REF, x) <==> x == raw
             ensures Stripped(raw, x) <==> x == text {
      StrippedIsTrimmed(raw, x);
    }
    assert Says(r.annotations, W.TUNNEL_REF, raw) && Stripped(raw, text);
    ParsedIsNamed(c, r, raw, t);
  }

  lemma ParsedIsNamed(c: W.Cluster, r: W.Route, raw: string, t: ObjectKey)
    ensures W.ResolveTunnel(c, raw, r.key.namespace) == Some(t) <==> Names(c, r, TrimSpace(raw), t)
  {
    var text := TrimSpace(raw);
    W.CutSlashSplits(text);
    if '/' in text {
      var cut := W.CutSlash(text).value;
      assert text == cut.0 + ['/'] + cut.1;
      if '/' !in t.namespace && text == t.namespace + "/" + t.name {
        assert text == t.namespace + ['/'] + t.name;
        CutIsUnique(cut.0, cut.1, t.namespace, t.name, '/');
      }
    }
  }

  /**
   * A change of the tunnel concerns the route: it names that tunnel, or none. A route with neither a word of its own on
   * tunneling nor any reference must also be welcome with a Gateway that could be read.
   */
  ghost predicate Concerns(c: W.Cluster, unreadable: set<ObjectKey>, r: W.Route, v: W.Reading, t: ObjectKey) {
    && (exists raw, text :: Says(r.annotations, "towonel.io/tunnel-ref", raw) && Stripped(raw, text)
                            && (text == "" || Writes(r, text, t)))
    && ("towonel.io/tunnel" in r.annotations || !Says(r.annotations, "towonel.io/tunnel-ref", "")
        || exists g :: g in c.gateways && g !in unreadable && IsParent(r, g)
                       && Welcomes(c.gateways[g], g.namespace, r.key.namespace, v))
  }

  lemma WakesConcerned(c: W.Cluster, unreadable: set<ObjectKey>, r: W.Route, v: W.Reading, t: ObjectKey)
    ensures W.TunnelWakes(c, unreadable, r, v, t) <==> Concerns(c, unreadable, r, v, t)
  {
    var raw := W.Get(r.annotations, W.TUNNEL_REF);
    var text := TrimSpace(raw);
    TargetsWritten(r, t, raw, text);
    SomeoneWelcomes(c, unreadable, r, v);
    hide W.MaySelect, Welcomes, W.Parents, IsParent, Writes;
    assert TrimSpace("") == "";
  }

  lemma TargetsWritten(r: W.Route, t: ObjectKey, raw: string, text: string)
    requires raw == W.Get(r.annotations, W.TUNNEL_REF) && text == TrimSpace(raw)
    ensures W.SourceTargetsTunnel(r.annotations, r.key.namespace, t) <==>
            exists said, word :: Says(r.annotations, "towonel.io/tunnel-ref", said) && Stripped(said, word)
                                 && (word == "" || Writes(r, word, t))
  {
    ParsedIsNamed(W.Cluster(map[], map[], []), r, raw, t);
    forall x ensures Says(r.annotations, W.TUNNEL_REF, x) <==> x == raw
             ensures Stripped(raw, x) <==> x == text {
      StrippedIsTrimmed(raw, x);
    }
    assert Says(r.annotations, W.TUNNEL_REF, raw) && Stripped(raw, text);
    hide Writes, Stripped, Says, W.CutSlash;
  }

  lemma SomeoneWelcomes(c: W.Cluster, unreadable: set<ObjectKey>, r: W.Route, v: W.Reading)
    ensures (exists g :: g in c.gateways && W.Parents(r, g) && W.MaySelect(c, unreadable, r, v, g)) <==>
            exists g :: g in c.gateways && g !in unreadable && IsParent(r, g)
                        && Welcomes(c.gateways[g], g.namespace, r.key.namespace, v)
  {
    forall g | g in c.gateways
      ensures W.Parents(r, g) <==> IsParent(r, g)
      ensures W.MaySelect(c, unreadable, r, v, g) <==>
              g !in unreadable && Welcomes(c.gateways[g], g.namespace, r.key.namespace, v)
    {
      ParentsAreParents(r, g);
      SelectsAdmits(c.gateways[g], g, r.key.namespace, v);
    }
    hide W.MaySelect, Welcomes, W.Parents, IsParent;
  }

  // ---- where it leads ----

  /** The proxy Service the Gateway names, at the port named or else its first. */
  ghost predicate LeadsTo(c: W.Cluster, r: W.Route, v: W.Reading, g: ObjectKey, origin: string) {
    && g in c.gateways && IsParent(r, g)
    && exists raw, ref :: Says(c.gateways[g].annotations, "towonel.io/gateway-service", raw) && raw != ""
                          && v.serviceRef(raw, g.namespace) == Some(ref) && ref.key in c.services
                          && ServedAt(c.services[ref.key], ref.port, v, origin)
  }

  ghost predicate ServedAt(svc: W.ProxyService, port: int, v: W.Reading, origin: string) {
    || (port != 0 && origin == v.origin(svc.clusterIP, port))
    || (port == 0 && svc.ports != [] && origin == v.origin(svc.clusterIP, svc.ports[0]))
  }

  lemma OriginsLead(c: W.Cluster, r: W.Route, v: W.Reading, origin: string)
    ensures origin in W.Origins(c, r, v) <==> exists g :: LeadsTo(c, r, v, g, origin)
  {
    forall g
      ensures g in c.gateways && W.Parents(r, g) && W.OriginOf(c, g, v) == Some(origin) <==>
              LeadsTo(c, r, v, g, origin)
    {
      ParentsAreParents(r, g);
      if g in c.gateways {
        var raw := W.Get(c.gateways[g].annotations, W.GATEWAY_SERVICE);
        assert forall x :: Says(c.gateways[g].annotations, W.GATEWAY_SERVICE, x) <==> x == raw;
      }
    }
    if origin in W.Origins(c, r, v) {
      var g :| g in c.gateways && W.Parents(r, g) && W.OriginOf(c, g, v).Some? && W.OriginOf(c, g, v).value == origin;
      assert LeadsTo(c, r, v, g, origin);
    }
  }

  /** All of the route's Gateways that lead anywhere lead there, and one does. */
  ghost predicate OneOrigin(c: W.Cluster, r: W.Route, v: W.Reading, origin: string) {
    && (exists g :: LeadsTo(c, r, v, g, origin))
    && forall g, other :: LeadsTo(c, r, v, g, other) ==> other == origin
  }

  lemma OnlyOriginIsOne(c: W.Cluster, r: W.Route, v: W.Reading, origin: string)
    ensures W.Origins(c, r, v) == {origin} <==> OneOrigin(c, r, v, origin)
  {
    forall o ensures o in W.Origins(c, r, v) <==> exists g :: LeadsTo(c, r, v, g, o) {
      OriginsLead(c, r, v, o);
    }
    if OneOrigin(c, r, v, origin) {
      forall o | o in W.Origins(c, r, v) ensures o == origin {
        var g :| LeadsTo(c, r, v, g, o);
      }
    }
    if W.Origins(c, r, v) == {origin} {
      assert origin in W.Origins(c, r, v);
      forall g, other | LeadsTo(c, r, v, g, other) ensures other == origin {
        assert other in W.Origins(c, r, v);
      }
    }
  }
}
