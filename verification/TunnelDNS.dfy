/** The tunnel's DNSEndpoint: exactly one owned object, or none. */
module TunnelDNS {
  import opened Text
  import opened Histories
  import opened Conventions
  import opened Environment
  import opened Api
  import opened TunnelInvite

  /** dnsOptOutHostnames: any agent's dnsRecord:false wins. */
  function OptedOut(agents: seq<Agent>): set<string> {
    set i, j | 0 <= i < |agents| && 0 <= j < |agents[i].services|
               && agents[i].services[j].dnsRecord == Some(false) :: agents[i].services[j].hostname
  }

  method DNSOptOutHostnames(agents: seq<Agent>) returns (out: set<string>)
    ensures out == OptedOut(agents)
    ensures forall h :: h in out <==>
              exists a, svc :: a in agents && svc in a.services && svc.hostname == h && svc.dnsRecord == Some(false)
  {
    out := {};
    for i := 0 to |agents|
      invariant out == set k, j | 0 <= k < i && 0 <= j < |agents[k].services|
                                  && agents[k].services[j].dnsRecord == Some(false) :: agents[k].services[j].hostname
    {
      ghost var before := out;
      for j := 0 to |agents[i].services|
        invariant out == before + (set k | 0 <= k < j && agents[i].services[k].dnsRecord == Some(false)
                                     :: agents[i].services[k].hostname)
      {
        var svc := agents[i].services[j];
        if svc.dnsRecord == Some(false) {
          out := out + {svc.hostname};
        }
      }
    }
  }

  predicate IsWildcard(h: string) { "*." <= h }

  /** Whether a confirmed hostname gets a record. */
  predicate Published(h: string, includeWildcards: bool, optOut: set<string>) {
    !(IsWildcard(h) && !includeWildcards) && h !in optOut
  }

  function PublishedNames(confirmed: seq<string>, includeWildcards: bool, optOut: set<string>): seq<string> {
    if confirmed == [] then []
    else
      var p, h := PublishedNames(confirmed[..|confirmed| - 1], includeWildcards, optOut), confirmed[|confirmed| - 1];
      if Published(h, includeWildcards, optOut) then p + [h] else p
  }

  lemma {:induction false} PublishedExactly(confirmed: seq<string>, includeWildcards: bool, optOut: set<string>)
    ensures Elements(PublishedNames(confirmed, includeWildcards, optOut))
            == set h | h in confirmed && Published(h, includeWildcards, optOut)
  {
    if confirmed != [] {
      var c, h := confirmed[..|confirmed| - 1], confirmed[|confirmed| - 1];
      PublishedExactly(c, includeWildcards, optOut);
      assert confirmed == c + [h];
      var p := PublishedNames(c, includeWildcards, optOut);
      assert Elements(p + [h]) == Elements(p) + {h};
    }
  }

  lemma {:induction false} PublishedInOrder(confirmed: seq<string>, includeWildcards: bool, optOut: set<string>)
    requires StrictlySorted(confirmed)
    ensures StrictlySorted(PublishedNames(confirmed, includeWildcards, optOut))
  {
    if confirmed != [] {
      var c, h := confirmed[..|confirmed| - 1], confirmed[|confirmed| - 1];
      var p := PublishedNames(c, includeWildcards, optOut);
      PublishedInOrder(c, includeWildcards, optOut);
      PublishedExactly(c, includeWildcards, optOut);
      forall i | 0 <= i < |p| ensures Less(p[i], h) {
        assert p[i] in Elements(p);
        var k :| 0 <= k < |c| && c[k] == p[i];
        assert Less(Itself(confirmed[k]), Itself(confirmed[|confirmed| - 1]));
      }
    }
  }

  function TrimDot(s: string): string {
    if s != "" && s[|s| - 1] == '.' then s[..|s| - 1] else s
  }

  /** The CNAME target: the spec's, else the operator's for the hub region; "" if neither names one. */
  function EdgeTarget(dns: TunnelDNSSpec, edgeTargets: map<string, string>, region: string): string {
    var own := TrimDot(dns.cnameTarget);
    if own != "" then own else if region in edgeTargets then edgeTargets[region] else ""
  }

  function Endpoints(names: seq<string>, target: string, ttl: int): seq<Endpoint> {
    seq(|names|, i requires 0 <= i < |names| => Endpoint(names[i], target, ttl))
  }

  function Records(names: seq<string>, target: string): seq<DNSRecord> {
    seq(|names|, i requires 0 <= i < |names| => DNSRecord(names[i], target))
  }

  /** The object this tunnel would own: operator labels and annotation win over the user's. */
  function EndpointObject(tt: Tunnel, digest: string -> string, names: seq<string>, target: string): DNSObject {
    DNSObject(
      tt.dns.labels[LABEL_MANAGED_BY := MANAGED_BY_VALUE][LABEL_OWNER_TUNNEL := OwnerHash(digest, tt.key)],
      tt.dns.annotations[ANNOTATION_OWNER_TUNNEL_REF := QualifiedName(tt.key)],
      Endpoints(names, target, tt.dns.defaultTTL))
  }

  function EndpointKey(tt: Tunnel, digest: string -> string): ObjectKey {
    ObjectKey(if tt.dns.namespace != "" then tt.dns.namespace else tt.key.namespace, DnsEndpointName(digest, tt.key))
  }

  /** What desiredDNSEndpoint computes: None when no edge target resolves. */
  datatype Intent = Intent(key: ObjectKey, obj: DNSObject, records: seq<DNSRecord>)

  function NamesToPublish(tt: Tunnel, view: InviteView, optOut: set<string>): seq<string> {
    if view.revoked then [] else PublishedNames(Dedup(view.confirmed), tt.dns.includeWildcards, optOut)
  }

  /** desiredDNSEndpoint. */
  method DesiredDNSEndpoint(tt: Tunnel, digest: string -> string, view: InviteView, edgeTargets: map<string, string>,
                            optOut: set<string>)
    returns (r: Option<Intent>)
    ensures var target, names := EdgeTarget(tt.dns, edgeTargets, view.region), NamesToPublish(tt, view, optOut);
      r == if target == "" then None
           else Some(Intent(EndpointKey(tt, digest), EndpointObject(tt, digest, names, target), Records(names, target)))
  {
    var target := TrimDot(tt.dns.cnameTarget);
    if target == "" && view.region in edgeTargets {
      target := edgeTargets[view.region];
    }
    if target == "" {
      return None;
    }
    var labels := tt.dns.labels[LABEL_MANAGED_BY := MANAGED_BY_VALUE];
    labels := labels[LABEL_OWNER_TUNNEL := OwnerHash(digest, tt.key)];
    var annotations := tt.dns.annotations[ANNOTATION_OWNER_TUNNEL_REF := QualifiedName(tt.key)];
    var eps, records := [], [];
    assert eps == Endpoints([], target, tt.dns.defaultTTL) && records == Records([], target);
    if !view.revoked {
      eps, records := BuildEndpoints(tt.dns, view.confirmed, target, optOut);
    }
    return Some(Intent(EndpointKey(tt, digest), DNSObject(labels, annotations, eps), records));
  }

  method BuildEndpoints(dns: TunnelDNSSpec, confirmed: seq<string>, target: string, optOut: set<string>)
    returns (eps: seq<Endpoint>, records: seq<DNSRecord>)
    ensures var names := PublishedNames(Dedup(confirmed), dns.includeWildcards, optOut);
      eps == Endpoints(names, target, dns.defaultTTL) && records == Records(names, target)
  {
    var hs := Dedupe(confirmed);
    eps, records := [], [];
    for i := 0 to |hs|
      invariant var names := PublishedNames(hs[..i], dns.includeWildcards, optOut);
        eps == Endpoints(names, target, dns.defaultTTL) && records == Records(names, target)
    {
      assert hs[..i + 1][..i] == hs[..i];
      var h := hs[i];
      if (IsWildcard(h) && !dns.includeWildcards) || h in optOut {
        continue;
      }
      eps := eps + [Endpoint(h, target, dns.defaultTTL)];
      records := records + [DNSRecord(h, target)];
    }
    assert hs[..|hs|] == hs;
  }

  // ---- what the records should say, in the spec's own terms ----

  /** The text, less one trailing dot. */
  ghost predicate WithoutDot(s: string, t: string) {
    s == t + "." || (s == t && (t == "" || t[|t| - 1] != '.'))
  }

  /** The spec names this target itself, or leaves it to the operator's table, which has it for the region. */
  ghost predicate PointsAt(dns: TunnelDNSSpec, edgeTargets: map<string, string>, region: string, target: string) {
    && target != ""
    && (WithoutDot(dns.cnameTarget, target)
        || (WithoutDot(dns.cnameTarget, "") && region in edgeTargets && edgeTargets[region] == target))
  }

  ghost predicate PointsNowhere(dns: TunnelDNSSpec, edgeTargets: map<string, string>, region: string) {
    WithoutDot(dns.cnameTarget, "") && (region in edgeTargets ==> edgeTargets[region] == "")
  }

  /** A confirmed name that is neither opted out nor a wildcard nobody asked for. */
  ghost predicate Wanted(dns: TunnelDNSSpec, view: InviteView, optOut: set<string>, h: string) {
    && !view.revoked && h != "" && h in view.confirmed && h !in optOut
    && (2 <= |h| && h[0] == '*' && h[1] == '.' ==> dns.includeWildcards)
  }

  /** One CNAME for each name wanted, and no other, all to the target. */
  ghost predicate RecordsSay(records: seq<DNSRecord>, dns: TunnelDNSSpec, view: InviteView, optOut: set<string>,
                             target: string) {
    && (forall r :: r in records ==> r.target == target && Wanted(dns, view, optOut, r.hostname))
    && (forall h :: Wanted(dns, view, optOut, h) ==> DNSRecord(h, target) in records)
    && (forall i, j :: 0 <= i < j < |records| ==> Less(records[i].hostname, records[j].hostname))
  }

  /** The user's entries, with the operator's own over them. */
  ghost predicate Overlaid(m: map<string, string>, user: map<string, string>, own: map<string, string>) {
    forall k :: (k in m <==> k in user || k in own)
                && (k in m ==> m[k] == if k in own then own[k] else user[k])
  }

  /** The object the spec asks for, where it asks for it. */
  ghost predicate AsAsked(tt: Tunnel, digest: string -> string, view: InviteView, optOut: set<string>, target: string,
                          key: ObjectKey, obj: DNSObject) {
    && key.name == DnsEndpointName(digest, tt.key)
    && key.namespace == (if tt.dns.namespace == "" then tt.key.namespace else tt.dns.namespace)
    && Overlaid(obj.labels, tt.dns.labels,
                map[LABEL_MANAGED_BY := MANAGED_BY_VALUE, LABEL_OWNER_TUNNEL := OwnerHash(digest, tt.key)])
    && Overlaid(obj.annotations, tt.dns.annotations, map[ANNOTATION_OWNER_TUNNEL_REF := QualifiedName(tt.key)])
    && (forall e :: e in obj.endpoints ==>
          e.target == target && e.ttl == tt.dns.defaultTTL && Wanted(tt.dns, view, optOut, e.dnsName))
    && (forall h :: Wanted(tt.dns, view, optOut, h) ==> Endpoint(h, target, tt.dns.defaultTTL) in obj.endpoints)
    && (forall i, j :: 0 <= i < j < |obj.endpoints| ==> Less(obj.endpoints[i].dnsName, obj.endpoints[j].dnsName))
  }

  lemma EdgeTargetPoints(dns: TunnelDNSSpec, edgeTargets: map<string, string>, region: string)
    ensures forall t :: PointsAt(dns, edgeTargets, region, t) <==> t != "" && t == EdgeTarget(dns, edgeTargets, region)
    ensures PointsNowhere(dns, edgeTargets, region) <==> EdgeTarget(dns, edgeTargets, region) == ""
  {
    forall t ensures WithoutDot(dns.cnameTarget, t) <==> t == TrimDot(dns.cnameTarget) {
      if WithoutDot(dns.cnameTarget, t) {
        assert (t + ".")[..|t|] == t;
      }
    }
  }

  lemma NamesAreWanted(tt: Tunnel, view: InviteView, optOut: set<string>, h: string)
    ensures h in NamesToPublish(tt, view, optOut) <==> Wanted(tt.dns, view, optOut, h)
  {
    PublishedExactly(Dedup(view.confirmed), tt.dns.includeWildcards, optOut);
    DedupContents(view.confirmed);
    assert h in Dedup(view.confirmed) <==> h in Elements(Dedup(view.confirmed));
    assert h in NamesToPublish(tt, view, optOut) <==> h in Elements(NamesToPublish(tt, view, optOut));
    assert IsWildcard(h) <==> 2 <= |h| && h[0] == '*' && h[1] == '.';
  }

  lemma ObjectIsAsAsked(tt: Tunnel, digest: string -> string, view: InviteView, optOut: set<string>, target: string)
    ensures AsAsked(tt, digest, view, optOut, target, EndpointKey(tt, digest),
                    EndpointObject(tt, digest, NamesToPublish(tt, view, optOut), target))
    ensures RecordsSay(Records(NamesToPublish(tt, view, optOut), target), tt.dns, view, optOut, target)
  {
    var names := NamesToPublish(tt, view, optOut);
    forall h ensures h in names <==> Wanted(tt.dns, view, optOut, h) {
      NamesAreWanted(tt, view, optOut, h);
    }
    ListedByName(names, target, tt.dns.defaultTTL);
    DedupContents(view.confirmed);
    PublishedInOrder(Dedup(view.confirmed), tt.dns.includeWildcards, optOut);
    forall i, j | 0 <= i < j < |names| ensures Less(names[i], names[j]) {
      assert Less(Itself(names[i]), Itself(names[j]));
    }
  }

  lemma ListedByName(names: seq<string>, target: string, ttl: int)
    ensures forall e :: e in Endpoints(names, target, ttl) <==>
            e.dnsName in names && e == Endpoint(e.dnsName, target, ttl)
    ensures forall r :: r in Records(names, target) <==> r.hostname in names && r == DNSRecord(r.hostname, target)
  {
    forall i | 0 <= i < |names|
      ensures Endpoint(names[i], target, ttl) in Endpoints(names, target, ttl)
      ensures DNSRecord(names[i], target) in Records(names, target)
    {
      assert Endpoints(names, target, ttl)[i] == Endpoint(names[i], target, ttl);
      assert Records(names, target)[i] == DNSRecord(names[i], target);
    }
  }

  // ---- single calls on the cluster ----

  /** Who is acting on DNS: an owner hash, and the one object name it may write, if any. */
  datatype Owner = Owner(hash: string, name: Option<string>)

  function OwnerOf(digest: string -> string, t: ObjectKey): Owner {
    Owner(OwnerHash(digest, t), Some(DnsEndpointName(digest, t)))
  }

  /** Only this owner's DNSEndpoints differ, and any new or changed one carries its name. */
  ghost predicate OnlyOwnDNS(w: World, v: World, o: Owner) {
    && v == w.(dns := v.dns)
    && (forall k :: k in w.dns && !OwnedBy(w.dns[k], o.hash) ==> k in v.dns && v.dns[k] == w.dns[k])
    && (forall k :: k in v.dns && !(k in w.dns && v.dns[k] == w.dns[k]) ==>
        OwnedBy(v.dns[k], o.hash) && o.name == Some(k.name))
  }

  ghost function DNSSteps(o: Owner): Rule<World> {
    (w, v) => OnlyOwnDNS(w, v, o)
  }

  lemma OnlyOwnDNSTransitive(u: World, w: World, v: World, o: Owner)
    requires OnlyOwnDNS(u, w, o) && OnlyOwnDNS(w, v, o)
    ensures OnlyOwnDNS(u, v, o)
  {}

  lemma DropIsOwn(w: World, key: ObjectKey, o: Owner)
    requires key in w.dns ==> OwnedBy(w.dns[key], o.hash)
    ensures OnlyOwnDNS(w, DropDNS(w, key), o)
  {}

  lemma PutIsOwn(w: World, key: ObjectKey, obj: DNSObject, o: Owner)
    requires key in w.dns ==> OwnedBy(w.dns[key], o.hash)
    requires OwnedBy(obj, o.hash) && o.name == Some(key.name)
    ensures OnlyOwnDNS(w, PutDNS(w, key, obj), o)
  {}

  /** Objects only went away, and no owned one but the kept one remains if the sweep succeeded. */
  ghost predicate Swept(w: World, v: World, hash: string, keep: Option<ObjectKey>, ok: bool) {
    && (forall k :: k in v.dns ==> k in w.dns && v.dns[k] == w.dns[k])
    && (ok ==> forall k :: k in v.dns && OwnedBy(v.dns[k], hash) ==> keep == Some(k))
    && (keep.Some? && keep.value in w.dns ==> keep.value in v.dns)
  }

  /** sweepDNSEndpoints: delete every owned DNSEndpoint but one, in every namespace. */
  method SweepDNSEndpoints(env: Env, ghost o: Owner, hash: string, keep: Option<ObjectKey>) returns (ok: bool)
    requires env.Valid() && hash == o.hash
    modifies env`w, env`calls, env`history
    ensures env.Valid() && Extends(old(env.history), env.history, DNSSteps(o))
    ensures OnlyOwnDNS(old(env.w), env.w, o) && Swept(old(env.w), env.w, hash, keep, ok)
    ensures env.Flawless() ==> ok
  {
    ghost var start := env.w;
    assert env.history[|env.history| - 1..] == [env.w];
    var r := env.ListDNS(hash);
    if r.Err? {
      return r.error == NoMatch;
    }
    ok := true;
    var todo := r.value;
    while todo != {}
      invariant env.Valid() && Extends(old(env.history), env.history, DNSSteps(o))
      invariant OnlyOwnDNS(start, env.w, o) && Swept(start, env.w, hash, keep, false)
      invariant todo <= Owned(start, hash).Keys
      invariant env.Flawless() ==> ok
      invariant ok ==> forall k :: k in env.w.dns && OwnedBy(env.w.dns[k], hash) ==> k in todo || keep == Some(k)
      decreases todo
    {
      var key :| key in todo;
      todo := todo - {key};
      if keep == Some(key) {
        continue;
      }
      var gone := DeleteOwned(env, o, key, start, old(env.history));
      ok := ok && gone;
    }
  }

  /** One delete call; a 404 counts as deleted. */
  method DeleteOwned(env: Env, ghost o: Owner, key: ObjectKey, ghost start: World, ghost from: seq<World>)
    returns (gone: bool)
    requires env.Valid() && Extends(from, env.history, DNSSteps(o)) && OnlyOwnDNS(start, env.w, o)
    requires key in env.w.dns ==> OwnedBy(env.w.dns[key], o.hash)
    modifies env`w, env`calls, env`history
    ensures env.Valid() && Extends(from, env.history, DNSSteps(o)) && OnlyOwnDNS(start, env.w, o)
    ensures env.w == old(env.w) || env.w == DropDNS(old(env.w), key)
    ensures gone ==> key !in env.w.dns
    ensures env.Flawless() ==> gone
  {
    ghost var before, past := env.w, env.history;
    DropIsOwn(before, key, o);
    var d := env.DeleteDNS(key);
    OneMore(from, past, env.w, DNSSteps(o));
    OnlyOwnDNSTransitive(start, before, env.w, o);
    gone := d.Ok? || d.error == NotFound;
  }

  // ---- one pass ----

  /** The state a condition reports. */
  ghost predicate Reports(tt: Tunnel, w: World, digest: string -> string, names: seq<string>, target: string,
                          retry: bool)
    reads tt
  {
    var hash := OwnerHash(digest, tt.key);
    match tt.status.dnsSynced
    case None => tt.dns.mode.Disabled? && Owned(w, hash) == map[] && !retry
    case Some(Condition(true, reason)) =>
      && reason == Synced && !retry && tt.dns.mode.DNSEndpoint? && target != ""
      && Owned(w, hash) == if names == [] then map[]
           else map[EndpointKey(tt, digest) := EndpointObject(tt, digest, names, target)]
    case Some(Condition(false, reason)) =>
      && (reason == InviteRevoked || reason == NoEdgeTarget ==> Owned(w, hash) == map[])
      && (reason == ForeignObject ==>
          EndpointKey(tt, digest) in w.dns && !OwnedBy(w.dns[EndpointKey(tt, digest)], hash))
      && (reason == DNSCRDMissing ==> !w.crdInstalled)
      && (retry <==> reason == APIError || reason == ForeignObject || reason == DNSCRDMissing)
  }

  lemma ObjectIsOwned(tt: Tunnel, digest: string -> string, names: seq<string>, target: string)
    ensures OwnedBy(EndpointObject(tt, digest, names, target), OwnerHash(digest, tt.key))
  {}

  lemma SweptAllOwnsNothing(w: World, v: World, hash: string)
    requires Swept(w, v, hash, None, true)
    ensures Owned(v, hash) == map[]
  {}

  lemma AppliedOwnsOne(w: World, v: World, hash: string, key: ObjectKey, obj: DNSObject)
    requires forall k :: k in w.dns && OwnedBy(w.dns[k], hash) ==> k == key
    requires v == PutDNS(w, key, obj) && OwnedBy(obj, hash)
    ensures Owned(v, hash) == map[key := obj]
  {}

  /** Nothing in the cluster stands in the way of publishing for this tunnel. */
  predicate CanPublish(w: World, tt: Tunnel, digest: string -> string, target: string) {
    var key := EndpointKey(tt, digest);
    && tt.dns.mode.DNSEndpoint? && target != "" && w.crdInstalled && key.namespace in w.namespaces
    && (key in w.dns ==> OwnedBy(w.dns[key], OwnerHash(digest, tt.key)))
  }

  /** What DNS and status say after a pass, in the spec's own terms. */
  ghost predicate SaysWhatIsAsked(tt: Tunnel, w: World, digest: string -> string, view: InviteView,
                                  edgeTargets: map<string, string>, optOut: set<string>, retry: bool)
    reads tt
  {
    var owned, dns := Owned(w, OwnerHash(digest, tt.key)), tt.dns;
    && (forall target :: PointsAt(dns, edgeTargets, view.region, target) ==>
          && RecordsSay(tt.status.dnsRecords, dns, view, optOut, target)
          && (tt.status.dnsSynced == Some(Condition(true, Synced)) ==>
                && (forall k :: k in owned ==> AsAsked(tt, digest, view, optOut, target, k, owned[k]))
                && ((exists h :: Wanted(dns, view, optOut, h)) <==> owned != map[])))
    && (PointsNowhere(dns, edgeTargets, view.region) ==>
          && tt.status.dnsRecords == [] && tt.status.dnsSynced != Some(Condition(true, Synced))
          && (dns.mode.DNSEndpoint? && !view.revoked && !retry ==>
                tt.status.dnsSynced == Some(Condition(false, NoEdgeTarget)) && owned == map[]))
  }

  lemma RevokedSaysNothing(tt: Tunnel, view: InviteView, optOut: set<string>, target: string)
    ensures view.revoked ==> Records(NamesToPublish(tt, view, optOut), target) == []
  {}

  lemma ReportsSayWhatIsAsked(tt: Tunnel, w: World, digest: string -> string, view: InviteView,
                              edgeTargets: map<string, string>, optOut: set<string>, retry: bool)
    requires var target, names := EdgeTarget(tt.dns, edgeTargets, view.region), NamesToPublish(tt, view, optOut);
      && Reports(tt, w, digest, names, target, retry)
      && tt.status.dnsRecords == (if target == "" || view.revoked then [] else Records(names, target))
      && (target == "" && tt.dns.mode.DNSEndpoint? && !view.revoked && !retry ==>
            tt.status.dnsSynced == Some(Condition(false, NoEdgeTarget)))
    ensures SaysWhatIsAsked(tt, w, digest, view, edgeTargets, optOut, retry)
  {
    hide AsAsked, RecordsSay, Wanted, EndpointObject, EndpointKey, NamesToPublish, EdgeTarget, Records, PointsAt,
         PointsNowhere;
    var target, names := EdgeTarget(tt.dns, edgeTargets, view.region), NamesToPublish(tt, view, optOut);
    EdgeTargetPoints(tt.dns, edgeTargets, view.region);
    ObjectIsAsAsked(tt, digest, view, optOut, target);
    RevokedSaysNothing(tt, view, optOut, target);
    forall h ensures h in names <==> Wanted(tt.dns, view, optOut, h) {
      NamesAreWanted(tt, view, optOut, h);
    }
    if names != [] {
      assert names[0] in names && Wanted(tt.dns, view, optOut, names[0]);
      assert EndpointKey(tt, digest) in map[EndpointKey(tt, digest) := EndpointObject(tt, digest, names, target)];
    }
  }

  /** The body of reconcileDNS. */
  method ConvergeDNS(env: Env, tt: Tunnel, digest: string -> string, view: InviteView,
                     edgeTargets: map<string, string>, optOut: set<string>)
    returns (retry: bool)
    requires env.Valid()
    modifies env`w, env`calls, env`history, tt`status
    ensures env.Valid() && Extends(old(env.history), env.history, DNSSteps(OwnerOf(digest, tt.key)))
    ensures OnlyOwnDNS(old(env.w), env.w, OwnerOf(digest, tt.key))
    ensures var target, names := EdgeTarget(tt.dns, edgeTargets, view.region), NamesToPublish(tt, view, optOut);
      && Reports(tt, env.w, digest, names, target, retry)
      && tt.status == old(tt.status).(dnsSynced := tt.status.dnsSynced,
                                      dnsRecords := if target == "" || view.revoked then [] else Records(names, target))
    ensures view.revoked ==> tt.status.dnsSynced.None? || !tt.status.dnsSynced.value.status
    ensures env.Flawless() && !view.revoked
            && CanPublish(old(env.w), tt, digest, EdgeTarget(tt.dns, edgeTargets, view.region)) ==>
              !retry && tt.status.dnsSynced == Some(Condition(true, Synced))
    ensures (view.revoked || tt.dns.mode.Disabled?) && !retry ==> Owned(env.w, OwnerHash(digest, tt.key)) == map[]
    ensures EdgeTarget(tt.dns, edgeTargets, view.region) == "" && tt.dns.mode.DNSEndpoint? && !view.revoked
            && !retry ==>
              tt.status.dnsSynced == Some(Condition(false, NoEdgeTarget))
  {
    ghost var o := OwnerOf(digest, tt.key);
    var hash := OwnerHash(digest, tt.key);
    var desired := DesiredDNSEndpoint(tt, digest, view, edgeTargets, optOut);
    tt.status := tt.status.(dnsRecords := if desired.None? || view.revoked then [] else desired.value.records);
    var quiet := tt.dns.mode != DNSEndpoint || view.revoked || desired.None? || desired.value.obj.endpoints == [];
    if quiet {
      var ok := SweepDNSEndpoints(env, o, hash, None);
      if !ok {
        tt.status := tt.status.(dnsSynced := Some(Condition(false, APIError)));
        return true;
      }
      SweptAllOwnsNothing(old(env.w), env.w, hash);
      tt.status := tt.status.(dnsSynced :=
        if tt.dns.mode != DNSEndpoint then None
        else if view.revoked then Some(Condition(false, InviteRevoked))
        else if desired.None? then Some(Condition(false, NoEdgeTarget))
        else Some(Condition(true, Synced)));
      return false;
    }
    var reason;
    retry, reason := Publish(env, o, hash, desired.value);
    tt.status := tt.status.(dnsSynced := Some(Condition(reason == Synced, reason)));
    ObjectIsOwned(tt, digest, NamesToPublish(tt, view, optOut), EdgeTarget(tt.dns, edgeTargets, view.region));
  }

  /** reconcileDNS. */
  method ReconcileDNS(env: Env, tt: Tunnel, digest: string -> string, view: InviteView,
                      edgeTargets: map<string, string>, optOut: set<string>)
    returns (retry: bool)
    requires env.Valid()
    modifies env`w, env`calls, env`history, tt`status
    ensures env.Valid() && Extends(old(env.history), env.history, DNSSteps(OwnerOf(digest, tt.key)))
    ensures OnlyOwnDNS(old(env.w), env.w, OwnerOf(digest, tt.key))
    ensures var target, names := EdgeTarget(tt.dns, edgeTargets, view.region), NamesToPublish(tt, view, optOut);
      && Reports(tt, env.w, digest, names, target, retry)
      && tt.status == old(tt.status).(dnsSynced := tt.status.dnsSynced,
                                      dnsRecords := if target == "" || view.revoked then [] else Records(names, target))
    ensures view.revoked ==> tt.status.dnsSynced.None? || !tt.status.dnsSynced.value.status
    ensures env.Flawless() && !view.revoked
            && CanPublish(old(env.w), tt, digest, EdgeTarget(tt.dns, edgeTargets, view.region)) ==>
              !retry && tt.status.dnsSynced == Some(Condition(true, Synced))
    ensures (view.revoked || tt.dns.mode.Disabled?) && !retry ==> Owned(env.w, OwnerHash(digest, tt.key)) == map[]
    ensures SaysWhatIsAsked(tt, env.w, digest, view, edgeTargets, optOut, retry)
  {
    retry := ConvergeDNS(env, tt, digest, view, edgeTargets, optOut);
    ReportsSayWhatIsAsked(tt, env.w, digest, view, edgeTargets, optOut, retry);
  }

  /** The publishing half of reconcileDNS: sweep the rest, look before overwriting, apply. */
  method Publish(env: Env, ghost o: Owner, hash: string, desired: Intent) returns (retry: bool, reason: Reason)
    requires env.Valid() && hash == o.hash && o.name == Some(desired.key.name) && OwnedBy(desired.obj, hash)
    modifies env`w, env`calls, env`history
    ensures env.Valid() && Extends(old(env.history), env.history, DNSSteps(o))
    ensures OnlyOwnDNS(old(env.w), env.w, o)
    ensures reason in {Synced, APIError, InvalidConfig, ForeignObject, DNSCRDMissing}
    ensures retry <==> reason == APIError || reason == ForeignObject || reason == DNSCRDMissing
    ensures reason == Synced ==> Owned(env.w, hash) == map[desired.key := desired.obj]
    ensures reason == ForeignObject ==> desired.key in env.w.dns && !OwnedBy(env.w.dns[desired.key], hash)
    ensures reason == DNSCRDMissing ==> !env.w.crdInstalled
    ensures env.Flawless() && old(env.w).crdInstalled && desired.key.namespace in old(env.w).namespaces ==>
              reason == Synced || reason == ForeignObject
  {
    ghost var start := env.w;
    var ok := SweepDNSEndpoints(env, o, hash, Some(desired.key));
    if !ok {
      return true, APIError;
    }
    var existing := env.GetDNS(desired.key);
    if existing.Ok? {
      if !OwnedBy(existing.value, hash) {
        return true, ForeignObject;
      }
    } else if existing.error == NoMatch {
      return true, DNSCRDMissing;
    } else if existing.error != NotFound {
      return true, APIError;
    }
    ghost var before, past := env.w, env.history;
    PutIsOwn(before, desired.key, desired.obj, o);
    var applied := env.ApplyDNS(desired.key, desired.obj);
    OneMore(old(env.history), past, env.w, DNSSteps(o));
    OnlyOwnDNSTransitive(start, before, env.w, o);
    if applied.Err? {
      return applied.error != Invalid, if applied.error == Invalid then InvalidConfig else APIError;
    }
    AppliedOwnsOne(before, env.w, hash, desired.key, desired.obj);
    return false, Synced;
  }

  // ---- many tunnels ----

  /** The tunnels one operator runs: distinct owner hashes and dot-free namespaces. */
  ghost predicate Fleet(fleet: set<ObjectKey>, digest: string -> string) {
    && (forall t :: t in fleet ==> '.' !in t.namespace && IsOwnerHash(digest, t))
    && (forall t, u :: t in fleet && u in fleet && OwnerHash(digest, t) == OwnerHash(digest, u) ==> t == u)
  }

  /** Every object a fleet tunnel owns carries that tunnel's name. */
  ghost predicate RightlyNamed(w: World, fleet: set<ObjectKey>, digest: string -> string) {
    forall k, t :: k in w.dns && t in fleet && OwnedBy(w.dns[k], OwnerHash(digest, t)) ==>
        k.name == DnsEndpointName(digest, t)
  }

  /** A step of some fleet tunnel's pass. */
  ghost predicate FleetStep(w: World, v: World, fleet: set<ObjectKey>, digest: string -> string) {
    exists t :: t in fleet && OnlyOwnDNS(w, v, OwnerOf(digest, t))
  }

  lemma FleetStepKeepsNames(w: World, v: World, fleet: set<ObjectKey>, digest: string -> string)
    requires Fleet(fleet, digest) && RightlyNamed(w, fleet, digest) && FleetStep(w, v, fleet, digest)
    ensures RightlyNamed(v, fleet, digest)
  {}

  /** A pass of one tunnel leaves every other fleet tunnel's objects exactly as they were. */
  lemma OthersUntouched(w: World, v: World, fleet: set<ObjectKey>, digest: string -> string, t: ObjectKey, u: ObjectKey)
    requires Fleet(fleet, digest) && t in fleet && u in fleet && t != u
    requires OnlyOwnDNS(w, v, OwnerOf(digest, t))
    ensures Owned(v, OwnerHash(digest, u)) == Owned(w, OwnerHash(digest, u))
  {
    var h := OwnerHash(digest, u);
    forall k | k in v.dns && OwnedBy(v.dns[k], h) ensures k in w.dns && v.dns[k] == w.dns[k] {
      assert !OwnedBy(v.dns[k], OwnerHash(digest, t));
    }
    forall k | k in w.dns && OwnedBy(w.dns[k], h) ensures k in v.dns && v.dns[k] == w.dns[k] {
      assert !OwnedBy(w.dns[k], OwnerHash(digest, t));
    }
  }

  /**
   * Over any run of fleet passes, shared namespaces included: no fleet tunnel ever finds another
   * fleet tunnel's object at its own name, so only a stranger's object can block it.
   */
  lemma {:induction false} FleetNeverBlocksItself(run: seq<World>, fleet: set<ObjectKey>, digest: string -> string,
                                                  t: ObjectKey, u: ObjectKey, k: ObjectKey)
    requires run != [] && Fleet(fleet, digest) && t in fleet && u in fleet
    requires RightlyNamed(run[0], fleet, digest)
    requires forall i :: 0 < i < |run| ==> FleetStep(run[i - 1], run[i], fleet, digest)
    requires k in run[|run| - 1].dns && k.name == DnsEndpointName(digest, t)
    requires OwnedBy(run[|run| - 1].dns[k], OwnerHash(digest, u))
    ensures u == t
  {
    NamesThroughRun(run, fleet, digest);
    DnsEndpointNameInjective(digest, t, u);
  }

  lemma {:induction false} NamesThroughRun(run: seq<World>, fleet: set<ObjectKey>, digest: string -> string)
    requires run != [] && Fleet(fleet, digest) && RightlyNamed(run[0], fleet, digest)
    requires forall i :: 0 < i < |run| ==> FleetStep(run[i - 1], run[i], fleet, digest)
    ensures RightlyNamed(run[|run| - 1], fleet, digest)
  {
    if |run| > 1 {
      var n := |run| - 1;
      NamesThroughRun(run[..n], fleet, digest);
      FleetStepKeepsNames(run[n - 1], run[n], fleet, digest);
    }
  }
}
