/**
 * What the tunnel reconciler acts on but does not own: the hub (invites and port reservations),
 * the cluster's DNSEndpoint objects, and the stored finalizer of each tunnel. Every call can
 * fail, with or without having taken effect.
 */
module Environment {
  import opened Text
  import opened Conventions

  /** What becomes of one call: it works, it is refused untouched, or only its reply is lost. */
  datatype Fault = Delivered | Refused | Rejected | ReplyLost

  datatype CallError = NotFound | HostnameConflict | PortTaken | Invalid | NoMatch | Other

  datatype Outcome<+T> = Ok(value: T) | Err(error: CallError)

  datatype Invite = Invite(hostnames: seq<string>, revoked: bool, region: string)

  datatype Slot = Slot(protocol: Protocol, port: int)

  datatype Edge = Edge(nodeID: string, addresses: seq<string>)

  datatype Reservation = Reservation(tag: Option<string>, edge: Option<Edge>)

  datatype PortReport = PortReport(slot: Slot, reservation: Reservation)

  datatype Endpoint = Endpoint(dnsName: string, target: string, ttl: int)

  datatype DNSObject = DNSObject(labels: map<string, string>, annotations: map<string, string>,
                                 endpoints: seq<Endpoint>)

  datatype World = World(
    invites: map<string, Invite>,
    tenants: map<string, map<Slot, Reservation>>,
    dns: map<ObjectKey, DNSObject>,
    crdInstalled: bool,
    namespaces: set<string>,
    finalizers: set<ObjectKey>)

  // ---- the hub's hostnames ----

  /** The names an invite holds; none if the hub does not know the invite. */
  function Names(w: World, id: string): set<string> {
    if id in w.invites then Elements(w.invites[id].hostnames) else {}
  }

  predicate Active(w: World, id: string) {
    id in w.invites && !w.invites[id].revoked
  }

  /** Names some active invite holds: asking for one of these conflicts. */
  ghost predicate Reserved(w: World, h: string) {
    exists id :: Active(w, id) && h in Names(w, id)
  }

  ghost predicate HeldElsewhere(w: World, id: string, h: string) {
    exists other :: other != id && Active(w, other) && h in Names(w, other)
  }

  /** Hub law: a hostname is reserved by at most one active invite. */
  ghost predicate HostnamesExclusive(w: World) {
    forall a, b, h :: Active(w, a) && Active(w, b) && h in Names(w, a) && h in Names(w, b) ==> a == b
  }

  function Without(s: seq<string>, h: string): (r: seq<string>)
    ensures Elements(r) == Elements(s) - {h}
  {
    if s == [] then []
    else
      var p, x := s[..|s| - 1], s[|s| - 1];
      assert s == p + [x] && Elements(s) == Elements(p) + {x};
      var r := Without(p, h);
      assert Elements(r + [x]) == Elements(r) + {x};
      if x == h then r else r + [x]
  }

  function Authorize(w: World, id: string, h: string): (r: World)
    requires id in w.invites
    ensures Names(r, id) == Names(w, id) + {h}
    ensures forall other :: other != id ==> Names(r, other) == Names(w, other)
    ensures forall other :: Active(r, other) == Active(w, other)
  {
    var inv := w.invites[id];
    w.(invites := w.invites[id := inv.(hostnames := inv.hostnames + [h])])
  }

  function Deauthorize(w: World, id: string, h: string): (r: World)
    requires id in w.invites
    ensures Names(r, id) == Names(w, id) - {h}
    ensures forall other :: other != id ==> Names(r, other) == Names(w, other)
    ensures forall other :: Active(r, other) == Active(w, other)
  {
    var inv := w.invites[id];
    w.(invites := w.invites[id := inv.(hostnames := Without(inv.hostnames, h))])
  }

  function RemoveInvite(w: World, id: string): World {
    w.(invites := w.invites - {id})
  }

  // ---- the hub's ports ----

  function Ports(w: World, tenant: string): map<Slot, Reservation> {
    if tenant in w.tenants then w.tenants[tenant] else map[]
  }

  /** Hub law: a (protocol, port) is held at most once, over all tenants. */
  ghost predicate PortsExclusive(w: World) {
    forall t, u, s :: t in w.tenants && u in w.tenants && s in w.tenants[t] && s in w.tenants[u] ==> t == u
  }

  ghost predicate Taken(w: World, s: Slot) {
    exists t :: t in w.tenants && s in w.tenants[t]
  }

  function Hold(w: World, tenant: string, report: PortReport): World {
    w.(tenants := w.tenants[tenant := Ports(w, tenant)[report.slot := report.reservation]])
  }

  /** The hub grants a port nobody holds, of the protocol asked for, and the very one if one is asked for. */
  ghost predicate Reserves(w: World, v: World, tenant: string, protocol: Protocol, preferred: Option<int>, tag: string,
                           report: PortReport) {
    && report.slot.protocol == protocol && report.reservation.tag == Some(tag)
    && (preferred.Some? ==> report.slot.port == preferred.value)
    && !Taken(w, report.slot) && v == Hold(w, tenant, report)
  }

  function Free(w: World, tenant: string, slot: Slot): World {
    w.(tenants := w.tenants[tenant := Ports(w, tenant) - {slot}])
  }

  // ---- cluster objects ----

  const LABEL_MANAGED_BY := "app.kubernetes.io/managed-by"
  const MANAGED_BY_VALUE := "towonel-operator"
  const LABEL_OWNER_TUNNEL := "towonel.io/owner-tunnel"
  const ANNOTATION_OWNER_TUNNEL_REF := "towonel.io/owner-tunnel-ref"

  /** ownedByTunnel: both operator labels, with this tunnel's hash. */
  predicate OwnedBy(obj: DNSObject, hash: string) {
    && LABEL_MANAGED_BY in obj.labels && obj.labels[LABEL_MANAGED_BY] == MANAGED_BY_VALUE
    && LABEL_OWNER_TUNNEL in obj.labels && obj.labels[LABEL_OWNER_TUNNEL] == hash
  }

  /** The DNSEndpoints of one tunnel, in every namespace. */
  function Owned(w: World, hash: string): map<ObjectKey, DNSObject> {
    map k | k in w.dns && OwnedBy(w.dns[k], hash) :: w.dns[k]
  }

  function DropDNS(w: World, key: ObjectKey): World {
    w.(dns := w.dns - {key})
  }

  function PutDNS(w: World, key: ObjectKey, obj: DNSObject): World {
    w.(dns := w.dns[key := obj])
  }

  ghost predicate WellFormed(w: World) {
    && HostnamesExclusive(w)
    && PortsExclusive(w)
    && (forall id :: id in w.invites ==> "" !in w.invites[id].hostnames)
    && (!w.crdInstalled ==> w.dns == map[])
  }

  class Env {
    var w: World
    var calls: nat
    /** The fate of each call, and the port and edge the hub picks for a reservation. */
    const fault: nat -> Fault
    const portChoice: nat -> int
    const edgeChoice: nat -> Option<Edge>
    /** Every world there has been, oldest first. */
    ghost var history: seq<World>
    /** How many port lists could not be read. */
    ghost var failedLists: nat

    ghost predicate Valid()
      reads this
    {
      history != [] && history[|history| - 1] == w && WellFormed(w)
    }

    /** No call takes effect while reporting failure. */
    ghost predicate Lossless() {
      forall i :: fault(i) != ReplyLost
    }

    /** Every call gets through. */
    ghost predicate Flawless() {
      forall i :: fault(i) == Delivered
    }

    constructor (w: World, fault: nat -> Fault, portChoice: nat -> int, edgeChoice: nat -> Option<Edge>)
      requires WellFormed(w)
      ensures Valid() && this.w == w && this.fault == fault && this.portChoice == portChoice
      ensures this.edgeChoice == edgeChoice && history == [w]
    {
      this.w, this.fault, this.portChoice, this.edgeChoice := w, fault, portChoice, edgeChoice;
      calls, history, failedLists := 0, [w], 0;
    }

    /** GET /v1/invites/{id}. */
    method GetInvite(id: string) returns (r: Outcome<Invite>)
      modifies this`calls
      ensures r.Ok? ==> id in w.invites && r.value == w.invites[id]
      ensures r == Err(NotFound) ==> id !in w.invites
      ensures Flawless() ==> r.Ok? || r == Err(NotFound)
    {
      var f := fault(calls);
      calls := calls + 1;
      if !f.Delivered? {
        return Err(Other);
      }
      r := if id in w.invites then Ok(w.invites[id]) else Err(NotFound);
    }

    /** POST /v1/invites/{id}/hostnames with one name. */
    method AddHostname(id: string, h: string) returns (r: Outcome<()>)
      requires Valid() && h != ""
      modifies `w, `calls, `history
      ensures Valid() && history == old(history) + [w]
      ensures w == old(w) || (Active(old(w), id) && !Reserved(old(w), h) && w == Authorize(old(w), id, h))
      ensures r.Ok? ==> Active(old(w), id) && w == Authorize(old(w), id, h)
      ensures r == Err(HostnameConflict) ==> w == old(w) && Reserved(w, h)
      ensures Flawless() && Active(old(w), id) ==> r.Ok? || r == Err(HostnameConflict)
    {
      var f := fault(calls);
      calls := calls + 1;
      var taken := exists other :: other in w.invites && !w.invites[other].revoked && h in w.invites[other].hostnames;
      if f.Refused? || f.Rejected? {
        r := Err(Other);
      } else if id !in w.invites || w.invites[id].revoked {
        r := Err(if id !in w.invites then NotFound else Other);
      } else if taken {
        r := Err(HostnameConflict);
        ghost var other :| Active(w, other) && h in w.invites[other].hostnames;
        assert h in Names(w, other);
      } else {
        AuthorizeKeepsLaws(w, id, h);
        w := Authorize(w, id, h);
        r := if f.Delivered? then Ok(()) else Err(Other);
      }
      history := history + [w];
    }

    /** DELETE /v1/invites/{id}/hostnames/{h}. */
    method RemoveHostname(id: string, h: string) returns (r: Outcome<()>)
      requires Valid()
      modifies `w, `calls, `history
      ensures Valid() && history == old(history) + [w]
      ensures w == old(w) || (id in old(w).invites && h in Names(old(w), id) && w == Deauthorize(old(w), id, h))
      ensures r.Ok? ==> id in old(w).invites && w == Deauthorize(old(w), id, h)
      ensures Flawless() && id in old(w).invites && h in Names(old(w), id) ==> r.Ok?
    {
      var f := fault(calls);
      calls := calls + 1;
      if f.Refused? || f.Rejected? {
        r := Err(Other);
      } else if id !in w.invites || h !in w.invites[id].hostnames {
        r := Err(NotFound);
      } else {
        DeauthorizeKeepsLaws(w, id, h);
        w := Deauthorize(w, id, h);
        r := if f.Delivered? then Ok(()) else Err(Other);
      }
      history := history + [w];
    }

    /** DELETE /v1/invites/{id}. */
    method DeleteInvite(id: string) returns (r: Outcome<()>)
      requires Valid()
      modifies `w, `calls, `history
      ensures Valid() && history == old(history) + [w]
      ensures w == old(w) || w == RemoveInvite(old(w), id)
      ensures r.Ok? || r == Err(NotFound) ==> id !in w.invites
      ensures Flawless() ==> r.Ok? || r == Err(NotFound)
    {
      var f := fault(calls);
      calls := calls + 1;
      if f.Refused? || f.Rejected? {
        r := Err(Other);
      } else if id !in w.invites {
        r := Err(NotFound);
      } else {
        RemoveInviteKeepsLaws(w, id);
        w := RemoveInvite(w, id);
        r := if f.Delivered? then Ok(()) else Err(Other);
      }
      history := history + [w];
    }

    /** GET /v1/tenants/{id}/ports. */
    method ListPorts(tenant: string) returns (r: Outcome<seq<PortReport>>)
      modifies `calls, `failedLists
      ensures r.Ok? ==>
                forall s, v :: PortReport(s, v) in r.value <==> s in Ports(w, tenant) && Ports(w, tenant)[s] == v
      ensures failedLists == old(failedLists) + if r.Ok? then 0 else 1
      ensures Flawless() ==> r.Ok?
    {
      var f := fault(calls);
      calls := calls + 1;
      if !f.Delivered? {
        failedLists := failedLists + 1;
        return Err(Other);
      }
      var held := Ports(w, tenant);
      var todo, out := held.Keys, [];
      while todo != {}
        invariant todo <= held.Keys
        invariant forall s, v :: PortReport(s, v) in out <==> s in held && s !in todo && held[s] == v
        decreases todo
      {
        var s :| s in todo;
        out := out + [PortReport(s, held[s])];
        todo := todo - {s};
      }
      r := Ok(out);
    }

    /** POST /v1/tenants/{id}/ports: the preferred port if one is given, else one of the hub's choosing. */
    method ReservePort(tenant: string, protocol: Protocol, preferred: Option<int>, tag: string)
      returns (r: Outcome<PortReport>)
      requires Valid()
      modifies `w, `calls, `history
      ensures Valid() && history == old(history) + [w]
      ensures w == old(w) || exists report :: Reserves(old(w), w, tenant, protocol, preferred, tag, report)
      ensures r.Ok? ==> Reserves(old(w), w, tenant, protocol, preferred, tag, r.value)
      ensures Lossless() && r.Err? ==> w == old(w)
      ensures Flawless() && preferred.Some? && !Taken(old(w), Slot(protocol, preferred.value)) ==> r.Ok?
    {
      var f, edge := fault(calls), edgeChoice(calls);
      var port := if preferred.Some? then preferred.value else portChoice(calls);
      calls := calls + 1;
      var slot := Slot(protocol, port);
      if f.Refused? || f.Rejected? {
        r := Err(Other);
      } else if exists t :: t in w.tenants && slot in w.tenants[t] {
        r := Err(PortTaken);
      } else {
        var report := PortReport(slot, Reservation(Some(tag), edge));
        HoldKeepsLaws(w, tenant, report);
        w := Hold(w, tenant, report);
        assert Reserves(old(w), w, tenant, protocol, preferred, tag, report);
        assert exists rep :: Reserves(old(w), w, tenant, protocol, preferred, tag, rep);
        r := if f.Delivered? then Ok(report) else Err(Other);
      }
      history := history + [w];
    }

    /** DELETE /v1/tenants/{id}/ports/{proto}/{port}. */
    method ReleasePort(tenant: string, slot: Slot) returns (r: Outcome<()>)
      requires Valid()
      modifies `w, `calls, `history
      ensures Valid() && history == old(history) + [w]
      ensures w == old(w) || (slot in Ports(old(w), tenant) && w == Free(old(w), tenant, slot))
      ensures r.Ok? || r == Err(NotFound) ==> slot !in Ports(w, tenant)
      ensures Lossless() && r.Err? ==> w == old(w)
      ensures Flawless() ==> r.Ok? || r == Err(NotFound)
    {
      var f := fault(calls);
      calls := calls + 1;
      if f.Refused? || f.Rejected? {
        r := Err(Other);
      } else if tenant !in w.tenants || slot !in w.tenants[tenant] {
        r := Err(NotFound);
      } else {
        FreeKeepsLaws(w, tenant, slot);
        w := Free(w, tenant, slot);
        r := if f.Delivered? then Ok(()) else Err(Other);
      }
      history := history + [w];
    }

    /** List DNSEndpoints by the two operator labels, in all namespaces. */
    method ListDNS(hash: string) returns (r: Outcome<set<ObjectKey>>)
      modifies this`calls
      ensures r.Ok? ==> r.value == Owned(w, hash).Keys
      ensures r == Err(NoMatch) ==> !w.crdInstalled
      ensures Flawless() ==> r.Ok? || r == Err(NoMatch)
    {
      var f := fault(calls);
      calls := calls + 1;
      if !f.Delivered? {
        return Err(Other);
      }
      r := if w.crdInstalled then Ok(Owned(w, hash).Keys) else Err(NoMatch);
    }

    method DeleteDNS(key: ObjectKey) returns (r: Outcome<()>)
      requires Valid()
      modifies `w, `calls, `history
      ensures Valid() && history == old(history) + [w]
      ensures w == old(w) || w == DropDNS(old(w), key)
      ensures r.Ok? || r == Err(NotFound) ==> key !in w.dns
      ensures Flawless() ==> r.Ok? || r == Err(NotFound)
    {
      var f := fault(calls);
      calls := calls + 1;
      if f.Refused? || f.Rejected? {
        r := Err(Other);
      } else if key !in w.dns {
        r := Err(NotFound);
      } else {
        DNSKeepsLaws(w, DropDNS(w, key));
        w := DropDNS(w, key);
        r := if f.Delivered? then Ok(()) else Err(Other);
      }
      history := history + [w];
    }

    method GetDNS(key: ObjectKey) returns (r: Outcome<DNSObject>)
      modifies this`calls
      ensures r.Ok? ==> key in w.dns && r.value == w.dns[key]
      ensures r == Err(NotFound) ==> key !in w.dns
      ensures r == Err(NoMatch) ==> !w.crdInstalled
      ensures Flawless() && w.crdInstalled ==> r.Ok? || r == Err(NotFound)
    {
      var f := fault(calls);
      calls := calls + 1;
      if !f.Delivered? {
        return Err(Other);
      }
      r := if !w.crdInstalled then Err(NoMatch) else if key in w.dns then Ok(w.dns[key]) else Err(NotFound);
    }

    /** Server-side apply with ForceOwnership: the object becomes what was sent. */
    method ApplyDNS(key: ObjectKey, obj: DNSObject) returns (r: Outcome<()>)
      requires Valid()
      modifies `w, `calls, `history
      ensures Valid() && history == old(history) + [w]
      ensures w == old(w) || w == PutDNS(old(w), key, obj)
      ensures r.Ok? ==> w == PutDNS(old(w), key, obj)
      ensures Flawless() && old(w).crdInstalled && key.namespace in old(w).namespaces ==> r.Ok?
    {
      var f := fault(calls);
      calls := calls + 1;
      if f.Refused? || f.Rejected? {
        r := Err(if f.Rejected? then Invalid else Other);
      } else if !w.crdInstalled {
        r := Err(NoMatch);
      } else if key.namespace !in w.namespaces {
        r := Err(NotFound);
      } else {
        DNSKeepsLaws(w, PutDNS(w, key, obj));
        w := PutDNS(w, key, obj);
        r := if f.Delivered? then Ok(()) else Err(Other);
      }
      history := history + [w];
    }

    /** Update the stored tunnel without its finalizer. */
    method DropFinalizer(t: ObjectKey) returns (r: Outcome<()>)
      requires Valid()
      modifies `w, `calls, `history
      ensures Valid() && history == old(history) + [w]
      ensures w == old(w) || w == old(w).(finalizers := old(w).finalizers - {t})
      ensures r.Ok? ==> t !in w.finalizers
      ensures Flawless() ==> r.Ok?
    {
      var f := fault(calls);
      calls := calls + 1;
      if f.Refused? || f.Rejected? {
        r := Err(Other);
      } else {
        DNSKeepsLaws(w, w.(finalizers := w.finalizers - {t}));
        w := w.(finalizers := w.finalizers - {t});
        r := if f.Delivered? then Ok(()) else Err(Other);
      }
      history := history + [w];
    }
  }

  // ---- the hub's laws survive every call ----

  lemma AuthorizeKeepsLaws(w: World, id: string, h: string)
    requires WellFormed(w) && Active(w, id) && !Reserved(w, h) && h != ""
    ensures WellFormed(Authorize(w, id, h))
  {}

  lemma DeauthorizeKeepsLaws(w: World, id: string, h: string)
    requires WellFormed(w) && id in w.invites
    ensures WellFormed(Deauthorize(w, id, h))
  {
    var w' := Deauthorize(w, id, h);
    forall a, b, n | Active(w', a) && Active(w', b) && n in Names(w', a) && n in Names(w', b) ensures a == b {
      assert n in Names(w, a) && n in Names(w, b);
    }
    forall other | other in w'.invites ensures "" !in w'.invites[other].hostnames {
      assert "" !in Elements(w.invites[other].hostnames);
      assert Elements(w'.invites[other].hostnames) <= Elements(w.invites[other].hostnames);
    }
  }

  lemma RemoveInviteKeepsLaws(w: World, id: string)
    requires WellFormed(w)
    ensures WellFormed(RemoveInvite(w, id))
  {
    var w' := RemoveInvite(w, id);
    forall a, b, n | Active(w', a) && Active(w', b) && n in Names(w', a) && n in Names(w', b) ensures a == b {
      assert Active(w, a) && Active(w, b) && n in Names(w, a) && n in Names(w, b);
    }
  }

  lemma SameInvitesSameLaw(w: World, v: World)
    requires HostnamesExclusive(w) && v.invites == w.invites
    ensures HostnamesExclusive(v)
  {
    forall a, b, n | Active(v, a) && Active(v, b) && n in Names(v, a) && n in Names(v, b) ensures a == b {
      assert Active(w, a) && Active(w, b) && n in Names(w, a) && n in Names(w, b);
    }
  }

  lemma HoldKeepsLaws(w: World, tenant: string, report: PortReport)
    requires WellFormed(w) && !Taken(w, report.slot)
    ensures WellFormed(Hold(w, tenant, report))
  {
    SameInvitesSameLaw(w, Hold(w, tenant, report));
  }

  lemma FreeKeepsLaws(w: World, tenant: string, slot: Slot)
    requires WellFormed(w) && tenant in w.tenants
    ensures WellFormed(Free(w, tenant, slot))
  {
    SameInvitesSameLaw(w, Free(w, tenant, slot));
  }

  lemma DNSKeepsLaws(w: World, v: World)
    requires WellFormed(w) && v.invites == w.invites && v.tenants == w.tenants && v.crdInstalled == w.crdInstalled
    requires v.crdInstalled || v.dns.Keys <= w.dns.Keys
    ensures WellFormed(v)
  {
    SameInvitesSameLaw(w, v);
  }
}
