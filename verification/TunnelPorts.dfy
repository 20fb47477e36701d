/** convergePorts: adopt, reserve, then prune, keeping in status whatever could not be released. */
module TunnelPorts {
  import opened Text
  import opened Histories
  import opened Conventions
  import opened Environment
  import opened Api
  import opened PortDemand
  import opened PortProtocol

  /** allocFromResponse: a missing edge is the empty one. */
  function AllocFromReport(name: string, r: PortReport): PortAllocation {
    PortAllocation(name, r.slot.protocol, r.slot.port,
                   if r.reservation.edge.Some? then r.reservation.edge.value else Edge("", []))
  }

  // ---- the observed map ----

  function Observed(status: seq<PortAllocation>): map<string, PortAllocation> {
    if status == [] then map[]
    else Observed(status[..|status| - 1])[status[|status| - 1].Key() := status[|status| - 1]]
  }

  ghost predicate ObservedFrom(obs: map<string, PortAllocation>, status: seq<PortAllocation>) {
    && (forall k :: k in obs ==> obs[k] in status && obs[k].Key() == k)
    && (forall a :: a in status ==> a.Key() in obs)
    && (DistinctBy(status, AllocationKey) ==> forall a :: a in status ==> obs[a.Key()] == a)
  }

  lemma {:induction false} ObservedMeans(status: seq<PortAllocation>)
    ensures ObservedFrom(Observed(status), status)
  {
    if status != [] {
      var p, x := status[..|status| - 1], status[|status| - 1];
      ObservedMeans(p);
      assert status == p + [x];
      ObservedDistinct(status, Observed(status));
    }
  }

  lemma ObservedDistinct(status: seq<PortAllocation>, obs: map<string, PortAllocation>)
    requires forall k :: k in obs ==> obs[k] in status && obs[k].Key() == k
    requires forall a :: a in status ==> a.Key() in obs
    ensures ObservedFrom(obs, status)
  {}

  method ObserveAll(status: seq<PortAllocation>) returns (obs: map<string, PortAllocation>)
    ensures ObservedFrom(obs, status)
  {
    obs := map[];
    for i := 0 to |status|
      invariant obs == Observed(status[..i])
    {
      assert status[..i + 1][..i] == status[..i];
      obs := obs[status[i].Key() := status[i]];
    }
    assert status[..|status|] == status;
    ObservedMeans(status);
  }

  // ---- histories of port calls ----

  /** Only this tenant's reservations differ. */
  ghost predicate OnlyPorts(w: World, v: World, tenant: string) {
    v == w.(tenants := v.tenants) && forall u :: u != tenant ==> Ports(v, u) == Ports(w, u)
  }

  ghost predicate PortCall(w: World, v: World, t: ObjectKey, tenant: string, status: seq<PortAllocation>, blind: bool) {
    && OnlyPorts(w, v, tenant)
    && HubMove(Ports(w, tenant), Ports(v, tenant), t, status, blind)
  }

  ghost function PortSteps(t: ObjectKey, tenant: string, status: seq<PortAllocation>, blind: bool): Rule<World> {
    (w, v) => PortCall(w, v, t, tenant, status, blind)
  }

  /** One stretch of a pass: whose it is, what status recorded, and where it began. */
  datatype PortPass = PortPass(t: ObjectKey, tenant: string, status: seq<PortAllocation>,
                               obs: map<string, PortAllocation>, desired: seq<DesiredPort>, start: World,
                               from: seq<World>, failedLists: nat) {
    predicate Of(t: ObjectKey, tenant: string) { this.t == t && this.tenant == tenant }

    ghost predicate Begins(env: Env)
      reads env
    {
      start == env.w && from == env.history && failedLists == env.failedLists
    }

    ghost function Steps(blind: bool): Rule<World> { PortSteps(t, tenant, status, blind) }

    ghost predicate Assures(d: DesiredPort) { Assured(start, tenant, t, obs.Keys, desired, d) }
  }

  // ---- adopting and reserving ----

  function PortKeys(desired: seq<DesiredPort>): set<string> {
    set d | d in desired :: d.Key()
  }

  ghost predicate DistinctPorts(desired: seq<DesiredPort>) {
    forall i, j :: 0 <= i < j < |desired| ==> desired[i].Key() != desired[j].Key()
  }

  ghost predicate Has(allocs: seq<PortAllocation>, key: string) {
    exists a :: a in allocs && a.Key() == key
  }

  lemma PortKeysNext(desired: seq<DesiredPort>, i: nat)
    requires i < |desired|
    ensures PortKeys(desired[..i + 1]) == PortKeys(desired[..i]) + {desired[i].Key()}
  {}

  /** A slot this pass reserved, for one desired service status did not record. */
  ghost predicate NewFor(start: Held, held: Held, t: ObjectKey, s: Slot, name: string, keys: set<string>, blind: bool) {
    && s in held && s !in start && Tagged(held, t, s, name) && AllocKey(s.protocol, name) in keys
    && (!blind ==> Vacant(start, t, s.protocol, name))
  }

  /** The hub side of the loop: what was held stays, and each new slot is for another new service. */
  ghost predicate Grown(start: Held, held: Held, t: ObjectKey, keys: set<string>, blind: bool) {
    && (forall s :: s in start ==> s in held && held[s] == start[s])
    && (forall s :: s in held && s !in start ==> exists name :: NewFor(start, held, t, s, name, keys, blind))
    && (forall s, r, name ::
          (s !in start && r !in start && s.protocol == r.protocol && Tagged(held, t, s, name)
           && Tagged(held, t, r, name))
          ==> s == r)
  }

  /** Whatever the pass was granted for a desired service is the port it preferred, if it preferred one. */
  ghost predicate Preferred(start: Held, held: Held, t: ObjectKey, desired: seq<DesiredPort>) {
    forall s, name, d :: Tagged(held, t, s, name) && s !in start && Asks(desired, d, AllocKey(s.protocol, name)) ==>
      s.port == d.preferred
  }

  predicate Asks(desired: seq<DesiredPort>, d: DesiredPort, key: string) {
    d in desired && d.Key() == key && d.preferred != 0
  }

  lemma PreferredNext(start: Held, held: Held, next: Held, t: ObjectKey, desired: seq<DesiredPort>, d: DesiredPort,
                      s: Slot)
    requires Preferred(start, held, t, desired) && d in desired
    requires forall e :: e in desired && e.Key() == d.Key() ==> e == d
    requires next.Keys == held.Keys + {s} && Tagged(next, t, s, d.name) && s.protocol == d.protocol
    requires forall r :: r in held ==> next[r] == held[r]
    requires d.preferred != 0 ==> s.port == d.preferred
    ensures Preferred(start, next, t, desired)
  {
    forall r, name, e | Tagged(next, t, r, name) && r !in start && Asks(desired, e, AllocKey(r.protocol, name))
      ensures r.port == e.preferred
    {
      if r == s {
        TaggedOnce(next, t, s, name, d.name);
      } else {
        assert Tagged(held, t, r, name);
      }
    }
  }

  /** The entry says what the hub's reservation says. */
  ghost predicate HeldAs(held: Held, t: ObjectKey, a: PortAllocation) {
    && Tagged(held, t, a.Slot(), a.name)
    && (held[a.Slot()].edge.Some? ==> a.edge == held[a.Slot()].edge.value)
    && (held[a.Slot()].edge.None? ==> a.edge.nodeID == "" && a.edge.addresses == [])
  }

  /** The status side: at most one entry a key, recorded before or held now. */
  ghost predicate Recorded(held: Held, t: ObjectKey, obs: map<string, PortAllocation>, keys: set<string>,
                           allocs: seq<PortAllocation>) {
    && DistinctBy(allocs, AllocationKey)
    && forall a :: a in allocs ==>
         a.Key() in keys && if a.Key() in obs then obs[a.Key()] == a else HeldAs(held, t, a)
  }

  ghost predicate Complete(obs: map<string, PortAllocation>, keys: set<string>, allocs: seq<PortAllocation>,
                           failed: bool) {
    && (forall k :: k in keys && k in obs ==> obs[k] in allocs)
    && (!failed ==> forall k :: k in keys ==> exists a :: a in allocs && a.Key() == k)
  }

  ghost predicate NothingLost(start: Held, held: Held, allocs: seq<PortAllocation>) {
    forall s :: s in held && s !in start ==> exists a :: a in allocs && a.Slot() == s
  }

  ghost predicate ReserveProgress(start: Held, held: Held, t: ObjectKey, obs: map<string, PortAllocation>,
                                  keys: set<string>, allocs: seq<PortAllocation>, failed: bool, blind: bool) {
    && Grown(start, held, t, keys - obs.Keys, blind)
    && Recorded(held, t, obs, keys, allocs)
    && Complete(obs, keys, allocs, failed)
  }

  lemma AppendAllocation(held: Held, t: ObjectKey, obs: map<string, PortAllocation>, keys: set<string>,
                         allocs: seq<PortAllocation>, a: PortAllocation, failed: bool)
    requires Recorded(held, t, obs, keys, allocs) && Complete(obs, keys, allocs, failed)
    requires a.Key() !in keys
    requires if a.Key() in obs then obs[a.Key()] == a else HeldAs(held, t, a)
    ensures Recorded(held, t, obs, keys + {a.Key()}, allocs + [a])
    ensures Complete(obs, keys + {a.Key()}, allocs + [a], failed)
  {}

  lemma FewerKeysGrown(start: Held, held: Held, t: ObjectKey, keys: set<string>, more: set<string>, blind: bool)
    requires Grown(start, held, t, keys, blind) && keys <= more
    ensures Grown(start, held, t, more, blind)
  {
    forall s | s in held && s !in start ensures exists name :: NewFor(start, held, t, s, name, more, blind) {
      var name :| NewFor(start, held, t, s, name, keys, blind);
      assert NewFor(start, held, t, s, name, more, blind);
    }
  }

  /** A key not yet visited is vacant now if it was vacant at the start. */
  lemma StillVacant(start: Held, held: Held, t: ObjectKey, keys: set<string>, blind: bool, p: Protocol, name: string)
    requires Grown(start, held, t, keys, blind) && AllocKey(p, name) !in keys
    requires Vacant(start, t, p, name)
    ensures Vacant(held, t, p, name)
  {
    forall s | Tagged(held, t, s, name) ensures s.protocol != p {
      if s !in start {
        var n :| NewFor(start, held, t, s, n, keys, blind);
        TaggedOnce(held, t, s, n, name);
      } else {
        assert Tagged(start, t, s, name);
      }
    }
  }

  lemma GrownByReserve(start: Held, held: Held, next: Held, t: ObjectKey, keys: set<string>, blind: bool,
                       s: Slot, name: string)
    requires Grown(start, held, t, keys, blind) && AllocKey(s.protocol, name) !in keys
    requires !blind ==> Vacant(start, t, s.protocol, name)
    requires s !in held && next.Keys == held.Keys + {s} && Tagged(next, t, s, name)
    requires forall r :: r in held ==> next[r] == held[r]
    ensures Grown(start, next, t, keys + {AllocKey(s.protocol, name)}, blind)
  {
    var more := keys + {AllocKey(s.protocol, name)};
    forall r | r in next && r !in start ensures exists n :: NewFor(start, next, t, r, n, more, blind) {
      if r == s {
        assert NewFor(start, next, t, s, name, more, blind);
      } else {
        var n :| NewFor(start, held, t, r, n, keys, blind);
        assert NewFor(start, next, t, r, n, more, blind);
      }
    }
    forall q, r, n | q !in start && r !in start && Tagged(next, t, q, n) && Tagged(next, t, r, n)
        && q.protocol == r.protocol
      ensures q == r
    {
      if q != s && r != s {
        assert Tagged(held, t, q, n) && Tagged(held, t, r, n);
      } else if q != r {
        var other := if q == s then r else q;
        PortLabelInjective(t, n, name);
        var m :| NewFor(start, held, t, other, m, keys, blind);
        PortLabelInjective(t, n, m);
      }
    }
  }

  lemma RecordedWhileGrowing(held: Held, next: Held, t: ObjectKey, obs: map<string, PortAllocation>, keys: set<string>,
                             allocs: seq<PortAllocation>)
    requires Recorded(held, t, obs, keys, allocs)
    requires forall r :: r in held ==> r in next && next[r] == held[r]
    ensures Recorded(next, t, obs, keys, allocs)
  {}

  /** What the lazy list returned: nothing if it failed, else the tenant's reservations at the start. */
  ghost predicate Snapshot(listed: Option<seq<PortReport>>, start: Held, blind: bool) {
    && (listed.None? ==> !blind)
    && (listed.Some? && blind ==> listed.value == [])
    && (listed.Some? && !blind ==> forall s, v :: PortReport(s, v) in listed.value <==> s in start && start[s] == v)
  }

  /** The inner loop: the first reservation of that protocol and label. */
  method FindReservation(reservations: seq<PortReport>, protocol: Protocol, tag: string)
    returns (found: Option<PortReport>)
    ensures found.Some? ==>
              && found.value in reservations && found.value.slot.protocol == protocol
              && found.value.reservation.tag == Some(tag)
    ensures found.None? ==>
              forall r :: r in reservations ==> !(r.slot.protocol == protocol && r.reservation.tag == Some(tag))
  {
    for i := 0 to |reservations|
      invariant forall j :: 0 <= j < i ==>
                  !(reservations[j].slot.protocol == protocol && reservations[j].reservation.tag == Some(tag))
    {
      var res := reservations[i];
      if res.slot.protocol == protocol && res.reservation.tag == Some(tag) {
        return Some(res);
      }
    }
    found := None;
  }

  lemma NotListedIsVacant(reservations: seq<PortReport>, start: Held, t: ObjectKey, p: Protocol, name: string)
    requires forall s, v :: PortReport(s, v) in reservations <==> s in start && start[s] == v
    requires forall r :: r in reservations ==> !(r.slot.protocol == p && r.reservation.tag == Some(PortLabel(t, name)))
    ensures Vacant(start, t, p, name)
  {
    forall s | Tagged(start, t, s, name) ensures s.protocol != p {
      assert PortReport(s, start[s]) in reservations;
    }
  }

  lemma HoldGrows(w: World, v: World, tenant: string, t: ObjectKey, p: Protocol, preferred: Option<int>, name: string,
                  r: PortReport)
    requires Reserves(w, v, tenant, p, preferred, PortLabel(t, name), r)
    ensures OnlyPorts(w, v, tenant)
    ensures r.slot !in Ports(w, tenant) && r.slot.protocol == p
    ensures Ports(v, tenant).Keys == Ports(w, tenant).Keys + {r.slot} && Tagged(Ports(v, tenant), t, r.slot, name)
    ensures Ports(v, tenant)[r.slot] == r.reservation
    ensures forall q :: q in Ports(w, tenant) ==> Ports(v, tenant)[q] == Ports(w, tenant)[q]
  {}

  /** What one reserve call may do, as seen from the start of the loop. */
  twostate predicate ReserveEffect(env: Env, p: PortPass, keys: set<string>, key: string, blind: bool)
    reads env
  {
    var held, next := Ports(old(env.w), p.tenant), Ports(env.w, p.tenant);
    && OnlyPorts(old(env.w), env.w, p.tenant)
    && (forall r :: r in held ==> r in next && next[r] == held[r])
    && Grown(Ports(p.start, p.tenant), next, p.t, keys + {key}, blind)
    && Preferred(Ports(p.start, p.tenant), next, p.t, p.desired)
  }

  /** The port a service asks for. */
  function AskedSlot(d: DesiredPort): Slot {
    Slot.Slot(d.protocol, d.preferred)
  }

  method ReserveFor(env: Env, t: ObjectKey, tenant: string, d: DesiredPort, ghost p: PortPass, ghost keys: set<string>,
                    ghost blind: bool)
    returns (r: Outcome<PortReport>)
    requires env.Valid() && p.Of(t, tenant) && Grown(Ports(p.start, tenant), Ports(env.w, tenant), t, keys, blind)
    requires d.Key() !in keys && forall a :: a in p.status ==> a.Key() != d.Key()
    requires !blind ==> Vacant(Ports(p.start, tenant), t, d.protocol, d.name)
    requires Preferred(Ports(p.start, tenant), Ports(env.w, tenant), t, p.desired) && d in p.desired
    requires forall e :: e in p.desired && e.Key() == d.Key() ==> e == d
    modifies env`w, env`calls, env`history
    ensures env.Valid() && Extends(old(env.history), env.history, p.Steps(blind))
    ensures env.Flawless() && d.preferred != 0 && !Taken(old(env.w), AskedSlot(d)) ==> r.Ok?
    ensures ReserveEffect(env, p, keys, d.Key(), blind)
    ensures r.Ok? ==>
              && r.value.slot.protocol == d.protocol && Tagged(Ports(env.w, tenant), t, r.value.slot, d.name)
              && Ports(env.w, tenant)[r.value.slot] == r.value.reservation
              && Ports(env.w, tenant).Keys == Ports(old(env.w), tenant).Keys + {r.value.slot}
    ensures env.Lossless() && r.Err? ==> env.w == old(env.w)
  {
    ghost var before, past := env.w, env.history;
    ghost var start, held := Ports(p.start, tenant), Ports(before, tenant);
    if !blind {
      StillVacant(start, held, t, keys, blind, d.protocol, d.name);
    }
    var preferred := if d.preferred != 0 then Some(d.preferred) else None;
    r := env.ReservePort(tenant, d.protocol, preferred, PortLabel(t, d.name));
    ghost var next := Ports(env.w, tenant);
    if report :| Reserves(before, env.w, tenant, d.protocol, preferred, PortLabel(t, d.name), report) {
      var rep := if r.Ok? then r.value else report;
      HoldGrows(before, env.w, tenant, t, d.protocol, preferred, d.name, rep);
      PreferredNext(start, held, next, t, p.desired, d, rep.slot);
      assert Reserving(held, next, t, p.status, blind, rep.slot, d.name);
      GrownByReserve(start, held, next, t, keys, blind, rep.slot, d.name);
    } else {
      FewerKeysGrown(start, held, t, keys, keys + {d.Key()}, blind);
    }
    assert PortCall(before, env.w, t, tenant, p.status, blind);
    NoSteps(past, p.Steps(blind));
    OneMore(past, past, env.w, p.Steps(blind));
  }

  /**
   * Where the adopt-and-reserve loop stands after settling the given keys; blind exactly if the list could not be read.
   */
  ghost predicate LoopState(env: Env, p: PortPass, keys: set<string>, listed: Option<seq<PortReport>>,
                            allocs: seq<PortAllocation>, failed: bool, blind: bool)
    reads env
  {
    && env.Valid() && Extends(p.from, env.history, p.Steps(blind))
    && LoopAt(p, env.w, keys, allocs, failed, blind, env.Lossless())
    && Snapshot(listed, Ports(p.start, p.tenant), blind)
    && (listed.None? ==> env.w == p.start && env.history == p.from)
    && env.failedLists == p.failedLists + if blind then 1 else 0
  }

  ghost predicate LoopAt(p: PortPass, w: World, keys: set<string>, allocs: seq<PortAllocation>, failed: bool,
                         blind: bool, lossless: bool) {
    var start, held := Ports(p.start, p.tenant), Ports(w, p.tenant);
    && OnlyPorts(p.start, w, p.tenant)
    && ReserveProgress(start, held, p.t, p.obs, keys, allocs, failed, blind)
    && Preferred(start, held, p.t, p.desired)
    && (lossless ==> NothingLost(start, held, allocs))
  }

  /** listReservations: at most one list call a pass; a failure counts as an empty list. */
  method ListOnce(env: Env, tenant: string, listed: Option<seq<PortReport>>, ghost p: PortPass, ghost keys: set<string>,
                  ghost allocs: seq<PortAllocation>, ghost failed: bool, ghost blind: bool)
    returns (reservations: seq<PortReport>, ghost blind': bool)
    requires LoopState(env, p, keys, listed, allocs, failed, blind) && tenant == p.tenant
    modifies env
    ensures LoopState(env, p, keys, Some(reservations), allocs, failed, blind')
    ensures env.Flawless() ==> blind' == blind
  {
    blind' := blind;
    if listed.Some? {
      return listed.value, blind;
    }
    var r := env.ListPorts(tenant);
    reservations := if r.Ok? then r.value else [];
    blind' := r.Err?;
    NoSteps(p.from, p.Steps(blind'));
  }

  lemma NothingLostByReserve(start: Held, held: Held, next: Held, allocs: seq<PortAllocation>, a: PortAllocation)
    requires NothingLost(start, held, allocs) && next.Keys <= held.Keys + {a.Slot()}
    ensures NothingLost(start, next, allocs + [a])
  {}

  /** Settling a key by an allocation status or the hub already has. */
  lemma SettledWithoutCall(env: Env, p: PortPass, keys: set<string>, listed: Option<seq<PortReport>>,
                           allocs: seq<PortAllocation>, a: PortAllocation, failed: bool, blind: bool)
    requires LoopState(env, p, keys, listed, allocs, failed, blind)
    requires a.Key() !in keys
    requires if a.Key() in p.obs then p.obs[a.Key()] == a else HeldAs(Ports(env.w, p.tenant), p.t, a)
    ensures LoopState(env, p, keys + {a.Key()}, listed, allocs + [a], failed, blind)
  {
    var began, held := Ports(p.start, p.tenant), Ports(env.w, p.tenant);
    FewerKeysGrown(began, held, p.t, keys - p.obs.Keys, keys + {a.Key()} - p.obs.Keys, blind);
    AppendAllocation(held, p.t, p.obs, keys, allocs, a, failed);
    NothingLostIf(began, held, allocs, a);
  }

  lemma OnlyOneAsks(desired: seq<DesiredPort>, d: DesiredPort)
    requires DistinctPorts(desired) && d in desired
    ensures forall e :: e in desired && e.Key() == d.Key() ==> e == d
  {}

  lemma ReportIsHeld(held: Held, t: ObjectKey, name: string, r: PortReport, allocs: seq<PortAllocation>)
    requires Tagged(held, t, r.slot, name) && held[r.slot] == r.reservation
    ensures var a := AllocFromReport(name, r); HeldAs(held, t, a) && Has(allocs + [a], a.Key())
  {
    assert (allocs + [AllocFromReport(name, r)])[|allocs|] == AllocFromReport(name, r);
  }

  /** Where the loop stands once a reserve call has had its effect, and its answer is known. */
  lemma ReserveSettles(p: PortPass, w: World, v: World, keys: set<string>, allocs: seq<PortAllocation>, failed: bool,
                       blind: bool, lossless: bool, d: DesiredPort, r: Outcome<PortReport>)
    requires LoopAt(p, w, keys, allocs, failed, blind, lossless) && d.Key() !in keys && d.Key() !in p.obs
    requires OnlyPorts(w, v, p.tenant) && forall s :: s in Ports(w, p.tenant) ==>
               s in Ports(v, p.tenant) && Ports(v, p.tenant)[s] == Ports(w, p.tenant)[s]
    requires Grown(Ports(p.start, p.tenant), Ports(v, p.tenant), p.t, keys - p.obs.Keys + {d.Key()}, blind)
    requires Preferred(Ports(p.start, p.tenant), Ports(v, p.tenant), p.t, p.desired)
    requires r.Ok? ==>
               && r.value.slot.protocol == d.protocol && Tagged(Ports(v, p.tenant), p.t, r.value.slot, d.name)
               && Ports(v, p.tenant)[r.value.slot] == r.value.reservation
               && Ports(v, p.tenant).Keys == Ports(w, p.tenant).Keys + {r.value.slot}
    requires lossless && r.Err? ==> v == w
    ensures r.Err? ==> LoopAt(p, v, keys + {d.Key()}, allocs, true, blind, lossless)
    ensures r.Ok? ==>
              var a := AllocFromReport(d.name, r.value);
              Has(allocs + [a], d.Key()) && LoopAt(p, v, keys + {d.Key()}, allocs + [a], failed, blind, lossless)
  {
    var held := Ports(v, p.tenant);
    assert (keys + {d.Key()}) - p.obs.Keys == keys - p.obs.Keys + {d.Key()};
    RecordedWhileGrowing(Ports(w, p.tenant), held, p.t, p.obs, keys, allocs);
    if r.Ok? {
      var a := AllocFromReport(d.name, r.value);
      ReportIsHeld(held, p.t, d.name, r.value, allocs);
      AppendAllocation(held, p.t, p.obs, keys, allocs, a, failed);
      if lossless {
        NothingLostByReserve(Ports(p.start, p.tenant), Ports(w, p.tenant), held, allocs, a);
      }
    }
  }

  /** Settling a key by a reserve call, which may fail. */
  method SettleByReserving(env: Env, t: ObjectKey, tenant: string, d: DesiredPort, allocs: seq<PortAllocation>,
                           failed: bool, ghost listed: Option<seq<PortReport>>, ghost p: PortPass,
                           ghost keys: set<string>, ghost blind: bool)
    returns (allocs': seq<PortAllocation>, failed': bool)
    requires LoopState(env, p, keys, listed, allocs, failed, blind) && listed.Some? && p.Of(t, tenant)
    requires ObservedFrom(p.obs, p.status) && d.Key() !in keys && d.Key() !in p.obs
    requires !blind ==> Vacant(Ports(p.start, tenant), t, d.protocol, d.name)
    requires d in p.desired && DistinctPorts(p.desired)
    modifies env`w, env`calls, env`history
    ensures allocs <= allocs'
    ensures env.Flawless() && d.preferred != 0 && !Taken(old(env.w), AskedSlot(d)) ==> Has(allocs', d.Key())
    ensures LoopState(env, p, keys + {d.Key()}, listed, allocs', failed', blind)
    ensures failed ==> failed'
  {
    ghost var past, before := env.history, env.w;
    OnlyOneAsks(p.desired, d);
    var r := ReserveFor(env, t, tenant, d, p, keys - p.obs.Keys, blind);
    Joined(p.from, past, env.history, p.Steps(blind));
    ReserveSettles(p, before, env.w, keys, allocs, failed, blind, env.Lossless(), d, r);
    if r.Err? {
      return allocs, true;
    }
    return allocs + [AllocFromReport(d.name, r.value)], failed;
  }

  /** Neither recorded nor held: to be reserved. */
  ghost predicate Fresh(start: Held, t: ObjectKey, recorded: set<string>, d: DesiredPort) {
    d.Key() !in recorded && Vacant(start, t, d.protocol, d.name)
  }

  /** Sure to get its port: recorded or held already, or asking for a free one that no other fresh service might get. */
  ghost predicate Assured(w: World, tenant: string, t: ObjectKey, recorded: set<string>, desired: seq<DesiredPort>,
                          d: DesiredPort) {
    var start := Ports(w, tenant);
    Fresh(start, t, recorded, d) ==>
      && d.preferred != 0 && !Taken(w, AskedSlot(d))
      && forall e :: e in desired && e.Key() != d.Key() && Fresh(start, t, recorded, e) ==>
           e.preferred != 0 && AskedSlot(e) != AskedSlot(d)
  }

  lemma AskedStillFree(p: PortPass, w: World, keys: set<string>, d: DesiredPort)
    requires OnlyPorts(p.start, w, p.tenant) && p.Assures(d)
    requires d.Key() !in p.obs && Vacant(Ports(p.start, p.tenant), p.t, d.protocol, d.name)
    requires Grown(Ports(p.start, p.tenant), Ports(w, p.tenant), p.t, keys - p.obs.Keys, false)
    requires Preferred(Ports(p.start, p.tenant), Ports(w, p.tenant), p.t, p.desired)
    requires keys <= PortKeys(p.desired) && d.Key() !in keys
    ensures d.preferred != 0 && !Taken(w, AskedSlot(d))
  {
    if Taken(w, AskedSlot(d)) {
      var e := TakenByThisPass(p, w, keys, AskedSlot(d));
    }
  }

  lemma TakenWas(start: World, w: World, tenant: string, s: Slot)
    requires OnlyPorts(start, w, tenant) && Taken(w, s)
    ensures Taken(start, s) || (s in Ports(w, tenant) && s !in Ports(start, tenant))
  {
    var u :| u in w.tenants && s in w.tenants[u];
    if u != tenant {
      assert s in Ports(w, u) && s in Ports(start, u);
    } else if s in Ports(start, tenant) {
      assert tenant in start.tenants && s in start.tenants[tenant];
    }
  }

  /** A port taken since the start was got by this pass, for some other fresh service. */
  lemma TakenByThisPass(p: PortPass, w: World, keys: set<string>, s: Slot) returns (e: DesiredPort)
    requires OnlyPorts(p.start, w, p.tenant) && Taken(w, s) && !Taken(p.start, s) && keys <= PortKeys(p.desired)
    requires Grown(Ports(p.start, p.tenant), Ports(w, p.tenant), p.t, keys - p.obs.Keys, false)
    requires Preferred(Ports(p.start, p.tenant), Ports(w, p.tenant), p.t, p.desired)
    ensures e in p.desired && e.Key() in keys && Fresh(Ports(p.start, p.tenant), p.t, p.obs.Keys, e)
    ensures e.preferred != 0 ==> s == AskedSlot(e)
  {
    TakenWas(p.start, w, p.tenant, s);
    var start, held := Ports(p.start, p.tenant), Ports(w, p.tenant);
    var name :| NewFor(start, held, p.t, s, name, keys - p.obs.Keys, false);
    e :| e in p.desired && e.Key() == AllocKey(s.protocol, name);
    AllocKeyInjective(e.protocol, e.name, s.protocol, name);
    assert Tagged(held, p.t, s, name);
    assert e.preferred != 0 ==> Asks(p.desired, e, AllocKey(s.protocol, name));
  }

  /** One desired service: kept, adopted, reserved, or left for the next pass. */
  method SettleOne(env: Env, t: ObjectKey, tenant: string, d: DesiredPort, obs: map<string, PortAllocation>,
                   listed: Option<seq<PortReport>>, allocs: seq<PortAllocation>, failed: bool,
                   ghost p: PortPass, ghost keys: set<string>, ghost blind: bool)
    returns (listed': Option<seq<PortReport>>, allocs': seq<PortAllocation>, failed': bool, ghost blind': bool)
    requires LoopState(env, p, keys, listed, allocs, failed, blind) && p.Of(t, tenant) && obs == p.obs
    requires ObservedFrom(obs, p.status) && d.Key() !in keys
    requires d in p.desired && DistinctPorts(p.desired) && keys <= PortKeys(p.desired)
    modifies env
    ensures allocs <= allocs' && (env.Flawless() && !blind && p.Assures(d) ==> Has(allocs', d.Key()))
    ensures LoopState(env, p, keys + {d.Key()}, listed', allocs', failed', blind')
    ensures failed ==> failed'
    ensures d.Key() in obs ==> failed' == failed
    ensures env.Flawless() ==> blind' == blind
  {
    var key := d.Key();
    listed', allocs', failed', blind' := listed, allocs, failed, blind;
    if key in obs {
      allocs' := allocs + [obs[key]];
      SettledWithoutCall(env, p, keys, listed, allocs, obs[key], failed, blind);
      return;
    }
    var reservations;
    reservations, blind' := ListOnce(env, tenant, listed, p, keys, allocs, failed, blind);
    listed' := Some(reservations);
    var found := FindReservation(reservations, d.protocol, PortLabel(t, d.name));
    if found.Some? {
      var a := AllocFromReport(d.name, found.value);
      assert found.value == PortReport(found.value.slot, found.value.reservation);
      allocs' := allocs + [a];
      SettledWithoutCall(env, p, keys, listed', allocs, a, failed, blind');
      return;
    }
    if !blind' {
      NotListedIsVacant(reservations, Ports(p.start, tenant), t, d.protocol, d.name);
      if p.Assures(d) {
        AskedStillFree(p, env.w, keys, d);
      }
    }
    allocs', failed' := SettleByReserving(env, t, tenant, d, allocs, failed, listed', p, keys, blind');
  }

  lemma NothingLostIf(start: Held, held: Held, allocs: seq<PortAllocation>, a: PortAllocation)
    ensures NothingLost(start, held, allocs) ==> NothingLost(start, held, allocs + [a])
  {}

  /** Where a pass stands between its two halves. */
  datatype HalfWay = HalfWay(q: PortPass, keys: set<string>, settled: seq<PortAllocation>, failed: bool) {
    ghost predicate Follows(p: PortPass, blind: bool, lossless: bool) {
      && q == p.(start := q.start, from := q.from, failedLists := q.failedLists)
      && Extends(p.from, q.from, p.Steps(blind)) && OnlyPorts(p.start, q.start, p.tenant)
      && ReserveProgress(Ports(p.start, p.tenant), Ports(q.start, p.tenant), p.t, p.obs, keys, settled, failed, blind)
      && Preferred(Ports(p.start, p.tenant), Ports(q.start, p.tenant), p.t, p.desired)
      && (lossless ==> NothingLost(Ports(p.start, p.tenant), Ports(q.start, p.tenant), settled))
    }
  }

  ghost predicate Served(p: PortPass, desired: seq<DesiredPort>, allocs: seq<PortAllocation>) {
    forall d :: d in desired && p.Assures(d) ==> Has(allocs, d.Key())
  }

  lemma ServedNext(p: PortPass, desired: seq<DesiredPort>, i: nat, before: seq<PortAllocation>,
                   allocs: seq<PortAllocation>)
    requires i < |desired| && Served(p, desired[..i], before) && before <= allocs
    requires p.Assures(desired[i]) ==> Has(allocs, desired[i].Key())
    ensures Served(p, desired[..i + 1], allocs)
  {
    assert desired[..i + 1] == desired[..i] + [desired[i]];
    assert forall k :: Has(before, k) ==> Has(allocs, k);
  }

  lemma LoopBegins(env: Env, p: PortPass)
    requires env.Valid() && p.Begins(env)
    ensures LoopState(env, p, {}, None, [], false, false)
  {
    NoSteps(env.history, p.Steps(false));
  }

  /** The adopt-and-reserve loop of convergePorts. */
  method ReserveAll(env: Env, t: ObjectKey, tenant: string, desired: seq<DesiredPort>, obs: map<string, PortAllocation>,
                    ghost p: PortPass)
    returns (allocs: seq<PortAllocation>, failed: bool, ghost blind: bool, ghost r: HalfWay)
    requires env.Valid() && p.Begins(env) && p.Of(t, tenant) && obs == p.obs && ObservedFrom(obs, p.status)
    requires DistinctPorts(desired) && desired == p.desired
    modifies env
    ensures env.Valid()
    ensures env.Flawless() ==> Served(p, desired, allocs)
    ensures r ==
            HalfWay(p.(start := env.w, from := env.history, failedLists := env.failedLists), PortKeys(desired), allocs,
                    failed)
    ensures r.Follows(p, blind, env.Lossless()) && env.failedLists == p.failedLists + if blind then 1 else 0
    ensures (forall d :: d in desired ==> d.Key() in obs) ==> !failed
    ensures env.Flawless() ==> !blind
  {
    hide ReserveProgress, NothingLost, Preferred, OnlyPorts, Snapshot, Assured, Chain, Has;
    var listed: Option<seq<PortReport>> := None;
    allocs, failed, blind := [], false, false;
    LoopBegins(env, p);
    assert PortKeys(desired[..0]) == {};
    for i := 0 to |desired|
      invariant LoopState(env, p, PortKeys(desired[..i]), listed, allocs, failed, blind)
      invariant (forall d :: d in desired ==> d.Key() in obs) ==> !failed
      invariant env.Flawless() ==> !blind
      invariant env.Flawless() ==> Served(p, desired[..i], allocs)
    {
      PortKeysNext(desired, i);
      ghost var keys, before := PortKeys(desired[..i]), allocs;
      listed, allocs, failed, blind :=
        SettleOne(env, t, tenant, desired[i], obs, listed, allocs, failed, p, keys, blind);
      if env.Flawless() {
        ServedNext(p, desired, i, before, allocs);
      }
    }
    assert desired[..|desired|] == desired;
    r := HalfWay(p.(start := env.w, from := env.history, failedLists := env.failedLists), PortKeys(desired), allocs,
                 failed);
  }

  // ---- pruning ----

  /** The hub side of pruning: only the given entries' ports went, and those still held stay in status. */
  ghost predicate HubPruned(mid: Held, held: Held, obs: map<string, PortAllocation>, done: set<string>,
                            allocs: seq<PortAllocation>, lossless: bool)
    requires done <= obs.Keys
  {
    && (forall s :: s in held ==> s in mid && held[s] == mid[s])
    && (forall s :: s in mid && s !in held ==>
        exists k :: k in done && obs[k].Slot() == s && (lossless ==> obs[k] !in allocs))
    && (forall k :: k in done ==> obs[k] in allocs || obs[k].Slot() !in held)
  }

  /** The status side: what was settled, then entries that could not be released. */
  ghost predicate StatusPruned(obs: map<string, PortAllocation>, done: set<string>,
                               settled: seq<PortAllocation>, allocs: seq<PortAllocation>)
    requires done <= obs.Keys
  {
    && settled <= allocs && DistinctBy(allocs, AllocationKey)
    && (forall a :: a in allocs ==> a in settled || (a.Key() in done && obs[a.Key()] == a))
  }

  ghost predicate Pruned(mid: Held, held: Held, obs: map<string, PortAllocation>, done: set<string>,
                         settled: seq<PortAllocation>, allocs: seq<PortAllocation>, lossless: bool)
    requires done <= obs.Keys
  {
    HubPruned(mid, held, obs, done, allocs, lossless) && StatusPruned(obs, done, settled, allocs)
  }

  lemma HubPrunedNext(mid: Held, held: Held, next: Held, obs: map<string, PortAllocation>, done: set<string>,
                      key: string, allocs: seq<PortAllocation>, allocs': seq<PortAllocation>, lossless: bool)
    requires done <= obs.Keys && key in obs
    requires HubPruned(mid, held, obs, done, allocs, lossless)
    requires forall k :: k in done && obs[k] in allocs' ==> obs[k] in allocs
    requires forall a :: a in allocs ==> a in allocs'
    requires next == held || (next == held - {obs[key].Slot()} && (lossless ==> obs[key] !in allocs'))
    requires obs[key] in allocs' || obs[key].Slot() !in next
    ensures HubPruned(mid, next, obs, done + {key}, allocs', lossless)
  {}

  lemma StatusPrunedNext(obs: map<string, PortAllocation>, done: set<string>, key: string,
                         settled: seq<PortAllocation>, allocs: seq<PortAllocation>)
    requires done <= obs.Keys && key in obs && obs[key].Key() == key && key !in done
    requires forall a :: a in settled ==> a.Key() != key
    requires StatusPruned(obs, done, settled, allocs)
    ensures obs[key] !in allocs
    ensures StatusPruned(obs, done + {key}, settled, allocs)
    ensures StatusPruned(obs, done + {key}, settled, allocs + [obs[key]])
  {}

  /** What pruning the given keys has done so far, as calls and as state. */
  ghost predicate PruneState(env: Env, p: PortPass, done: set<string>, settled: seq<PortAllocation>,
                             allocs: seq<PortAllocation>, blind: bool)
    requires done <= p.obs.Keys
    reads env
  {
    && env.Valid() && Extends(p.from, env.history, p.Steps(blind))
    && OnlyPorts(p.start, env.w, p.tenant)
    && Pruned(Ports(p.start, p.tenant), Ports(env.w, p.tenant), p.obs, done, settled, allocs, env.Lossless())
  }

  lemma NothingPruned(mid: Held, obs: map<string, PortAllocation>, settled: seq<PortAllocation>, lossless: bool)
    requires DistinctBy(settled, AllocationKey)
    ensures Pruned(mid, mid, obs, {}, settled, settled, lossless)
  {}

  /** How far pruning has come when one more key is taken off the list. */
  lemma OneKeyLess(keys: set<string>, desired: set<string>, todo: set<string>, key: string)
    requires key in todo && todo <= keys
    ensures key in desired ==> keys - desired - (todo - {key}) == keys - desired - todo
    ensures key !in desired ==> keys - desired - (todo - {key}) == keys - desired - todo + {key}
  {}

  lemma AllKeysDone(keys: set<string>, desired: set<string>)
    ensures keys - desired - {} == keys - desired && keys - desired - keys == {}
  {}

  /** The prune loop of convergePorts, strictly after every reserve. */
  method Prune(env: Env, t: ObjectKey, tenant: string, obs: map<string, PortAllocation>, desiredKeys: set<string>,
               settled: seq<PortAllocation>, failedBefore: bool, ghost p: PortPass, ghost blind: bool)
    returns (allocs: seq<PortAllocation>, failed: bool)
    requires env.Valid() && p.Begins(env) && p.Of(t, tenant) && obs == p.obs && ObservedFrom(obs, p.status)
    requires DistinctBy(settled, AllocationKey) && forall a :: a in settled ==> a.Key() in desiredKeys
    modifies env`w, env`calls, env`history
    ensures PruneState(env, p, obs.Keys - desiredKeys, settled, allocs, blind)
    ensures failedBefore ==> failed
    ensures !failed ==> allocs == settled
    ensures env.Flawless() && !failedBefore ==> !failed
  {
    hide HubPruned, StatusPruned, Chain, OnlyPorts;
    allocs, failed := settled, failedBefore;
    var todo := obs.Keys;
    NoSteps(env.history, p.Steps(blind));
    NothingPruned(Ports(p.start, p.tenant), obs, settled, env.Lossless());
    AllKeysDone(obs.Keys, desiredKeys);
    PortsUntouched(p.start, p.tenant);
    while todo != {}
      invariant todo <= obs.Keys
      invariant PruneState(env, p, obs.Keys - desiredKeys - todo, settled, allocs, blind)
      invariant failedBefore ==> failed
      invariant env.Flawless() && !failedBefore ==> !failed
      invariant !failed ==> allocs == settled
      decreases todo
    {
      var key :| key in todo;
      ghost var done := obs.Keys - desiredKeys - todo;
      OneKeyLess(obs.Keys, desiredKeys, todo, key);
      todo := todo - {key};
      if key !in desiredKeys {
        allocs, failed := ReleaseOne(env, t, tenant, obs[key], allocs, failed, p, done, settled, blind);
      }
    }
  }

  lemma PortsUntouched(w: World, tenant: string)
    ensures OnlyPorts(w, w, tenant)
  {}

  /** One release call; a 404 counts as released. */
  method Release(env: Env, t: ObjectKey, tenant: string, pa: PortAllocation, ghost p: PortPass, ghost blind: bool)
    returns (gone: bool)
    requires env.Valid() && Extends(p.from, env.history, p.Steps(blind)) && p.Of(t, tenant) && pa in p.status
    modifies env`w, env`calls, env`history
    ensures env.Valid() && Extends(p.from, env.history, p.Steps(blind))
    ensures OnlyPorts(old(env.w), env.w, tenant)
    ensures Ports(env.w, tenant) == Ports(old(env.w), tenant)
            || (Ports(env.w, tenant) == Ports(old(env.w), tenant) - {pa.Slot()} && (env.Lossless() ==> gone))
    ensures gone ==> pa.Slot() !in Ports(env.w, tenant)
    ensures env.Flawless() ==> gone
  {
    ghost var before, past := env.w, env.history;
    var r := env.ReleasePort(tenant, pa.Slot());
    gone := r.Ok? || r.error == NotFound;
    ghost var held, next := Ports(before, tenant), Ports(env.w, tenant);
    assert next == held || Releasing(held, next, p.status, pa);
    assert PortCall(before, env.w, t, tenant, p.status, blind);
    OneMore(p.from, past, env.w, p.Steps(blind));
  }

  /** One release: gone, already gone, or kept in status for the next pass. */
  method ReleaseOne(env: Env, t: ObjectKey, tenant: string, pa: PortAllocation, allocs: seq<PortAllocation>,
                    failed: bool, ghost p: PortPass, ghost done: set<string>, ghost settled: seq<PortAllocation>,
                    ghost blind: bool)
    returns (allocs': seq<PortAllocation>, failed': bool)
    requires p.Of(t, tenant) && ObservedFrom(p.obs, p.status) && done <= p.obs.Keys
    requires pa.Key() in p.obs && p.obs[pa.Key()] == pa && pa.Key() !in done
    requires forall a :: a in settled ==> a.Key() != pa.Key()
    requires PruneState(env, p, done, settled, allocs, blind)
    modifies env`w, env`calls, env`history
    ensures PruneState(env, p, done + {pa.Key()}, settled, allocs', blind)
    ensures failed ==> failed'
    ensures !failed' ==> allocs' == allocs
    ensures env.Flawless() ==> failed' == failed
  {
    ghost var held := Ports(env.w, tenant);
    var gone := Release(env, t, tenant, pa, p, blind);
    StatusPrunedNext(p.obs, done, pa.Key(), settled, allocs);
    KeptOrGone(allocs, pa, p.obs, done, !gone);
    allocs', failed' := allocs, failed;
    if !gone {
      allocs', failed' := allocs + [pa], true;
    }
    HubPrunedNext(Ports(p.start, tenant), held, Ports(env.w, tenant), p.obs, done, pa.Key(), allocs, allocs',
                  env.Lossless());
  }

  lemma KeptOrGone(allocs: seq<PortAllocation>, pa: PortAllocation, obs: map<string, PortAllocation>, done: set<string>,
                   keep: bool)
    requires done <= obs.Keys && pa.Key() !in done && forall k :: k in obs ==> obs[k].Key() == k
    ensures var allocs' := if keep then allocs + [pa] else allocs;
      && (forall k :: k in done && obs[k] in allocs' ==> obs[k] in allocs)
      && (forall a :: a in allocs ==> a in allocs')
      && (keep ==> pa in allocs')
  {}

  // ---- what a whole pass achieves ----

  lemma GrownKeepsAtMostOne(start: Held, mid: Held, t: ObjectKey, keys: set<string>)
    requires AtMostOne(start, t) && Grown(start, mid, t, keys, false)
    ensures AtMostOne(mid, t)
  {
    forall s, r, name | Tagged(mid, t, s, name) && Tagged(mid, t, r, name) && s.protocol == r.protocol ensures s == r {
      if s in start && r in start {
        assert Tagged(start, t, s, name) && Tagged(start, t, r, name);
      } else if s in start {
        NewIsAlone(start, mid, t, keys, r, s, name);
      } else if r in start {
        NewIsAlone(start, mid, t, keys, s, r, name);
      }
    }
  }

  lemma NewIsAlone(start: Held, mid: Held, t: ObjectKey, keys: set<string>, fresh': Slot, kept: Slot, name: string)
    requires Grown(start, mid, t, keys, false) && fresh' !in start && kept in start
    requires Tagged(mid, t, fresh', name) && Tagged(mid, t, kept, name)
    ensures fresh'.protocol != kept.protocol
  {}

  lemma PassWritesStatus(start: Held, mid: Held, held: Held, t: ObjectKey, status: seq<PortAllocation>,
                         obs: map<string, PortAllocation>, keys: set<string>, settled: seq<PortAllocation>,
                         allocs: seq<PortAllocation>, lossless: bool)
    requires ObservedFrom(obs, status) && AtMostOne(start, t)
    requires Grown(start, mid, t, keys - obs.Keys, false) && Recorded(mid, t, obs, keys, settled)
    requires Pruned(mid, held, obs, obs.Keys - keys, settled, allocs, lossless)
    ensures StatusWrite(held, t, status, SortBy(allocs, AllocationKey))
  {
    GrownKeepsAtMostOne(start, mid, t, keys - obs.Keys);
    SortedStatus(allocs);
    forall a | a in SortBy(allocs, AllocationKey) ensures a in status || NoDriftFor(held, t, a) {
      assert a in Elements(allocs);
      if a !in status {
        assert a in settled && Tagged(mid, t, a.Slot(), a.name);
        forall s | Tagged(held, t, s, a.name) && s.protocol == a.protocol ensures s == a.Slot() {
          assert Tagged(mid, t, s, a.name);
        }
      }
    }
  }

  lemma SortedStatus(allocs: seq<PortAllocation>)
    requires DistinctBy(allocs, AllocationKey)
    ensures Elements(SortBy(allocs, AllocationKey)) == Elements(allocs)
    ensures StrictlySortedBy(SortBy(allocs, AllocationKey), AllocationKey)
    ensures DistinctBy(SortBy(allocs, AllocationKey), AllocationKey)
  {
    var r := SortBy(allocs, AllocationKey);
    SortByContents(allocs, AllocationKey);
    SortBySorts(allocs, AllocationKey);
    forall i, j | 0 <= i < j < |r| ensures AllocationKey(r[i]) != AllocationKey(r[j]) {
      LessIrreflexive(AllocationKey(r[i]));
    }
  }

  lemma EntryIsHeld(start: Held, mid: Held, held: Held, t: ObjectKey, status: seq<PortAllocation>,
                    obs: map<string, PortAllocation>, keys: set<string>, settled: seq<PortAllocation>,
                    allocs: seq<PortAllocation>, a: PortAllocation)
    requires ObservedFrom(obs, status) && forall x :: x in status ==> Tagged(start, t, x.Slot(), x.name)
    requires forall s :: s in start ==> s in mid && mid[s] == start[s]
    requires Recorded(mid, t, obs, keys, settled)
    requires Pruned(mid, held, obs, obs.Keys - keys, settled, allocs, true)
    requires a in allocs
    ensures Tagged(held, t, a.Slot(), a.name)
  {
    assert Tagged(mid, t, a.Slot(), a.name) by {
      if a in status { assert Tagged(start, t, a.Slot(), a.name); }
    }
    if a.Slot() !in held {
      var k :| k in obs.Keys - keys && obs[k].Slot() == a.Slot() && obs[k] !in allocs;
      assert Tagged(start, t, obs[k].Slot(), obs[k].name);
      TaggedOnce(mid, t, a.Slot(), a.name, obs[k].name);
      assert false;
    }
  }

  lemma HeldIsEntry(start: Held, mid: Held, held: Held, t: ObjectKey, status: seq<PortAllocation>,
                    obs: map<string, PortAllocation>, keys: set<string>, settled: seq<PortAllocation>,
                    allocs: seq<PortAllocation>, s: Slot)
    requires Agree(start, t, status) && ObservedFrom(obs, status) && DistinctBy(status, AllocationKey)
    requires forall r :: r in start ==> r in mid && mid[r] == start[r]
    requires Complete(obs, keys, settled, true) && NothingLost(start, mid, settled)
    requires Pruned(mid, held, obs, obs.Keys - keys, settled, allocs, true)
    requires Ours(held, t, s)
    ensures exists a :: a in allocs && a.Slot() == s
  {
    if s in start {
      assert Ours(start, t, s);
      var a :| a in status && a.Slot() == s && Tagged(start, t, s, a.name);
      assert obs[a.Key()] == a && a in allocs;
    } else {
      var a :| a in settled && a.Slot() == s;
      assert a in allocs;
    }
  }

  /** From agreement, and with no call lost, a pass ends in agreement, whichever calls failed. */
  lemma PassAgrees(start: Held, mid: Held, held: Held, t: ObjectKey, status: seq<PortAllocation>,
                   obs: map<string, PortAllocation>, keys: set<string>, settled: seq<PortAllocation>,
                   allocs: seq<PortAllocation>, failed: bool, blind: bool)
    requires Agree(start, t, status) && ObservedFrom(obs, status)
    requires ReserveProgress(start, mid, t, obs, keys, settled, failed, blind) && NothingLost(start, mid, settled)
    requires Pruned(mid, held, obs, obs.Keys - keys, settled, allocs, true)
    ensures Agree(held, t, SortBy(allocs, AllocationKey))
  {
    AgreeIsSafe(start, t, status);
    SortedStatus(allocs);
    var status' := SortBy(allocs, AllocationKey);
    forall a | a in status' ensures Tagged(held, t, a.Slot(), a.name) {
      assert a in Elements(allocs);
      EntryIsHeld(start, mid, held, t, status, obs, keys, settled, allocs, a);
    }
    forall s | Ours(held, t, s) ensures exists a :: a in status' && a.Slot() == s && Tagged(held, t, s, a.name) {
      HeldIsEntry(start, mid, held, t, status, obs, keys, settled, allocs, s);
      var a :| a in allocs && a.Slot() == s;
      assert a in Elements(status');
      assert Tagged(held, t, a.Slot(), a.name);
    }
  }

  /** The keys the agents declare. */
  function DeclaredKeys(agents: seq<Agent>): set<string> {
    KeysOf(Visited(agents))
  }

  lemma UnionKeys(es: seq<Entry>)
    ensures PortKeys(Union(es)) == KeysOf(es)
    ensures forall i, j :: 0 <= i < j < |Union(es)| ==> Union(es)[i].Key() != Union(es)[j].Key()
  {
    FirstsCoverKeys(es);
    var fs, u := Firsts(es), Union(es);
    forall i, j | 0 <= i < j < |u| ensures u[i].Key() != u[j].Key() {
      assert EntryKey(fs[i]) != EntryKey(fs[j]);
    }
    forall k ensures k in PortKeys(u) <==> k in KeysOf(fs) {
      if k in PortKeys(u) {
        var d :| d in u && d.Key() == k;
        var i :| 0 <= i < |u| && u[i] == d;
        assert fs[i] in fs && fs[i].Key() == k;
      }
      if k in KeysOf(fs) {
        var f :| f in fs && f.Key() == k;
        var i :| 0 <= i < |fs| && fs[i] == f;
        assert u[i] in u && u[i].Key() == k;
      }
    }
  }

  /** Each new entry for a service that held nothing is at the first port any agent prefers for it, if one does. */
  ghost predicate GivesPreference(start: Held, t: ObjectKey, recorded: set<string>, es: seq<Entry>,
                                  allocs: seq<PortAllocation>) {
    forall a, w :: a in allocs && a.Key() !in recorded && Vacant(start, t, a.protocol, a.name)
                   && Winner(es, a.Key()) == Some(w) ==>
                     a.listenPort == w.service.preferredPort
  }

  lemma {:induction false} WinnerStates(es: seq<Entry>, key: string)
    ensures Winner(es, key).Some? ==>
              && Winner(es, key).value in es && Winner(es, key).value.Key() == key
              && Winner(es, key).value.service.preferredPort != 0
  {
    if es != [] {
      WinnerStates(es[..|es| - 1], key);
    }
  }

  lemma GrantedGivesPreference(start: Held, t: ObjectKey, recorded: set<string>, es: seq<Entry>,
                               allocs: seq<PortAllocation>)
    requires Granted(start, t, recorded, Union(es), allocs)
    ensures GivesPreference(start, t, recorded, es, allocs)
  {
    forall a, w | a in allocs && a.Key() !in recorded && Vacant(start, t, a.protocol, a.name)
        && Winner(es, a.Key()) == Some(w)
      ensures a.listenPort == w.service.preferredPort
    {
      WinnerStates(es, a.Key());
      assert a.Key() in KeysOf(es);
      FirstsCoverKeys(es);
      var f :| f in Firsts(es) && f.Key() == a.Key();
      var i :| 0 <= i < |Firsts(es)| && Firsts(es)[i] == f;
      var d := Union(es)[i];
      assert d in Union(es) && d == PortOf(es, f);
      AllocKeyInjective(d.protocol, d.name, a.protocol, a.name);
      assert Fresh(start, t, recorded, d);
    }
  }

  /** edgesUnion: the addresses of every allocation's edge. */
  function EdgeAddresses(allocs: seq<PortAllocation>): seq<string> {
    if allocs == [] then [] else EdgeAddresses(allocs[..|allocs| - 1]) + allocs[|allocs| - 1].edge.addresses
  }

  lemma {:induction false} AddressesOfEdges(allocs: seq<PortAllocation>)
    ensures forall h :: h in EdgeAddresses(allocs) <==> exists a :: a in allocs && h in a.edge.addresses
  {
    if allocs != [] {
      var p, a := allocs[..|allocs| - 1], allocs[|allocs| - 1];
      AddressesOfEdges(p);
      assert allocs == p + [a];
    }
  }

  method EdgesUnion(allocs: seq<PortAllocation>) returns (out: seq<string>)
    ensures out == Dedup(EdgeAddresses(allocs))
    ensures StrictlySorted(out)
    ensures forall h :: h in out <==> h != "" && exists a :: a in allocs && h in a.edge.addresses
  {
    AddressesOfEdges(allocs);
    out := [];
    for i := 0 to |allocs|
      invariant out == EdgeAddresses(allocs[..i])
    {
      assert allocs[..i + 1][..i] == allocs[..i];
      out := out + allocs[i].edge.addresses;
    }
    assert allocs[..|allocs|] == allocs;
    out := Dedupe(out);
    assert forall h :: h in out <==> h in Elements(out);
  }

  /** What status says after a pass whose calls may have failed. */
  ghost predicate PassStatus(status: seq<PortAllocation>, status': seq<PortAllocation>, keys: set<string>, ok: bool) {
    && StrictlySortedBy(status', AllocationKey)
    && (DistinctBy(status, AllocationKey) ==> forall a :: a in status && a.Key() in keys ==> a in status')
    && (ok ==>
          && (forall a :: a in status' ==> a.Key() in keys)
          && (forall k :: k in keys ==> exists a :: a in status' && a.Key() == k))
  }

  lemma PassLeavesStatus(obs: map<string, PortAllocation>, status: seq<PortAllocation>, keys: set<string>,
                         settled: seq<PortAllocation>, settledFailed: bool, allocs: seq<PortAllocation>, failed: bool)
    requires ObservedFrom(obs, status) && Complete(obs, keys, settled, settledFailed)
    requires forall a :: a in settled ==> a.Key() in keys
    requires StatusPruned(obs, obs.Keys - keys, settled, allocs)
    requires settledFailed ==> failed
    requires !failed ==> allocs == settled
    ensures PassStatus(status, SortBy(allocs, AllocationKey), keys, !failed)
  {
    SortedStatus(allocs);
    var status' := SortBy(allocs, AllocationKey);
    forall a ensures a in status' <==> a in allocs {
      assert a in Elements(status') <==> a in Elements(allocs);
    }
    if !failed {
      forall k | k in keys ensures exists a :: a in status' && a.Key() == k {
        var a :| a in settled && a.Key() == k;
        assert a in status';
      }
    }
  }

  /** What a pass guarantees of status and hub together, whichever calls failed. */
  ghost predicate PassOutcome(held: Held, held': Held, t: ObjectKey, before: seq<PortAllocation>,
                              after: seq<PortAllocation>, blind: bool, lossless: bool) {
    && (AtMostOne(held, t) && !blind ==> StatusWrite(held', t, before, after))
    && (Agree(held, t, before) && lossless ==> Agree(held', t, after))
  }

  /** Each new entry for a service that held nothing is at the port preferred for it, if one is. */
  ghost predicate Granted(start: Held, t: ObjectKey, recorded: set<string>, desired: seq<DesiredPort>,
                          allocs: seq<PortAllocation>) {
    forall a, d :: a in allocs && d in desired && d.Key() == a.Key() && Fresh(start, t, recorded, d)
                    && d.preferred != 0 ==>
      a.listenPort == d.preferred
  }

  /** Each new entry is a reservation the hub held at some instant of this stretch, of the service it is for. */
  ghost predicate SeenHeld(before: seq<World>, after: seq<World>, tenant: string, t: ObjectKey, recorded: set<string>,
                           allocs: seq<PortAllocation>) {
    forall a :: a in allocs && a.Key() !in recorded ==>
      exists i :: 0 <= i < |after| && |before| <= i + 1 && HeldAs(Ports(after[i], tenant), t, a)
  }

  lemma NewEntriesAsAsked(p: PortPass, r: HalfWay, h: seq<World>, allocs: seq<PortAllocation>, blind: bool,
                          lossless: bool)
    requires r.Follows(p, blind, lossless) && r.q.from <= h && r.q.from != [] && r.q.from[|r.q.from| - 1] == r.q.start
    requires StatusPruned(p.obs, p.obs.Keys - r.keys, r.settled, allocs) && p.from != []
    ensures Granted(Ports(p.start, p.tenant), p.t, p.obs.Keys, p.desired, SortBy(allocs, AllocationKey))
    ensures SeenHeld(p.from, h, p.tenant, p.t, p.obs.Keys, SortBy(allocs, AllocationKey))
    ensures forall k :: Has(r.settled, k) ==> Has(SortBy(allocs, AllocationKey), k)
  {
    var start, mid, n := Ports(p.start, p.tenant), Ports(r.q.start, p.tenant), |r.q.from| - 1;
    SortedStatus(allocs);
    forall a ensures a in SortBy(allocs, AllocationKey) <==> a in allocs {
      assert a in Elements(SortBy(allocs, AllocationKey)) <==> a in Elements(allocs);
    }
    assert h[n] == r.q.start;
    forall a, d | a in allocs && d in p.desired && d.Key() == a.Key() && Fresh(start, p.t, p.obs.Keys, d)
                  && d.preferred != 0
      ensures a.listenPort == d.preferred
    {
      AllocKeyInjective(a.protocol, a.name, d.protocol, d.name);
      assert HeldAs(mid, p.t, a) && Tagged(mid, p.t, a.Slot(), a.name);
      if a.Slot() in start {
        assert Tagged(start, p.t, a.Slot(), d.name);
      }
    }
  }

  function StatusKeys(status: seq<PortAllocation>): set<string> {
    set a | a in status :: a.Key()
  }

  lemma RecordedIsObserved(obs: map<string, PortAllocation>, status: seq<PortAllocation>, desired: seq<DesiredPort>)
    requires ObservedFrom(obs, status) && PortKeys(desired) <= StatusKeys(status)
    ensures forall d :: d in desired ==> d.Key() in obs
  {
    forall d | d in desired ensures d.Key() in obs {
      assert d.Key() in PortKeys(desired);
    }
  }

  /** Safety with the hub and this status, at every instant of a stretch. */
  ghost predicate SafeThroughout(before: seq<World>, after: seq<World>, t: ObjectKey, tenant: string,
                                 status: seq<PortAllocation>) {
    forall i :: 0 <= i < |after| && |before| <= i + 1 ==> Safe(Ports(after[i], tenant), t, status)
  }

  /** What a pass keeps of the safety it began with, provided its list was read. */
  ghost predicate PassKeepsSafe(before: seq<World>, after: seq<World>, t: ObjectKey, tenant: string,
                                status: seq<PortAllocation>, status': seq<PortAllocation>) {
    before != [] && after != [] && Safe(Ports(before[|before| - 1], tenant), t, status) ==>
      && SafeThroughout(before, after, t, tenant, status)
      && Safe(Ports(after[|after| - 1], tenant), t, status')
  }

  /** The hub part of convergePorts: adopt and reserve, then prune. */
  method ReserveThenPrune(env: Env, t: ObjectKey, tenant: string, desired: seq<DesiredPort>,
                          status: seq<PortAllocation>)
    returns (allocs: seq<PortAllocation>, failed: bool, ghost blind: bool)
    requires env.Valid()
    requires DistinctPorts(desired)
    modifies env
    ensures env.Valid() && Extends(old(env.history), env.history, PortSteps(t, tenant, status, blind))
    ensures OnlyPorts(old(env.w), env.w, tenant)
    ensures PassStatus(status, SortBy(allocs, AllocationKey), PortKeys(desired), !failed)
    ensures PassOutcome(Ports(old(env.w), tenant), Ports(env.w, tenant), t, status, SortBy(allocs, AllocationKey),
                        blind, env.Lossless())
    ensures env.failedLists == old(env.failedLists) + if blind then 1 else 0
    ensures env.Flawless() ==> !blind
    ensures env.Flawless() && PortKeys(desired) <= StatusKeys(status) ==> !failed
    ensures Granted(Ports(old(env.w), tenant), t, StatusKeys(status), desired, SortBy(allocs, AllocationKey))
    ensures SeenHeld(old(env.history), env.history, tenant, t, StatusKeys(status), SortBy(allocs, AllocationKey))
    ensures env.Flawless() ==>
              forall d :: d in desired && Assured(old(env.w), tenant, t, StatusKeys(status), desired, d) ==>
                Has(SortBy(allocs, AllocationKey), d.Key())
  {
    hide HubPruned, StatusPruned, Chain, PassStatus, PassOutcome, Granted, SeenHeld, ReserveProgress, Preferred,
         NothingLost, Fresh;
    ghost var keys := PortKeys(desired);
    var obs := ObserveAll(status);
    if keys <= StatusKeys(status) {
      RecordedIsObserved(obs, status, desired);
    }
    ghost var p := PortPass(t, tenant, status, obs, desired, env.w, env.history, env.failedLists);
    var settled;
    ghost var r;
    settled, failed, blind, r := ReserveAll(env, t, tenant, desired, obs, p);
    ReservedKeysDesired(p, r, blind, env.Lossless());
    var desiredKeys := PortKeys(desired);
    allocs, failed := Prune(env, t, tenant, obs, desiredKeys, settled, failed, r.q, blind);
    PassConcludes(p, r, env.history, env.w, allocs, failed, blind, env.Lossless());
    assert obs.Keys == StatusKeys(status);
    NewEntriesAsAsked(p, r, env.history, allocs, blind, env.Lossless());
  }

  lemma ReservedKeysDesired(p: PortPass, r: HalfWay, blind: bool, lossless: bool)
    requires r.Follows(p, blind, lossless)
    ensures DistinctBy(r.settled, AllocationKey) && forall a :: a in r.settled ==> a.Key() in r.keys
  {}

  lemma PassConcludes(p: PortPass, r: HalfWay, h: seq<World>, w: World, allocs: seq<PortAllocation>, failed: bool,
                      blind: bool, lossless: bool)
    requires r.Follows(p, blind, lossless) && ObservedFrom(p.obs, p.status)
    requires Extends(r.q.from, h, p.Steps(blind)) && OnlyPorts(r.q.start, w, p.tenant)
    requires Pruned(Ports(r.q.start, p.tenant), Ports(w, p.tenant), p.obs, p.obs.Keys - r.keys, r.settled, allocs,
                    lossless)
    requires (r.failed ==> failed) && (!failed ==> allocs == r.settled)
    ensures Extends(p.from, h, p.Steps(blind)) && OnlyPorts(p.start, w, p.tenant)
    ensures PassStatus(p.status, SortBy(allocs, AllocationKey), r.keys, !failed)
    ensures PassOutcome(Ports(p.start, p.tenant), Ports(w, p.tenant), p.t, p.status, SortBy(allocs, AllocationKey),
                        blind, lossless)
  {
    Joined(p.from, r.q.from, h, p.Steps(blind));
    PassLeavesStatus(p.obs, p.status, r.keys, r.settled, r.failed, allocs, failed);
    WholePass(Ports(p.start, p.tenant), Ports(r.q.start, p.tenant), Ports(w, p.tenant), p.t, p.status, p.obs, r.keys,
              r.settled, allocs, r.failed, blind, lossless);
  }

  lemma WholePass(start: Held, mid: Held, held: Held, t: ObjectKey, status: seq<PortAllocation>,
                  obs: map<string, PortAllocation>, keys: set<string>, settled: seq<PortAllocation>,
                  allocs: seq<PortAllocation>, failed: bool, blind: bool, lossless: bool)
    requires ObservedFrom(obs, status) && ReserveProgress(start, mid, t, obs, keys, settled, failed, blind)
    requires lossless ==> NothingLost(start, mid, settled)
    requires Pruned(mid, held, obs, obs.Keys - keys, settled, allocs, lossless)
    ensures PassOutcome(start, held, t, status, SortBy(allocs, AllocationKey), blind, lossless)
  {
    if AtMostOne(start, t) && !blind {
      PassWritesStatus(start, mid, held, t, status, obs, keys, settled, allocs, lossless);
    }
    if Agree(start, t, status) && lossless {
      PassAgrees(start, mid, held, t, status, obs, keys, settled, allocs, failed, blind);
    }
  }

  /** convergePorts. Every hub call since the start is one of the protocol's moves. */
  method ConvergePorts(env: Env, tt: Tunnel, agents: seq<Agent>) returns (ok: bool, ghost blind: bool)
    requires env.Valid()
    modifies env, tt`status
    ensures env.Valid()
    ensures Extends(old(env.history), env.history,
                    PortSteps(tt.key, tt.status.tenantID, old(tt.status.portAllocations), blind))
    ensures OnlyPorts(old(env.w), env.w, tt.status.tenantID)
    ensures PassStatus(old(tt.status.portAllocations), tt.status.portAllocations, DeclaredKeys(agents), ok)
    ensures PassOutcome(Ports(old(env.w), tt.status.tenantID), Ports(env.w, tt.status.tenantID), tt.key,
                        old(tt.status.portAllocations), tt.status.portAllocations, blind, env.Lossless())
    ensures env.failedLists == old(env.failedLists) + if blind then 1 else 0
    ensures env.failedLists == old(env.failedLists) ==>
              PassKeepsSafe(old(env.history), env.history, tt.key, tt.status.tenantID, old(tt.status.portAllocations),
                            tt.status.portAllocations)
    ensures tt.status == old(tt.status).(portAllocations := tt.status.portAllocations,
                                         edges := Dedup(EdgeAddresses(tt.status.portAllocations)),
                                         portsReserved := Some(PortsCondition(ok, Clashes(Visited(agents)))))
    ensures env.Flawless() ==> !blind
    ensures env.Flawless() && DeclaredKeys(agents) <= StatusKeys(old(tt.status.portAllocations)) ==> ok
    ensures GivesPreference(Ports(old(env.w), tt.status.tenantID), tt.key, StatusKeys(old(tt.status.portAllocations)),
                            Visited(agents), tt.status.portAllocations)
    ensures SeenHeld(old(env.history), env.history, tt.status.tenantID, tt.key,
                     StatusKeys(old(tt.status.portAllocations)), tt.status.portAllocations)
    ensures env.Flawless() ==>
              forall d :: d in Union(Visited(agents))
                          && Assured(old(env.w), tt.status.tenantID, tt.key, StatusKeys(old(tt.status.portAllocations)),
                                     Union(Visited(agents)), d) ==>
                            Has(tt.status.portAllocations, d.Key())
    ensures StrictlySorted(tt.status.edges)
    ensures forall h :: h in tt.status.edges <==>
              h != "" && exists a :: a in tt.status.portAllocations && h in a.edge.addresses
    ensures !ok ==> tt.status.portsReserved == Some(Condition(false, APIError))
    ensures ok ==> tt.status.portsReserved ==
                     Some(Condition(true, if Clashes(Visited(agents)) == [] then Synced else PortConflict))
  {
    hide Granted, GivesPreference, SeenHeld, Assured, PassStatus, PassOutcome, PassKeepsSafe, Chain, Has, OnlyPorts;
    hide EdgeAddresses, Clashes, PortSteps, Union;
    var desired, conflicts := DesiredPorts(agents);
    UnionKeys(Visited(agents));
    var allocs, failed;
    allocs, failed, blind := ReserveThenPrune(env, tt.key, tt.status.tenantID, desired, tt.status.portAllocations);
    allocs := SortBy(allocs, AllocationKey);
    GrantedGivesPreference(Ports(old(env.w), tt.status.tenantID), tt.key, StatusKeys(tt.status.portAllocations),
                           Visited(agents), allocs);
    if !blind {
      SightedPassKeepsSafe(old(env.history), env.history, tt.key, tt.status.tenantID, tt.status.portAllocations, allocs,
                           env.Lossless());
    }
    var edges := EdgesUnion(allocs);
    ok := !failed;
    tt.status := tt.status.(portAllocations := allocs, edges := edges,
                            portsReserved := Some(PortsCondition(ok, conflicts)));
  }

  function PortsCondition(ok: bool, conflicts: seq<Conflict>): Condition {
    if !ok then Condition(false, APIError) else Condition(true, if conflicts != [] then PortConflict else Synced)
  }

  // ---- runs of passes ----

  function States(run: seq<World>, tenant: string, status: seq<PortAllocation>): seq<PortState> {
    seq(|run|, i requires 0 <= i < |run| => PortState(Ports(run[i], tenant), status))
  }

  /** The calls of one pass are a run of the protocol, so safety holds at every instant of it. */
  lemma PassIsSafeThroughout(run: seq<World>, t: ObjectKey, tenant: string, status: seq<PortAllocation>)
    requires run != [] && Chain(run, PortSteps(t, tenant, status, false))
    requires Safe(Ports(run[0], tenant), t, status)
    ensures PortRun(States(run, tenant, status), t)
    ensures forall i :: 0 <= i < |run| ==> Safe(Ports(run[i], tenant), t, status)
  {
    var xs := States(run, tenant, status);
    forall i | 0 < i < |xs| ensures PortMove(xs[i - 1], xs[i], t, false) {
      assert PortCall(run[i - 1], run[i], t, tenant, status, false);
    }
    PortRunIsSafe(xs, t);
    forall i | 0 <= i < |run| ensures Safe(Ports(run[i], tenant), t, status) {
      assert Safe(xs[i].held, t, xs[i].status);
    }
  }

  /** And it holds after the pass, whether its status write lands or is lost. */
  lemma PassEndsSafe(run: seq<World>, t: ObjectKey, tenant: string, before: seq<PortAllocation>,
                     after: seq<PortAllocation>, lossless: bool)
    requires run != [] && Chain(run, PortSteps(t, tenant, before, false))
    requires PassOutcome(Ports(run[0], tenant), Ports(run[|run| - 1], tenant), t, before, after, false, lossless)
    requires Safe(Ports(run[0], tenant), t, before)
    ensures Safe(Ports(run[|run| - 1], tenant), t, before)
    ensures Safe(Ports(run[|run| - 1], tenant), t, after)
  {
    PassIsSafeThroughout(run, t, tenant, before);
    var held := Ports(run[|run| - 1], tenant);
    MoveKeepsSafe(PortState(held, before), PortState(held, after), t);
  }

  lemma SightedPassKeepsSafe(before: seq<World>, after: seq<World>, t: ObjectKey, tenant: string,
                             status: seq<PortAllocation>, status': seq<PortAllocation>, lossless: bool)
    requires Extends(before, after, PortSteps(t, tenant, status, false))
    requires PassOutcome(Ports(before[|before| - 1], tenant), Ports(after[|after| - 1], tenant), t, status, status',
                         false, lossless)
    ensures PassKeepsSafe(before, after, t, tenant, status, status')
  {
    if Safe(Ports(before[|before| - 1], tenant), t, status) {
      var run := after[|before| - 1..];
      PassIsSafeThroughout(run, t, tenant, status);
      PassEndsSafe(run, t, tenant, status, status', lossless);
      forall i | 0 <= i < |after| && |before| <= i + 1 ensures Safe(Ports(after[i], tenant), t, status) {
        assert after[i] == run[i - (|before| - 1)];
      }
    }
  }

  /** Whatever the recorded status is at each instant, safety holds of it. */
  ghost predicate SafeStretch(h: seq<World>, statuses: seq<seq<PortAllocation>>, n: nat, t: ObjectKey, tenant: string) {
    |statuses| == |h| && forall i :: n <= i < |h| ==> Safe(Ports(h[i], tenant), t, statuses[i])
  }

  /** The status recorded while the history grew by one pass. */
  ghost function Recording(statuses: seq<seq<PortAllocation>>, h: seq<World>,
                           status: seq<PortAllocation>): seq<seq<PortAllocation>>
    requires |statuses| <= |h|
  {
    statuses + seq(|h| - |statuses|, i => status)
  }

  /**
   * Pass after pass, each with whatever agents there are then, any reply and any status write lost: as long as no list
   * call fails, no service of the tunnel ever holds two ports, and no held port differs from the one recorded at that
   * instant. A pass cut off after its list call is one whose later calls are refused; one cut off before has done
   * nothing.
   */
  method RepeatedPasses(env: Env, tt: Tunnel, passes: seq<seq<Agent>>, lands: seq<bool>)
    returns (ghost statuses: seq<seq<PortAllocation>>)
    requires env.Valid() && |lands| == |passes|
    modifies env, tt`status
    ensures env.Valid() && old(env.history) <= env.history && tt.status.tenantID == old(tt.status.tenantID)
    ensures OnlyPorts(old(env.w), env.w, tt.status.tenantID)
    ensures env.failedLists == old(env.failedLists)
            && Safe(Ports(old(env.w), tt.status.tenantID), tt.key, old(tt.status.portAllocations)) ==>
              && SafeStretch(env.history, statuses, |old(env.history)| - 1, tt.key, tt.status.tenantID)
              && Safe(Ports(env.w, tt.status.tenantID), tt.key, tt.status.portAllocations)
  {
    statuses := Recording([], env.history, tt.status.portAllocations);
    for i := 0 to |passes|
      invariant env.Valid() && old(env.history) <= env.history && tt.status.tenantID == old(tt.status.tenantID)
      invariant OnlyPorts(old(env.w), env.w, tt.status.tenantID)
      invariant env.failedLists >= old(env.failedLists) && |statuses| == |env.history|
      invariant env.failedLists == old(env.failedLists)
                && Safe(Ports(old(env.w), tt.status.tenantID), tt.key, old(tt.status.portAllocations)) ==>
                  && SafeStretch(env.history, statuses, |old(env.history)| - 1, tt.key, tt.status.tenantID)
                  && Safe(Ports(env.w, tt.status.tenantID), tt.key, tt.status.portAllocations)
    {
      ghost var past, was := env.history, statuses;
      var stored := tt.status;
      var ok;
      ghost var blind;
      ok, blind := ConvergePorts(env, tt, passes[i]);
      statuses := Recording(statuses, env.history, stored.portAllocations);
      if !blind {
        StretchGrows(past, env.history, was, stored.portAllocations, tt.status.portAllocations, |old(env.history)| - 1,
                     tt.key, tt.status.tenantID);
      }
      if !lands[i] {
        tt.status := stored;
      }
    }
  }

  lemma StretchGrows(past: seq<World>, h: seq<World>, statuses: seq<seq<PortAllocation>>, status: seq<PortAllocation>,
                     status': seq<PortAllocation>, n: nat, t: ObjectKey, tenant: string)
    requires past != [] && past <= h && n < |past| == |statuses|
    requires PassKeepsSafe(past, h, t, tenant, status, status')
    ensures SafeStretch(past, statuses, n, t, tenant) && Safe(Ports(past[|past| - 1], tenant), t, status) ==>
              && SafeStretch(h, Recording(statuses, h, status), n, t, tenant)
              && Safe(Ports(h[|h| - 1], tenant), t, status) && Safe(Ports(h[|h| - 1], tenant), t, status')
  {}
}
