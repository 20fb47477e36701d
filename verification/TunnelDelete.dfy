/** Tearing a tunnel down: DNS, then ports, then the invite, then the finalizer. */
module TunnelDelete {
  import opened Text
  import opened Histories
  import opened Conventions
  import opened Environment
  import opened Api
  import opened PortProtocol
  import opened TunnelDNS

  /** A tunnel being deleted: its identity, its policy, and what its status records of the hub. */
  datatype Doomed = Doomed(t: ObjectKey, hash: string, retain: bool, invite: string, tenant: string,
                           allocations: seq<PortAllocation>)

  function DoomedOf(tt: Tunnel, digest: string -> string): Doomed
    reads tt
  {
    Doomed(tt.key, OwnerHash(digest, tt.key), tt.retain, tt.status.inviteID, tt.status.tenantID,
           tt.status.portAllocations)
  }

  predicate Recorded(d: Doomed, s: Slot) {
    exists a :: a in d.allocations && a.Slot() == s
  }

  ghost predicate Withdrawn(w: World, d: Doomed) {
    Owned(w, d.hash) == map[]
  }

  /** Every recorded port is free and, if the hub's list was read, every port under the tunnel's prefix. */
  ghost predicate PortsCleared(w: World, d: Doomed, listed: bool) {
    d.tenant != "" ==>
      && (forall a :: a in d.allocations ==> a.Slot() !in Ports(w, d.tenant))
      && (listed ==> forall s :: !Ours(Ports(w, d.tenant), d.t, s))
  }

  ghost predicate HubCleared(w: World, d: Doomed, listed: bool) {
    d.invite != "" ==> d.invite !in w.invites && PortsCleared(w, d, listed)
  }

  /** No object of that owner, no such invite, and none of those ports held. */
  ghost predicate Gone(w: World, hash: string, invite: string, tenant: string, allocations: seq<PortAllocation>) {
    && (forall k :: k in w.dns ==> !OwnedBy(w.dns[k], hash))
    && (invite != "" ==> invite !in w.invites)
    && (invite != "" && tenant != "" ==> forall a :: a in allocations ==> a.Slot() !in Ports(w, tenant))
  }

  lemma ClearedIsGone(w: World, v: World, d: Doomed, listed: bool)
    requires Withdrawn(w, d) && HubCleared(w, d, listed)
    requires v.dns == w.dns && v.invites == w.invites && v.tenants == w.tenants
    ensures Gone(v, d.hash, d.invite, d.tenant, d.allocations)
  {
    forall k | k in v.dns ensures !OwnedBy(v.dns[k], d.hash) {
      assert k !in Owned(w, d.hash);
    }
  }

  ghost predicate FreesOwn(w: World, v: World, d: Doomed, s: Slot) {
    v == Free(w, d.tenant, s) && (Recorded(d, s) || Ours(Ports(w, d.tenant), d.t, s))
  }

  ghost predicate HubDelete(w: World, v: World, d: Doomed, listed: bool) {
    && !d.retain && d.invite != "" && Withdrawn(w, d)
    && ((d.tenant != "" && exists s :: FreesOwn(w, v, d, s))
        || (PortsCleared(w, d, listed) && v == RemoveInvite(w, d.invite)))
  }

  ghost predicate FinalizerGoes(w: World, v: World, d: Doomed, listed: bool) {
    v == w.(finalizers := w.finalizers - {d.t}) && (d.retain || (Withdrawn(w, d) && HubCleared(w, d, listed)))
  }

  /** One call of a delete pass. */
  ghost predicate DeleteStep(w: World, v: World, d: Doomed, listed: bool) {
    || v == w
    || (!d.retain && OnlyOwnDNS(w, v, Owner(d.hash, None)))
    || HubDelete(w, v, d, listed)
    || FinalizerGoes(w, v, d, listed)
  }

  ghost function DeleteSteps(d: Doomed, listed: bool): Rule<World> {
    (w, v) => DeleteStep(w, v, d, listed)
  }

  lemma SweepIsDelete(before: seq<World>, after: seq<World>, d: Doomed, listed: bool)
    requires !d.retain && Extends(before, after, DNSSteps(Owner(d.hash, None)))
    ensures Extends(before, after, DeleteSteps(d, listed))
  {}

  lemma ListingOnlyHelps(before: seq<World>, after: seq<World>, d: Doomed, listed: bool)
    requires Extends(before, after, DeleteSteps(d, true))
    ensures Extends(before, after, DeleteSteps(d, listed))
  {}

  // ---- what a run of delete calls may do ----

  /** DNS objects only went away, and only this tunnel's. */
  ghost predicate DNSKept(start: map<ObjectKey, DNSObject>, dns: map<ObjectKey, DNSObject>, hash: string) {
    && (forall k :: k in dns ==> k in start && dns[k] == start[k])
    && (forall k :: k in start && !OwnedBy(start[k], hash) ==> k in dns)
  }

  ghost predicate InvitesKept(start: map<string, Invite>, invites: map<string, Invite>, id: string) {
    && (forall i :: i in invites ==> i in start && invites[i] == start[i])
    && (forall i :: i in start && i != id ==> i in invites)
  }

  ghost predicate PortsKept(start: Held, held: Held, d: Doomed) {
    && (forall s :: s in held ==> s in start && held[s] == start[s])
    && (forall s :: s in start && s !in held ==> Recorded(d, s) || Ours(start, d.t, s))
  }

  /** Other finalizers, invites, tenants, labels and DNS objects are as they were; nothing new appeared. */
  ghost predicate OthersKept(start: World, w: World, d: Doomed) {
    && w == start.(dns := w.dns, invites := w.invites, tenants := w.tenants, finalizers := w.finalizers)
    && start.finalizers - {d.t} <= w.finalizers <= start.finalizers
    && DNSKept(start.dns, w.dns, d.hash)
    && InvitesKept(start.invites, w.invites, d.invite)
    && (forall u :: u != d.tenant ==> Ports(w, u) == Ports(start, u))
    && PortsKept(Ports(start, d.tenant), Ports(w, d.tenant), d)
  }

  /** DNS first, the finalizer last; and nothing at all under Retain but the finalizer. */
  ghost predicate InOrder(start: World, w: World, d: Doomed, listed: bool) {
    && (d.retain ==> w == start.(finalizers := w.finalizers))
    && (w.invites != start.invites || w.tenants != start.tenants ==> Withdrawn(w, d))
    && (d.t in start.finalizers && d.t !in w.finalizers && !d.retain ==> Withdrawn(w, d) && HubCleared(w, d, listed))
  }

  ghost predicate Orderly(start: World, w: World, d: Doomed, listed: bool) {
    InOrder(start, w, d, listed) && OthersKept(start, w, d)
  }

  lemma ClearedStays(w: World, v: World, d: Doomed, listed: bool)
    requires v.invites.Keys <= w.invites.Keys
    requires forall s :: s in Ports(v, d.tenant) ==>
             s in Ports(w, d.tenant) && Ports(v, d.tenant)[s] == Ports(w, d.tenant)[s]
    ensures HubCleared(w, d, listed) ==> HubCleared(v, d, listed)
  {
    assert forall s :: Ours(Ports(v, d.tenant), d.t, s) ==> Ours(Ports(w, d.tenant), d.t, s);
  }

  lemma DNSStepInOrder(start: World, w: World, v: World, d: Doomed, listed: bool)
    requires InOrder(start, w, d, listed) && !d.retain && OnlyOwnDNS(w, v, Owner(d.hash, None))
    ensures InOrder(start, v, d, listed)
  {
    assert Withdrawn(w, d) ==> Withdrawn(v, d);
    ClearedStays(w, v, d, listed);
  }

  lemma FreeInOrder(start: World, w: World, v: World, d: Doomed, listed: bool, s: Slot)
    requires InOrder(start, w, d, listed) && !d.retain && Withdrawn(w, d) && FreesOwn(w, v, d, s)
    ensures InOrder(start, v, d, listed)
  {
    assert Owned(v, d.hash) == Owned(w, d.hash);
    assert Ports(v, d.tenant) == Ports(w, d.tenant) - {s};
    ClearedStays(w, v, d, listed);
  }

  lemma RemoveInviteInOrder(start: World, w: World, d: Doomed, listed: bool)
    requires InOrder(start, w, d, listed) && !d.retain && Withdrawn(w, d)
    ensures InOrder(start, RemoveInvite(w, d.invite), d, listed)
  {
    var v := RemoveInvite(w, d.invite);
    assert Owned(v, d.hash) == Owned(w, d.hash);
    ClearedStays(w, v, d, listed);
  }

  lemma FinalizerInOrder(start: World, w: World, v: World, d: Doomed, listed: bool)
    requires InOrder(start, w, d, listed) && FinalizerGoes(w, v, d, listed)
    ensures InOrder(start, v, d, listed)
  {
    assert Owned(v, d.hash) == Owned(w, d.hash);
    ClearedStays(w, v, d, listed);
  }

  lemma FreeKeepsOthers(start: World, w: World, v: World, d: Doomed, s: Slot)
    requires OthersKept(start, w, d) && FreesOwn(w, v, d, s)
    ensures OthersKept(start, v, d)
  {
    assert Ports(v, d.tenant) == Ports(w, d.tenant) - {s};
    assert forall u :: u != d.tenant ==> Ports(v, u) == Ports(w, u);
  }

  lemma DNSStepKeepsOthers(start: World, w: World, v: World, d: Doomed)
    requires OthersKept(start, w, d) && OnlyOwnDNS(w, v, Owner(d.hash, None))
    ensures OthersKept(start, v, d)
  {
    SamePortsKept(start, w, v, d);
  }

  lemma SamePortsKept(start: World, w: World, v: World, d: Doomed)
    requires v.tenants == w.tenants && (forall u :: u != d.tenant ==> Ports(w, u) == Ports(start, u))
    requires PortsKept(Ports(start, d.tenant), Ports(w, d.tenant), d)
    ensures forall u :: u != d.tenant ==> Ports(v, u) == Ports(start, u)
    ensures PortsKept(Ports(start, d.tenant), Ports(v, d.tenant), d)
  {}

  lemma RemoveInviteKeepsOthers(start: World, w: World, d: Doomed)
    requires OthersKept(start, w, d)
    ensures OthersKept(start, RemoveInvite(w, d.invite), d)
  {}

  lemma FinalizerKeepsOthers(start: World, w: World, v: World, d: Doomed)
    requires OthersKept(start, w, d) && v == w.(finalizers := w.finalizers - {d.t})
    ensures OthersKept(start, v, d)
  {}

  lemma HubDeleteKeepsOthers(start: World, w: World, v: World, d: Doomed, listed: bool)
    requires OthersKept(start, w, d) && HubDelete(w, v, d, listed)
    ensures OthersKept(start, v, d)
  {
    if s :| d.tenant != "" && FreesOwn(w, v, d, s) {
      FreeKeepsOthers(start, w, v, d, s);
    } else {
      RemoveInviteKeepsOthers(start, w, d);
    }
  }

  lemma StepKeepsOthers(start: World, w: World, v: World, d: Doomed, listed: bool)
    requires OthersKept(start, w, d) && DeleteStep(w, v, d, listed)
    ensures OthersKept(start, v, d)
  {
    if v == w {
    } else if !d.retain && OnlyOwnDNS(w, v, Owner(d.hash, None)) {
      DNSStepKeepsOthers(start, w, v, d);
    } else if HubDelete(w, v, d, listed) {
      HubDeleteKeepsOthers(start, w, v, d, listed);
    } else {
      FinalizerKeepsOthers(start, w, v, d);
    }
  }

  lemma StepInOrder(start: World, w: World, v: World, d: Doomed, listed: bool)
    requires InOrder(start, w, d, listed) && DeleteStep(w, v, d, listed)
    ensures InOrder(start, v, d, listed)
  {
    if v == w {
    } else if !d.retain && OnlyOwnDNS(w, v, Owner(d.hash, None)) {
      DNSStepInOrder(start, w, v, d, listed);
    } else if HubDelete(w, v, d, listed) {
      if s :| d.tenant != "" && FreesOwn(w, v, d, s) {
        FreeInOrder(start, w, v, d, listed, s);
      } else {
        RemoveInviteInOrder(start, w, d, listed);
      }
    } else {
      FinalizerInOrder(start, w, v, d, listed);
    }
  }

  /**
   * Over any run of delete passes, each failing anywhere: the hub is touched only once no owned
   * DNS object is left, the finalizer goes only once the hub is clear, what is not this tunnel's
   * stays, and under Retain nothing but the finalizer ever changes.
   */
  lemma {:induction false} DeleteRunIsOrderly(run: seq<World>, d: Doomed, listed: bool)
    requires run != [] && Chain(run, DeleteSteps(d, listed))
    ensures Orderly(run[0], run[|run| - 1], d, listed)
  {
    if |run| > 1 {
      var n := |run| - 1;
      DeleteRunIsOrderly(run[..n], d, listed);
      StepInOrder(run[0], run[n - 1], run[n], d, listed);
      StepKeepsOthers(run[0], run[n - 1], run[n], d, listed);
    }
  }

  // ---- releasing ports ----

  /** One release of a recorded or labelled port; a 404 counts as released. */
  method ReleaseSlot(env: Env, slot: Slot, tenant: string, ghost d: Doomed, ghost from: seq<World>) returns (gone: bool)
    requires env.Valid() && Extends(from, env.history, DeleteSteps(d, true))
    requires !d.retain && d.invite != "" && tenant == d.tenant != "" && Withdrawn(env.w, d)
    requires Recorded(d, slot) || (slot in Ports(env.w, tenant) ==> Ours(Ports(env.w, tenant), d.t, slot))
    modifies env`w, env`calls, env`history
    ensures env.Valid() && Extends(from, env.history, DeleteSteps(d, true))
    ensures env.w.dns == old(env.w.dns)
    ensures Ports(env.w, tenant) == Ports(old(env.w), tenant)
            || Ports(env.w, tenant) == Ports(old(env.w), tenant) - {slot}
    ensures gone ==> slot !in Ports(env.w, tenant)
    ensures env.Flawless() ==> gone
  {
    ghost var before, past := env.w, env.history;
    var r := env.ReleasePort(tenant, slot);
    gone := r.Ok? || r.error == NotFound;
    if env.w != before {
      assert FreesOwn(before, env.w, d, slot);
      assert HubDelete(before, env.w, d, true);
    }
    OneMore(from, past, env.w, DeleteSteps(d, true));
  }

  /** What a release keeps true of the ports this delete has yet to clear. */
  ghost predicate Releasing(env: Env, d: Doomed, from: seq<World>)
    reads env
  {
    && env.Valid() && Extends(from, env.history, DeleteSteps(d, true))
    && !d.retain && d.invite != "" && d.tenant != "" && Withdrawn(env.w, d)
  }

  /** The first loop of releasePorts: every recorded allocation, stopping at the first failure. */
  method ReleaseRecorded(env: Env, allocations: seq<PortAllocation>, tenant: string, ghost d: Doomed,
                         ghost from: seq<World>)
    returns (ok: bool, released: set<Slot>)
    requires Releasing(env, d, from) && allocations == d.allocations && tenant == d.tenant
    modifies env`w, env`calls, env`history
    ensures Releasing(env, d, from)
    ensures forall s :: s in released ==> s !in Ports(env.w, tenant)
    ensures ok ==> forall a :: a in allocations ==> a.Slot() in released
    ensures env.Flawless() ==> ok
  {
    released := {};
    for i := 0 to |allocations|
      invariant Releasing(env, d, from)
      invariant forall s :: s in released ==> s !in Ports(env.w, tenant)
      invariant forall j :: 0 <= j < i ==> allocations[j].Slot() in released
    {
      var slot := allocations[i].Slot();
      assert allocations[i] in d.allocations;
      var gone := ReleaseSlot(env, slot, tenant, d, from);
      if !gone {
        return false, released;
      }
      released := released + {slot};
    }
    ok := true;
  }

  /** The list may lag behind the hub: it names at least what is held, and holds no stale label. */
  ghost predicate Lists(listed: seq<PortReport>, held: Held) {
    && (forall s :: s in held ==> PortReport(s, held[s]) in listed)
    && (forall r :: r in listed && r.slot in held ==> held[r.slot] == r.reservation)
  }

  predicate UnderPrefix(r: PortReport, prefix: string) {
    r.reservation.tag.Some? && prefix <= r.reservation.tag.value
  }

  /** The second loop of releasePorts: whatever else is listed under the tunnel's label prefix. */
  method ReleaseListed(env: Env, listed: seq<PortReport>, released: set<Slot>, tenant: string, prefix: string,
                       ghost d: Doomed, ghost from: seq<World>)
    returns (ok: bool)
    requires Releasing(env, d, from) && tenant == d.tenant && prefix == PortLabelPrefix(d.t)
    requires Lists(listed, Ports(env.w, tenant)) && forall s :: s in released ==> s !in Ports(env.w, tenant)
    modifies env`w, env`calls, env`history
    ensures Releasing(env, d, from)
    ensures Ports(env.w, tenant).Keys <= Ports(old(env.w), tenant).Keys
    ensures ok ==> forall s :: !Ours(Ports(env.w, tenant), d.t, s)
    ensures env.Flawless() ==> ok
  {
    for i := 0 to |listed|
      invariant Releasing(env, d, from)
      invariant Lists(listed, Ports(env.w, tenant))
      invariant Ports(env.w, tenant).Keys <= Ports(old(env.w), tenant).Keys
      invariant forall j :: 0 <= j < i && UnderPrefix(listed[j], prefix) ==> listed[j].slot !in Ports(env.w, tenant)
    {
      if UnderPrefix(listed[i], prefix) {
        if listed[i].slot in released {
          continue;
        }
        var gone := ReleaseSlot(env, listed[i].slot, tenant, d, from);
        if !gone {
          return false;
        }
      }
    }
    ok := true;
    ghost var held := Ports(env.w, tenant);
    forall s | s in held ensures !Ours(held, d.t, s) {
      assert PortReport(s, held[s]) in listed;
    }
  }

  /** releasePorts: everything recorded, then a best-effort sweep by label prefix. */
  method ReleasePorts(env: Env, t: ObjectKey, allocations: seq<PortAllocation>, tenant: string, ghost d: Doomed,
                      ghost from: seq<World>)
    returns (ok: bool, ghost listed: bool)
    requires Releasing(env, d, from) && allocations == d.allocations && tenant == d.tenant && t == d.t
    modifies env
    ensures Releasing(env, d, from)
    ensures ok ==> PortsCleared(env.w, d, listed)
    ensures listed <==> env.failedLists == old(env.failedLists)
    ensures env.Flawless() ==> ok && listed
  {
    listed := true;
    var released;
    ok, released := ReleaseRecorded(env, allocations, tenant, d, from);
    if !ok {
      return;
    }
    var r := env.ListPorts(tenant);
    if r.Err? {
      return true, false;
    }
    ok := ReleaseListed(env, r.value, released, tenant, PortLabelPrefix(t), d, from);
  }

  // ---- one pass ----

  datatype KeyLookup = Found | Missing | LookupFailed

  datatype DeleteResult = NotOurs | Deleted | Retry | Failed

  /** The hub half of reconcileDelete: ports if a tenant is known, then the invite; a 404 is a success. */
  method ClearHub(env: Env, tt: Tunnel, ghost d: Doomed, ghost from: seq<World>) returns (ok: bool, ghost listed: bool)
    requires env.Valid() && Extends(from, env.history, DeleteSteps(d, true))
    requires !d.retain && d.invite != "" && Withdrawn(env.w, d)
    requires d.t == tt.key && d.invite == tt.status.inviteID && d.tenant == tt.status.tenantID
    requires d.allocations == tt.status.portAllocations
    modifies env
    ensures listed <==> env.failedLists == old(env.failedLists)
    ensures env.Valid() && Extends(from, env.history, DeleteSteps(d, listed))
    ensures ok ==> Withdrawn(env.w, d) && HubCleared(env.w, d, listed)
    ensures env.Flawless() ==> ok && listed
  {
    ok, listed := true, true;
    if tt.status.tenantID != "" {
      ok, listed := ReleasePorts(env, tt.key, tt.status.portAllocations, tt.status.tenantID, d, from);
    }
    ListingOnlyHelps(from, env.history, d, listed);
    if !ok {
      return;
    }
    ghost var before, past := env.w, env.history;
    var r := env.DeleteInvite(tt.status.inviteID);
    assert env.w == before || HubDelete(before, env.w, d, listed);
    OneMore(from, past, env.w, DeleteSteps(d, listed));
    ok := r.Ok? || r.error == NotFound;
    ClearedAfterInvite(before, env.w, d, listed);
  }

  lemma ClearedAfterInvite(w: World, v: World, d: Doomed, listed: bool)
    requires Withdrawn(w, d) && PortsCleared(w, d, listed) && (v == w || v == RemoveInvite(w, d.invite))
    ensures Withdrawn(v, d) && PortsCleared(v, d, listed)
  {
    assert Owned(v, d.hash) == Owned(w, d.hash);
    assert Ports(v, d.tenant) == Ports(w, d.tenant);
  }

  method RemoveFinalizer(env: Env, t: ObjectKey, ghost d: Doomed, ghost listed: bool, ghost from: seq<World>)
    returns (r: DeleteResult)
    requires env.Valid() && Extends(from, env.history, DeleteSteps(d, listed)) && t == d.t
    requires d.retain || (Withdrawn(env.w, d) && HubCleared(env.w, d, listed))
    modifies env`w, env`calls, env`history
    ensures env.Valid() && Extends(from, env.history, DeleteSteps(d, listed))
    ensures r.Failed? || (r.Deleted? && t !in env.w.finalizers)
    ensures !d.retain ==> Withdrawn(env.w, d) && Gone(env.w, d.hash, d.invite, d.tenant, d.allocations)
    ensures env.Flawless() ==> r.Deleted?
  {
    ghost var before, past := env.w, env.history;
    var done := env.DropFinalizer(t);
    if !d.retain {
      ClearedIsGone(before, env.w, d, listed);
    }
    assert env.w == before || FinalizerGoes(before, env.w, d, listed);
    OneMore(from, past, env.w, DeleteSteps(d, listed));
    r := if done.Ok? then Deleted else Failed;
  }

  /** reconcileDelete. */
  method ReconcileDelete(env: Env, tt: Tunnel, digest: string -> string, apiKey: KeyLookup)
    returns (r: DeleteResult, ghost listed: bool)
    requires env.Valid()
    modifies env
    ensures listed <==> env.failedLists == old(env.failedLists)
    ensures env.Valid() && Extends(old(env.history), env.history, DeleteSteps(DoomedOf(tt, digest), listed))
    ensures r.NotOurs? <==> tt.key !in old(env.w).finalizers
    ensures r.NotOurs? ==> env.w == old(env.w)
    ensures r.Deleted? ==> tt.key !in env.w.finalizers
    ensures r.Deleted? && !tt.retain ==>
              Gone(env.w, OwnerHash(digest, tt.key), tt.status.inviteID, tt.status.tenantID, tt.status.portAllocations)
    ensures env.Flawless() && apiKey.Found? ==> (r.Deleted? || r.NotOurs?) && listed
    ensures env.Flawless() && (tt.retain || tt.status.inviteID == "") ==> r.Deleted? || r.NotOurs?
    ensures env.Flawless() && !tt.retain && tt.status.inviteID != "" && apiKey.Missing? ==> r.Retry? || r.NotOurs?
    ensures env.Flawless() && r.Failed? ==> !tt.retain && tt.status.inviteID != "" && apiKey.LookupFailed?
    ensures env.Flawless() && !tt.retain && !r.NotOurs? ==> Withdrawn(env.w, DoomedOf(tt, digest))
    ensures r.Retry? ==> !tt.retain && tt.status.inviteID != ""
    ensures r.Retry? ==>
              apiKey.Missing? && Withdrawn(env.w, DoomedOf(tt, digest)) && env.w == old(env.w).(dns := env.w.dns)
  {
    ghost var d := DoomedOf(tt, digest);
    listed := true;
    assert env.history[|env.history| - 1..] == [env.w];
    if tt.key !in env.w.finalizers {
      return NotOurs, true;
    }
    if !tt.retain {
      var swept := SweepDNSEndpoints(env, Owner(d.hash, None), OwnerHash(digest, tt.key), None);
      SweepIsDelete(old(env.history), env.history, d, true);
      if !swept {
        return Failed, true;
      }
      SweptAllOwnsNothing(old(env.w), env.w, d.hash);
      if tt.status.inviteID != "" {
        if apiKey.LookupFailed? {
          return Failed, true;
        }
        if apiKey.Missing? {
          return Retry, true;
        }
        var cleared;
        cleared, listed := ClearHub(env, tt, d, old(env.history));
        if !cleared {
          return Failed, listed;
        }
      }
    }
    r := RemoveFinalizer(env, tt.key, d, listed, old(env.history));
  }

  // ---- other labels ----

  /**
   * A finished delete: any run of passes, of which the last, begun at the instant given, dropped the finalizer and read
   * the port list. Whether the earlier ones read it does not matter.
   */
  ghost predicate Finished(run: seq<World>, last: nat, d: Doomed) {
    && last < |run| && Chain(run, DeleteSteps(d, false)) && Chain(run[last..], DeleteSteps(d, true))
    && !d.retain && d.invite != "" && d.tenant != ""
    && d.t in run[last].finalizers && d.t !in run[|run| - 1].finalizers
  }

  /** It leaves the tenant exactly the ports that were neither recorded nor under the tunnel's prefix. */
  lemma FinishedDeleteClears(run: seq<World>, last: nat, d: Doomed, s: Slot)
    requires Finished(run, last, d)
    ensures var start, left := Ports(run[0], d.tenant), Ports(run[|run| - 1], d.tenant);
      && (s in left <==> s in start && !Recorded(d, s) && !Ours(start, d.t, s))
      && (s in left ==> left[s] == start[s])
  {
    DeleteRunIsOrderly(run, d, false);
    DeleteRunIsOrderly(run[last..], d, true);
    var left := Ports(run[|run| - 1], d.tenant);
    assert HubCleared(run[|run| - 1], d, true) && !Ours(left, d.t, s);
  }

  /** A finished delete spares every port under another label exactly when status recorded none of them. */
  lemma OtherLabelsSparedIff(run: seq<World>, last: nat, d: Doomed)
    requires Finished(run, last, d)
    ensures var start, left := Ports(run[0], d.tenant), Ports(run[|run| - 1], d.tenant);
      (forall s :: s in start && !Ours(start, d.t, s) ==> s in left)
      <==> (forall a :: a in d.allocations && a.Slot() in start ==> Ours(start, d.t, a.Slot()))
  {
    var start, left := Ports(run[0], d.tenant), Ports(run[|run| - 1], d.tenant);
    forall s ensures s in left <==> s in start && !Recorded(d, s) && !Ours(start, d.t, s) {
      FinishedDeleteClears(run, last, d, s);
    }
    if forall s :: s in start && !Ours(start, d.t, s) ==> s in left {
      forall a | a in d.allocations && a.Slot() in start ensures Ours(start, d.t, a.Slot()) {
        assert Recorded(d, a.Slot());
      }
    }
  }

  /** In particular every other tunnel of the tenant keeps its ports, since no label of its own is under this prefix. */
  lemma OtherTunnelsSpared(run: seq<World>, last: nat, d: Doomed, u: ObjectKey, s: Slot, name: string)
    requires Finished(run, last, d) && u != d.t && Tagged(Ports(run[0], d.tenant), u, s, name)
    requires '/' !in d.t.namespace && '/' !in d.t.name && '/' !in u.namespace && '/' !in u.name
    requires forall a :: a in d.allocations && a.Slot() in Ports(run[0], d.tenant) ==>
             Ours(Ports(run[0], d.tenant), d.t, a.Slot())
    ensures Tagged(Ports(run[|run| - 1], d.tenant), u, s, name)
  {
    PortLabelDecodes(d.t, name, u, name);
    assert !Ours(Ports(run[0], d.tenant), d.t, s);
    OtherLabelsSparedIff(run, last, d);
    FinishedDeleteClears(run, last, d, s);
  }

  /**
   * The protocol can reach a status naming someone else's port: a release whose status write was
   * lost, then the hub hands the freed port out under another label.
   */
  lemma StaleEntryCanNameForeignPort() returns (run: seq<PortState>, t: ObjectKey, a: PortAllocation)
    ensures |run| == 3 && PortRun(run, t) && Agree(run[0].held, t, run[0].status)
    ensures a in run[2].status && a.Slot() in run[2].held && !Ours(run[2].held, t, a.Slot())
  {
    t, a := ObjectKey("apps", "edge"), PortAllocation("db", TCP, 30000, Edge("", []));
    var s := a.Slot();
    var mine: Held := map[s := Reservation(Some(PortLabel(t, "db")), None)];
    var theirs: Held := map[s := Reservation(Some(""), None)];
    run := [PortState(mine, [a]), PortState(map[], [a]), PortState(theirs, [a])];
    assert PortProtocol.Releasing(mine, map[], [a], a);
    assert Tagged(mine, t, s, "db");
    assert ForeignMove(map[], theirs, t);
  }
}
