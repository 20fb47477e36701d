/**
 * The port reservation protocol as a state machine: the hub's reservations of one tenant, and
 * what the tunnel's status records of them. A status write may be lost, so may a reply.
 */
module PortProtocol {
  import opened Text
  import opened Conventions
  import opened Environment
  import opened Api

  type Held = map<Slot, Reservation>

  function AllocationKey(a: PortAllocation): string { a.Key() }

  /** A reservation labelled for one service of the tunnel. */
  predicate Tagged(held: Held, t: ObjectKey, s: Slot, name: string) {
    s in held && held[s].tag == Some(PortLabel(t, name))
  }

  /** A reservation under the tunnel's label prefix. */
  predicate Ours(held: Held, t: ObjectKey, s: Slot) {
    s in held && held[s].tag.Some? && PortLabelPrefix(t) <= held[s].tag.value
  }

  lemma TaggedOnce(held: Held, t: ObjectKey, s: Slot, n: string, m: string)
    requires Tagged(held, t, s, n) && Tagged(held, t, s, m)
    ensures n == m
  {
    PortLabelInjective(t, n, m);
  }

  /** No (protocol, service) of the tunnel holds two ports. */
  ghost predicate AtMostOne(held: Held, t: ObjectKey) {
    forall s, r, name :: Tagged(held, t, s, name) && Tagged(held, t, r, name) && s.protocol == r.protocol ==> s == r
  }

  ghost predicate Vacant(held: Held, t: ObjectKey, p: Protocol, name: string) {
    forall s :: Tagged(held, t, s, name) ==> s.protocol != p
  }

  /** Whatever the hub holds for this allocation's service is the port recorded. */
  ghost predicate NoDriftFor(held: Held, t: ObjectKey, a: PortAllocation) {
    forall s :: Tagged(held, t, s, a.name) && s.protocol == a.protocol ==> s == a.Slot()
  }

  ghost predicate Safe(held: Held, t: ObjectKey, status: seq<PortAllocation>) {
    && AtMostOne(held, t)
    && (forall a :: a in status ==> NoDriftFor(held, t, a))
    && DistinctBy(status, AllocationKey)
  }

  /** Status and hub in one-to-one agreement on (protocol, name, port), keys unique and sorted. */
  ghost predicate Agree(held: Held, t: ObjectKey, status: seq<PortAllocation>) {
    && StrictlySortedBy(status, AllocationKey)
    && (forall a :: a in status ==> Tagged(held, t, a.Slot(), a.name))
    && (forall s :: Ours(held, t, s) ==> exists a :: a in status && a.Slot() == s && Tagged(held, t, s, a.name))
  }

  // ---- moves ----

  /** A reserve call took effect: for a service status does not record, and, if the list was read, one not held. */
  ghost predicate Reserving(held: Held, next: Held, t: ObjectKey, status: seq<PortAllocation>, blind: bool,
                            s: Slot, name: string) {
    && s !in held
    && (forall a :: a in status ==> a.Key() != AllocKey(s.protocol, name))
    && (!blind ==> Vacant(held, t, s.protocol, name))
    && next.Keys == held.Keys + {s} && Tagged(next, t, s, name)
    && (forall r :: r in held ==> next[r] == held[r])
  }

  /** A release call took effect: on a port status records. */
  ghost predicate Releasing(held: Held, next: Held, status: seq<PortAllocation>, a: PortAllocation) {
    a in status && next == held - {a.Slot()}
  }

  ghost predicate HubMove(held: Held, next: Held, t: ObjectKey, status: seq<PortAllocation>, blind: bool) {
    || next == held
    || (exists s, name :: Reserving(held, next, t, status, blind, s, name))
    || (exists a :: Releasing(held, next, status, a))
  }

  /** A status write: entries kept from before, and new ones the hub does not contradict. */
  ghost predicate StatusWrite(held: Held, t: ObjectKey, status: seq<PortAllocation>, status': seq<PortAllocation>) {
    && DistinctBy(status', AllocationKey)
    && forall a :: a in status' ==> a in status || NoDriftFor(held, t, a)
  }

  /** Someone else's reservations in the same tenant come and go. */
  ghost predicate ForeignMove(held: Held, next: Held, t: ObjectKey) {
    forall s, name :: Tagged(next, t, s, name) <==> Tagged(held, t, s, name)
  }

  datatype PortState = PortState(held: Held, status: seq<PortAllocation>)

  ghost predicate PortMove(x: PortState, y: PortState, t: ObjectKey, blind: bool) {
    || (y.status == x.status && HubMove(x.held, y.held, t, x.status, blind))
    || (y.status == x.status && ForeignMove(x.held, y.held, t))
    || (y.held == x.held && StatusWrite(x.held, t, x.status, y.status))
  }

  lemma ReservingKeepsSafe(held: Held, next: Held, t: ObjectKey, status: seq<PortAllocation>, s: Slot, name: string)
    requires Safe(held, t, status) && Reserving(held, next, t, status, false, s, name)
    ensures Safe(next, t, status)
  {
    forall q, r, n | Tagged(next, t, q, n) && Tagged(next, t, r, n) && q.protocol == r.protocol ensures q == r {
      PortLabelInjective(t, n, name);
      assert q != s ==> Tagged(held, t, q, n);
      assert r != s ==> Tagged(held, t, r, n);
    }
    forall a | a in status ensures NoDriftFor(next, t, a) {
      forall r | Tagged(next, t, r, a.name) && r.protocol == a.protocol ensures r == a.Slot() {
        PortLabelInjective(t, a.name, name);
        assert r != s ==> Tagged(held, t, r, a.name);
      }
    }
  }

  lemma ShrinkingKeepsSafe(held: Held, next: Held, t: ObjectKey, status: seq<PortAllocation>)
    requires Safe(held, t, status)
    requires forall s, name :: Tagged(next, t, s, name) ==> Tagged(held, t, s, name)
    ensures Safe(next, t, status)
  {}

  lemma MoveKeepsSafe(x: PortState, y: PortState, t: ObjectKey)
    requires Safe(x.held, t, x.status) && PortMove(x, y, t, false)
    ensures Safe(y.held, t, y.status)
  {
    if y.status == x.status && HubMove(x.held, y.held, t, x.status, false) {
      if s, name :| Reserving(x.held, y.held, t, x.status, false, s, name) {
        ReservingKeepsSafe(x.held, y.held, t, x.status, s, name);
      } else {
        ShrinkingKeepsSafe(x.held, y.held, t, x.status);
      }
    } else if y.status == x.status && ForeignMove(x.held, y.held, t) {
      ShrinkingKeepsSafe(x.held, y.held, t, x.status);
    }
  }

  ghost predicate PortRun(run: seq<PortState>, t: ObjectKey) {
    forall i :: 0 < i < |run| ==> PortMove(run[i - 1], run[i], t, false)
  }

  /**
   * Over every run, whichever replies and status writes are lost: no service holds two ports,
   * and no held port differs from the one status records.
   */
  lemma {:induction false} PortRunIsSafe(run: seq<PortState>, t: ObjectKey)
    requires run != [] && PortRun(run, t)
    requires Safe(run[0].held, t, run[0].status)
    ensures forall i :: 0 <= i < |run| ==> Safe(run[i].held, t, run[i].status)
  {
    if |run| > 1 {
      var n := |run| - 1;
      PortRunIsSafe(run[..n], t);
      assert run[..n][n - 1] == run[n - 1];
      MoveKeepsSafe(run[n - 1], run[n], t);
      forall i | 0 <= i < |run| ensures Safe(run[i].held, t, run[i].status) {
        if i < n { assert run[..n][i] == run[i]; }
      }
    }
  }

  /** Reserving without having read the list keeps one port per service exactly when none was held. */
  lemma BlindReserveSafeIff(held: Held, next: Held, t: ObjectKey, status: seq<PortAllocation>, s: Slot, name: string)
    requires Safe(held, t, status) && Reserving(held, next, t, status, true, s, name)
    ensures AtMostOne(next, t) <==> Vacant(held, t, s.protocol, name)
  {
    if Vacant(held, t, s.protocol, name) {
      assert Reserving(held, next, t, status, false, s, name);
      ReservingKeepsSafe(held, next, t, status, s, name);
    }
    if AtMostOne(next, t) {
      forall r | Tagged(held, t, r, name) ensures r.protocol != s.protocol {
        assert Tagged(next, t, r, name);
      }
    }
  }

  /** Why listing matters: a reservation whose reply was lost, then a failed list, then a second port. */
  lemma BlindReserveCanDuplicate() returns (held: Held, next: Held, t: ObjectKey)
    ensures Safe(held, t, []) && PortMove(PortState(held, []), PortState(next, []), t, true)
    ensures !AtMostOne(next, t)
  {
    t := ObjectKey("apps", "edge");
    var r := Reservation(Some(PortLabel(t, "db")), None);
    var a, b := Slot(TCP, 30000), Slot(TCP, 30001);
    held := map[a := r];
    next := map[a := r, b := r];
    assert Reserving(held, next, t, [], true, b, "db");
    assert Tagged(next, t, a, "db") && Tagged(next, t, b, "db");
  }

  /** Agreement is stronger than safety. */
  lemma AgreeIsSafe(held: Held, t: ObjectKey, status: seq<PortAllocation>)
    requires Agree(held, t, status)
    ensures Safe(held, t, status)
  {
    forall i, j | 0 <= i < j < |status| ensures AllocationKey(status[i]) != AllocationKey(status[j]) {
      LessIrreflexive(AllocationKey(status[i]));
    }
    forall s, name | Tagged(held, t, s, name)
      ensures exists a :: a in status && a.Slot() == s && a.name == name
    {
      assert Ours(held, t, s);
      var a :| a in status && a.Slot() == s && Tagged(held, t, s, a.name);
      TaggedOnce(held, t, s, a.name, name);
    }
    forall a, b | a in status && b in status && a.Key() == b.Key() ensures a == b {
      SameKeySameEntry(status, a, b);
    }
    forall s, r, name | Tagged(held, t, s, name) && Tagged(held, t, r, name) && s.protocol == r.protocol
      ensures s == r {
      var a :| a in status && a.Slot() == s && a.name == name;
      var b :| b in status && b.Slot() == r && b.name == name;
      assert a.Key() == b.Key();
    }
  }

  lemma SameKeySameEntry(status: seq<PortAllocation>, a: PortAllocation, b: PortAllocation)
    requires DistinctBy(status, AllocationKey) && a in status && b in status && a.Key() == b.Key()
    ensures a == b
  {}
}
