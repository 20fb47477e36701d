/**
 * TowonelAgents under server-side apply, as the sources see them: routing leaves, the field
 * managers that own each, and every kind of write that can interleave.
 */
module SourceStore {
  import opened Text
  import opened Conventions

  /** One routing field: spec.services, spec.tcp or spec.udp, the entry's key, the field. */
  datatype Leaf = Leaf(list: string, key: string, field: string)

  /** A managedFields entry; the operation tells server-side apply from plain updates. */
  datatype Manager = Manager(name: string, apply: bool)

  datatype Cell = Cell(value: string, owners: set<Manager>)

  datatype AgentObject = AgentObject(
    leaves: map<Leaf, Cell>,
    managers: set<Manager>,
    autoCreated: bool,
    operatorOwned: bool,
    observeOnly: bool,
    tunnel: ObjectKey,
    resourceVersion: nat)

  type Routing = map<Leaf, string>

  /** The cluster, the collector's reads still to be acted on, and what each manager last applied where. */
  datatype Sys = Sys(agents: map<ObjectKey, AgentObject>, clock: nat, pending: set<(ObjectKey, nat)>,
                     applied: map<(ObjectKey, string), Routing>)

  // ---- server-side apply on one agent ----

  predicate IsSource(m: Manager) {
    m.apply && SOURCE_MANAGER_PREFIX <= m.name
  }

  function OwnersOf(a: AgentObject, l: Leaf): set<Manager> {
    if l in a.leaves then a.leaves[l].owners else {}
  }

  /** What a manager has on an agent: the leaves it owns, with their values. */
  function Contribution(a: AgentObject, m: Manager): Routing {
    map l | l in a.leaves && m in a.leaves[l].owners :: a.leaves[l].value
  }

  predicate ConflictsAt(a: AgentObject, m: Manager, want: Routing, l: Leaf)
    requires l in want
  {
    l in a.leaves && a.leaves[l].value != want[l] && exists o :: o in a.leaves[l].owners && o != m
  }

  /** An unforced apply is refused when it changes a leaf somebody else owns. */
  predicate Conflicts(a: AgentObject, m: Manager, want: Routing) {
    exists l :: l in want && ConflictsAt(a, m, want, l)
  }

  /** What an accepted apply leaves: wanted leaves are (co-)owned, dropped ones go when nobody else owns them. */
  function Applied(a: AgentObject, m: Manager, want: Routing): AgentObject {
    a.(leaves := map l | l in a.leaves.Keys + want.Keys && (l in want || a.leaves[l].owners != {m}) ::
                   if l in want then Cell(want[l], OwnersOf(a, l) + {m})
                   else Cell(a.leaves[l].value, a.leaves[l].owners - {m}),
       managers := if want == map[] then a.managers - {m} else a.managers + {m})
  }

  /** ownsAnyField. */
  predicate OwnsAnyField(a: AgentObject, m: Manager) {
    m in a.managers
  }

  /** hasSourceManager. */
  predicate HasSourceManager(a: AgentObject) {
    exists m :: m in a.managers && IsSource(m)
  }

  /** What orphanGCIfEmpty deletes: auto-created, no routing, no source manager. */
  predicate Collectable(a: AgentObject) {
    a.autoCreated && a.leaves == map[] && !HasSourceManager(a)
  }

  /** After an accepted apply the manager owns exactly what it asked for, and everybody else what they did. */
  lemma AppliedContributes(a: AgentObject, m: Manager, want: Routing)
    requires !Conflicts(a, m, want)
    ensures Contribution(Applied(a, m, want), m) == want
    ensures forall o :: o != m ==> Contribution(Applied(a, m, want), o) == Contribution(a, o)
  {
    var b := Applied(a, m, want);
    forall o | o != m ensures Contribution(b, o) == Contribution(a, o) {
      forall l ensures l in Contribution(b, o) <==> l in Contribution(a, o) {}
      forall l | l in Contribution(a, o) ensures Contribution(b, o)[l] == Contribution(a, o)[l] {
        assert l in want ==> !ConflictsAt(a, m, want, l);
      }
    }
  }

  /**
   * A source that owned nothing contributes and releases: the routing is as before exactly when
   * it asked for no leaf that stood there without an owner.
   */
  lemma ContributeReleaseRestoresIff(a: AgentObject, m: Manager, want: Routing)
    requires Contribution(a, m) == map[] && !Conflicts(a, m, want)
    ensures Applied(Applied(a, m, want), m, map[]).leaves == a.leaves
            <==> forall l :: l in want && l in a.leaves ==> a.leaves[l].owners != {}
  {
    var b := Applied(a, m, want);
    var c := Applied(b, m, map[]);
    forall l ensures l in a.leaves ==> m !in a.leaves[l].owners {
      assert l in a.leaves && m in a.leaves[l].owners ==> l in Contribution(a, m);
    }
    if forall l :: l in want && l in a.leaves ==> a.leaves[l].owners != {} {
      forall l | l in a.leaves ensures l in c.leaves && c.leaves[l] == a.leaves[l] {
        assert l in want ==> !ConflictsAt(a, m, want, l);
        assert l in want ==> b.leaves[l].owners - {m} == a.leaves[l].owners;
        assert a.leaves[l].owners - {m} == a.leaves[l].owners;
      }
      forall l | l in c.leaves ensures l in a.leaves {}
    } else {
      var l :| l in want && l in a.leaves && a.leaves[l].owners == {};
      assert b.leaves[l].owners == {m};
      assert l !in c.leaves;
    }
  }

  function CellAt(a: AgentObject, l: Leaf): Option<Cell> {
    if l in a.leaves then Some(a.leaves[l]) else None
  }

  function ValueAt(want: Routing, l: Leaf): Option<string> {
    if l in want then Some(want[l]) else None
  }

  /** One leaf's fate under an accepted apply. */
  function CellAfter(c: Option<Cell>, m: Manager, w: Option<string>): Option<Cell> {
    match (c, w)
    case (None, None) => None
    case (None, Some(v)) => Some(Cell(v, {m}))
    case (Some(cell), Some(v)) => Some(Cell(v, cell.owners + {m}))
    case (Some(cell), None) => if cell.owners == {m} then None else Some(Cell(cell.value, cell.owners - {m}))
  }

  lemma AppliedAt(a: AgentObject, m: Manager, want: Routing, l: Leaf)
    ensures CellAt(Applied(a, m, want), l) == CellAfter(CellAt(a, l), m, ValueAt(want, l))
  {
    assert {} + {m} == {m};
  }

  lemma CellsCommute(c: Option<Cell>, m: Manager, w: Option<string>, o: Manager, u: Option<string>)
    requires m != o && (w.Some? && u.Some? ==> w == u)
    ensures CellAfter(CellAfter(c, m, w), o, u) == CellAfter(CellAfter(c, o, u), m, w)
  {
    assert {m} + {o} == {o} + {m} && {m} - {o} == {m} && {o} - {m} == {o};
    if c.Some? {
      var own := c.value.owners;
      assert (own - {m}) - {o} == (own - {o}) - {m} && (own + {m}) + {o} == (own + {o}) + {m};
      assert (own + {m}) - {o} == (own - {o}) + {m} && (own + {o}) - {m} == (own - {m}) + {o};
      assert own == {m} ==> (own + {o}) - {m} == {o};
      assert own == {o} ==> (own + {m}) - {o} == {m};
      assert m in own + {m} && o in own + {o};
      LastOwnerEitherWay(own, m, o);
      LastOwnerEitherWay(own, o, m);
    }
  }

  lemma LastOwnerEitherWay(own: set<Manager>, m: Manager, o: Manager)
    requires m != o
    ensures own != {m} && own - {m} == {o} <==> own == {o} || own == {m, o}
    ensures own == {m, o} ==> own != {o} && own - {o} == {m}
  {
    if own - {m} == {o} {
      assert o in own - {m};
      assert forall x :: x in own && x != m ==> x in own - {m};
      if m in own {
        assert own == {m, o};
      } else {
        assert own == {o};
      }
    }
  }

  lemma CommuteAt(a: AgentObject, m: Manager, want: Routing, o: Manager, other: Routing, l: Leaf)
    requires m != o && !Conflicts(Applied(a, m, want), o, other)
    ensures CellAt(Applied(Applied(a, m, want), o, other), l) == CellAt(Applied(Applied(a, o, other), m, want), l)
  {
    AppliedAt(a, m, want, l);
    AppliedAt(Applied(a, m, want), o, other, l);
    AppliedAt(a, o, other, l);
    AppliedAt(Applied(a, o, other), m, want, l);
    if l in want && l in other {
      assert !ConflictsAt(Applied(a, m, want), o, other, l);
      assert m in Applied(a, m, want).leaves[l].owners;
    }
    CellsCommute(CellAt(a, l), m, ValueAt(want, l), o, ValueAt(other, l));
  }

  /** Sources never depend on the order they arrive in: applies accepted either way round commute. */
  lemma AppliesCommute(a: AgentObject, m: Manager, want: Routing, o: Manager, other: Routing)
    requires m != o && !Conflicts(Applied(a, m, want), o, other)
    ensures Applied(Applied(a, m, want), o, other).leaves == Applied(Applied(a, o, other), m, want).leaves
  {
    var x, y := Applied(Applied(a, m, want), o, other), Applied(Applied(a, o, other), m, want);
    forall l ensures CellAt(x, l) == CellAt(y, l) {
      CommuteAt(a, m, want, o, other, l);
    }
    assert forall l :: l in x.leaves <==> CellAt(x, l).Some?;
    assert forall l :: l in y.leaves <==> CellAt(y, l).Some?;
  }

  // ---- everything that can happen ----

  datatype Step =
    | Contribute(nn: ObjectKey, mgr: string, want: Routing)
    | Release(nn: ObjectKey, mgr: string)
    | EnsureDefault(nn: ObjectKey, tunnel: ObjectKey)
    | Inspect(nn: ObjectKey)
    | Collect(nn: ObjectKey, resourceVersion: nat)
    | Touch(nn: ObjectKey, autoCreated: bool, operatorOwned: bool, observeOnly: bool)
    | UserEdit(nn: ObjectKey, l: Leaf, value: string, editor: Manager)
    | UserErase(nn: ObjectKey, l: Leaf)
    | UserCreate(nn: ObjectKey, operatorOwned: bool, observeOnly: bool, tunnel: ObjectKey, routing: Routing,
                 editor: Manager)
    | UserDelete(nn: ObjectKey)

  /** Store an agent: any change, and only a change, gets a version never used before. */
  function Put(s: Sys, nn: ObjectKey, a: AgentObject): Sys {
    if nn in s.agents && s.agents[nn] == a then s
    else s.(agents := s.agents[nn := a.(resourceVersion := s.clock + 1)], clock := s.clock + 1)
  }

  function Record(s: Sys, nn: ObjectKey, mgr: string, want: Routing): Sys {
    s.(applied := s.applied[(nn, mgr) := want])
  }

  /** Apply under a source's manager: nothing happens if the agent is gone or another owner objects. */
  function ApplyTo(s: Sys, nn: ObjectKey, mgr: string, want: Routing): Sys {
    if nn !in s.agents || Conflicts(s.agents[nn], Manager(mgr, true), want) then s
    else Record(Put(s, nn, Applied(s.agents[nn], Manager(mgr, true), want)), nn, mgr, want)
  }

  /** The default agent: auto-created, operator-owned, no routing yet. */
  function DefaultAgent(tunnel: ObjectKey): AgentObject {
    AgentObject(map[], {}, true, true, false, tunnel, 0)
  }

  function Owned(routing: Routing, editor: Manager): map<Leaf, Cell> {
    map l | l in routing :: Cell(routing[l], {editor})
  }

  /** A plain update takes a leaf it changes from everybody else, and shares one it does not. */
  function Edited(a: AgentObject, l: Leaf, value: string, editor: Manager): AgentObject {
    var owners := if l in a.leaves && a.leaves[l].value == value then a.leaves[l].owners else {};
    a.(leaves := a.leaves[l := Cell(value, owners + {editor})], managers := a.managers + {editor})
  }

  function Next(s: Sys, step: Step): Sys {
    match step
    case Contribute(nn, mgr, want) => ApplyTo(s, nn, mgr, want)
    case Release(nn, mgr) => ApplyTo(s, nn, mgr, map[])
    case EnsureDefault(nn, tunnel) => if nn in s.agents then s else Put(s, nn, DefaultAgent(tunnel))
    case Inspect(nn) =>
      if nn !in s.agents || !Collectable(s.agents[nn]) then s
      else s.(pending := s.pending + {(nn, s.agents[nn].resourceVersion)})
    case Collect(nn, v) =>
      if (nn, v) in s.pending && nn in s.agents && s.agents[nn].resourceVersion == v
      then s.(agents := s.agents - {nn}) else s
    case Touch(nn, auto, owned, observe) =>
      if nn !in s.agents then s
      else Put(s, nn, s.agents[nn].(autoCreated := auto, operatorOwned := owned, observeOnly := observe))
    case UserEdit(nn, l, value, editor) =>
      if nn in s.agents && !IsSource(editor) then Put(s, nn, Edited(s.agents[nn], l, value, editor)) else s
    case UserErase(nn, l) =>
      if nn in s.agents then Put(s, nn, s.agents[nn].(leaves := s.agents[nn].leaves - {l})) else s
    case UserCreate(nn, owned, observe, tunnel, routing, editor) =>
      if nn in s.agents || IsSource(editor) then s
      else Put(s, nn, AgentObject(Owned(routing, editor), {editor}, false, owned, observe, tunnel, 0))
    case UserDelete(nn) => s.(agents := s.agents - {nn})
  }

  // ---- what every run keeps ----

  /** A source's leaf still has the value that source last applied there. */
  ghost predicate Intact(s: Sys) {
    forall nn, m, l :: nn in s.agents && IsSource(m) && l in Contribution(s.agents[nn], m) ==>
      (nn, m.name) in s.applied && l in s.applied[(nn, m.name)]
          && s.applied[(nn, m.name)][l] == Contribution(s.agents[nn], m)[l]
  }

  /** Whoever owns a leaf is listed. */
  ghost predicate Listed(a: AgentObject) {
    forall l :: l in a.leaves ==> a.leaves[l].owners <= a.managers
  }

  /** Versions only grow, and a version once inspected still means what it meant. */
  ghost predicate Versioned(s: Sys) {
    && (forall nn :: nn in s.agents ==> s.agents[nn].resourceVersion <= s.clock)
    && (forall p :: p in s.pending ==>
          p.1 <= s.clock && (p.0 in s.agents && s.agents[p.0].resourceVersion == p.1 ==> Collectable(s.agents[p.0])))
  }

  ghost predicate Inv(s: Sys) {
    Intact(s) && Versioned(s) && forall nn :: nn in s.agents ==> Listed(s.agents[nn])
  }

  lemma PutKeepsVersions(s: Sys, nn: ObjectKey, a: AgentObject)
    requires Versioned(s)
    ensures Versioned(Put(s, nn, a))
  {}

  /** A write that adds to no source's contribution keeps every one of them intact. */
  lemma PutKeepsIntact(s: Sys, nn: ObjectKey, a: AgentObject)
    requires Inv(s) && Listed(a)
    requires forall m, l :: IsSource(m) && l in Contribution(a, m) ==>
               nn in s.agents && l in Contribution(s.agents[nn], m)
                   && Contribution(a, m)[l] == Contribution(s.agents[nn], m)[l]
    ensures Inv(Put(s, nn, a))
  {
    PutKeepsVersions(s, nn, a);
    var v := Put(s, nn, a);
    forall k, m, l | k in v.agents && IsSource(m) && l in Contribution(v.agents[k], m)
      ensures (k, m.name) in v.applied && l in v.applied[(k, m.name)]
      ensures v.applied[(k, m.name)][l] == Contribution(v.agents[k], m)[l]
    {
      if k == nn {
        assert l in Contribution(a, m);
        assert l in Contribution(s.agents[nn], m);
      } else {
        assert l in Contribution(s.agents[k], m);
      }
    }
  }

  lemma AppliedListed(a: AgentObject, m: Manager, want: Routing)
    requires Listed(a)
    ensures Listed(Applied(a, m, want))
  {}

  lemma ApplyKeepsInv(s: Sys, nn: ObjectKey, mgr: string, want: Routing)
    requires Inv(s)
    ensures Inv(ApplyTo(s, nn, mgr, want))
  {
    var me := Manager(mgr, true);
    if nn in s.agents && !Conflicts(s.agents[nn], me, want) {
      var a := s.agents[nn];
      var b := Applied(a, me, want);
      var p := Put(s, nn, b);
      PutKeepsVersions(s, nn, b);
      AppliedListed(a, me, want);
      AppliedContributes(a, me, want);
      ApplyKeepsIntact(s, p, ApplyTo(s, nn, mgr, want), nn, me, want);
    }
  }

  lemma ApplyKeepsIntact(s: Sys, p: Sys, v: Sys, nn: ObjectKey, me: Manager, want: Routing)
    requires Intact(s) && nn in s.agents && nn in p.agents && v == Record(p, nn, me.name, want)
    requires p.applied == s.applied
    requires me.apply && p.agents.Keys == s.agents.Keys
    requires forall k :: k in s.agents && k != nn ==> p.agents[k] == s.agents[k]
    requires Contribution(p.agents[nn], me) == want
    requires forall o :: o != me ==> Contribution(p.agents[nn], o) == Contribution(s.agents[nn], o)
    ensures Intact(v)
  {
    forall k, m, l | k in v.agents && IsSource(m) && l in Contribution(v.agents[k], m)
      ensures (k, m.name) in v.applied && l in v.applied[(k, m.name)]
      ensures v.applied[(k, m.name)][l] == Contribution(v.agents[k], m)[l]
    {
      if k == nn && m == me {
      } else {
        assert l in Contribution(s.agents[k], m);
        assert (k, m.name) != (nn, me.name);
      }
    }
  }

  lemma EditKeepsInv(s: Sys, nn: ObjectKey, l: Leaf, value: string, editor: Manager)
    requires Inv(s) && nn in s.agents && !IsSource(editor)
    ensures Inv(Put(s, nn, Edited(s.agents[nn], l, value, editor)))
  {
    var a := s.agents[nn];
    var b := Edited(a, l, value, editor);
    assert OwnersOf(a, l) <= a.managers;
    forall m, k | IsSource(m) && k in Contribution(b, m)
      ensures k in Contribution(a, m) && Contribution(b, m)[k] == Contribution(a, m)[k]
    {
      assert m != editor;
    }
    PutKeepsIntact(s, nn, b);
  }

  lemma EraseKeepsInv(s: Sys, nn: ObjectKey, l: Leaf)
    requires Inv(s) && nn in s.agents
    ensures Inv(Put(s, nn, s.agents[nn].(leaves := s.agents[nn].leaves - {l})))
  {
    PutKeepsIntact(s, nn, s.agents[nn].(leaves := s.agents[nn].leaves - {l}));
  }

  lemma TouchKeepsInv(s: Sys, nn: ObjectKey, auto: bool, owned: bool, observe: bool)
    requires Inv(s) && nn in s.agents
    ensures Inv(Put(s, nn, s.agents[nn].(autoCreated := auto, operatorOwned := owned, observeOnly := observe)))
  {
    PutKeepsIntact(s, nn, s.agents[nn].(autoCreated := auto, operatorOwned := owned, observeOnly := observe));
  }

  lemma CreateKeepsInv(s: Sys, nn: ObjectKey, a: AgentObject)
    requires Inv(s) && nn !in s.agents && Listed(a)
    requires forall m :: IsSource(m) ==> Contribution(a, m) == map[]
    ensures Inv(Put(s, nn, a))
  {
    PutKeepsIntact(s, nn, a);
  }

  lemma FewerAgentsKeepInv(s: Sys, nn: ObjectKey)
    requires Inv(s)
    ensures Inv(s.(agents := s.agents - {nn}))
  {}

  lemma InspectKeepsInv(s: Sys, nn: ObjectKey)
    requires Inv(s)
    ensures Inv(Next(s, Inspect(nn)))
  {}

  lemma StepKeepsInv(s: Sys, step: Step)
    requires Inv(s)
    ensures Inv(Next(s, step))
  {
    match step
    case Contribute(nn, mgr, want) => ApplyKeepsInv(s, nn, mgr, want);
    case Release(nn, mgr) => ApplyKeepsInv(s, nn, mgr, map[]);
    case EnsureDefault(nn, tunnel) => if nn !in s.agents { CreateKeepsInv(s, nn, DefaultAgent(tunnel)); }
    case Inspect(nn) => InspectKeepsInv(s, nn);
    case Collect(nn, v) => FewerAgentsKeepInv(s, nn);
    case Touch(nn, auto, owned, observe) => if nn in s.agents { TouchKeepsInv(s, nn, auto, owned, observe); }
    case UserEdit(nn, l, value, editor) =>
      if nn in s.agents && !IsSource(editor) {
        EditKeepsInv(s, nn, l, value, editor);
      }
    case UserErase(nn, l) => if nn in s.agents { EraseKeepsInv(s, nn, l); }
    case UserCreate(nn, owned, observe, tunnel, routing, editor) =>
      if nn !in s.agents && !IsSource(editor) {
        CreateKeepsInv(s, nn, AgentObject(Owned(routing, editor), {editor}, false, owned, observe, tunnel, 0));
      }
    case UserDelete(nn) => FewerAgentsKeepInv(s, nn);
  }

  function Run(s: Sys, steps: seq<Step>): Sys {
    if steps == [] then s else Next(Run(s, steps[..|steps| - 1]), steps[|steps| - 1])
  }

  /** In every interleaving of any number of sources, users and collectors. */
  lemma {:induction false} RunKeepsInv(s: Sys, steps: seq<Step>)
    requires Inv(s)
    ensures Inv(Run(s, steps))
  {
    if steps != [] {
      RunKeepsInv(s, steps[..|steps| - 1]);
      StepKeepsInv(Run(s, steps[..|steps| - 1]), steps[|steps| - 1]);
    }
  }

  /**
   * Whatever happens between the collector's read and its delete, an agent goes only at an instant
   * when it is auto-created, empty and unclaimed, unless a user deletes it.
   */
  lemma OnlyIdleAgentsGo(start: Sys, steps: seq<Step>, step: Step, nn: ObjectKey)
    requires Inv(start) && !step.UserDelete?
    requires var s := Run(start, steps); nn in s.agents && nn !in Next(s, step).agents
    ensures var a := Run(start, steps).agents[nn];
      Collectable(a) && forall m :: IsSource(m) ==> Contribution(a, m) == map[]
  {
    RunKeepsInv(start, steps);
    var s := Run(start, steps);
    assert step.Collect?;
    assert (nn, step.resourceVersion) in s.pending;
  }
}
