/** The union of the agents' L4 services: one public port per (protocol, name). */
module PortDemand {
  import opened Text
  import opened Conventions
  import opened Environment
  import opened Api

  datatype DesiredPort = DesiredPort(name: string, protocol: Protocol, preferred: int, preferredBy: string) {
    function Key(): string { AllocKey(protocol, name) }
  }

  /** A preference that lost: which key, what was kept and for whom, what was asked and by whom. */
  datatype Conflict = Conflict(key: string, kept: int, keptBy: string, asked: int, askedBy: string)

  /** One declaration of an L4 service by one agent. */
  datatype Entry = Entry(protocol: Protocol, service: L4Service, agent: string) {
    function Key(): string { AllocKey(protocol, service.name) }
  }

  function AgentName(a: Agent): string { QualifiedName(a.key) }

  function Declared(protocol: Protocol, services: seq<L4Service>, agent: string): seq<Entry> {
    seq(|services|, i requires 0 <= i < |services| => Entry(protocol, services[i], agent))
  }

  function AgentEntries(a: Agent): seq<Entry> {
    Declared(TCP, a.tcp, AgentName(a)) + Declared(UDP, a.udp, AgentName(a))
  }

  function Entries(agents: seq<Agent>): seq<Entry> {
    if agents == [] then [] else Entries(agents[..|agents| - 1]) + AgentEntries(agents[|agents| - 1])
  }

  /** The declarations in the order desiredPorts visits them: agents by ns/name, tcp before udp. */
  function Visited(agents: seq<Agent>): seq<Entry> {
    Entries(SortBy(agents, AgentName))
  }

  function KeysOf(es: seq<Entry>): set<string> {
    set e | e in es :: e.Key()
  }

  lemma KeysOfAppend(es: seq<Entry>, e: Entry)
    ensures KeysOf(es + [e]) == KeysOf(es) + {e.Key()}
  {}

  // ---- the union, as a fold over declarations ----

  /** The first declaration of each key. */
  function Firsts(es: seq<Entry>): seq<Entry> {
    if es == [] then []
    else
      var p, e := es[..|es| - 1], es[|es| - 1];
      if e.Key() in KeysOf(p) then Firsts(p) else Firsts(p) + [e]
  }

  /** The first declaration of a key that states a preference. */
  function Winner(es: seq<Entry>, key: string): Option<Entry> {
    if es == [] then None
    else
      var p, e := es[..|es| - 1], es[|es| - 1];
      if Winner(p, key).Some? then Winner(p, key)
      else if e.Key() == key && e.service.preferredPort != 0 then Some(e)
      else None
  }

  function PortOf(es: seq<Entry>, first: Entry): DesiredPort {
    var w := Winner(es, first.Key());
    DesiredPort(first.service.name, first.protocol,
                if w.Some? then w.value.service.preferredPort else 0,
                if w.Some? then w.value.agent else "")
  }

  function Union(es: seq<Entry>): seq<DesiredPort> {
    seq(|Firsts(es)|, i requires 0 <= i < |Firsts(es)| => PortOf(es, Firsts(es)[i]))
  }

  /** Each later preference that differs from the one kept, in order. */
  function Clashes(es: seq<Entry>): seq<Conflict> {
    if es == [] then []
    else
      var p, e := es[..|es| - 1], es[|es| - 1];
      var w := Winner(p, e.Key());
      if e.service.preferredPort != 0 && w.Some? && w.value.service.preferredPort != e.service.preferredPort then
        Clashes(p) + [Conflict(e.Key(), w.value.service.preferredPort, w.value.agent, e.service.preferredPort, e.agent)]
      else
        Clashes(p)
  }

  // ---- what the fold means ----

  lemma {:induction false} WinnerIsFirstPreference(es: seq<Entry>, key: string)
    ensures match Winner(es, key)
            case Some(w) => exists i :: 0 <= i < |es| && es[i] == w && w.Key() == key && w.service.preferredPort != 0
                                        && forall j :: 0 <= j < i && es[j].Key() == key ==>
                                             es[j].service.preferredPort == 0
            case None => forall j :: 0 <= j < |es| && es[j].Key() == key ==> es[j].service.preferredPort == 0
  {
    if es != [] {
      var p, e := es[..|es| - 1], es[|es| - 1];
      WinnerIsFirstPreference(p, key);
      if Winner(p, key).Some? {
        var w := Winner(p, key).value;
        var i :| 0 <= i < |p| && p[i] == w && w.Key() == key && w.service.preferredPort != 0
                 && forall j :: 0 <= j < i && p[j].Key() == key ==> p[j].service.preferredPort == 0;
        assert es[i] == w && forall j :: 0 <= j < i && es[j].Key() == key ==> p[j] == es[j];
      } else {
        assert forall j :: 0 <= j < |p| ==> p[j] == es[j];
      }
    }
  }

  function EntryKey(e: Entry): string { e.Key() }

  /** One entry per key: no key twice, every declared key once, and only declared entries. */
  lemma {:induction false} FirstsCoverKeys(es: seq<Entry>)
    ensures DistinctBy(Firsts(es), EntryKey)
    ensures KeysOf(Firsts(es)) == KeysOf(es)
    ensures Elements(Firsts(es)) <= Elements(es)
  {
    if es != [] {
      var p, e := es[..|es| - 1], es[|es| - 1];
      FirstsCoverKeys(p);
      assert es == p + [e];
      KeysOfAppend(p, e);
      KeysOfAppend(Firsts(p), e);
      if e.Key() !in KeysOf(p) {
        DistinctAppend(Firsts(p), e);
      }
    }
  }

  lemma DistinctAppend(fs: seq<Entry>, e: Entry)
    requires DistinctBy(fs, EntryKey) && e.Key() !in KeysOf(fs)
    ensures DistinctBy(fs + [e], EntryKey)
    ensures Elements(fs + [e]) == Elements(fs) + {e}
  {}

  ghost predicate LosesTo(es: seq<Entry>, i: nat, c: Conflict)
    requires i < |es|
  {
    var w := Winner(es[..i], es[i].Key());
    && es[i].service.preferredPort != 0 && w.Some? && w.value.service.preferredPort != es[i].service.preferredPort
    && c == Conflict(es[i].Key(), w.value.service.preferredPort, w.value.agent, es[i].service.preferredPort,
                     es[i].agent)
  }

  lemma LosesEarlier(es: seq<Entry>, i: nat, c: Conflict)
    requires i + 1 < |es|
    ensures LosesTo(es, i, c) == LosesTo(es[..|es| - 1], i, c)
  {
    assert es[..i] == es[..|es| - 1][..i];
  }

  /** Conflicts are exactly the later differing preferences. */
  lemma {:induction false} ClashesAreLosers(es: seq<Entry>, c: Conflict)
    ensures c in Clashes(es) <==> exists i :: 0 <= i < |es| && LosesTo(es, i, c)
  {
    if es != [] {
      var n := |es| - 1;
      var p := es[..n];
      ClashesAreLosers(p, c);
      forall i | 0 <= i < n ensures LosesTo(es, i, c) == LosesTo(p, i, c) {
        LosesEarlier(es, i, c);
      }
      if c in Clashes(es) {
        if c in Clashes(p) {
          var i :| 0 <= i < n && LosesTo(p, i, c);
          assert LosesTo(es, i, c);
        } else {
          assert LosesTo(es, n, c);
        }
      }
      if i :| 0 <= i < |es| && LosesTo(es, i, c) {
        if i < n {
          assert LosesTo(p, i, c);
        } else {
          assert c in Clashes(es);
        }
      }
    }
  }

  /** The order the agents are listed in never matters. */
  lemma ListingOrderIrrelevant(agents: seq<Agent>, shuffled: seq<Agent>)
    requires multiset(agents) == multiset(shuffled)
    requires DistinctBy(agents, AgentName) && DistinctBy(shuffled, AgentName)
    ensures Union(Visited(agents)) == Union(Visited(shuffled))
    ensures Clashes(Visited(agents)) == Clashes(Visited(shuffled))
  {
    SortByForgetsOrder(agents, shuffled, AgentName);
  }

  // ---- the accumulator desiredPorts fills ----

  function KeySeq(fs: seq<Entry>): seq<string> {
    seq(|fs|, i requires 0 <= i < |fs| => fs[i].Key())
  }

  /** The stored entry of a key: its name and protocol, and the preference that has won so far. */
  ghost predicate Summarises(d: DesiredPort, es: seq<Entry>, key: string) {
    var w := Winner(es, key);
    && d.Key() == key
    && d.preferred == (if w.Some? then w.value.service.preferredPort else 0)
    && d.preferredBy == (if w.Some? then w.value.agent else "")
  }

  ghost predicate WinnerIsPreference(es: seq<Entry>, key: string) {
    Winner(es, key).Some? ==> Winner(es, key).value.service.preferredPort != 0
  }

  lemma {:induction false} WinnerPrefers(es: seq<Entry>, key: string)
    ensures WinnerIsPreference(es, key)
  {
    if es != [] {
      WinnerPrefers(es[..|es| - 1], key);
    }
  }

  lemma {:induction false} NoWinnerUnseen(es: seq<Entry>, key: string)
    requires key !in KeysOf(es)
    ensures Winner(es, key).None?
  {
    if es != [] {
      var p, e := es[..|es| - 1], es[|es| - 1];
      assert es == p + [e];
      KeysOfAppend(p, e);
      NoWinnerUnseen(p, key);
    }
  }

  lemma SummaryIsPort(d: DesiredPort, es: seq<Entry>, f: Entry)
    requires Summarises(d, es, f.Key())
    ensures d == PortOf(es, f)
  {
    AllocKeyInjective(d.protocol, d.name, f.protocol, f.service.name);
  }

  /** What the loop has accumulated. */
  datatype Acc = Acc(byKey: map<string, DesiredPort>, order: seq<string>, conflicts: seq<Conflict>)

  function Include(acc: Acc, e: Entry): Acc {
    var key := e.Key();
    var asked := e.service.preferredPort;
    if key !in acc.byKey then
      var d := DesiredPort(e.service.name, e.protocol, asked, if asked != 0 then e.agent else "");
      acc.(byKey := acc.byKey[key := d], order := acc.order + [key])
    else
      var cur := acc.byKey[key];
      if asked == 0 || asked == cur.preferred then acc
      else if cur.preferred == 0 then acc.(byKey := acc.byKey[key := cur.(preferred := asked, preferredBy := e.agent)])
      else acc.(conflicts := acc.conflicts + [Conflict(key, cur.preferred, cur.preferredBy, asked, e.agent)])
  }

  function IncludeAll(es: seq<Entry>): Acc {
    if es == [] then Acc(map[], [], [])
    else Include(IncludeAll(es[..|es| - 1]), es[|es| - 1])
  }

  /** The accumulator says of every key what the declarations say. */
  ghost predicate Represents(acc: Acc, es: seq<Entry>) {
    && acc.order == KeySeq(Firsts(es))
    && acc.byKey.Keys == KeysOf(es)
    && (forall k :: k in acc.byKey ==> Summarises(acc.byKey[k], es, k))
    && acc.conflicts == Clashes(es)
  }

  lemma IncludeSummarises(acc: Acc, es: seq<Entry>, e: Entry, k: string)
    requires k in acc.byKey ==> Summarises(acc.byKey[k], es, k) && WinnerIsPreference(es, k)
    requires k !in acc.byKey ==> Winner(es, k).None?
    requires k in Include(acc, e).byKey
    ensures Summarises(Include(acc, e).byKey[k], es + [e], k)
  {}

  lemma IncludeClashes(acc: Acc, es: seq<Entry>, e: Entry)
    requires Represents(acc, es)
    ensures Include(acc, e).conflicts == Clashes(es + [e])
  {
    assert (es + [e])[..|es|] == es;
    var k := e.Key();
    if k in acc.byKey {
      assert Summarises(acc.byKey[k], es, k);
      WinnerPrefers(es, k);
    } else {
      NoWinnerUnseen(es, k);
    }
  }

  lemma IncludeOrder(acc: Acc, es: seq<Entry>, e: Entry)
    requires acc.order == KeySeq(Firsts(es)) && acc.byKey.Keys == KeysOf(es)
    ensures Include(acc, e).order == KeySeq(Firsts(es + [e]))
  {
    FirstsAppend(es, e);
    if e.Key() in KeysOf(es) {
      assert Include(acc, e).order == acc.order;
    } else {
      KeySeqAppend(Firsts(es), e);
    }
  }

  lemma IncludeKeys(acc: Acc, es: seq<Entry>, e: Entry)
    requires acc.byKey.Keys == KeysOf(es)
    ensures Include(acc, e).byKey.Keys == KeysOf(es + [e])
  {}

  lemma KeySeqAppend(fs: seq<Entry>, e: Entry)
    ensures KeySeq(fs + [e]) == KeySeq(fs) + [e.Key()]
  {}

  lemma FirstsAppend(es: seq<Entry>, e: Entry)
    ensures Firsts(es + [e]) == if e.Key() in KeysOf(es) then Firsts(es) else Firsts(es) + [e]
  {}

  lemma IncludeRepresents(acc: Acc, es: seq<Entry>, e: Entry)
    requires Represents(acc, es)
    ensures Represents(Include(acc, e), es + [e])
  {
    IncludeOrder(acc, es, e);
    IncludeKeys(acc, es, e);
    IncludeClashes(acc, es, e);
    var acc' := Include(acc, e);
    forall k | k in acc'.byKey ensures Summarises(acc'.byKey[k], es + [e], k) {
      if k in acc.byKey {
        assert Summarises(acc.byKey[k], es, k);
        WinnerPrefers(es, k);
      } else {
        NoWinnerUnseen(es, k);
      }
      IncludeSummarises(acc, es, e, k);
    }
  }

  lemma {:induction false} AccumulatorRepresents(es: seq<Entry>)
    ensures Represents(IncludeAll(es), es)
  {
    if es != [] {
      var p, e := es[..|es| - 1], es[|es| - 1];
      AccumulatorRepresents(p);
      IncludeRepresents(IncludeAll(p), p, e);
      assert es == p + [e];
    }
  }

  class PortUnion {
    var byKey: map<string, DesiredPort>
    var order: seq<string>
    var conflicts: seq<Conflict>
    ghost var seen: seq<Entry>

    ghost predicate Valid()
      reads this
    {
      Acc(byKey, order, conflicts) == IncludeAll(seen)
    }

    constructor ()
      ensures Valid() && seen == []
    {
      byKey, order, conflicts, seen := map[], [], [], [];
    }

    method Add(protocol: Protocol, e: L4Service, agent: string)
      requires Valid()
      modifies this
      ensures Valid() && seen == old(seen) + [Entry(protocol, e, agent)]
    {
      var key := AllocKey(protocol, e.name);
      ghost var entry := Entry(protocol, e, agent);
      assert (seen + [entry])[..|seen|] == seen;
      if key !in byKey {
        var winner := if e.preferredPort != 0 then agent else "";
        byKey := byKey[key := DesiredPort(e.name, protocol, e.preferredPort, winner)];
        order := order + [key];
      } else {
        var cur := byKey[key];
        if e.preferredPort == 0 || e.preferredPort == cur.preferred {
        } else if cur.preferred == 0 {
          byKey := byKey[key := cur.(preferred := e.preferredPort, preferredBy := agent)];
        } else {
          conflicts := conflicts + [Conflict(key, cur.preferred, cur.preferredBy, e.preferredPort, agent)];
        }
      }
      seen := seen + [entry];
    }
  }

  /** One agent's services of one protocol. */
  method AddServices(union: PortUnion, protocol: Protocol, services: seq<L4Service>, name: string)
    requires union.Valid()
    modifies union
    ensures union.Valid() && union.seen == old(union.seen) + Declared(protocol, services, name)
  {
    ghost var base, es := union.seen, Declared(protocol, services, name);
    for j := 0 to |services|
      invariant union.Valid() && union.seen == base + es[..j]
    {
      union.Add(protocol, services[j], name);
      assert es[..j + 1] == es[..j] + [es[j]];
    }
    assert es[..|services|] == es;
  }

  lemma EntriesOfNext(agents: seq<Agent>, i: nat)
    requires i < |agents|
    ensures var a := agents[i];
      Entries(agents[..i + 1]) ==
        Entries(agents[..i]) + Declared(TCP, a.tcp, AgentName(a)) + Declared(UDP, a.udp, AgentName(a))
  {
    assert agents[..i + 1][..i] == agents[..i];
  }

  /** The main loop, over the agents in ns/name order. */
  method Accumulate(sorted: seq<Agent>) returns (union: PortUnion)
    ensures fresh(union) && union.Valid() && union.seen == Entries(sorted)
  {
    union := new PortUnion();
    for i := 0 to |sorted|
      invariant fresh(union) && union.Valid() && union.seen == Entries(sorted[..i])
    {
      EntriesOfNext(sorted, i);
      var name := AgentName(sorted[i]);
      AddServices(union, TCP, sorted[i].tcp, name);
      AddServices(union, UDP, sorted[i].udp, name);
    }
    assert sorted[..|sorted|] == sorted;
  }

  /** desiredPorts. */
  method DesiredPorts(agents: seq<Agent>) returns (out: seq<DesiredPort>, conflicts: seq<Conflict>)
    ensures out == Union(Visited(agents))
    ensures conflicts == Clashes(Visited(agents))
  {
    var union := Accumulate(SortBy(agents, AgentName));
    AccumulatorRepresents(union.seen);
    FirstsCoverKeys(union.seen);
    out := InOrder(union.byKey, union.order, union.seen);
    conflicts := union.conflicts;
  }

  /** The final loop: the accumulated ports in order of first declaration. */
  method InOrder(byKey: map<string, DesiredPort>, order: seq<string>, ghost es: seq<Entry>)
    returns (out: seq<DesiredPort>)
    requires order == KeySeq(Firsts(es)) && byKey.Keys == KeysOf(Firsts(es))
    requires forall k :: k in byKey ==> Summarises(byKey[k], es, k)
    ensures out == Union(es)
  {
    ghost var fs := Firsts(es);
    out := [];
    for i := 0 to |order|
      invariant |out| == i
      invariant forall k :: 0 <= k < i ==> out[k] == PortOf(es, fs[k])
    {
      assert fs[i].Key() in KeysOf(fs);
      SummaryIsPort(byKey[order[i]], es, fs[i]);
      out := out + [byKey[order[i]]];
    }
  }
}
