/** renderConfig, the Deployment it leads to, and when that Deployment is written. */
module AgentDeploy {
  import opened Text
  import opened Conventions
  import opened Environment
  import opened Api
  import opened PortDemand
  import opened PortProtocol
  import opened TunnelPorts
  import opened AgentRender
  import opened AgentHash
  import opened AgentMeaning

  // ---- routing ----

  function HTTPSEntries(services: seq<Service>): seq<HTTPSEntry> {
    seq(|services|, i requires 0 <= i < |services| =>
      var s := services[i];
      HTTPSEntry(s.hostname, s.origin, if s.edgeTLSMode != "" then Some(s.edgeTLSMode) else None, s.proxyProtocol))
  }

  /** The services that have a port, in order. */
  function AllocatedL4(entries: seq<L4Service>, protocol: Protocol, ports: map<string, int>): seq<L4Entry> {
    if entries == [] then []
    else
      var p, e := AllocatedL4(entries[..|entries| - 1], protocol, ports), entries[|entries| - 1];
      var key := AllocKey(protocol, e.name);
      if key in ports then p + [L4Entry(e.name, ports[key], e.origin)] else p
  }

  /** The keys still waiting for one, in order. */
  function PendingL4(entries: seq<L4Service>, protocol: Protocol, ports: map<string, int>): seq<string> {
    if entries == [] then []
    else
      var p := PendingL4(entries[..|entries| - 1], protocol, ports);
      var key := AllocKey(protocol, entries[|entries| - 1].name);
      if key in ports then p else p + [key]
  }

  function L4Text(enc: Encoders, out: seq<L4Entry>): string {
    if out == [] then "" else enc.l4(out)
  }

  /** marshalL4. */
  method MarshalL4(enc: Encoders, entries: seq<L4Service>, protocol: Protocol, ports: map<string, int>,
                   pending: seq<string>)
    returns (json: string, pending': seq<string>)
    ensures json == L4Text(enc, AllocatedL4(entries, protocol, ports))
    ensures pending' == pending + PendingL4(entries, protocol, ports)
  {
    var out := [];
    pending' := pending;
    for i := 0 to |entries|
      invariant out == AllocatedL4(entries[..i], protocol, ports)
      invariant pending' == pending + PendingL4(entries[..i], protocol, ports)
    {
      assert entries[..i + 1][..i] == entries[..i];
      var key := AllocKey(protocol, entries[i].name);
      if key !in ports {
        pending' := pending' + [key];
        continue;
      }
      out := out + [L4Entry(entries[i].name, ports[key], entries[i].origin)];
    }
    assert entries[..|entries|] == entries;
    json := if out == [] then "" else enc.l4(out);
  }

  function PortMap(allocations: seq<PortAllocation>): map<string, int> {
    map k | k in Observed(allocations) :: Observed(allocations)[k].listenPort
  }

  function ConnEnvText(enc: Encoders, env: seq<EnvVar>): string {
    if env == [] then "" else enc.env(env)
  }

  /** The config of an agent, its routing text given. */
  function Assembled(a: AgentSpec, inviteID: string, enc: Encoders, servicesJSON: string, tcpJSON: string,
                     udpJSON: string, pending: seq<string>): Config {
    var p := PlanConnectivity(a);
    var conn := ConnectivityEnv(a, p);
    Config(
      a.workload.disableUDPGSO, servicesJSON, tcpJSON, udpJSON, a.relayURL, inviteID,
      if a.workload.image != "" then a.workload.image else DEFAULT_AGENT_IMAGE,
      pending, a.Name(), p.irohPort, conn, ConnEnvText(enc, conn), [], "", [])
  }

  /** The config renderConfig produces. */
  function Rendered(a: AgentSpec, allocations: seq<PortAllocation>, inviteID: string, enc: Encoders): Config {
    var ports := PortMap(allocations);
    Assembled(a, inviteID, enc,
              HTTPSText(enc, a.routing.services),
              L4Text(enc, AllocatedL4(a.routing.tcp, TCP, ports)),
              L4Text(enc, AllocatedL4(a.routing.udp, UDP, ports)),
              PendingL4(a.routing.tcp, TCP, ports) + PendingL4(a.routing.udp, UDP, ports))
  }

  function HTTPSText(enc: Encoders, services: seq<Service>): string {
    if services == [] then "" else enc.https(HTTPSEntries(services))
  }

  method MarshalHTTPS(enc: Encoders, services: seq<Service>) returns (json: string)
    ensures json == HTTPSText(enc, services)
  {
    if services == [] {
      return "";
    }
    var svcs := [];
    for i := 0 to |services|
      invariant svcs == HTTPSEntries(services)[..i]
    {
      var s := services[i];
      var mode := if s.edgeTLSMode != "" then Some(s.edgeTLSMode) else None;
      svcs := svcs + [HTTPSEntry(s.hostname, s.origin, mode, s.proxyProtocol)];
    }
    assert svcs == HTTPSEntries(services);
    json := enc.https(svcs);
  }

  method PortsByKey(allocations: seq<PortAllocation>) returns (ports: map<string, int>)
    ensures ports == PortMap(allocations)
  {
    ports := map[];
    for i := 0 to |allocations|
      invariant ports == PortMap(allocations[..i])
    {
      assert allocations[..i + 1][..i] == allocations[..i];
      ports := ports[allocations[i].Key() := allocations[i].listenPort];
    }
    assert allocations[..|allocations|] == allocations;
  }

  // ---- what is rendered is what spec and status say ----

  lemma {:induction false} PortMapRecords(allocations: seq<PortAllocation>, protocol: Protocol, name: string)
    ensures AllocKey(protocol, name) in PortMap(allocations) <==> HasPort(allocations, protocol, name)
    ensures AllocKey(protocol, name) in PortMap(allocations) ==>
              LastRecorded(allocations, protocol, name, PortMap(allocations)[AllocKey(protocol, name)])
  {
    if allocations != [] {
      var p, x := allocations[..|allocations| - 1], allocations[|allocations| - 1];
      PortMapRecords(p, protocol, name);
      AllocKeyInjective(x.protocol, x.name, protocol, name);
      assert allocations == p + [x] && PortMap(allocations) == PortMap(p)[x.Key() := x.listenPort];
      if x.protocol == protocol && x.name == name {
        assert allocations[|p| + 1..] == [];
      } else if HasPort(p, protocol, name) {
        RecordedStill(p, x, protocol, name, PortMap(p)[AllocKey(protocol, name)]);
      }
    }
  }

  lemma RecordedStill(p: seq<PortAllocation>, x: PortAllocation, protocol: Protocol, name: string, port: int)
    requires LastRecorded(p, protocol, name, port) && !(x.protocol == protocol && x.name == name)
    ensures LastRecorded(p + [x], protocol, name, port)
  {
    var j :| 0 <= j < |p| && p[j].protocol == protocol && p[j].name == name && p[j].listenPort == port
             && !HasPort(p[j + 1..], protocol, name);
    assert (p + [x])[j + 1..] == p[j + 1..] + [x] && (p + [x])[j] == p[j];
  }

  lemma PlacesMore(at: seq<nat>, p: seq<L4Service>, e: L4Service, protocol: Protocol, allocations: seq<PortAllocation>,
                   having: bool)
    requires Places(at, p, protocol, allocations, having)
    ensures Places(if HasPort(allocations, protocol, e.name) <==> having then at + [|p|] else at, p + [e], protocol,
                   allocations, having)
  {
    forall k | 0 <= k < |at| ensures at[k] < |p| {
      assert at[k] in at;
    }
  }

  lemma ServesMore(out: seq<L4Entry>, at: seq<nat>, p: seq<L4Service>, e: L4Service, protocol: Protocol,
                   allocations: seq<PortAllocation>, port: int)
    requires ServesThose(out, p, at, protocol, allocations)
    ensures ServesThose(out, p + [e], at, protocol, allocations)
    ensures LastRecorded(allocations, protocol, e.name, port) ==>
              ServesThose(out + [L4Entry(e.name, port, e.origin)], p + [e], at + [|p|], protocol, allocations)
  {
    hide LastRecorded;
  }

  lemma NamesMore(pending: seq<string>, at: seq<nat>, p: seq<L4Service>, e: L4Service, protocol: Protocol)
    requires NamesThose(pending, p, at, protocol)
    ensures NamesThose(pending, p + [e], at, protocol)
    ensures NamesThose(pending + [AllocKey(protocol, e.name)], p + [e], at + [|p|], protocol)
  {
    assert AllocKey(protocol, e.name) == (match protocol case TCP => "tcp/" case UDP => "udp/") + e.name;
    hide AllocKey;
  }

  /** Of these places, one list is rendered and the other still waits. */
  ghost predicate Split(entries: seq<L4Service>, protocol: Protocol, allocations: seq<PortAllocation>, at: seq<nat>,
                        still: seq<nat>) {
    && Places(at, entries, protocol, allocations, true) && Places(still, entries, protocol, allocations, false)
    && ServesThose(AllocatedL4(entries, protocol, PortMap(allocations)), entries, at, protocol, allocations)
    && NamesThose(PendingL4(entries, protocol, PortMap(allocations)), entries, still, protocol)
  }

  lemma SplitNone(entries: seq<L4Service>, protocol: Protocol, allocations: seq<PortAllocation>)
    requires entries == []
    ensures Split(entries, protocol, allocations, [], [])
  {
    hide PortMap, HasPort;
  }

  lemma SplitMore(p: seq<L4Service>, e: L4Service, protocol: Protocol, allocations: seq<PortAllocation>, at: seq<nat>,
                  still: seq<nat>)
    requires Split(p, protocol, allocations, at, still)
    ensures if HasPort(allocations, protocol, e.name) then Split(p + [e], protocol, allocations, at + [|p|], still)
            else Split(p + [e], protocol, allocations, at, still + [|p|])
  {
    PortMapRecords(allocations, protocol, e.name);
    PlacesMore(at, p, e, protocol, allocations, true);
    PlacesMore(still, p, e, protocol, allocations, false);
    var ports, key := PortMap(allocations), AllocKey(protocol, e.name);
    var port := if key in ports then ports[key] else 0;
    ServesMore(AllocatedL4(p, protocol, ports), at, p, e, protocol, allocations, port);
    NamesMore(PendingL4(p, protocol, ports), still, p, e, protocol);
    hide PortMap, HasPort, LastRecorded, Places, ServesThose, NamesThose, AllocKey;
    assert (p + [e])[..|p + [e]| - 1] == p;
  }

  lemma {:induction false} RoutingSplits(entries: seq<L4Service>, protocol: Protocol, allocations: seq<PortAllocation>)
    returns (at: seq<nat>, still: seq<nat>)
    ensures Split(entries, protocol, allocations, at, still)
  {
    hide Split, HasPort;
    at, still := [], [];
    if entries == [] {
      SplitNone(entries, protocol, allocations);
    } else {
      var p, e := entries[..|entries| - 1], entries[|entries| - 1];
      at, still := RoutingSplits(p, protocol, allocations);
      SplitMore(p, e, protocol, allocations, at, still);
      assert entries == p + [e];
      if HasPort(allocations, protocol, e.name) {
        at := at + [|p|];
      } else {
        still := still + [|p|];
      }
    }
  }

  lemma L4TextTells(enc: Encoders, entries: seq<L4Service>, protocol: Protocol, allocations: seq<PortAllocation>)
    ensures TellsL4(L4Text(enc, AllocatedL4(entries, protocol, PortMap(allocations))), entries, protocol, allocations,
                    enc)
    ensures Unserved(PendingL4(entries, protocol, PortMap(allocations)), entries, protocol, allocations)
  {
    hide HasPort, LastRecorded, AllocatedL4, PendingL4, PortMap, NamesThose, Places;
    var at, still := RoutingSplits(entries, protocol, allocations);
    PlacedIff(at, entries, protocol, allocations);
    var out := AllocatedL4(entries, protocol, PortMap(allocations));
    assert |out| == |at|;
    hide ServesThose;
    assert ServesAll(out, entries, protocol, allocations);
    hide ServesAll;
  }

  lemma PlacedIff(at: seq<nat>, entries: seq<L4Service>, protocol: Protocol, allocations: seq<PortAllocation>)
    requires Places(at, entries, protocol, allocations, true)
    ensures at == [] <==> forall e :: e in entries ==> !HasPort(allocations, protocol, e.name)
  {
    if e :| e in entries && HasPort(allocations, protocol, e.name) {
      var i :| 0 <= i < |entries| && entries[i] == e;
      assert i in at;
    } else {
      NonePlaced(at, entries, protocol, allocations);
    }
  }

  lemma NonePlaced(at: seq<nat>, entries: seq<L4Service>, protocol: Protocol, allocations: seq<PortAllocation>)
    requires Places(at, entries, protocol, allocations, true)
    requires forall e :: e in entries ==> !HasPort(allocations, protocol, e.name)
    ensures at == []
  {
    hide HasPort;
    forall i ensures i !in at {
      if 0 <= i < |entries| {
        assert entries[i] in entries;
      }
    }
    HasMembers(at);
  }

  lemma HasMembers(at: seq<nat>)
    ensures at == [] || exists i :: i in at
  {
    if at != [] {
      assert at[0] in at;
    }
  }

  lemma HTTPSTextTells(enc: Encoders, services: seq<Service>)
    ensures TellsHTTPS(HTTPSText(enc, services), services, enc)
  {
    assert Lists(HTTPSEntries(services), services);
  }

  lemma RenderedFits(a: AgentSpec, allocations: seq<PortAllocation>, inviteID: string, enc: Encoders)
    ensures ConfigFits(Rendered(a, allocations, inviteID, enc), a, allocations, inviteID, enc)
  {
    hide HTTPSText, L4Text, AllocatedL4, PendingL4, PortMap, TellsL4, TellsHTTPS, Unserved, Connects, Ordered;
    HTTPSTextTells(enc, a.routing.services);
    L4TextTells(enc, a.routing.tcp, TCP, allocations);
    L4TextTells(enc, a.routing.udp, UDP, allocations);
    ConnectivityEnvConnects(a);
    ConnectivityEnvOrdered(a, PlanConnectivity(a));
    ConnectivityNamed(a, PlanConnectivity(a));
    hide ConnectivityEnv, IsOurs;
  }

  /** renderConfig. */
  method RenderConfig(a: AgentSpec, allocations: seq<PortAllocation>, inviteID: string, enc: Encoders)
    returns (cfg: Config)
    ensures cfg == Rendered(a, allocations, inviteID, enc)
    ensures ConfigFits(cfg, a, allocations, inviteID, enc)
  {
    hide ConfigFits;
    RenderedFits(a, allocations, inviteID, enc);
    var servicesJSON := MarshalHTTPS(enc, a.routing.services);
    var ports := PortsByKey(allocations);
    var tcpJSON, pending := MarshalL4(enc, a.routing.tcp, TCP, ports, []);
    var udpJSON;
    udpJSON, pending := MarshalL4(enc, a.routing.udp, UDP, ports, pending);
    cfg := Assembled(a, inviteID, enc, servicesJSON, tcpJSON, udpJSON, pending);
  }

  // ---- both controllers agree ----

  lemma AllEntriesVisited(agents: seq<Agent>, a: Agent, protocol: Protocol, e: L4Service)
    requires a in agents && e in (if protocol == TCP then a.tcp else a.udp)
    ensures AllocKey(protocol, e.name) in DeclaredKeys(agents)
  {
    var sorted := SortBy(agents, AgentName);
    SortByContents(agents, AgentName);
    assert a in Elements(sorted);
    var es := if protocol == TCP then a.tcp else a.udp;
    var k :| 0 <= k < |es| && es[k] == e;
    var entry := Entry(protocol, e, AgentName(a));
    assert Declared(protocol, es, AgentName(a))[k] == entry;
    assert entry in AgentEntries(a);
    EntriesInclude(sorted, a, entry);
    assert entry.Key() in KeysOf(Visited(agents));
  }

  lemma {:induction false} EntriesInclude(agents: seq<Agent>, a: Agent, entry: Entry)
    requires a in agents && entry in AgentEntries(a)
    ensures entry in Entries(agents)
  {
    var p, x := agents[..|agents| - 1], agents[|agents| - 1];
    assert agents == p + [x];
    if x != a {
      EntriesInclude(p, a, entry);
    }
  }

  /** The declared services, each once and in order, each at the port of its key. */
  ghost predicate AllAtTheirPort(out: seq<L4Entry>, entries: seq<L4Service>, protocol: Protocol,
                                 ports: map<string, int>) {
    && |out| == |entries|
    && forall i :: 0 <= i < |entries| ==>
         var key := AllocKey(protocol, entries[i].name);
         key in ports && out[i] == L4Entry(entries[i].name, ports[key], entries[i].origin)
  }

  /** When every key has a port, nothing is pending and every service appears once, in order, at its port. */
  lemma {:induction false} FullyAllocated(entries: seq<L4Service>, protocol: Protocol, ports: map<string, int>)
    requires forall e :: e in entries ==> AllocKey(protocol, e.name) in ports
    ensures PendingL4(entries, protocol, ports) == []
    ensures AllAtTheirPort(AllocatedL4(entries, protocol, ports), entries, protocol, ports)
  {
    if entries != [] {
      var p, e := entries[..|entries| - 1], entries[|entries| - 1];
      assert entries == p + [e];
      FullyAllocated(p, protocol, ports);
    }
  }

  /** With unique keys, the rendered port of a key is that of its one allocation. */
  lemma PortOfAllocation(status: seq<PortAllocation>, pa: PortAllocation)
    requires StrictlySortedBy(status, AllocationKey) && pa in status
    ensures pa.Key() in PortMap(status) && PortMap(status)[pa.Key()] == pa.listenPort
  {
    ObservedMeans(status);
    forall i, j | 0 <= i < j < |status| ensures AllocationKey(status[i]) != AllocationKey(status[j]) {
      LessIrreflexive(AllocationKey(status[i]));
    }
  }

  /**
   * After a convergePorts that succeeded, whichever of its agents declares a (protocol, name)
   * renders the one port status records for it.
   */
  lemma ControllersAgree(before: seq<PortAllocation>, status: seq<PortAllocation>, agents: seq<Agent>, a: Agent,
                         protocol: Protocol, e: L4Service)
    requires PassStatus(before, status, DeclaredKeys(agents), true)
    requires a in agents && e in (if protocol == TCP then a.tcp else a.udp)
    ensures AllocKey(protocol, e.name) in PortMap(status)
    ensures exists pa :: pa in status && pa.protocol == protocol && pa.name == e.name
                         && pa.listenPort == PortMap(status)[AllocKey(protocol, e.name)]
  {
    AllEntriesVisited(agents, a, protocol, e);
    var pa :| pa in status && pa.Key() == AllocKey(protocol, e.name);
    AllocKeyInjective(pa.protocol, pa.name, protocol, e.name);
    PortOfAllocation(status, pa);
  }

  /** And none of its agents is left with anything pending: every declared service is rendered, once, in order. */
  lemma NothingPending(before: seq<PortAllocation>, status: seq<PortAllocation>, agents: seq<Agent>, a: AgentSpec,
                       inviteID: string, enc: Encoders)
    requires PassStatus(before, status, DeclaredKeys(agents), true) && a.routing in agents
    ensures Rendered(a, status, inviteID, enc).pending == []
    ensures AllAtTheirPort(AllocatedL4(a.routing.tcp, TCP, PortMap(status)), a.routing.tcp, TCP, PortMap(status))
    ensures AllAtTheirPort(AllocatedL4(a.routing.udp, UDP, PortMap(status)), a.routing.udp, UDP, PortMap(status))
  {
    forall e | e in a.routing.tcp ensures AllocKey(TCP, e.name) in PortMap(status) {
      ControllersAgree(before, status, agents, a.routing, TCP, e);
    }
    forall e | e in a.routing.udp ensures AllocKey(UDP, e.name) in PortMap(status) {
      ControllersAgree(before, status, agents, a.routing, UDP, e);
    }
    FullyAllocated(a.routing.tcp, TCP, PortMap(status));
    FullyAllocated(a.routing.udp, UDP, PortMap(status));
  }

  // ---- the Deployment ----

  datatype ContainerPort = ContainerPort(name: string, port: int, protocol: Protocol)

  datatype Container = Container(name: string, image: string, security: string, env: seq<EnvVar>,
                                 ports: seq<ContainerPort>, resources: Resources, livenessPath: string,
                                 readinessPath: string)

  datatype PodSpec = PodSpec(serviceAccount: string, security: string, nodeSelector: map<string, string>,
                             tolerations: seq<string>, affinity: Option<string>, containers: seq<Container>)

  datatype PodTemplate = PodTemplate(labels: map<string, string>, annotations: map<string, string>, spec: PodSpec)

  datatype Deployment = Deployment(key: ObjectKey, labels: map<string, string>, replicas: int,
                                   selector: map<string, string>, template: PodTemplate)

  const ANNOTATION_CONFIG_HASH := "towonel.io/config-hash"
  const AGENT_APP_NAME := "towonel-agent"
  const LABEL_APP_NAME := "app.kubernetes.io/name"
  const LABEL_APP_INSTANCE := "app.kubernetes.io/instance"
  const LABEL_PART_OF := "app.kubernetes.io/part-of"

  function AgentLabels(a: AgentSpec): map<string, string> {
    map[LABEL_APP_NAME := AGENT_APP_NAME][LABEL_APP_INSTANCE := a.Name()][LABEL_PART_OF := "towonel-operator"]
  }

  function AgentSelector(a: AgentSpec): map<string, string> {
    map[LABEL_APP_NAME := AGENT_APP_NAME][LABEL_APP_INSTANCE := a.Name()]
  }

  /** agentContainerPorts. */
  function AgentContainerPorts(irohPort: int): seq<ContainerPort> {
    var ports := [ContainerPort("metrics", AGENT_HEALTH_PORT, TCP)];
    if irohPort != 0 then ports + [ContainerPort("iroh", irohPort, UDP)] else ports
  }

  /** The memory floor and ceiling, where none is set. */
  function WithMemory(r: Resources): Resources {
    Resources(if "memory" in r.requests then r.requests else r.requests["memory" := "128Mi"],
              if "memory" in r.limits then r.limits else r.limits["memory" := "512Mi"])
  }

  /** The default security contexts, opaque. */
  datatype Defaults = Defaults(podSecurity: string, containerSecurity: string)

  /** buildDeployment; the hash annotation is filled in from the given sum. */
  function BuildDeployment(a: AgentSpec, cfg: Config, sum: string, defaults: Defaults): Deployment {
    var w := a.workload;
    var container := Container(
      AGENT_APP_NAME, cfg.image,
      if w.containerSecurity.Some? then w.containerSecurity.value else defaults.containerSecurity,
      AgentEnv(a.Name(), cfg), AgentContainerPorts(cfg.irohPort), WithMemory(w.resources), "/healthz", "/readyz");
    var pod := PodSpec(
      cfg.saName, if w.podSecurity.Some? then w.podSecurity.value else defaults.podSecurity,
      w.nodeSelector, w.tolerations, w.affinity, [container]);
    Deployment(a.Key(), AgentLabels(a), if w.replicas.Some? then w.replicas.value else 1, AgentSelector(a),
               PodTemplate(AgentLabels(a), map[ANNOTATION_CONFIG_HASH := sum], pod))
  }

  /** What was asked for, and memory besides if none was. */
  ghost predicate Bounded(r: map<string, string>, asked: map<string, string>, memory: string) {
    && (forall k :: k in asked ==> k in r && r[k] == asked[k])
    && (forall k :: k in r && k !in asked ==> k == "memory" && r[k] == memory)
    && "memory" in r
  }

  /** The one container, its environment apart. */
  ghost predicate ContainerFits(box: Container, a: AgentSpec, defaults: Defaults) {
    var w, port := a.workload, a.connectivity.irohPort;
    && box.name == "towonel-agent" && box.livenessPath == "/healthz" && box.readinessPath == "/readyz"
    && box.image == (if w.image == "" then "codeberg.org/towonel/towonel-agent:1.13.4" else w.image)
    && Some(box.security) ==
         (if w.containerSecurity.None? then Some(defaults.containerSecurity) else w.containerSecurity)
    && Bounded(box.resources.requests, w.resources.requests, "128Mi")
    && Bounded(box.resources.limits, w.resources.limits, "512Mi")
    && (forall p :: p in box.ports <==>
          p == ContainerPort("metrics", 9090, TCP) || (port != 0 && p == ContainerPort("iroh", port, UDP)))
    && |box.ports| == if port == 0 then 1 else 2
  }

  /** The Deployment an agent asks for, the container's environment and the hash apart. */
  ghost predicate AsDeclared(d: Deployment, a: AgentSpec, defaults: Defaults) {
    var w, pod, key := a.workload, d.template.spec, a.routing.key;
    var selector := map["app.kubernetes.io/name" := "towonel-agent", "app.kubernetes.io/instance" := key.name];
    && d.key == key && d.selector == selector
    && d.labels == d.template.labels == selector["app.kubernetes.io/part-of" := "towonel-operator"]
    && Some(d.replicas) == (if w.replicas.None? then Some(1) else w.replicas)
    && pod.serviceAccount == key.name && pod.nodeSelector == w.nodeSelector && pod.tolerations == w.tolerations
    && pod.affinity == w.affinity
    && Some(pod.security) == (if w.podSecurity.None? then Some(defaults.podSecurity) else w.podSecurity)
    && |pod.containers| == 1 && ContainerFits(pod.containers[0], a, defaults)
  }

  lemma BuiltAsDeclared(a: AgentSpec, cfg: Config, sum: string, defaults: Defaults, allocations: seq<PortAllocation>,
                        inviteID: string, enc: Encoders)
    requires ConfigFits(cfg, a, allocations, inviteID, enc)
    ensures AsDeclared(BuildDeployment(a, cfg, sum, defaults), a, defaults)
  {
    hide Connects, TellsL4, TellsHTTPS, Unserved, Ordered, AgentEnv, IsOurs;
    assert LABEL_PART_OF != LABEL_APP_NAME && LABEL_PART_OF != LABEL_APP_INSTANCE;
  }

  function HashAnnotation(d: Deployment): string {
    if ANNOTATION_CONFIG_HASH in d.template.annotations then d.template.annotations[ANNOTATION_CONFIG_HASH] else ""
  }

  /** deploymentNeedsWrite. */
  predicate DeploymentNeedsWrite(current: Deployment, desired: Deployment)
    requires desired.template.spec.containers != []
  {
    var c, d := current.template.spec, desired.template.spec;
    || c.containers == []
    || HashAnnotation(current) != HashAnnotation(desired)
    || current.replicas != desired.replicas
    || c.containers[0].resources != d.containers[0].resources
    || c.nodeSelector != d.nodeSelector
    || c.tolerations != d.tolerations
    || c.affinity != d.affinity
    || c.security != d.security
    || c.containers[0].security != d.containers[0].security
  }

  // ---- why the fast test is enough ----

  /** The JSON encoder, on what the two configs encode: lists open with a bracket and can be read back. */
  ghost predicate Encodes(enc: Encoders, c: Config, d: Config) {
    && (forall env :: env in [c.connEnv, d.connEnv, c.extraEnv, d.extraEnv] ==>
          env != [] ==> enc.env(env) != "" && enc.env(env)[0] == '[')
    && (enc.env(c.connEnv) == enc.env(d.connEnv) ==> c.connEnv == d.connEnv)
    && (enc.env(c.extraEnv) == enc.env(d.extraEnv) ==> c.extraEnv == d.extraEnv)
  }

  /** A config as the reconciler builds it: rendered from the agent, then extended. */
  ghost predicate BuiltFrom(c: Config, a: AgentSpec, enc: Encoders) {
    && c.connEnv == ConnectivityEnv(a, PlanConnectivity(a)) && c.connEnvHash == ConnEnvText(enc, c.connEnv)
    && c.irohPort == a.connectivity.irohPort && c.saName == a.Name()
    && c.extraEnvHash == ConnEnvText(enc, c.extraEnv)
  }

  /** And every reconciled config is so built, with an environment in which no name occurs twice. */
  lemma ReconciledIsBuilt(a: AgentSpec, allocations: seq<PortAllocation>, inviteID: string, enc: Encoders,
                          extra: seq<EnvVar>)
    requires DistinctBy(extra, EnvName)
    ensures var r := Extended(Rendered(a, allocations, inviteID, enc), a.Name(), enc, extra);
      && BuiltFrom(r, a, enc)
      && DistinctBy(AgentEnv(a.Name(), r), EnvName)
      && forall e :: e in AgentEnv(a.Name(), r) && AgentRender.Names(OperatorEnv(a.Name(), r), e.name) ==>
           e in OperatorEnv(a.Name(), r)
  {
    ConnectivityEnvOrdered(a, PlanConnectivity(a));
    AgentEnvDistinct(a.Name(), Rendered(a, allocations, inviteID, enc), enc, extra);
  }

  /** The pinned port can be read off the connectivity environment. */
  lemma ConnectivityEnvFixesPort(a: AgentSpec, b: AgentSpec)
    requires ConnectivityEnv(a, PlanConnectivity(a)) == ConnectivityEnv(b, PlanConnectivity(b))
    ensures a.connectivity.irohPort == b.connectivity.irohPort
  {
    FirstIsPort(a);
    FirstIsPort(b);
    if a.connectivity.irohPort != 0 && b.connectivity.irohPort != 0 {
      ItoaInjective(a.connectivity.irohPort, b.connectivity.irohPort);
    }
  }

  lemma FirstIsPort(a: AgentSpec)
    ensures var env, port := ConnectivityEnv(a, PlanConnectivity(a)), a.connectivity.irohPort;
      if port != 0 then env != [] && env[0] == EnvVar(ENV_IROH, Literal(Itoa(port)))
      else env == [] || env[0].name != ENV_IROH
  {}

  /** For one agent, equal hash inputs mean equal rendered environments. */
  lemma SameHashSameConfig(a: AgentSpec, c: Config, b: AgentSpec, d: Config, enc: Encoders)
    requires BuiltFrom(c, a, enc) && BuiltFrom(d, b, enc) && Encodes(enc, c, d)
    requires AllNulFree(Fields(c)) && AllNulFree(Fields(d)) && HashInput(c) == HashInput(d)
    ensures SameHashed(c, d) && c.connEnv == d.connEnv && c.extraEnv == d.extraEnv && c.irohPort == d.irohPort
  {
    HashInputDecodes(c, d);
    assert MainFields(c)[7] == c.connEnvHash && MainFields(d)[7] == d.connEnvHash;
    ConnectivityEnvFixesPort(a, b);
  }

  /**
   * Write suppression is exact: for two Deployments built for one agent, the hash and the seven
   * comparisons call for no write exactly when the whole pod templates and the replicas agree.
   */
  lemma WriteSuppressionExact(a: AgentSpec, c: Config, b: AgentSpec, d: Config, enc: Encoders, digest: string -> string,
                              defaults: Defaults)
    requires a.Key() == b.Key() && BuiltFrom(c, a, enc) && BuiltFrom(d, b, enc) && Encodes(enc, c, d)
    requires AllNulFree(Fields(c)) && AllNulFree(Fields(d))
    requires digest(HashInput(c)) == digest(HashInput(d)) ==> HashInput(c) == HashInput(d)
    ensures var current := BuildDeployment(a, c, digest(HashInput(c)), defaults);
      var desired := BuildDeployment(b, d, digest(HashInput(d)), defaults);
      !DeploymentNeedsWrite(current, desired) <==>
        current.template == desired.template && current.replicas == desired.replicas
  {
    if digest(HashInput(c)) == digest(HashInput(d)) {
      SameHashSameConfig(a, c, b, d, enc);
      SameEnv(a.Name(), c, d);
    }
  }

  lemma SameEnv(name: string, c: Config, d: Config)
    requires SameHashed(c, d) && c.connEnv == d.connEnv && c.extraEnv == d.extraEnv
    ensures AgentEnv(name, c) == AgentEnv(name, d) && c.image == d.image && c.saName == d.saName
  {}

  /** The fields the write test never reads. */
  predicate UnreadFieldsAgree(current: Deployment, desired: Deployment)
    requires current.template.spec.containers != [] && desired.template.spec.containers != []
  {
    var c, d := current.template, desired.template;
    var x, y := c.spec.containers[0], d.spec.containers[0];
    && c.labels == d.labels
    && c.annotations - {ANNOTATION_CONFIG_HASH} == d.annotations - {ANNOTATION_CONFIG_HASH}
    && c.spec.serviceAccount == d.spec.serviceAccount
    && c.spec.containers[1..] == d.spec.containers[1..]
    && x.name == y.name && x.image == y.image && x.env == y.env && x.ports == y.ports
    && x.livenessPath == y.livenessPath && x.readinessPath == y.readinessPath
  }

  /**
   * What the test cannot see. Of any live Deployment, whoever edited it, for which no write is called for: its template
   * is the desired one exactly when the fields the test does not read agree.
   */
  lemma SuppressedWriteCorrectIff(current: Deployment, a: AgentSpec, c: Config, sum: string, defaults: Defaults)
    requires sum != "" && !DeploymentNeedsWrite(current, BuildDeployment(a, c, sum, defaults))
    ensures current.template == BuildDeployment(a, c, sum, defaults).template
            <==> UnreadFieldsAgree(current, BuildDeployment(a, c, sum, defaults))
  {
    var desired := BuildDeployment(a, c, sum, defaults);
    if UnreadFieldsAgree(current, desired) {
      var x, y := current.template, desired.template;
      assert x.spec.containers == [x.spec.containers[0]] + x.spec.containers[1..];
      assert y.spec.containers == [y.spec.containers[0]] + y.spec.containers[1..];
      SameBut(x.annotations, y.annotations, ANNOTATION_CONFIG_HASH);
    }
  }

  lemma SameBut(m: map<string, string>, n: map<string, string>, k: string)
    requires k in m && k in n && m[k] == n[k] && m - {k} == n - {k}
    ensures m == n
  {
    forall x ensures x in m <==> x in n {
      assert x != k ==> (x in m <==> x in m - {k}) && (x in n <==> x in n - {k});
    }
    forall x | x in m ensures m[x] == n[x] {
      assert x != k ==> m[x] == (m - {k})[x] && n[x] == (n - {k})[x];
    }
  }

  /** For instance an environment edited on the live Deployment behind the annotation's back. */
  lemma EditedEnvGoesUnseen(a: AgentSpec, c: Config, sum: string, defaults: Defaults) returns (current: Deployment)
    ensures !DeploymentNeedsWrite(current, BuildDeployment(a, c, sum, defaults))
    ensures current.template != BuildDeployment(a, c, sum, defaults).template
  {
    var desired := BuildDeployment(a, c, sum, defaults);
    var box := desired.template.spec.containers[0];
    current := desired.(template := desired.template.(spec := desired.template.spec.(containers := [box.(env := [])])));
    assert current.template.spec.containers[0].env == [] && |AgentEnv(a.Name(), c)| > 0;
  }
}
