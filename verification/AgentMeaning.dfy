/** What a TowonelAgent asks for and what its tunnel's status records, and how its environment must show it. */
module AgentMeaning {
  import opened Text
  import opened Conventions
  import opened Api
  import opened AgentRender

  // ---- routing ----

  ghost predicate HasPort(allocations: seq<PortAllocation>, protocol: Protocol, name: string) {
    exists pa :: pa in allocations && pa.protocol == protocol && pa.name == name
  }

  /** That port is recorded for the service, and none after it. */
  ghost predicate LastRecorded(allocations: seq<PortAllocation>, protocol: Protocol, name: string, port: int) {
    exists j :: 0 <= j < |allocations| && allocations[j].protocol == protocol && allocations[j].name == name
                && allocations[j].listenPort == port && !HasPort(allocations[j + 1..], protocol, name)
  }

  /** Where in the list the services with a port stand, or those without one, in order. */
  ghost predicate Places(at: seq<nat>, entries: seq<L4Service>, protocol: Protocol, allocations: seq<PortAllocation>,
                         having: bool) {
    && (forall j, k :: 0 <= j < k < |at| ==> at[j] < at[k])
    && (forall i :: i in at <==> 0 <= i < |entries| && (HasPort(allocations, protocol, entries[i].name) <==> having))
  }

  /** Exactly the services with a port, in order, each with its origin and the port recorded for it. */
  ghost predicate ServesAll(out: seq<L4Entry>, entries: seq<L4Service>, protocol: Protocol,
                            allocations: seq<PortAllocation>) {
    exists at :: Places(at, entries, protocol, allocations, true)
                 && ServesThose(out, entries, at, protocol, allocations)
  }

  ghost predicate ServesThose(out: seq<L4Entry>, entries: seq<L4Service>, at: seq<nat>, protocol: Protocol,
                              allocations: seq<PortAllocation>) {
    && |out| == |at|
    && forall k :: 0 <= k < |at| ==>
         && at[k] < |entries| && out[k].name == entries[at[k]].name && out[k].origin == entries[at[k]].origin
         && LastRecorded(allocations, protocol, out[k].name, out[k].listenPort)
  }

  /** Exactly the services without one, in order, as "protocol/name". */
  ghost predicate Unserved(pending: seq<string>, entries: seq<L4Service>, protocol: Protocol,
                           allocations: seq<PortAllocation>) {
    exists at :: Places(at, entries, protocol, allocations, false) && NamesThose(pending, entries, at, protocol)
  }

  ghost predicate NamesThose(pending: seq<string>, entries: seq<L4Service>, at: seq<nat>, protocol: Protocol) {
    && |pending| == |at|
    && forall k :: 0 <= k < |at| ==>
         at[k] < |entries| && pending[k] == (match protocol case TCP => "tcp/" case UDP => "udp/") + entries[at[k]].name
  }

  /** Nothing if no service has a port; else the services that do, encoded. */
  ghost predicate TellsL4(text: string, entries: seq<L4Service>, protocol: Protocol, allocations: seq<PortAllocation>,
                          enc: Encoders) {
    if forall e :: e in entries ==> !HasPort(allocations, protocol, e.name) then text == ""
    else exists out :: ServesAll(out, entries, protocol, allocations) && text == enc.l4(out)
  }

  ghost predicate Lists(listed: seq<HTTPSEntry>, services: seq<Service>) {
    && |listed| == |services|
    && forall i :: 0 <= i < |services| ==>
         && listed[i].hostname == services[i].hostname && listed[i].origin == services[i].origin
         && listed[i].proxyProtocol == services[i].proxyProtocol
         && (listed[i].tlsMode == if services[i].edgeTLSMode == "" then None else Some(services[i].edgeTLSMode))
  }

  /** Nothing if there is no service; else all of them, encoded. */
  ghost predicate TellsHTTPS(text: string, services: seq<Service>, enc: Encoders) {
    if services == [] then text == "" else exists listed :: Lists(listed, services) && text == enc.https(listed)
  }

  // ---- numbers ----

  ghost function ValueOf(digits: string): int {
    if digits == "" then 0
    else 10 * ValueOf(digits[..|digits| - 1]) + (digits[|digits| - 1] as int - '0' as int)
  }

  /** Decimal digits of that value, without leading zeros. */
  ghost predicate Numeral(digits: string, n: int) {
    && digits != "" && (forall c :: c in digits ==> '0' <= c <= '9') && ValueOf(digits) == n
    && (digits[0] == '0' ==> digits == "0")
  }

  ghost predicate Decimal(text: string, n: int) {
    if n >= 0 then Numeral(text, n) else text != "" && text[0] == '-' && Numeral(text[1..], -n)
  }

  lemma DigitIsItself(n: nat)
    requires n < 10
    ensures Digit(n) as int == '0' as int + n
  {}

  lemma {:induction false} DigitsAreNumeral(n: nat)
    ensures Numeral(Digits(n), n) && (n > 0 ==> Digits(n)[0] != '0')
  {
    DigitIsItself(n % 10);
    if n >= 10 {
      DigitsAreNumeral(n / 10);
      var p, s := Digits(n / 10), Digits(n);
      assert s[..|s| - 1] == p && s[0] == p[0];
    } else {
      assert Digits(n)[..0] == "";
    }
  }

  lemma ItoaIsDecimal(n: int)
    ensures Decimal(Itoa(n), n)
  {
    DigitsAreNumeral(if n < 0 then -n else n);
    assert n < 0 ==> Itoa(n)[1..] == Digits(-n);
  }

  lemma {:induction false} JoinedFrom(x: string, rest: seq<string>)
    requires rest != []
    ensures CommaJoined([x] + rest) == x + "," + CommaJoined(rest)
  {
    var n := |rest| - 1;
    var p := rest[..n];
    assert rest == p + [rest[n]] && [x] + rest == ([x] + p) + [rest[n]];
    CommaJoinedMore(p, rest[n]);
    CommaJoinedMore([x] + p, rest[n]);
    if p != [] {
      JoinedFrom(x, p);
      assert x + "," + CommaJoined(p) + "," + rest[n] == x + "," + (CommaJoined(p) + "," + rest[n]);
    }
  }

  lemma {:induction false} JoinIsJoined(s: seq<string>)
    requires s != []
    ensures Join(s, ",") == CommaJoined(s)
  {
    if |s| > 1 {
      JoinIsJoined(s[1..]);
      JoinedFrom(s[0], s[1..]);
      assert s == [s[0]] + s[1..];
    }
  }

  // ---- the environment ----

  /** The variable holds this and is there once; or it is ours to leave out, and only others' entries have the name. */
  ghost predicate Sets(env: seq<EnvVar>, others: seq<EnvVar>, name: string, source: Option<EnvSource>) {
    if source.Some? then
      EnvVar(name, source.value) in env && forall e :: e in env && e.name == name ==> e.source == source.value
    else forall e :: e in env && e.name == name ==> e in others
  }

  function When(wanted: bool, source: EnvSource): Option<EnvSource> {
    if wanted then Some(source) else None
  }

  function NonEmpty(text: string): Option<EnvSource> {
    When(text != "", Literal(text))
  }

  /** The direct path through a node port, asked for in full. */
  predicate DirectPath(c: Connectivity) {
    c.autodiscover && c.nodePort.create && c.irohPort != 0
  }

  /** The variables of spec.connectivity. */
  ghost predicate Connects(env: seq<EnvVar>, others: seq<EnvVar>, a: AgentSpec) {
    var c, direct, key := a.connectivity, DirectPath(a.connectivity), a.routing.key;
    && (exists text :: Decimal(text, c.irohPort)
                       && Sets(env, others, "TOWONEL_AGENT_IROH_PORT", When(c.irohPort != 0, Literal(text))))
    && Sets(env, others, "TOWONEL_AGENT_EXTRA_LOCAL_ADDRS",
            if c.extraLocalAddrs == [] then None else Some(Literal(CommaJoined(c.extraLocalAddrs))))
    && Sets(env, others, "TOWONEL_AGENT_K8S_AUTODISCOVER", When(direct, Literal("true")))
    && Sets(env, others, "TOWONEL_AGENT_K8S_SERVICE",
            When(direct, Literal(if c.nodePort.name == "" then key.name + "-iroh" else c.nodePort.name)))
    && Sets(env, others, "TOWONEL_AGENT_K8S_NAMESPACE", When(direct, Literal(key.namespace)))
    && Sets(env, others, "NODE_NAME", When(direct, FieldPath("spec.nodeName")))
  }

  /** The variables of spec.services, spec.tcp and spec.udp, each with its own services. */
  ghost predicate Routes(env: seq<EnvVar>, others: seq<EnvVar>, a: AgentSpec, allocations: seq<PortAllocation>,
                         enc: Encoders) {
    && (exists text :: TellsHTTPS(text, a.routing.services, enc)
                       && Sets(env, others, "TOWONEL_AGENT_SERVICES", NonEmpty(text)))
    && (exists text :: TellsL4(text, a.routing.tcp, TCP, allocations, enc)
                       && Sets(env, others, "TOWONEL_AGENT_TCP_SERVICES", NonEmpty(text)))
    && (exists text :: TellsL4(text, a.routing.udp, UDP, allocations, enc)
                       && Sets(env, others, "TOWONEL_AGENT_UDP_SERVICES", NonEmpty(text)))
  }

  /** The variables of the token, the relay and the workload. */
  ghost predicate TellsRest(env: seq<EnvVar>, others: seq<EnvVar>, a: AgentSpec) {
    && Sets(env, others, "TOWONEL_INVITE_TOKEN", Some(SecretKey(a.routing.key.name + "-token", "token")))
    && Sets(env, others, "TOWONEL_AGENT_RELAY_URL", NonEmpty(a.relayURL))
    && Sets(env, others, "TOWONEL_DISABLE_UDP_GSO", When(a.workload.disableUDPGSO, Literal("true")))
    && Sets(env, others, "TOWONEL_AGENT_HEALTH_LISTEN_ADDR", Some(Literal("0.0.0.0:9090")))
  }

  /** A container's environment: the variables of ours, and of the others' all that do not have the name of one. */
  ghost predicate TellsAll(env: seq<EnvVar>, others: seq<EnvVar>, a: AgentSpec, allocations: seq<PortAllocation>,
                           enc: Encoders) {
    && TellsRest(env, others, a) && Routes(env, others, a, allocations, enc) && Connects(env, others, a)
    && KeepsOthers(env, others)
  }

  ghost predicate KeepsOthers(env: seq<EnvVar>, others: seq<EnvVar>) {
    && (forall e :: e in env && !IsOurs(e.name) ==> e in others)
    && (forall e :: e in others ==> e in env || (IsOurs(e.name) && exists o :: o in env && o.name == e.name))
  }

  const OURS := [ENV_TOKEN, ENV_SERVICES, ENV_TCP, ENV_UDP, ENV_RELAY, ENV_GSO, ENV_IROH, ENV_ADDRS, ENV_AUTODISCOVER,
                 ENV_K8S_SERVICE, ENV_K8S_NAMESPACE, ENV_NODE, ENV_HEALTH]

  predicate IsOurs(name: string) { name in OURS }

  // ---- rendering name by name ----

  lemma AddSets(env: seq<EnvVar>, wanted: bool, name: string, source: EnvSource)
    requires Sets(env, [], name, None)
    ensures Sets(AddIf(env, wanted, name, source), [], name, When(wanted, source))
    ensures forall x, xs :: x != name && Sets(env, [], x, xs) ==> Sets(AddIf(env, wanted, name, source), [], x, xs)
  {
    if wanted {
      assert EnvVar(name, source) in AddIf(env, wanted, name, source);
    }
  }

  lemma ConcatSets(a: seq<EnvVar>, b: seq<EnvVar>)
    ensures forall x, xs :: Sets(a, [], x, xs) && Sets(b, [], x, None) ==> Sets(a + b, [], x, xs)
    ensures forall x, xs :: Sets(a, [], x, None) && Sets(b, [], x, xs) ==> Sets(a + b, [], x, xs)
  {}

  lemma NothingSets()
    ensures forall x :: Sets([], [], x, None)
  {}

  // ---- the operator's environment is what it should be ----

  lemma ConnectivityEnvSets(a: AgentSpec, p: Plan)
    ensures var env := ConnectivityEnv(a, p);
      && Sets(env, [], ENV_IROH, When(p.irohPort != 0, Literal(Itoa(p.irohPort))))
      && Sets(env, [], ENV_ADDRS, When(p.extraLocalAddrs != [], Literal(Join(p.extraLocalAddrs, ","))))
      && Sets(env, [], ENV_AUTODISCOVER, When(p.autodiscover, Literal("true")))
      && Sets(env, [], ENV_K8S_SERVICE, When(p.autodiscover, Literal(p.nodePortName)))
      && Sets(env, [], ENV_K8S_NAMESPACE, When(p.autodiscover, Literal(a.Key().namespace)))
      && Sets(env, [], ENV_NODE, When(p.autodiscover, FieldPath("spec.nodeName")))
  {
    ConnectivityPositions();
    hide Sets, AddIf, Position, Itoa, Join, When;
    NothingSets();
    var addrs := Literal(Join(p.extraLocalAddrs, ","));
    AddSets([], p.irohPort != 0, ENV_IROH, Literal(Itoa(p.irohPort)));
    var e1 := AddIf([], p.irohPort != 0, ENV_IROH, Literal(Itoa(p.irohPort)));
    AddSets(e1, p.extraLocalAddrs != [], ENV_ADDRS, addrs);
    var e2 := AddIf(e1, p.extraLocalAddrs != [], ENV_ADDRS, addrs);
    AddSets(e2, p.autodiscover, ENV_AUTODISCOVER, Literal("true"));
    var e3 := AddIf(e2, p.autodiscover, ENV_AUTODISCOVER, Literal("true"));
    AddSets(e3, p.autodiscover, ENV_K8S_SERVICE, Literal(p.nodePortName));
    var e4 := AddIf(e3, p.autodiscover, ENV_K8S_SERVICE, Literal(p.nodePortName));
    AddSets(e4, p.autodiscover, ENV_K8S_NAMESPACE, Literal(a.Key().namespace));
    var e5 := AddIf(e4, p.autodiscover, ENV_K8S_NAMESPACE, Literal(a.Key().namespace));
    AddSets(e5, p.autodiscover, ENV_NODE, FieldPath("spec.nodeName"));
  }

  lemma ConnectivityEnvConnects(a: AgentSpec)
    ensures Connects(ConnectivityEnv(a, PlanConnectivity(a)), [], a)
  {
    var p := PlanConnectivity(a);
    ItoaIsDecimal(p.irohPort);
    if p.extraLocalAddrs != [] {
      JoinIsJoined(p.extraLocalAddrs);
    }
    ConnectivityEnvSets(a, p);
    hide Sets, ConnectivityEnv, Itoa, Join, Decimal;
  }

  lemma OrderedLacks(env: seq<EnvVar>, low: int, high: int)
    requires Ordered(env, low, high)
    ensures forall x :: !(low < Position(x) <= high) ==> Sets(env, [], x, None)
  {}

  lemma OneSets(name: string, source: EnvSource)
    ensures Sets([EnvVar(name, source)], [], name, Some(source))
    ensures forall x :: x != name ==> Sets([EnvVar(name, source)], [], x, None)
  {
    assert EnvVar(name, source) in [EnvVar(name, source)];
  }

  /** The variables before those of spec.connectivity. */
  function HeadEnv(name: string, cfg: Config): seq<EnvVar> {
    var e1 := [EnvVar(ENV_TOKEN, SecretKey(TokenSecretName(name), "token"))];
    var e2 := AddIf(e1, cfg.servicesJSON != "", ENV_SERVICES, Literal(cfg.servicesJSON));
    var e3 := AddIf(e2, cfg.tcpJSON != "", ENV_TCP, Literal(cfg.tcpJSON));
    var e4 := AddIf(e3, cfg.udpJSON != "", ENV_UDP, Literal(cfg.udpJSON));
    var e5 := AddIf(e4, cfg.relayURL != "", ENV_RELAY, Literal(cfg.relayURL));
    AddIf(e5, cfg.disableUDPGSO, ENV_GSO, Literal("true"))
  }

  /** What the variables of spec.workload, of the relay and of the routing text hold. */
  ghost predicate HeadSets(env: seq<EnvVar>, others: seq<EnvVar>, name: string, cfg: Config) {
    && Sets(env, others, "TOWONEL_INVITE_TOKEN", Some(SecretKey(name + "-token", "token")))
    && Sets(env, others, "TOWONEL_AGENT_SERVICES", NonEmpty(cfg.servicesJSON))
    && Sets(env, others, "TOWONEL_AGENT_TCP_SERVICES", NonEmpty(cfg.tcpJSON))
    && Sets(env, others, "TOWONEL_AGENT_UDP_SERVICES", NonEmpty(cfg.udpJSON))
    && Sets(env, others, "TOWONEL_AGENT_RELAY_URL", NonEmpty(cfg.relayURL))
    && Sets(env, others, "TOWONEL_DISABLE_UDP_GSO", When(cfg.disableUDPGSO, Literal("true")))
  }

  lemma HeadEnvSets(name: string, cfg: Config)
    ensures HeadSets(HeadEnv(name, cfg), [], name, cfg)
    ensures forall x :: Position(x) > 6 ==> Sets(HeadEnv(name, cfg), [], x, None)
  {
    Positions();
    hide Sets, AddIf, Position;
    var token := SecretKey(TokenSecretName(name), "token");
    OneSets(ENV_TOKEN, token);
    var e1 := [EnvVar(ENV_TOKEN, token)];
    AddSets(e1, cfg.servicesJSON != "", ENV_SERVICES, Literal(cfg.servicesJSON));
    var e2 := AddIf(e1, cfg.servicesJSON != "", ENV_SERVICES, Literal(cfg.servicesJSON));
    AddSets(e2, cfg.tcpJSON != "", ENV_TCP, Literal(cfg.tcpJSON));
    var e3 := AddIf(e2, cfg.tcpJSON != "", ENV_TCP, Literal(cfg.tcpJSON));
    AddSets(e3, cfg.udpJSON != "", ENV_UDP, Literal(cfg.udpJSON));
    var e4 := AddIf(e3, cfg.udpJSON != "", ENV_UDP, Literal(cfg.udpJSON));
    AddSets(e4, cfg.relayURL != "", ENV_RELAY, Literal(cfg.relayURL));
    var e5 := AddIf(e4, cfg.relayURL != "", ENV_RELAY, Literal(cfg.relayURL));
    AddSets(e5, cfg.disableUDPGSO, ENV_GSO, Literal("true"));
  }

  lemma OperatorEnvSets(name: string, cfg: Config)
    requires Ordered(cfg.connEnv, 6, 12)
    ensures var env := OperatorEnv(name, cfg);
      && HeadSets(env, [], name, cfg)
      && Sets(env, [], "TOWONEL_AGENT_HEALTH_LISTEN_ADDR", Some(Literal("0.0.0.0:9090")))
      && forall x, xs :: 6 < Position(x) <= 12 && Sets(cfg.connEnv, [], x, xs) ==> Sets(env, [], x, xs)
  {
    Positions();
    HeadEnvSets(name, cfg);
    OrderedLacks(cfg.connEnv, 6, 12);
    OneSets(ENV_HEALTH, Literal(AGENT_HEALTH_ADDR));
    var health := [EnvVar(ENV_HEALTH, Literal(AGENT_HEALTH_ADDR))];
    ConcatSets(HeadEnv(name, cfg), cfg.connEnv);
    ConcatSets(HeadEnv(name, cfg) + cfg.connEnv, health);
    assert OperatorEnv(name, cfg) == HeadEnv(name, cfg) + cfg.connEnv + health;
    hide Sets, Position, HeadEnv, OperatorEnv;
  }

  lemma HeadNamed(name: string, cfg: Config)
    ensures forall e :: e in HeadEnv(name, cfg) ==> IsOurs(e.name)
  {}

  lemma OperatorEnvNamed(name: string, cfg: Config)
    requires forall e :: e in cfg.connEnv ==> IsOurs(e.name)
    ensures forall e :: e in OperatorEnv(name, cfg) ==> IsOurs(e.name)
  {
    HeadNamed(name, cfg);
    assert IsOurs(ENV_HEALTH);
    hide HeadEnv;
    assert OperatorEnv(name, cfg)
           == HeadEnv(name, cfg) + cfg.connEnv + [EnvVar(ENV_HEALTH, Literal(AGENT_HEALTH_ADDR))];
  }

  lemma ConnectivityNamed(a: AgentSpec, p: Plan)
    ensures forall e :: e in ConnectivityEnv(a, p) ==> IsOurs(e.name)
  {}

  lemma {:induction false} KeptAll(managed: seq<EnvVar>, extra: seq<EnvVar>)
    ensures forall e :: e in extra && !AgentRender.Names(managed, e.name) ==> e in KeptEnv(managed, extra)
  {
    if extra != [] {
      var p, e := extra[..|extra| - 1], extra[|extra| - 1];
      KeptAll(managed, p);
      assert extra == p + [e];
    }
  }

  /** Others' entries that have none of our names change nothing of what ours hold. */
  lemma SetsAmongOthers(ours: seq<EnvVar>, kept: seq<EnvVar>, others: seq<EnvVar>)
    requires forall e :: e in kept ==> e in others && !AgentRender.Names(ours, e.name)
    ensures forall x, xs :: Sets(ours, [], x, xs) ==> Sets(ours + kept, others, x, xs)
  {
    forall x, xs | Sets(ours, [], x, xs) ensures Sets(ours + kept, others, x, xs) {
      if xs.Some? {
        assert EnvVar(x, xs.value) in ours;
        assert AgentRender.Names(ours, x);
      }
    }
  }

  /** What a rendered config says, field by field. */
  ghost predicate ConfigFits(cfg: Config, a: AgentSpec, allocations: seq<PortAllocation>, inviteID: string,
                             enc: Encoders) {
    && TellsHTTPS(cfg.servicesJSON, a.routing.services, enc)
    && TellsL4(cfg.tcpJSON, a.routing.tcp, TCP, allocations, enc)
    && TellsL4(cfg.udpJSON, a.routing.udp, UDP, allocations, enc)
    && (exists p, q :: Unserved(p, a.routing.tcp, TCP, allocations) && Unserved(q, a.routing.udp, UDP, allocations)
                       && cfg.pending == p + q)
    && cfg.relayURL == a.relayURL && cfg.inviteID == inviteID && cfg.disableUDPGSO == a.workload.disableUDPGSO
    && cfg.image == (if a.workload.image == "" then "codeberg.org/towonel/towonel-agent:1.13.4" else a.workload.image)
    && cfg.saName == a.routing.key.name && cfg.irohPort == a.connectivity.irohPort
    && Connects(cfg.connEnv, [], a) && Ordered(cfg.connEnv, 6, 12) && (forall e :: e in cfg.connEnv ==> IsOurs(e.name))
    && cfg.connEnvHash == (if cfg.connEnv == [] then "" else enc.env(cfg.connEnv))
  }

  lemma ExtendedFits(cfg: Config, a: AgentSpec, allocations: seq<PortAllocation>, inviteID: string, enc: Encoders,
                     extra: seq<EnvVar>)
    requires ConfigFits(cfg, a, allocations, inviteID, enc)
    ensures ConfigFits(Extended(cfg, a.Name(), enc, extra), a, allocations, inviteID, enc)
  {
    hide TellsHTTPS, TellsL4, Unserved, Connects, Ordered, IsOurs, KeptEnv, IgnoredNames, OperatorEnv;
  }

  lemma ConnectsElsewhere(env: seq<EnvVar>, there: seq<EnvVar>, others: seq<EnvVar>, a: AgentSpec)
    requires Connects(env, [], a)
    requires forall x, xs :: 6 < Position(x) <= 12 && Sets(env, [], x, xs) ==> Sets(there, others, x, xs)
    ensures Connects(there, others, a)
  {
    ConnectivityPositions();
    hide Sets, Position, Decimal;
  }

  lemma OperatorEnvTells(cfg: Config, a: AgentSpec, allocations: seq<PortAllocation>, inviteID: string, enc: Encoders)
    requires ConfigFits(cfg, a, allocations, inviteID, enc)
    ensures var env := OperatorEnv(a.Name(), cfg);
      HeadSets(env, [], a.Name(), cfg) && Connects(env, [], a)
      && Sets(env, [], "TOWONEL_AGENT_HEALTH_LISTEN_ADDR", Some(Literal("0.0.0.0:9090")))
  {
    OperatorEnvSets(a.Name(), cfg);
    hide *;
    ConnectsElsewhere(cfg.connEnv, OperatorEnv(a.Name(), cfg), [], a);
  }

  lemma HeadSetsElsewhere(env: seq<EnvVar>, there: seq<EnvVar>, others: seq<EnvVar>, name: string, cfg: Config)
    requires HeadSets(env, [], name, cfg)
    requires forall x, xs :: Sets(env, [], x, xs) ==> Sets(there, others, x, xs)
    ensures HeadSets(there, others, name, cfg)
  {
    hide Sets;
  }

  /** Among others' entries, ours still tell it. */
  lemma TellsAmongOthers(ours: seq<EnvVar>, env: seq<EnvVar>, others: seq<EnvVar>, cfg: Config, a: AgentSpec,
                         allocations: seq<PortAllocation>, inviteID: string, enc: Encoders)
    requires ConfigFits(cfg, a, allocations, inviteID, enc)
    requires HeadSets(ours, [], a.Name(), cfg) && Connects(ours, [], a)
    requires Sets(ours, [], "TOWONEL_AGENT_HEALTH_LISTEN_ADDR", Some(Literal("0.0.0.0:9090")))
    requires forall x, xs :: Sets(ours, [], x, xs) ==> Sets(env, others, x, xs)
    ensures TellsRest(env, others, a) && Connects(env, others, a) && Routes(env, others, a, allocations, enc)
  {
    hide Sets, TellsHTTPS, TellsL4, Unserved, Ordered, Connects;
    HeadSetsElsewhere(ours, env, others, a.Name(), cfg);
    ConnectsElsewhere(ours, env, others, a);
  }

  lemma ExtendedEnv(cfg: Config, name: string, enc: Encoders, extra: seq<EnvVar>)
    ensures AgentEnv(name, Extended(cfg, name, enc, extra))
            == OperatorEnv(name, cfg) + KeptEnv(OperatorEnv(name, cfg), extra)
  {}

  /** Others' entries are all there, but for those that have a name of ours. */
  lemma OthersKept(ours: seq<EnvVar>, extra: seq<EnvVar>)
    requires forall e :: e in ours ==> IsOurs(e.name)
    ensures KeepsOthers(ours + KeptEnv(ours, extra), extra)
  {
    KeptAndIgnoredWereAsked(ours, extra);
    KeptAll(ours, extra);
    hide KeptEnv;
    var env := ours + KeptEnv(ours, extra);
    forall e | e in extra && e !in env ensures IsOurs(e.name) && exists o :: o in env && o.name == e.name {
      var o :| o in ours && o.name == e.name;
      assert o in env;
    }
  }

  lemma OursTell(cfg: Config, a: AgentSpec, allocations: seq<PortAllocation>, inviteID: string, enc: Encoders,
                 extra: seq<EnvVar>)
    requires ConfigFits(cfg, a, allocations, inviteID, enc)
    ensures var ours := OperatorEnv(a.Name(), cfg);
      var env := ours + KeptEnv(ours, extra);
      TellsRest(env, extra, a) && Routes(env, extra, a, allocations, enc) && Connects(env, extra, a)
  {
    hide *;
    var ours := OperatorEnv(a.Name(), cfg);
    KeptAndIgnoredWereAsked(ours, extra);
    OperatorEnvTells(cfg, a, allocations, inviteID, enc);
    SetsAmongOthers(ours, KeptEnv(ours, extra), extra);
    TellsAmongOthers(ours, ours + KeptEnv(ours, extra), extra, cfg, a, allocations, inviteID, enc);
  }

  /** The whole container environment tells what spec and status say. */
  lemma ExtendedEnvTells(cfg: Config, a: AgentSpec, allocations: seq<PortAllocation>, inviteID: string, enc: Encoders,
                         extra: seq<EnvVar>)
    requires ConfigFits(cfg, a, allocations, inviteID, enc)
    ensures TellsAll(AgentEnv(a.Name(), Extended(cfg, a.Name(), enc, extra)), extra, a, allocations, enc)
  {
    ExtendedEnv(cfg, a.Name(), enc, extra);
    OperatorEnvNamed(a.Name(), cfg);
    hide OperatorEnv, KeptEnv, Extended, AgentEnv, Routes, Connects, TellsRest, ConfigFits, IsOurs, KeepsOthers;
    OthersKept(OperatorEnv(a.Name(), cfg), extra);
    OursTell(cfg, a, allocations, inviteID, enc, extra);
  }
}
