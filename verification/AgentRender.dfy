/** Rendering a TowonelAgent: its container environment, its config, and the text its hash is taken of. */
module AgentRender {
  import opened Text
  import opened Conventions
  import opened Environment
  import opened Api

  // ---- what the agent declares ----

  datatype NodePort = NodePort(create: bool, name: string, port: int)

  datatype Connectivity = Connectivity(autodiscover: bool, irohPort: int, extraLocalAddrs: seq<string>,
                                       nodePort: NodePort)

  datatype Resources = Resources(requests: map<string, string>, limits: map<string, string>)

  /** The knobs outside the rendered config; scheduling and security fields are opaque text. */
  datatype Workload = Workload(
    image: string,
    replicas: Option<int>,
    disableUDPGSO: bool,
    resources: Resources,
    nodeSelector: map<string, string>,
    tolerations: seq<string>,
    affinity: Option<string>,
    podSecurity: Option<string>,
    containerSecurity: Option<string>)

  datatype AgentSpec = AgentSpec(routing: Agent, relayURL: string, connectivity: Connectivity, workload: Workload) {
    function Key(): ObjectKey { routing.key }
    function Name(): string { routing.key.name }
  }

  // ---- the rendered config ----

  datatype EnvSource = Literal(text: string) | SecretKey(secret: string, key: string) | FieldPath(path: string)

  datatype EnvVar = EnvVar(name: string, source: EnvSource)

  datatype HTTPSEntry = HTTPSEntry(hostname: string, origin: string, tlsMode: Option<string>, proxyProtocol: string)

  datatype L4Entry = L4Entry(name: string, listenPort: int, origin: string)

  /** encoding/json on the three shapes rendered, left abstract. */
  datatype Encoders = Encoders(https: seq<HTTPSEntry> -> string, l4: seq<L4Entry> -> string, env: seq<EnvVar> -> string)

  datatype Config = Config(
    disableUDPGSO: bool,
    servicesJSON: string,
    tcpJSON: string,
    udpJSON: string,
    relayURL: string,
    inviteID: string,
    image: string,
    pending: seq<string>,
    saName: string,
    irohPort: int,
    connEnv: seq<EnvVar>,
    connEnvHash: string,
    extraEnv: seq<EnvVar>,
    extraEnvHash: string,
    ignoredEnv: seq<string>)

  function EnvName(e: EnvVar): string { e.name }

  // ---- connectivity ----

  /** planConnectivity. */
  datatype Plan = Plan(irohPort: int, extraLocalAddrs: seq<string>, autodiscover: bool, nodePortName: string,
                       nodePortPort: int, skipped: bool, portIgnored: bool)

  function NodePortServiceName(a: AgentSpec): string {
    if a.connectivity.nodePort.name != "" then a.connectivity.nodePort.name else a.Name() + "-iroh"
  }

  function PlanConnectivity(a: AgentSpec): Plan {
    var c := a.connectivity;
    var ignored := c.nodePort.port != 0 && !c.nodePort.create;
    if c.autodiscover && (!c.nodePort.create || c.irohPort == 0) then
      Plan(c.irohPort, c.extraLocalAddrs, false, "", 0, true, ignored)
    else if c.nodePort.create && !c.autodiscover then
      Plan(c.irohPort, c.extraLocalAddrs, false, "", 0, true, ignored)
    else if c.autodiscover then
      Plan(c.irohPort, c.extraLocalAddrs, true, NodePortServiceName(a), c.nodePort.port, false, ignored)
    else
      Plan(c.irohPort, c.extraLocalAddrs, false, "", 0, false, ignored)
  }

  function Digit(n: nat): (c: char)
    requires n < 10
  {
    "0123456789"[n]
  }

  function Digits(n: nat): string {
    if n < 10 then [Digit(n)] else Digits(n / 10) + [Digit(n % 10)]
  }

  /** strconv.Itoa. */
  function Itoa(n: int): string {
    if n < 0 then "-" + Digits(-n) else Digits(n)
  }

  lemma DigitsAreDigits(n: nat)
    ensures Digits(n) != [] && Digits(n)[0] != '-'
  {}

  lemma DigitInjective(m: nat, n: nat)
    requires m < 10 && n < 10 && Digit(m) == Digit(n)
    ensures m == n
  {}

  lemma DivMod(m: nat)
    ensures m == 10 * (m / 10) + m % 10
  {}

  /** Longer numbers: the last digit and the rest are both recoverable. */
  lemma LastDigit(m: nat, n: nat)
    requires m >= 10 && n >= 10 && Digits(m) == Digits(n)
    ensures Digits(m / 10) == Digits(n / 10) && m % 10 == n % 10
  {
    var a, b := Digits(m), Digits(n);
    assert a[..|a| - 1] == Digits(m / 10) && b[..|b| - 1] == Digits(n / 10);
    assert a[|a| - 1] == Digit(m % 10) && b[|b| - 1] == Digit(n % 10);
    DigitInjective(m % 10, n % 10);
  }

  lemma DigitsCount(n: nat)
    ensures |Digits(n)| == 1 <==> n < 10
  {
    if n >= 10 {
      DigitsAreDigits(n / 10);
    }
  }

  lemma {:induction false} DigitsInjective(m: nat, n: nat)
    requires Digits(m) == Digits(n)
    ensures m == n
  {
    DigitsCount(m);
    DigitsCount(n);
    if m < 10 {
      assert Digits(m)[0] == Digit(m) && Digits(n)[0] == Digit(n);
      DigitInjective(m, n);
    } else {
      LastDigit(m, n);
      DigitsInjective(m / 10, n / 10);
      DivMod(m);
      DivMod(n);
    }
  }

  lemma ItoaInjective(m: int, n: int)
    requires Itoa(m) == Itoa(n)
    ensures m == n
  {
    DigitsAreDigits(if m < 0 then -m else m);
    DigitsAreDigits(if n < 0 then -n else n);
    if m < 0 && n < 0 {
      assert Itoa(m)[1..] == Digits(-m) && Itoa(n)[1..] == Digits(-n);
      DigitsInjective(-m, -n);
    } else if m >= 0 && n >= 0 {
      DigitsInjective(m, n);
    }
  }

  function Join(s: seq<string>, sep: string): string {
    if s == [] then "" else if |s| == 1 then s[0] else s[0] + sep + Join(s[1..], sep)
  }

  const ENV_TOKEN := "TOWONEL_INVITE_TOKEN"
  const ENV_SERVICES := "TOWONEL_AGENT_SERVICES"
  const ENV_TCP := "TOWONEL_AGENT_TCP_SERVICES"
  const ENV_UDP := "TOWONEL_AGENT_UDP_SERVICES"
  const ENV_RELAY := "TOWONEL_AGENT_RELAY_URL"
  const ENV_GSO := "TOWONEL_DISABLE_UDP_GSO"
  const ENV_IROH := "TOWONEL_AGENT_IROH_PORT"
  const ENV_ADDRS := "TOWONEL_AGENT_EXTRA_LOCAL_ADDRS"
  const ENV_AUTODISCOVER := "TOWONEL_AGENT_K8S_AUTODISCOVER"
  const ENV_K8S_SERVICE := "TOWONEL_AGENT_K8S_SERVICE"
  const ENV_K8S_NAMESPACE := "TOWONEL_AGENT_K8S_NAMESPACE"
  const ENV_NODE := "NODE_NAME"
  const ENV_HEALTH := "TOWONEL_AGENT_HEALTH_LISTEN_ADDR"
  const AGENT_HEALTH_ADDR := "0.0.0.0:9090"
  const AGENT_HEALTH_PORT := 9090
  const DEFAULT_AGENT_IMAGE := "codeberg.org/towonel/towonel-agent:1.13.4"

  function AddIf(env: seq<EnvVar>, wanted: bool, name: string, source: EnvSource): seq<EnvVar> {
    if wanted then env + [EnvVar(name, source)] else env
  }

  /** The operator's add closure: an empty value is left out. */
  function Add(env: seq<EnvVar>, name: string, value: string): seq<EnvVar> {
    AddIf(env, value != "", name, Literal(value))
  }

  /** connectivityEnv. */
  function ConnectivityEnv(a: AgentSpec, p: Plan): seq<EnvVar> {
    var e1 := AddIf([], p.irohPort != 0, ENV_IROH, Literal(Itoa(p.irohPort)));
    var e2 := AddIf(e1, p.extraLocalAddrs != [], ENV_ADDRS, Literal(Join(p.extraLocalAddrs, ",")));
    var e3 := AddIf(e2, p.autodiscover, ENV_AUTODISCOVER, Literal("true"));
    var e4 := AddIf(e3, p.autodiscover, ENV_K8S_SERVICE, Literal(p.nodePortName));
    var e5 := AddIf(e4, p.autodiscover, ENV_K8S_NAMESPACE, Literal(a.Key().namespace));
    AddIf(e5, p.autodiscover, ENV_NODE, FieldPath("spec.nodeName"))
  }

  function TokenSecretName(name: string): string { name + "-token" }

  /** operatorEnv. */
  function OperatorEnv(name: string, cfg: Config): seq<EnvVar> {
    var e1 := [EnvVar(ENV_TOKEN, SecretKey(TokenSecretName(name), "token"))];
    var e2 := Add(e1, ENV_SERVICES, cfg.servicesJSON);
    var e3 := Add(e2, ENV_TCP, cfg.tcpJSON);
    var e4 := Add(e3, ENV_UDP, cfg.udpJSON);
    var e5 := Add(e4, ENV_RELAY, cfg.relayURL);
    var e6 := if cfg.disableUDPGSO then Add(e5, ENV_GSO, "true") else e5;
    e6 + cfg.connEnv + [EnvVar(ENV_HEALTH, Literal(AGENT_HEALTH_ADDR))]
  }

  /** agentEnv. */
  function AgentEnv(name: string, cfg: Config): seq<EnvVar> {
    OperatorEnv(name, cfg) + cfg.extraEnv
  }

  // ---- no name twice ----

  /** Where a name may stand among the operator's own; the order is the order of rendering. */
  function Position(name: string): int {
    if name == ENV_TOKEN then 1 else if name == ENV_SERVICES then 2 else if name == ENV_TCP then 3
    else if name == ENV_UDP then 4 else if name == ENV_RELAY then 5 else if name == ENV_GSO then 6
    else if name == ENV_IROH then 7 else if name == ENV_ADDRS then 8 else if name == ENV_AUTODISCOVER then 9
    else if name == ENV_K8S_SERVICE then 10 else if name == ENV_K8S_NAMESPACE then 11 else if name == ENV_NODE then 12
    else 13
  }

  /** Rendered in order, between two positions. */
  ghost predicate Ordered(env: seq<EnvVar>, low: int, high: int) {
    && (forall i :: 0 <= i < |env| ==> low < Position(env[i].name) <= high)
    && (forall i, j :: 0 <= i < j < |env| ==> Position(env[i].name) < Position(env[j].name))
  }

  lemma AddKeepsOrder(env: seq<EnvVar>, low: int, high: int, wanted: bool, name: string, source: EnvSource)
    requires Ordered(env, low, high) && low <= high < Position(name)
    ensures Ordered(AddIf(env, wanted, name, source), low, Position(name))
  {}

  lemma ConcatKeepsOrder(a: seq<EnvVar>, b: seq<EnvVar>, low: int, mid: int, high: int)
    requires Ordered(a, low, mid) && Ordered(b, mid, high) && low <= mid <= high
    ensures Ordered(a + b, low, high)
  {}

  /** Names of one length differ at position 14, so each constant is told apart by length and that letter. */
  lemma Positions()
    ensures Position(ENV_TOKEN) == 1 && Position(ENV_SERVICES) == 2 && Position(ENV_TCP) == 3 && Position(ENV_UDP) == 4
    ensures Position(ENV_RELAY) == 5 && Position(ENV_GSO) == 6
    ensures Position(ENV_HEALTH) == 13
  {}

  lemma ConnectivityPositions()
    ensures Position(ENV_IROH) == 7 && Position(ENV_ADDRS) == 8 && Position(ENV_AUTODISCOVER) == 9
    ensures Position(ENV_K8S_SERVICE) == 10 && Position(ENV_K8S_NAMESPACE) == 11 && Position(ENV_NODE) == 12
  {}

  lemma ConnectivityEnvOrdered(a: AgentSpec, p: Plan)
    ensures Ordered(ConnectivityEnv(a, p), 6, 12)
  {
    ConnectivityPositions();
    var e1 := AddIf([], p.irohPort != 0, ENV_IROH, Literal(Itoa(p.irohPort)));
    AddKeepsOrder([], 6, 6, p.irohPort != 0, ENV_IROH, Literal(Itoa(p.irohPort)));
    var e2 := AddIf(e1, p.extraLocalAddrs != [], ENV_ADDRS, Literal(Join(p.extraLocalAddrs, ",")));
    AddKeepsOrder(e1, 6, 7, p.extraLocalAddrs != [], ENV_ADDRS, Literal(Join(p.extraLocalAddrs, ",")));
    var e3 := AddIf(e2, p.autodiscover, ENV_AUTODISCOVER, Literal("true"));
    AddKeepsOrder(e2, 6, 8, p.autodiscover, ENV_AUTODISCOVER, Literal("true"));
    var e4 := AddIf(e3, p.autodiscover, ENV_K8S_SERVICE, Literal(p.nodePortName));
    AddKeepsOrder(e3, 6, 9, p.autodiscover, ENV_K8S_SERVICE, Literal(p.nodePortName));
    var e5 := AddIf(e4, p.autodiscover, ENV_K8S_NAMESPACE, Literal(a.Key().namespace));
    AddKeepsOrder(e4, 6, 10, p.autodiscover, ENV_K8S_NAMESPACE, Literal(a.Key().namespace));
    AddKeepsOrder(e5, 6, 11, p.autodiscover, ENV_NODE, FieldPath("spec.nodeName"));
  }

  lemma OperatorEnvOrdered(name: string, cfg: Config)
    requires Ordered(cfg.connEnv, 6, 12)
    ensures Ordered(OperatorEnv(name, cfg), 0, 13)
  {
    Positions();
    var e1 := [EnvVar(ENV_TOKEN, SecretKey(TokenSecretName(name), "token"))];
    var e2 := Add(e1, ENV_SERVICES, cfg.servicesJSON);
    AddKeepsOrder(e1, 0, 1, cfg.servicesJSON != "", ENV_SERVICES, Literal(cfg.servicesJSON));
    var e3 := Add(e2, ENV_TCP, cfg.tcpJSON);
    AddKeepsOrder(e2, 0, 2, cfg.tcpJSON != "", ENV_TCP, Literal(cfg.tcpJSON));
    var e4 := Add(e3, ENV_UDP, cfg.udpJSON);
    AddKeepsOrder(e3, 0, 3, cfg.udpJSON != "", ENV_UDP, Literal(cfg.udpJSON));
    var e5 := Add(e4, ENV_RELAY, cfg.relayURL);
    AddKeepsOrder(e4, 0, 4, cfg.relayURL != "", ENV_RELAY, Literal(cfg.relayURL));
    var e6 := if cfg.disableUDPGSO then Add(e5, ENV_GSO, "true") else e5;
    AddKeepsOrder(e5, 0, 5, cfg.disableUDPGSO, ENV_GSO, Literal("true"));
    ConcatKeepsOrder(e6, cfg.connEnv, 0, 6, 12);
    var health := [EnvVar(ENV_HEALTH, Literal(AGENT_HEALTH_ADDR))];
    assert Ordered(health, 12, 13);
    ConcatKeepsOrder(e6 + cfg.connEnv, health, 0, 12, 13);
  }

  // ---- operator-wide extra environment ----

  predicate Names(env: seq<EnvVar>, name: string) {
    exists e :: e in env && e.name == name
  }

  /** The extra entries that do not collide with the operator's, in order. */
  function KeptEnv(managed: seq<EnvVar>, extra: seq<EnvVar>): seq<EnvVar> {
    if extra == [] then []
    else
      var p, e := KeptEnv(managed, extra[..|extra| - 1]), extra[|extra| - 1];
      if Names(managed, e.name) then p else p + [e]
  }

  function IgnoredNames(managed: seq<EnvVar>, extra: seq<EnvVar>): seq<string> {
    if extra == [] then []
    else
      var p, e := IgnoredNames(managed, extra[..|extra| - 1]), extra[|extra| - 1];
      if Names(managed, e.name) then p + [e.name] else p
  }

  /** The fields withExtraEnv fills in. */
  function Extended(cfg: Config, name: string, enc: Encoders, extra: seq<EnvVar>): Config {
    var kept := KeptEnv(OperatorEnv(name, cfg), extra);
    cfg.(extraEnv := kept,
         extraEnvHash := if kept == [] then "" else enc.env(kept),
         ignoredEnv := IgnoredNames(OperatorEnv(name, cfg), extra))
  }

  method ContainsName(env: seq<EnvVar>, name: string) returns (found: bool)
    ensures found <==> Names(env, name)
  {
    for i := 0 to |env|
      invariant forall k :: 0 <= k < i ==> env[k].name != name
    {
      if env[i].name == name {
        assert env[i] in env;
        return true;
      }
    }
    found := false;
  }

  /** withExtraEnv, on a freshly rendered config. */
  method WithExtraEnv(cfg: Config, name: string, enc: Encoders, extra: seq<EnvVar>) returns (r: Config)
    requires cfg.extraEnv == [] && cfg.extraEnvHash == "" && cfg.ignoredEnv == []
    ensures r == Extended(cfg, name, enc, extra)
  {
    var managed := OperatorEnv(name, cfg);
    var kept, ignored := [], [];
    for i := 0 to |extra|
      invariant kept == KeptEnv(managed, extra[..i]) && ignored == IgnoredNames(managed, extra[..i])
    {
      assert extra[..i + 1][..i] == extra[..i];
      var collides := ContainsName(managed, extra[i].name);
      if collides {
        ignored := ignored + [extra[i].name];
        continue;
      }
      kept := kept + [extra[i]];
    }
    assert extra[..|extra|] == extra;
    r := cfg.(extraEnv := kept, ignoredEnv := ignored);
    if kept != [] {
      r := r.(extraEnvHash := enc.env(kept));
    }
  }

  /** Whatever is kept or ignored was asked for, and only a name of the operator's is ignored. */
  lemma {:induction false} KeptAndIgnoredWereAsked(managed: seq<EnvVar>, extra: seq<EnvVar>)
    ensures forall e :: e in KeptEnv(managed, extra) ==> e in extra && !Names(managed, e.name)
    ensures forall n :: n in IgnoredNames(managed, extra) ==> Names(extra, n) && Names(managed, n)
  {
    if extra != [] {
      var p, e := extra[..|extra| - 1], extra[|extra| - 1];
      KeptAndIgnoredWereAsked(managed, p);
      assert extra == p + [e];
      assert forall n :: Names(p, n) ==> Names(extra, n);
    }
  }

  /** Each extra entry is kept or its name is reported, never both, and none is kept twice. */
  lemma {:induction false} EachEntryKeptOrIgnored(managed: seq<EnvVar>, extra: seq<EnvVar>)
    requires DistinctBy(extra, EnvName)
    ensures forall e :: e in extra ==> (e in KeptEnv(managed, extra)) != (e.name in IgnoredNames(managed, extra))
    ensures DistinctBy(KeptEnv(managed, extra), EnvName)
  {
    if extra != [] {
      var p, e := extra[..|extra| - 1], extra[|extra| - 1];
      EachEntryKeptOrIgnored(managed, p);
      KeptAndIgnoredWereAsked(managed, p);
      assert extra == p + [e];
      forall x | x in p ensures x.name != e.name {
        var i :| 0 <= i < |p| && p[i] == x;
        assert EnvName(extra[i]) != EnvName(extra[|extra| - 1]);
      }
      assert !Names(p, e.name);
      KeptStaysDistinct(managed, p, e);
    }
  }

  lemma KeptStaysDistinct(managed: seq<EnvVar>, p: seq<EnvVar>, e: EnvVar)
    requires DistinctBy(KeptEnv(managed, p), EnvName)
    requires forall x :: x in KeptEnv(managed, p) ==> x in p
    requires forall x :: x in p ==> x.name != e.name
    ensures DistinctBy(KeptEnv(managed, p + [e]), EnvName)
  {}

  /** The whole container environment names nothing twice, and an operator variable keeps its value. */
  lemma AgentEnvDistinct(name: string, cfg: Config, enc: Encoders, extra: seq<EnvVar>)
    requires Ordered(cfg.connEnv, 6, 12) && DistinctBy(extra, EnvName)
    ensures var r := Extended(cfg, name, enc, extra);
      && DistinctBy(AgentEnv(name, r), EnvName)
      && OperatorEnv(name, r) == OperatorEnv(name, cfg)
      && forall e :: e in AgentEnv(name, r) && Names(OperatorEnv(name, cfg), e.name) ==> e in OperatorEnv(name, cfg)
  {
    var r := Extended(cfg, name, enc, extra);
    var managed, kept := OperatorEnv(name, cfg), r.extraEnv;
    assert OperatorEnv(name, r) == managed;
    OperatorEnvOrdered(name, cfg);
    EachEntryKeptOrIgnored(managed, extra);
    KeptAndIgnoredWereAsked(managed, extra);
    var env := managed + kept;
    forall i, j | 0 <= i < j < |env| ensures EnvName(env[i]) != EnvName(env[j]) {
      if i < |managed| <= j {
        assert env[i] in managed && env[j] in kept;
      } else if j < |managed| {
        assert Position(managed[i].name) < Position(managed[j].name);
      } else {
        assert EnvName(kept[i - |managed|]) != EnvName(kept[j - |managed|]);
      }
    }
  }

  // ---- the --agent-env flags ----

  /** strings.Cut at the first '='. */
  function CutFlag(s: string): Option<EnvVar> {
    if s == "" then None
    else if s[0] == '=' then Some(EnvVar("", Literal(s[1..])))
    else match CutFlag(s[1..])
         case None => None
         case Some(e) => Some(EnvVar([s[0]] + e.name, e.source))
  }

  /** NAME=VALUE, split at the first '='; the value may hold more of them. */
  lemma {:induction false} CutFlagSplits(s: string)
    ensures match CutFlag(s)
            case Some(e) => e.source.Literal? && s == e.name + "=" + e.source.text && '=' !in e.name
            case None => '=' !in s
  {
    if s != "" && s[0] != '=' {
      CutFlagSplits(s[1..]);
      assert s == [s[0]] + s[1..];
    }
  }

  predicate ValidFlag(s: string, validName: string -> bool) {
    CutFlag(s).Some? && validName(CutFlag(s).value.name)
  }

  /** The entries read off flags that are all well formed. */
  function Flags(entries: seq<string>, validName: string -> bool): seq<EnvVar>
    requires forall s :: s in entries ==> ValidFlag(s, validName)
  {
    seq(|entries|, i requires 0 <= i < |entries| =>
      assert ValidFlag(entries[i], validName);
      CutFlag(entries[i]).value)
  }

  ghost predicate Acceptable(entries: seq<string>, validName: string -> bool) {
    (forall s :: s in entries ==> ValidFlag(s, validName)) && DistinctBy(Flags(entries, validName), EnvName)
  }

  /** ParseAgentEnv: refused exactly when some flag is malformed, misnamed or repeated; else sorted by name. */
  method ParseAgentEnv(entries: seq<string>, validName: string -> bool) returns (r: Option<seq<EnvVar>>)
    ensures r.Some? <==> Acceptable(entries, validName)
    ensures r.Some? ==> r.value == SortBy(Flags(entries, validName), EnvName) && StrictlySortedBy(r.value, EnvName)
  {
    var env := [];
    for i := 0 to |entries|
      invariant Acceptable(entries[..i], validName) && env == Flags(entries[..i], validName)
    {
      var e := CutFlag(entries[i]);
      assert entries[i] in entries;
      if e.None? || !validName(e.value.name) {
        return None;
      }
      ghost var before := entries[..i];
      assert entries[..i + 1] == before + [entries[i]];
      if exists k :: 0 <= k < |env| && env[k].name == e.value.name {
        ghost var k :| 0 <= k < |env| && env[k].name == e.value.name;
        assert ValidFlag(before[k], validName) && before[k] == entries[k];
        RepeatedFlag(entries, validName, k, i);
        return None;
      }
      assert Flags(entries[..i + 1], validName) == env + [e.value];
      env := env + [e.value];
    }
    assert entries[..|entries|] == entries;
    SortBySorts(env, EnvName);
    r := Some(SortBy(env, EnvName));
  }

  lemma RepeatedFlag(entries: seq<string>, validName: string -> bool, k: nat, i: nat)
    requires k < i < |entries| && CutFlag(entries[k]).Some? && CutFlag(entries[i]).Some?
    requires CutFlag(entries[k]).value.name == CutFlag(entries[i]).value.name
    ensures !Acceptable(entries, validName)
  {
    if forall s :: s in entries ==> ValidFlag(s, validName) {
      var fs := Flags(entries, validName);
      assert EnvName(fs[k]) == EnvName(fs[i]);
    }
  }

  lemma AcceptableShuffled(entries: seq<string>, shuffled: seq<string>, validName: string -> bool)
    requires multiset(entries) == multiset(shuffled) && Acceptable(entries, validName)
    ensures Acceptable(shuffled, validName)
  {
    forall s ensures s in shuffled <==> s in entries {
      assert s in multiset(shuffled) <==> s in multiset(entries);
    }
    var fs, gs := Flags(entries, validName), Flags(shuffled, validName);
    forall i, j | 0 <= i < j < |gs| ensures EnvName(gs[i]) != EnvName(gs[j]) {
      var p, q := TwoPlaces(shuffled, entries, i, j);
      assert fs[p] == gs[i] && fs[q] == gs[j];
      assert if p < q then EnvName(fs[p]) != EnvName(fs[q]) else EnvName(fs[q]) != EnvName(fs[p]);
    }
  }

  /** The order of the flags never matters: neither whether they are accepted, nor what they give. */
  lemma FlagOrderIrrelevant(entries: seq<string>, shuffled: seq<string>, validName: string -> bool)
    requires multiset(entries) == multiset(shuffled)
    ensures Acceptable(entries, validName) <==> Acceptable(shuffled, validName)
    ensures Acceptable(entries, validName) ==>
              SortBy(Flags(entries, validName), EnvName) == SortBy(Flags(shuffled, validName), EnvName)
  {
    if Acceptable(shuffled, validName) {
      AcceptableShuffled(shuffled, entries, validName);
    }
    if Acceptable(entries, validName) {
      AcceptableShuffled(entries, shuffled, validName);
      SameFlags(entries, shuffled, validName);
    }
  }

  lemma SameFlags(entries: seq<string>, shuffled: seq<string>, validName: string -> bool)
    requires multiset(entries) == multiset(shuffled) && Acceptable(entries, validName)
    requires Acceptable(shuffled, validName)
    ensures SortBy(Flags(entries, validName), EnvName) == SortBy(Flags(shuffled, validName), EnvName)
  {
    var fs, gs := Flags(entries, validName), Flags(shuffled, validName);
    FlagsOf(entries, shuffled, validName);
    FlagsOf(shuffled, entries, validName);
    SortBySorts(fs, EnvName);
    SortBySorts(gs, EnvName);
    SortByContents(fs, EnvName);
    SortByContents(gs, EnvName);
    SortedListsAgree(SortBy(fs, EnvName), SortBy(gs, EnvName), EnvName);
  }

  lemma FlagsOf(entries: seq<string>, shuffled: seq<string>, validName: string -> bool)
    requires multiset(entries) == multiset(shuffled) && Acceptable(entries, validName)
    requires Acceptable(shuffled, validName)
    ensures Elements(Flags(entries, validName)) <= Elements(Flags(shuffled, validName))
  {
    var fs, gs := Flags(entries, validName), Flags(shuffled, validName);
    forall e | e in Elements(fs) ensures e in Elements(gs) {
      var i :| 0 <= i < |fs| && fs[i] == e;
      assert entries[i] in multiset(shuffled);
      var j :| 0 <= j < |shuffled| && shuffled[j] == entries[i];
      assert gs[j] == e;
    }
  }
}
