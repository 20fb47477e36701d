/**
 * The agent's optimistic-concurrency loop: read, wait or render, recheck, apply, and write status
 * under the version read first, with anybody's edits interleaved before every call.
 */
module AgentController {
  import opened Text
  import opened Conventions
  import Environment
  import opened Api
  import opened AgentRender
  import opened AgentHash
  import opened AgentMeaning
  import opened AgentDeploy

  // ---- what is stored ----

  datatype Phase = NoPhase | WaitingForTunnel | Pending | Ready

  /** The four conditions that count; None where one was never set. */
  datatype AgentStatus = AgentStatus(
    phase: Phase,
    tunnelReady: Option<bool>,
    configRendered: Option<bool>,
    portsAllocated: Option<bool>,
    workloadAvailable: Option<bool>,
    observedGeneration: nat,
    observedConfigHash: string)

  datatype StoredAgent = StoredAgent(uid: nat, generation: nat, resourceVersion: nat, deleting: bool, spec: AgentSpec,
                                     status: AgentStatus)

  datatype StoredTunnel = StoredTunnel(resourceVersion: nat, inviteID: string, allocations: seq<PortAllocation>,
                                       tokenSecretRef: bool)

  datatype TokenSecret = TokenSecret(token: string, inviteID: string)

  /** The objects one agent's reconcile reads, and every spec, agent version and tunnel version there ever was. */
  datatype Cluster = Cluster(
    agent: Option<StoredAgent>,
    tunnel: Option<StoredTunnel>,
    token: Option<TokenSecret>,
    deployment: Option<Deployment>,
    available: bool,
    clock: nat,
    specs: map<(nat, nat), AgentSpec>,
    versions: map<nat, StoredAgent>,
    tunnels: map<nat, StoredTunnel>)

  /** What the operator is started with: encoders, digest, extra environment, security defaults. */
  datatype Setup = Setup(enc: Encoders, digest: string -> string, extra: seq<EnvVar>, defaults: Defaults)

  /** The config for a spec and a tunnel, and its hash. */
  function ConfigFor(setup: Setup, spec: AgentSpec, t: StoredTunnel): Config {
    Extended(Rendered(spec, t.allocations, t.inviteID, setup.enc), spec.Name(), setup.enc, setup.extra)
  }

  function HashFor(setup: Setup, spec: AgentSpec, t: StoredTunnel): string {
    setup.digest(HashInput(ConfigFor(setup, spec, t)))
  }

  function DeploymentFor(setup: Setup, spec: AgentSpec, t: StoredTunnel): (d: Deployment)
    ensures |d.template.spec.containers| == 1
  {
    BuildDeployment(spec, ConfigFor(setup, spec, t), HashFor(setup, spec, t), setup.defaults)
  }

  /**
   * The Deployment says what the spec and the tunnel's status say, variable by variable: each list of services under
   * its own name, exactly those with a port, in order, at the port recorded; and the hash is of a config that says so.
   */
  lemma DeploymentAsDeclared(setup: Setup, spec: AgentSpec, t: StoredTunnel)
    ensures var d, cfg := DeploymentFor(setup, spec, t), ConfigFor(setup, spec, t);
      && AsDeclared(d, spec, setup.defaults)
      && TellsAll(d.template.spec.containers[0].env, setup.extra, spec, t.allocations, setup.enc)
      && ConfigFits(cfg, spec, t.allocations, t.inviteID, setup.enc)
      && d.template.annotations == map["towonel.io/config-hash" := setup.digest(HashInput(cfg))]
  {
    var rendered := Rendered(spec, t.allocations, t.inviteID, setup.enc);
    RenderedFits(spec, t.allocations, t.inviteID, setup.enc);
    ExtendedEnvTells(rendered, spec, t.allocations, t.inviteID, setup.enc, setup.extra);
    ExtendedFits(rendered, spec, t.allocations, t.inviteID, setup.enc, setup.extra);
    BuiltAsDeclared(spec, ConfigFor(setup, spec, t), HashFor(setup, spec, t), setup.defaults, t.allocations, t.inviteID,
                    setup.enc);
    hide Rendered, Extended, ConfigFits, TellsAll, AsDeclared, AgentEnv, HashInput;
  }

  /** No environment rendered names anything twice, and the operator's variables keep the operator's values. */
  lemma RenderedEnvIsOurs(setup: Setup, spec: AgentSpec, t: StoredTunnel)
    requires DistinctBy(setup.extra, EnvName)
    ensures var env := DeploymentFor(setup, spec, t).template.spec.containers[0].env;
      var ours := OperatorEnv(spec.Name(), ConfigFor(setup, spec, t));
      && DistinctBy(env, EnvName)
      && (forall e :: e in ours ==> e in env)
      && forall e :: e in env && AgentRender.Names(ours, e.name) ==> e in ours
  {
    ReconciledIsBuilt(spec, t.allocations, t.inviteID, setup.enc, setup.extra);
  }

  /**
   * Of two Deployments of ours for one agent, the second is written over the first exactly when they differ in
   * substance.
   */
  lemma RewrittenOnlyIfDifferent(setup: Setup, a: AgentSpec, t: StoredTunnel, b: AgentSpec, u: StoredTunnel)
    requires a.Key() == b.Key() && DistinctBy(setup.extra, EnvName)
    requires Encodes(setup.enc, ConfigFor(setup, a, t), ConfigFor(setup, b, u))
    requires AllNulFree(Fields(ConfigFor(setup, a, t))) && AllNulFree(Fields(ConfigFor(setup, b, u)))
    requires HashFor(setup, a, t) == HashFor(setup, b, u) ==>
               HashInput(ConfigFor(setup, a, t)) == HashInput(ConfigFor(setup, b, u))
    ensures var current, desired := DeploymentFor(setup, a, t), DeploymentFor(setup, b, u);
      DeploymentNeedsWrite(current, desired) <==>
        current.template != desired.template || current.replicas != desired.replicas
  {
    ReconciledIsBuilt(a, t.allocations, t.inviteID, setup.enc, setup.extra);
    ReconciledIsBuilt(b, u.allocations, u.inviteID, setup.enc, setup.extra);
    WriteSuppressionExact(a, ConfigFor(setup, a, t), b, ConfigFor(setup, b, u), setup.enc, setup.digest,
                          setup.defaults);
  }

  // ---- other people's edits ----

  datatype Edit =
    | EditSpec(spec: AgentSpec)
    | TouchAgent
    | MarkDeleting
    | RemoveAgent
    | CreateAgent(spec: AgentSpec)
    | EditTunnel(inviteID: string, allocations: seq<PortAllocation>, tokenSecretRef: bool)
    | RemoveTunnel
    | SetToken(token: Option<TokenSecret>)
    | SetDeployment(deployment: Option<Deployment>, available: bool)

  const NO_STATUS := AgentStatus(NoPhase, None, None, None, None, 0, "")

  /** Store the agent at a fresh version, remembering the spec of its generation. */
  function PutAgent(c: Cluster, a: StoredAgent): Cluster {
    var b := a.(resourceVersion := c.clock + 1);
    c.(agent := Some(b), clock := c.clock + 1, specs := c.specs[(b.uid, b.generation) := b.spec],
       versions := c.versions[b.resourceVersion := b])
  }

  function Edited(c: Cluster, edit: Edit): Cluster {
    match edit
    case EditSpec(spec) =>
      if c.agent.None? || spec == c.agent.value.spec then c
      else PutAgent(c, c.agent.value.(spec := spec, generation := c.agent.value.generation + 1))
    case TouchAgent => if c.agent.None? then c else PutAgent(c, c.agent.value)
    case MarkDeleting => if c.agent.None? then c else PutAgent(c, c.agent.value.(deleting := true))
    case RemoveAgent => c.(agent := None)
    case CreateAgent(spec) =>
      if c.agent.Some? then c else PutAgent(c, StoredAgent(c.clock + 1, 1, 0, false, spec, NO_STATUS))
    case EditTunnel(inviteID, allocations, ref) =>
      var t := StoredTunnel(c.clock + 1, inviteID, allocations, ref);
      c.(tunnel := Some(t), clock := c.clock + 1, tunnels := c.tunnels[t.resourceVersion := t])
    case RemoveTunnel => c.(tunnel := None)
    case SetToken(token) => c.(token := token)
    case SetDeployment(d, available) => c.(deployment := d, available := available)
  }

  // ---- what holds of every persisted status ----

  /** Ready means all four conditions; waiting means the tunnel is known not to be ready. */
  ghost predicate PhaseFits(s: AgentStatus) {
    && (s.phase == Ready <==> s.tunnelReady == Some(true) && s.configRendered == Some(true)
                              && s.portsAllocated == Some(true) && s.workloadAvailable == Some(true))
    && (s.phase == WaitingForTunnel <==> s.tunnelReady == Some(false))
  }

  /** The hash in status is that of the spec at the generation in status, for a tunnel there was. */
  ghost predicate HashFits(setup: Setup, c: Cluster, uid: nat, s: AgentStatus) {
    && (uid, s.observedGeneration) in c.specs
    && exists v :: v in c.tunnels
         && s.observedConfigHash == HashFor(setup, c.specs[(uid, s.observedGeneration)], c.tunnels[v])
  }

  ghost predicate StatusSound(setup: Setup, c: Cluster, uid: nat, s: AgentStatus) {
    PhaseFits(s) && (s.phase == Ready ==> HashFits(setup, c, uid, s))
  }

  ghost predicate Inv(setup: Setup, c: Cluster) {
    && (c.agent.Some? ==>
          var a := c.agent.value;
          && a.uid <= c.clock && a.resourceVersion in c.versions && c.versions[a.resourceVersion] == a
          && (a.uid, a.generation) in c.specs && c.specs[(a.uid, a.generation)] == a.spec
          && (forall k :: k in c.specs && k.0 == a.uid ==> k.1 <= a.generation)
          && StatusSound(setup, c, a.uid, a.status))
    && (c.tunnel.Some? ==>
        c.tunnel.value.resourceVersion in c.tunnels && c.tunnels[c.tunnel.value.resourceVersion] == c.tunnel.value)
    && (forall k :: k in c.specs ==> k.0 <= c.clock)
    && (forall v :: v in c.versions ==> v <= c.clock)
    && (forall v :: v in c.tunnels ==> v <= c.clock)
  }

  /** Nothing ever stored is forgotten or rewritten. */
  ghost predicate Remembers(c: Cluster, d: Cluster) {
    && c.clock <= d.clock
    && (forall k :: k in c.specs ==> k in d.specs && d.specs[k] == c.specs[k])
    && (forall v :: v in c.versions ==> v in d.versions && d.versions[v] == c.versions[v])
    && (forall v :: v in c.tunnels ==> v in d.tunnels && d.tunnels[v] == c.tunnels[v])
  }

  lemma SoundnessLasts(setup: Setup, c: Cluster, d: Cluster, uid: nat, s: AgentStatus)
    requires Remembers(c, d) && StatusSound(setup, c, uid, s)
    ensures StatusSound(setup, d, uid, s)
  {
    if s.phase == Ready {
      var v :| v in c.tunnels
          && s.observedConfigHash == HashFor(setup, c.specs[(uid, s.observedGeneration)], c.tunnels[v]);
      assert v in d.tunnels && d.tunnels[v] == c.tunnels[v];
    }
  }

  lemma PutKeepsInv(setup: Setup, c: Cluster, a: StoredAgent)
    requires Inv(setup, c) && a.uid <= c.clock + 1
    requires (a.uid, a.generation) in c.specs ==> c.specs[(a.uid, a.generation)] == a.spec
    requires forall k :: k in c.specs && k.0 == a.uid ==> k.1 <= a.generation
    requires StatusSound(setup, c, a.uid, a.status)
    ensures Inv(setup, PutAgent(c, a)) && Remembers(c, PutAgent(c, a))
  {
    SoundnessLasts(setup, c, PutAgent(c, a), a.uid, a.status);
  }

  lemma EditTunnelKeepsInv(setup: Setup, c: Cluster, edit: Edit)
    requires Inv(setup, c) && edit.EditTunnel?
    ensures Inv(setup, Edited(c, edit)) && Remembers(c, Edited(c, edit))
  {
    var d := Edited(c, edit);
    assert Remembers(c, d);
    if c.agent.Some? {
      SoundnessLasts(setup, c, d, c.agent.value.uid, c.agent.value.status);
    }
  }

  lemma EditSpecKeepsInv(setup: Setup, c: Cluster, spec: AgentSpec)
    requires Inv(setup, c)
    ensures Inv(setup, Edited(c, EditSpec(spec))) && Remembers(c, Edited(c, EditSpec(spec)))
  {
    if c.agent.Some? && spec != c.agent.value.spec {
      PutKeepsInv(setup, c, c.agent.value.(spec := spec, generation := c.agent.value.generation + 1));
    }
  }

  lemma SameSpecKeepsInv(setup: Setup, c: Cluster, edit: Edit)
    requires Inv(setup, c) && (edit.TouchAgent? || edit.MarkDeleting?)
    ensures Inv(setup, Edited(c, edit)) && Remembers(c, Edited(c, edit))
  {
    if c.agent.Some? {
      PutKeepsInv(setup, c, if edit.TouchAgent? then c.agent.value else c.agent.value.(deleting := true));
    }
  }

  lemma CreateKeepsInv(setup: Setup, c: Cluster, spec: AgentSpec)
    requires Inv(setup, c)
    ensures Inv(setup, Edited(c, CreateAgent(spec))) && Remembers(c, Edited(c, CreateAgent(spec)))
  {
    if c.agent.None? {
      PutKeepsInv(setup, c, StoredAgent(c.clock + 1, 1, 0, false, spec, NO_STATUS));
    }
  }

  lemma EditKeepsInv(setup: Setup, c: Cluster, edit: Edit)
    requires Inv(setup, c)
    ensures Inv(setup, Edited(c, edit)) && Remembers(c, Edited(c, edit))
  {
    match edit
    case EditSpec(spec) => EditSpecKeepsInv(setup, c, spec);
    case TouchAgent => SameSpecKeepsInv(setup, c, edit);
    case MarkDeleting => SameSpecKeepsInv(setup, c, edit);
    case CreateAgent(spec) => CreateKeepsInv(setup, c, spec);
    case EditTunnel(_, _, _) => EditTunnelKeepsInv(setup, c, edit);
    case _ => OtherObjectsKeepInv(setup, c, Edited(c, edit));
  }

  lemma OtherObjectsKeepInv(setup: Setup, c: Cluster, d: Cluster)
    requires Inv(setup, c) && d.clock == c.clock && d.specs == c.specs && d.versions == c.versions
    requires d.tunnels == c.tunnels
    requires (d.agent == c.agent || d.agent == None) && (d.tunnel == c.tunnel || d.tunnel == None)
    ensures Inv(setup, d) && Remembers(c, d)
  {
    if d.agent.Some? {
      SoundnessLasts(setup, c, d, d.agent.value.uid, d.agent.value.status);
    }
  }

  // ---- what the reconciler itself may do ----

  /**
   * Who brought a state about: somebody's edit, a call of ours being answered, or what such a call did. A Deployment of
   * ours names the two instants at which agent and tunnel were looked at again.
   */
  datatype Actor = Beginning | Theirs(edit: Edit) | Asked | WroteStatus | Applied(at: nat, to: nat)

  /** A state, whose doing it is, and how many calls we had made by then. */
  datatype Moment = Moment(c: Cluster, who: Actor, calls: nat)

  /** A status write that landed: only status and version differ, and what it says is true. */
  ghost predicate WritesStatus(setup: Setup, c: Cluster, d: Cluster) {
    && c.agent.Some?
    && exists s :: StatusSound(setup, c, c.agent.value.uid, s) && s.observedGeneration == c.agent.value.generation
                   && d == PutAgent(c, c.agent.value.(status := s))
  }

  /** Each thing we do is what the call just answered did. */
  ghost predicate MomentStep(setup: Setup, x: Moment, y: Moment) {
    match y.who
    case Beginning => false
    case Theirs(edit) => y.c == Edited(x.c, edit) && y.calls == x.calls
    case Asked => y.c == x.c && y.calls == x.calls + 1
    case WroteStatus => x.who.Asked? && y.calls == x.calls && WritesStatus(setup, x.c, y.c)
    case Applied(_, _) => x.who.Asked? && y.calls == x.calls && y.c == x.c.(deployment := y.c.deployment)
  }

  /** The Deployment for the agent and tunnel stored at that instant. */
  ghost predicate IsFor(setup: Setup, inputs: Cluster, d: Deployment) {
    inputs.agent.Some? && inputs.tunnel.Some? && d == DeploymentFor(setup, inputs.agent.value.spec, inputs.tunnel.value)
  }

  ghost predicate AppliesFrom(setup: Setup, inputs: Cluster, d: Cluster) {
    d.deployment.Some? && IsFor(setup, inputs, d.deployment.value)
  }

  /** Two calls in a row, the second of which still found the tunnel that stood at the first. */
  ghost predicate Rechecked(h: seq<Moment>, at: nat, to: nat) {
    && at < to < |h| && h[at].who.Asked? && h[to].who.Asked? && h[to].calls == h[at].calls + 1
    && h[to].c.tunnel == h[at].c.tunnel
  }

  /**
   * A Deployment of ours is for the agent that stood three calls earlier, and for the tunnel that stood then and at the
   * call after it: nothing but the read of the Deployment lies between that and the apply.
   */
  ghost predicate FreshAt(h: seq<Moment>, setup: Setup, i: nat)
    requires i < |h|
  {
    h[i].who.Applied? ==>
      var at, to := h[i].who.at, h[i].who.to;
      to < i && Rechecked(h, at, to) && h[i].calls == h[to].calls + 2 && AppliesFrom(setup, h[at].c, h[i].c)
  }

  /** Everything there has been, from a sound beginning: every Deployment of ours fresh, every status of ours sound. */
  ghost predicate Run(h: seq<Moment>, setup: Setup) {
    h != [] && forall i :: 0 <= i < |h| ==> FollowsAt(h, setup, i)
  }

  ghost predicate FollowsAt(h: seq<Moment>, setup: Setup, i: nat)
    requires i < |h|
  {
    if i == 0 then Inv(setup, h[0].c) && h[0].who.Beginning?
    else MomentStep(setup, h[i - 1], h[i]) && FreshAt(h, setup, i)
  }

  lemma StepAt(run: seq<Moment>, setup: Setup, i: nat)
    requires Run(run, setup) && 0 < i < |run|
    ensures MomentStep(setup, run[i - 1], run[i])
  {
    assert FollowsAt(run, setup, i);
  }

  lemma StatusWriteKeepsInv(setup: Setup, c: Cluster, d: Cluster)
    requires Inv(setup, c) && WritesStatus(setup, c, d)
    ensures Inv(setup, d) && Remembers(c, d)
  {
    var s :| StatusSound(setup, c, c.agent.value.uid, s) && s.observedGeneration == c.agent.value.generation
             && d == PutAgent(c, c.agent.value.(status := s));
    PutKeepsInv(setup, c, c.agent.value.(status := s));
  }

  lemma MomentKeepsInv(setup: Setup, x: Moment, y: Moment)
    requires Inv(setup, x.c) && MomentStep(setup, x, y)
    ensures Inv(setup, y.c) && Remembers(x.c, y.c)
  {
    match y.who
    case Theirs(edit) => EditKeepsInv(setup, x.c, edit);
    case WroteStatus => StatusWriteKeepsInv(setup, x.c, y.c);
    case _ => OtherObjectsKeepInv(setup, x.c, y.c);
  }

  /** Every status persisted in any run, whoever edits what in between, is sound. */
  lemma {:induction false} RunIsSound(run: seq<Moment>, setup: Setup, i: nat)
    requires Run(run, setup) && i < |run|
    ensures Inv(setup, run[i].c)
  {
    if i == 0 {
      assert FollowsAt(run, setup, 0);
    } else {
      RunIsSound(run, setup, i - 1);
      StepAt(run, setup, i);
      MomentKeepsInv(setup, run[i - 1], run[i]);
    }
  }

  lemma {:induction false} RunRemembers(run: seq<Moment>, setup: Setup, i: nat, j: nat)
    requires Run(run, setup) && i <= j < |run|
    ensures Remembers(run[i].c, run[j].c)
  {
    if i < j {
      RunRemembers(run, setup, i, j - 1);
      RunIsSound(run, setup, j - 1);
      StepAt(run, setup, j);
      MomentKeepsInv(setup, run[j - 1], run[j]);
      RemembersOn(run[i].c, run[j - 1].c, run[j].c);
    }
  }

  lemma RemembersOn(b: Cluster, c: Cluster, d: Cluster)
    requires Remembers(b, c) && Remembers(c, d)
    ensures Remembers(b, d)
  {}

  // ---- what a version and a generation tell ----

  /** One generation of one agent has one spec, and one version is one object. */
  lemma GenerationFixesSpec(run: seq<Moment>, setup: Setup, i: nat, j: nat)
    requires Run(run, setup) && i <= j < |run| && run[i].c.agent.Some? && run[j].c.agent.Some?
    ensures var a, b := run[i].c.agent.value, run[j].c.agent.value;
      && (a.uid == b.uid && a.generation == b.generation ==> a.spec == b.spec)
      && (a.resourceVersion == b.resourceVersion ==> a == b)
  {
    RunIsSound(run, setup, i);
    RunIsSound(run, setup, j);
    RunRemembers(run, setup, i, j);
  }

  /** A tunnel found at the version it was read at has stood unchanged all the time between. */
  lemma TunnelStoodBetween(run: seq<Moment>, setup: Setup, i: nat, k: nat, j: nat)
    requires Run(run, setup) && i <= k <= j < |run| && run[i].c.tunnel.Some? && run[j].c.tunnel.Some?
    requires run[i].c.tunnel.value.resourceVersion == run[j].c.tunnel.value.resourceVersion
    ensures run[k].c.tunnel == run[i].c.tunnel
  {
    RunIsSound(run, setup, i);
    RunIsSound(run, setup, j);
    RunRemembers(run, setup, i, j);
    var v := run[i].c.tunnel.value.resourceVersion;
    if !Bears(run[k].c, v) {
      OnceReplacedStaysSo(run, setup, i, k, v);
      StaysReplaced(run, setup, k, j, v);
    } else {
      RunIsSound(run, setup, k);
      RunRemembers(run, setup, i, k);
    }
  }

  /** The tunnel is stored at this version. */
  ghost predicate Bears(c: Cluster, v: nat) {
    c.tunnel.Some? && c.tunnel.value.resourceVersion == v
  }

  lemma OnceReplacedStaysSo(run: seq<Moment>, setup: Setup, i: nat, k: nat, v: nat)
    requires Run(run, setup) && i <= k < |run| && Bears(run[i].c, v) && !Bears(run[k].c, v)
    ensures v <= run[k].c.clock
  {
    RunIsSound(run, setup, i);
    RunRemembers(run, setup, i, k);
  }

  lemma {:induction false} StaysReplaced(run: seq<Moment>, setup: Setup, k: nat, j: nat, v: nat)
    requires Run(run, setup) && k <= j < |run| && !Bears(run[k].c, v) && v <= run[k].c.clock
    ensures !Bears(run[j].c, v)
  {
    if k < j {
      StaysReplaced(run, setup, k, j - 1, v);
      RunRemembers(run, setup, k, j - 1);
      TunnelStep(run, setup, j);
    }
  }

  lemma TunnelStep(run: seq<Moment>, setup: Setup, i: nat)
    requires Run(run, setup) && 0 < i < |run|
    ensures var c, d := run[i - 1].c, run[i].c;
      d.tunnel == c.tunnel || d.tunnel.None? || d.tunnel.value.resourceVersion == c.clock + 1
  {
    StepAt(run, setup, i);
  }

  /** An agent found under the UID and generation it had before has had them all the time between. */
  lemma AgentStoodBetween(run: seq<Moment>, setup: Setup, i: nat, k: nat, j: nat)
    requires Run(run, setup) && i <= k <= j < |run| && run[i].c.agent.Some? && AgentId(run[j].c) == AgentId(run[i].c)
    ensures AgentId(run[k].c) == AgentId(run[i].c)
  {
    var uid := run[i].c.agent.value.uid;
    if !Lives(run[k].c, uid) {
      RunIsSound(run, setup, i);
      RunRemembers(run, setup, i, k);
      StaysGone(run, setup, k, j, uid);
    } else {
      GenerationsGrow(run, setup, i, k);
      GenerationsGrow(run, setup, k, j);
    }
  }

  lemma GenerationsGrow(run: seq<Moment>, setup: Setup, i: nat, j: nat)
    requires Run(run, setup) && i <= j < |run| && run[i].c.agent.Some? && Lives(run[j].c, run[i].c.agent.value.uid)
    ensures run[i].c.agent.value.generation <= run[j].c.agent.value.generation
  {
    RunIsSound(run, setup, i);
    RunIsSound(run, setup, j);
    RunRemembers(run, setup, i, j);
  }

  ghost function AgentId(c: Cluster): Option<(nat, nat)> {
    if c.agent.Some? then Some((c.agent.value.uid, c.agent.value.generation)) else None
  }

  ghost predicate Lives(c: Cluster, uid: nat) {
    c.agent.Some? && c.agent.value.uid == uid
  }

  lemma {:induction false} StaysGone(run: seq<Moment>, setup: Setup, k: nat, j: nat, uid: nat)
    requires Run(run, setup) && k <= j < |run| && !Lives(run[k].c, uid) && uid <= run[k].c.clock
    ensures !Lives(run[j].c, uid)
  {
    if k < j {
      StaysGone(run, setup, k, j - 1, uid);
      RunRemembers(run, setup, k, j - 1);
      UidStep(run, setup, j);
    }
  }

  lemma UidStep(run: seq<Moment>, setup: Setup, i: nat)
    requires Run(run, setup) && 0 < i < |run|
    ensures var c, d := run[i - 1].c, run[i].c;
      d.agent.Some? ==> Lives(c, d.agent.value.uid) || d.agent.value.uid == c.clock + 1
  {
    StepAt(run, setup, i);
  }

  // ---- what can slip past the rechecks ----

  lemma {:induction false} CallsGrow(run: seq<Moment>, setup: Setup, i: nat, j: nat)
    requires Run(run, setup) && i <= j < |run|
    ensures run[i].calls <= run[j].calls
    ensures i < j && run[j].who.Asked? ==> run[i].calls < run[j].calls
  {
    if i < j {
      CallsGrow(run, setup, i, j - 1);
      CallsStep(run, setup, j);
    }
  }

  lemma CallsStep(run: seq<Moment>, setup: Setup, i: nat)
    requires Run(run, setup) && 0 < i < |run|
    ensures run[i].calls == run[i - 1].calls + if run[i].who.Asked? then 1 else 0
  {
    StepAt(run, setup, i);
  }

  lemma OnlyEditsMoveInputs(run: seq<Moment>, setup: Setup, i: nat)
    requires Run(run, setup) && 0 < i < |run|
    ensures SameInputs(run[i - 1].c, run[i].c) || run[i].who.Theirs?
  {
    StepAt(run, setup, i);
  }

  /** The agent in that generation and the tunnel in that version. */
  ghost predicate SameInputs(c: Cluster, d: Cluster) {
    AgentId(c) == AgentId(d) && c.tunnel == d.tunnel
  }

  /**
   * An edit that took, of the agent's spec before one of the last three calls of an apply, or of the tunnel before one
   * of the last two: each later than the call that looked at what it edits.
   */
  ghost predicate Slips(run: seq<Moment>, j: nat, i: nat)
    requires 0 < j < i < |run|
  {
    && run[j].who.Theirs?
    && ((AgentId(run[j].c) != AgentId(run[j - 1].c) && run[i].calls <= run[j].calls + 3)
        || (run[j].c.tunnel != run[j - 1].c.tunnel && run[i].calls <= run[j].calls + 2))
  }

  /**
   * A Deployment of ours is for the very inputs stored as it lands exactly when no edit slips past the rechecks,
   * however much was edited before them.
   */
  lemma AppliedIsCurrentIff(run: seq<Moment>, setup: Setup, i: nat)
    requires Run(run, setup) && i < |run| && run[i].who.Applied?
    ensures run[i].who.at < i
    ensures SameInputs(run[run[i].who.at].c, run[i].c) <==> forall j :: 0 < j < i ==> !Slips(run, j, i)
    ensures SameInputs(run[run[i].who.at].c, run[i].c) ==> AppliesFrom(setup, run[i].c, run[i].c)
  {
    AppliedWindow(run, setup, i);
    var at, to := run[i].who.at, run[i].who.to;
    if SameInputs(run[at].c, run[i].c) {
      StillCurrent(run, setup, i);
      forall j | 0 < j < i ensures !Slips(run, j, i) {
        AgentNotSlipped(run, setup, i, at, j);
        TunnelNotSlipped(run, setup, i, to, j);
      }
    } else if forall j :: 0 < j < i ==> !Slips(run, j, i) {
      AgentKept(run, setup, i, at, i);
      TunnelKept(run, setup, i, to, i);
    }
  }

  lemma AppliedWindow(run: seq<Moment>, setup: Setup, i: nat)
    requires Run(run, setup) && i < |run| && run[i].who.Applied?
    ensures var at, to := run[i].who.at, run[i].who.to;
      && to < i && Rechecked(run, at, to) && run[i].calls == run[to].calls + 2 && run[at].c.agent.Some?
      && run[at].c.tunnel.Some?
  {
    assert FollowsAt(run, setup, i);
  }

  lemma StillCurrent(run: seq<Moment>, setup: Setup, i: nat)
    requires Run(run, setup) && i < |run| && run[i].who.Applied? && run[i].who.at < i
    requires SameInputs(run[run[i].who.at].c, run[i].c)
    ensures AppliesFrom(setup, run[i].c, run[i].c)
  {
    assert FollowsAt(run, setup, i);
    GenerationFixesSpec(run, setup, run[i].who.at, i);
  }

  lemma AgentNotSlipped(run: seq<Moment>, setup: Setup, i: nat, at: nat, j: nat)
    requires Run(run, setup) && at < i < |run| && 0 < j < i && run[at].who.Asked? && run[i].calls == run[at].calls + 3
    requires run[at].c.agent.Some? && AgentId(run[at].c) == AgentId(run[i].c)
    ensures AgentId(run[j].c) == AgentId(run[j - 1].c) || run[i].calls > run[j].calls + 3 || !run[j].who.Theirs?
  {
    if j < at {
      CallsGrow(run, setup, j, at);
    } else if at < j {
      AgentStoodBetween(run, setup, at, j - 1, i);
      AgentStoodBetween(run, setup, at, j, i);
    }
  }

  lemma TunnelNotSlipped(run: seq<Moment>, setup: Setup, i: nat, to: nat, j: nat)
    requires Run(run, setup) && to < i < |run| && 0 < j < i && run[to].who.Asked? && run[i].calls == run[to].calls + 2
    requires run[to].c.tunnel.Some? && run[to].c.tunnel == run[i].c.tunnel
    ensures run[j].c.tunnel == run[j - 1].c.tunnel || run[i].calls > run[j].calls + 2 || !run[j].who.Theirs?
  {
    if j < to {
      CallsGrow(run, setup, j, to);
    } else if to < j {
      TunnelStoodBetween(run, setup, to, j - 1, i);
      TunnelStoodBetween(run, setup, to, j, i);
    }
  }

  lemma {:induction false} AgentKept(run: seq<Moment>, setup: Setup, i: nat, at: nat, k: nat)
    requires Run(run, setup) && at <= k <= i < |run| && run[i].calls == run[at].calls + 3 && !run[i].who.Theirs?
    requires forall j :: 0 < j < i ==> !Slips(run, j, i)
    ensures AgentId(run[k].c) == AgentId(run[at].c)
  {
    if at < k {
      AgentKept(run, setup, i, at, k - 1);
      OnlyEditsMoveInputs(run, setup, k);
      CallsGrow(run, setup, at, k);
      assert k < i ==> !Slips(run, k, i);
    }
  }

  lemma {:induction false} TunnelKept(run: seq<Moment>, setup: Setup, i: nat, to: nat, k: nat)
    requires Run(run, setup) && to <= k <= i < |run| && run[i].calls == run[to].calls + 2 && !run[i].who.Theirs?
    requires forall j :: 0 < j < i ==> !Slips(run, j, i)
    ensures run[k].c.tunnel == run[to].c.tunnel
  {
    if to < k {
      TunnelKept(run, setup, i, to, k - 1);
      OnlyEditsMoveInputs(run, setup, k);
      CallsGrow(run, setup, to, k);
      assert k < i ==> !Slips(run, k, i);
    }
  }

  /** Not an edit of the agent's spec or of the tunnel. */
  ghost predicate LeavesInputs(who: Actor) {
    who.Theirs? ==> who.edit.TouchAgent? || who.edit.MarkDeleting? || who.edit.SetToken? || who.edit.SetDeployment?
  }

  /**
   * If nobody edits spec or tunnel before the last three calls of an apply, its Deployment is the one for what is
   * stored as it lands, whatever was edited earlier in the attempt.
   */
  lemma RestingInputsGetTheirDeployment(run: seq<Moment>, setup: Setup, i: nat)
    requires Run(run, setup) && i < |run| && run[i].who.Applied?
    requires forall j :: 0 < j < i && run[i].calls <= run[j].calls + 3 ==> LeavesInputs(run[j].who)
    ensures AppliesFrom(setup, run[i].c, run[i].c)
  {
    forall j | 0 < j < i ensures !Slips(run, j, i) {
      LeftAsIs(run, setup, j);
    }
    AppliedIsCurrentIff(run, setup, i);
  }

  lemma LeftAsIs(run: seq<Moment>, setup: Setup, j: nat)
    requires Run(run, setup) && 0 < j < |run|
    ensures LeavesInputs(run[j].who) ==> SameInputs(run[j - 1].c, run[j].c)
  {
    StepAt(run, setup, j);
  }

  /** And such edits do slip by: from any sound cluster, with any spec asked for after the agent was looked at again. */
  lemma EditCanSlipPastRechecks(setup: Setup, c: Cluster, spec: AgentSpec) returns (run: seq<Moment>)
    requires Inv(setup, c) && c.agent.Some? && c.tunnel.Some?
    ensures Run(run, setup) && run[0].c == c && run[|run| - 1].who.Applied?
    ensures run[|run| - 1].c.agent.Some? && run[|run| - 1].c.agent.value.spec == spec
    ensures run[|run| - 1].c.deployment == Some(DeploymentFor(setup, c.agent.value.spec, c.tunnel.value))
  {
    hide DeploymentFor, Inv;
    var d, desired := Edited(c, EditSpec(spec)), DeploymentFor(setup, c.agent.value.spec, c.tunnel.value);
    run := [Moment(c, Beginning, 0), Moment(c, Asked, 1), Moment(c, Asked, 2), Moment(d, Theirs(EditSpec(spec)), 2),
            Moment(d, Asked, 3), Moment(d, Asked, 4), Moment(d.(deployment := Some(desired)), Applied(1, 2), 4)];
    assert FreshAt(run, setup, 6);
  }

  // ---- what a history tells of the others ----

  /** The edits of others a history records, oldest first, each with the number of calls made before it. */
  ghost function EditsIn(h: seq<Moment>): seq<(nat, Edit)> {
    if h == [] then []
    else
      var last := h[|h| - 1];
      EditsIn(h[..|h| - 1]) + if last.who.Theirs? then [(last.calls, last.who.edit)] else []
  }

  lemma EditsInNext(h: seq<Moment>, m: Moment)
    ensures EditsIn(h + [m]) == EditsIn(h) + if m.who.Theirs? then [(m.calls, m.who.edit)] else []
  {
    assert (h + [m])[..|h|] == h;
  }

  ghost function Numbered(edits: seq<Edit>, n: nat): seq<(nat, Edit)> {
    seq(|edits|, i requires 0 <= i < |edits| => (n, edits[i]))
  }

  /** A history that ends here, whose edits of others are exactly those given. */
  ghost predicate Told(h: seq<Moment>, c: Cluster, calls: nat, setup: Setup, edits: seq<(nat, Edit)>) {
    Run(h, setup) && h[|h| - 1].c == c && h[|h| - 1].calls == calls && EditsIn(h) == edits
  }

  lemma ToldNext(h: seq<Moment>, c: Cluster, calls: nat, setup: Setup, edits: seq<(nat, Edit)>, m: Moment)
    requires Told(h, c, calls, setup, edits) && MomentStep(setup, h[|h| - 1], m)
    requires m.who.Applied? ==> FreshAt(h + [m], setup, |h|)
    ensures Told(h + [m], m.c, m.calls, setup, edits + if m.who.Theirs? then [(m.calls, m.who.edit)] else [])
  {
    EditsInNext(h, m);
    var n := h + [m];
    forall i | 0 <= i < |n| ensures FollowsAt(n, setup, i) {
      if i < |h| { assert FollowsAt(h, setup, i); }
    }
  }

  lemma EditTold(h: seq<Moment>, c: Cluster, calls: nat, setup: Setup, edits: seq<(nat, Edit)>, edit: Edit)
    requires Told(h, c, calls, setup, edits)
    ensures Told(h + [Moment(Edited(c, edit), Theirs(edit), calls)], Edited(c, edit), calls, setup,
                 edits + [(calls, edit)])
  {
    ToldNext(h, c, calls, setup, edits, Moment(Edited(c, edit), Theirs(edit), calls));
  }

  lemma CallTold(h: seq<Moment>, c: Cluster, calls: nat, setup: Setup, edits: seq<(nat, Edit)>)
    requires Told(h, c, calls, setup, edits)
    ensures Told(h + [Moment(c, Asked, calls + 1)], c, calls + 1, setup, edits)
  {
    ToldNext(h, c, calls, setup, edits, Moment(c, Asked, calls + 1));
  }

  lemma ApplyTold(h: seq<Moment>, c: Cluster, calls: nat, setup: Setup, edits: seq<(nat, Edit)>, desired: Deployment,
                  at: nat, to: nat)
    requires Told(h, c, calls, setup, edits) && h[|h| - 1].who.Asked?
    requires Rechecked(h, at, to) && calls == h[to].calls + 2 && IsFor(setup, h[at].c, desired)
    ensures var d := c.(deployment := Some(desired));
      Told(h + [Moment(d, Applied(at, to), calls)], d, calls, setup, edits)
  {
    hide IsFor;
    CallsGrow(h, setup, to, |h| - 1);
    ToldNext(h, c, calls, setup, edits, Moment(c.(deployment := Some(desired)), Applied(at, to), calls));
  }

  // ---- the API server ----

  datatype Fault = Delivered | Refused | Lost

  datatype Failure = IsConflict | IsOtherAPI | IsPlain

  class AgentClient {
    var c: Cluster
    var calls: nat
    /** The fate of each call, and what everybody else edits before it. */
    const fault: nat -> Fault
    const others: nat -> seq<Edit>
    /** Every state there has been, and who brought it about. */
    ghost var history: seq<Moment>

    constructor (c: Cluster, fault: nat -> Fault, others: nat -> seq<Edit>, ghost setup: Setup)
      requires Inv(setup, c)
      ensures Valid(setup) && this.c == c && this.fault == fault && this.others == others
      ensures history == [Moment(c, Beginning, 0)]
    {
      this.c, this.fault, this.others, calls, history := c, fault, others, 0, [Moment(c, Beginning, 0)];
    }

    /** The edits others make before the first n calls. */
    ghost function Scheduled(n: nat): seq<(nat, Edit)> {
      if n == 0 then [] else Scheduled(n - 1) + Numbered(others(n - 1), n - 1)
    }

    /** The history accounts for every edit of others, and for no other: whatever else happened is our doing. */
    ghost predicate Valid(setup: Setup)
      reads this
    {
      Told(history, c, calls, setup, Scheduled(calls))
    }

    /** Every call gets through, with nobody else about. */
    ghost predicate Undisturbed() {
      forall i :: fault(i) == Delivered && others(i) == []
    }

    /** Whatever the others do before our next call, and the fate of that call. */
    method Elapse(ghost setup: Setup) returns (f: Fault)
      requires Valid(setup)
      modifies this
      ensures Valid(setup) && old(history) < history && calls == old(calls) + 1
      ensures history[|history| - 1] == Moment(c, Asked, calls)
      ensures Undisturbed() ==> c == old(c) && f.Delivered?
    {
      var edits := others(calls);
      ghost var done := Scheduled(calls);
      for i := 0 to |edits|
        invariant Told(history, c, calls, setup, done + Numbered(edits[..i], calls))
        invariant calls == old(calls) && old(history) <= history && (i == 0 ==> c == old(c))
      {
        EditTold(history, c, calls, setup, done + Numbered(edits[..i], calls), edits[i]);
        assert done + Numbered(edits[..i + 1], calls) == done + Numbered(edits[..i], calls) + [(calls, edits[i])];
        c := Edited(c, edits[i]);
        history := history + [Moment(c, Theirs(edits[i]), calls)];
      }
      assert edits[..|edits|] == edits && Scheduled(calls + 1) == done + Numbered(edits, calls);
      CallTold(history, c, calls, setup, Scheduled(calls + 1));
      history := history + [Moment(c, Asked, calls + 1)];
      f := fault(calls);
      calls := calls + 1;
    }

    /** A status update that lands. */
    method StoreStatus(s: AgentStatus, ghost setup: Setup)
      requires Valid(setup) && history[|history| - 1].who.Asked?
      requires c.agent.Some? && WritesStatus(setup, c, PutAgent(c, c.agent.value.(status := s)))
      modifies this`c, this`history
      ensures Valid(setup) && old(history) <= history && c == PutAgent(old(c), old(c).agent.value.(status := s))
    {
      ghost var m := Moment(PutAgent(c, c.agent.value.(status := s)), WroteStatus, calls);
      ToldNext(history, c, calls, setup, Scheduled(calls), m);
      c := PutAgent(c, c.agent.value.(status := s));
      history := history + [m];
    }

    /** A forced apply that lands, one call after the two rechecks and the read. */
    method Apply(desired: Deployment, ghost at: nat, ghost to: nat, ghost setup: Setup)
      requires Valid(setup) && history[|history| - 1].who.Asked?
      requires Rechecked(history, at, to) && calls == history[to].calls + 2 && IsFor(setup, history[at].c, desired)
      modifies this`c, this`history
      ensures Valid(setup) && old(history) <= history && c == old(c).(deployment := Some(desired))
    {
      hide IsFor;
      ApplyTold(history, c, calls, setup, Scheduled(calls), desired, at, to);
      c := c.(deployment := Some(desired));
      history := history + [Moment(c, Applied(at, to), calls)];
    }

    /** writeStatus: nothing to do if status is as it was read, else an update under the version read. */
    method WriteStatus(ta: StoredAgent, orig: AgentStatus, ghost p: Pass, ghost setup: Setup)
      returns (r: Option<Failure>)
      requires Valid(setup) && Working(history, ta, p) && orig == p.orig
      requires ta.status.observedGeneration == ta.generation && StatusSound(setup, c, ta.uid, ta.status)
      modifies this
      ensures Valid(setup) && old(history) <= history
      ensures r.None? ==> Stored(p.base, history, ta, ta.status)
      ensures Undisturbed() && Untouched(old(c), ta, p) ==> r.None? && Kept(old(c), c, ta)
    {
      if orig == ta.status {
        assert Holds(history[p.read], ta, orig);
        return None;
      }
      ghost var was := |history| - 1;
      var f := Elapse(setup);
      if f.Refused? || c.agent.None? {
        return Some(IsOtherAPI);
      }
      if c.agent.value.resourceVersion != ta.resourceVersion {
        return Some(IsConflict);
      }
      WriteAllowed(history, setup, was, ta, p);
      StoreStatus(ta.status, setup);
      assert Holds(history[|history| - 1], ta, ta.status);
      r := if f.Lost? then Some(IsOtherAPI) else None;
    }
  }

  // ---- one attempt ----

  /** One attempt: where it began, when the agent was read, and the status it had then. */
  datatype Pass = Pass(base: nat, read: nat, orig: AgentStatus)

  /** That very agent, at that generation, with that status. */
  ghost predicate Holds(m: Moment, ta: StoredAgent, s: AgentStatus) {
    && m.c.agent.Some? && m.c.agent.value.uid == ta.uid && m.c.agent.value.generation == ta.generation
    && m.c.agent.value.status == s
  }

  /** At some instant since, the status was stored. */
  ghost predicate Stored(base: nat, h: seq<Moment>, ta: StoredAgent, s: AgentStatus) {
    exists i :: base <= i < |h| && Holds(h[i], ta, s)
  }

  /** Stored as it was read. */
  ghost predicate Untouched(c: Cluster, ta: StoredAgent, p: Pass) {
    c.agent == Some(ta.(status := p.orig))
  }

  /** An in-memory copy of the agent, read in this attempt, its status since edited. */
  ghost predicate Working(h: seq<Moment>, ta: StoredAgent, p: Pass) {
    p.base <= p.read < |h| && Untouched(h[p.read].c, ta, p)
  }

  ghost predicate TunnelSeen(h: seq<Moment>, tunnel: StoredTunnel, seen: nat) {
    seen < |h| && h[seen].c.tunnel == Some(tunnel)
  }

  /** Agent as given, version apart; tunnel and Deployment as before. */
  ghost predicate Kept(c: Cluster, d: Cluster, ta: StoredAgent) {
    && d.agent.Some? && d.agent.value == ta.(resourceVersion := d.agent.value.resourceVersion)
    && d.tunnel == c.tunnel && d.deployment == c.deployment && d.available == c.available
  }

  /** At the version read, the agent is the one read, and what was true of it still is. */
  lemma WriteAllowed(h: seq<Moment>, setup: Setup, was: nat, ta: StoredAgent, p: Pass)
    requires Run(h, setup) && Working(h, ta, p) && was < |h| && StatusSound(setup, h[was].c, ta.uid, ta.status)
    requires ta.status.observedGeneration == ta.generation
    requires h[|h| - 1].c.agent.Some? && h[|h| - 1].c.agent.value.resourceVersion == ta.resourceVersion
    ensures var c := h[|h| - 1].c;
      && c.agent.value == ta.(status := p.orig)
      && WritesStatus(setup, c, PutAgent(c, c.agent.value.(status := ta.status)))
  {
    GenerationFixesSpec(h, setup, p.read, |h| - 1);
    RunRemembers(h, setup, was, |h| - 1);
    SoundnessLasts(setup, h[was].c, h[|h| - 1].c, ta.uid, ta.status);
  }

  datatype Attempt = Done | BeingDeleted | Requeue | Missing | Failed(why: Failure)

  /** errors.Join, as the conflict test sees it: the first API error decides. */
  function FirstOf(cause: Failure, write: Option<Failure>): Failure {
    if cause != IsPlain || write.None? then cause else write.value
  }

  function AfterWrite(w: Option<Failure>, done: Attempt): Attempt {
    if w.Some? then Failed(w.value) else done
  }

  /** markAgentWaiting, the tunnel known not to be ready. */
  function Waiting(ta: StoredAgent): AgentStatus {
    ta.status.(tunnelReady := Some(false), phase := WaitingForTunnel, observedGeneration := ta.generation)
  }

  /** Nothing rendered this time: a failure, or somebody else's Secret. */
  function Unrendered(ta: StoredAgent): AgentStatus {
    ta.status.(configRendered := Some(false), phase := Pending, observedGeneration := ta.generation)
  }

  /** The tunnel is not there yet; all else as it was. */
  ghost predicate SaysWaiting(s: AgentStatus, was: AgentStatus, generation: nat) {
    && s.phase == WaitingForTunnel && s.tunnelReady == Some(false) && s.observedGeneration == generation
    && s.configRendered == was.configRendered && Unasked(s, was)
  }

  /** The tunnel is there, but nothing was rendered; all else as it was. */
  ghost predicate SaysUnrendered(s: AgentStatus, was: AgentStatus, generation: nat) {
    && s.phase == Pending && s.tunnelReady == Some(true) && s.configRendered == Some(false)
    && s.observedGeneration == generation && Unasked(s, was)
  }

  ghost predicate Unasked(s: AgentStatus, was: AgentStatus) {
    && s.portsAllocated == was.portsAllocated && s.workloadAvailable == was.workloadAvailable
    && s.observedConfigHash == was.observedConfigHash
  }

  /** failStatus. */
  method FailStatus(client: AgentClient, ta: StoredAgent, orig: AgentStatus, cause: Failure, ghost p: Pass,
                    ghost setup: Setup)
    returns (r: Attempt)
    requires client.Valid(setup) && Working(client.history, ta, p) && orig == p.orig
    requires ta.status.tunnelReady == Some(true)
    modifies client
    ensures client.Valid(setup) && old(client.history) <= client.history && r.Failed?
    ensures r == Failed(cause) || (cause == IsPlain && r != Failed(IsPlain))
    ensures client.Undisturbed() && Untouched(old(client.c), ta, p) ==>
              r == Failed(cause) && Kept(old(client.c), client.c, ta.(status := Unrendered(ta)))
  {
    var w := client.WriteStatus(ta.(status := Unrendered(ta)), orig, p, setup);
    r := Failed(FirstOf(cause, w));
  }

  /** The gate: the tunnel or its token is not there yet. */
  method MarkWaiting(client: AgentClient, ta: StoredAgent, orig: AgentStatus, ghost p: Pass, ghost setup: Setup)
    returns (r: Attempt)
    requires client.Valid(setup) && Working(client.history, ta, p) && orig == p.orig
    modifies client
    ensures client.Valid(setup) && old(client.history) <= client.history && (r.Requeue? || r.Failed?)
    ensures r.Requeue? ==> Stored(p.base, client.history, ta, Waiting(ta))
    ensures client.Undisturbed() && Untouched(old(client.c), ta, p) ==>
              r.Requeue? && Kept(old(client.c), client.c, ta.(status := Waiting(ta)))
  {
    var w := client.WriteStatus(ta.(status := Waiting(ta)), orig, p, setup);
    r := AfterWrite(w, Requeue);
  }

  /** A token Secret held by somebody else. */
  method MarkSecretClash(client: AgentClient, ta: StoredAgent, orig: AgentStatus, ghost p: Pass, ghost setup: Setup)
    returns (r: Attempt)
    requires client.Valid(setup) && Working(client.history, ta, p) && orig == p.orig
    requires ta.status.tunnelReady == Some(true)
    modifies client
    ensures client.Valid(setup) && old(client.history) <= client.history && (r.Requeue? || r.Failed?)
    ensures r.Requeue? ==> Stored(p.base, client.history, ta, Unrendered(ta))
    ensures client.Undisturbed() && Untouched(old(client.c), ta, p) ==>
              r.Requeue? && Kept(old(client.c), client.c, ta.(status := Unrendered(ta)))
  {
    var w := client.WriteStatus(ta.(status := Unrendered(ta)), orig, p, setup);
    r := AfterWrite(w, Requeue);
  }

  datatype Gate = TokenReady(tunnel: StoredTunnel) | Gated | Unreadable(why: Failure)

  /** The artifacts the gate asks for: a tunnel with a token secret, and a token of the invite status speaks of. */
  predicate Provided(c: Cluster) {
    && c.tunnel.Some? && c.tunnel.value.tokenSecretRef
    && c.token.Some? && c.token.value.token != "" && c.token.value.inviteID == c.tunnel.value.inviteID
  }

  /** readTunnelToken: gate on artifacts, and on the token being the one status speaks of. */
  method ReadTunnelToken(client: AgentClient, ghost setup: Setup) returns (g: Gate, ghost seen: nat)
    requires client.Valid(setup)
    modifies client
    ensures client.Valid(setup) && old(client.history) <= client.history
    ensures g.TokenReady? ==>
              |old(client.history)| - 1 <= seen && TunnelSeen(client.history, g.tunnel, seen) && g.tunnel.tokenSecretRef
    ensures client.Undisturbed() ==>
              && client.c == old(client.c)
              && g == if Provided(client.c) then TokenReady(client.c.tunnel.value) else Gated
  {
    seen := 0;
    var f := client.Elapse(setup);
    if !f.Delivered? {
      g := Unreadable(IsOtherAPI);
      return;
    }
    if client.c.tunnel.None? || !client.c.tunnel.value.tokenSecretRef {
      g := Gated;
      return;
    }
    var tunnel := client.c.tunnel.value;
    seen := |client.history| - 1;
    f := client.Elapse(setup);
    if !f.Delivered? {
      g := Unreadable(IsOtherAPI);
      return;
    }
    if client.c.token.None? || client.c.token.value.token == "" || client.c.token.value.inviteID != tunnel.inviteID {
      g := Gated;
      return;
    }
    g := TokenReady(tunnel);
  }

  /** The agent and tunnel read earlier are still the ones stored. */
  ghost predicate InputsCurrent(c: Cluster, ta: StoredAgent, tunnel: StoredTunnel) {
    && c.agent.Some? && c.agent.value.uid == ta.uid && c.agent.value.generation == ta.generation
    && c.agent.value.spec == ta.spec
    && c.tunnel == Some(tunnel)
  }

  /**
   * checkAgentUnchanged, then checkTunnelUnchanged. If both pass, agent and tunnel as read stood together at the first
   * of the two calls, and the tunnel still at the second; a conflict means that at one of them they did not.
   */
  method CheckUnchanged(client: AgentClient, ta: StoredAgent, tunnel: StoredTunnel, ghost seen: nat, ghost p: Pass,
                        ghost setup: Setup)
    returns (r: Option<Failure>, ghost at: nat, ghost to: nat)
    requires client.Valid(setup) && Working(client.history, ta, p) && TunnelSeen(client.history, tunnel, seen)
    modifies client
    ensures client.Valid(setup) && old(client.history) <= client.history
    ensures |old(client.history)| <= at <= to < |client.history|
    ensures r.None? ==>
              && Rechecked(client.history, at, to) && client.calls == client.history[to].calls
              && InputsCurrent(client.history[at].c, ta, tunnel)
    ensures r == Some(IsConflict) ==> !InputsCurrent(client.history[to].c, ta, tunnel)
    ensures client.Undisturbed() ==> client.c == old(client.c) && (InputsCurrent(client.c, ta, tunnel) ==> r.None?)
  {
    var f := client.Elapse(setup);
    at := |client.history| - 1;
    to := at;
    if !f.Delivered? || client.c.agent.None? {
      r := Some(IsOtherAPI);
      return;
    }
    if client.c.agent.value.uid != ta.uid || client.c.agent.value.generation != ta.generation {
      r := Some(IsConflict);
      return;
    }
    f := client.Elapse(setup);
    to := |client.history| - 1;
    if !f.Delivered? || client.c.tunnel.None? {
      r := Some(IsOtherAPI);
      return;
    }
    if client.c.tunnel.value.resourceVersion != tunnel.resourceVersion {
      r := Some(IsConflict);
      return;
    }
    BothStood(client.history, setup, ta, tunnel, seen, at, to, p);
    r := None;
  }

  lemma BothStood(h: seq<Moment>, setup: Setup, ta: StoredAgent, tunnel: StoredTunnel, seen: nat, at: nat, to: nat,
                  p: Pass)
    requires Run(h, setup) && Working(h, ta, p) && TunnelSeen(h, tunnel, seen) && seen <= at <= to < |h| && p.read <= at
    requires h[at].c.agent.Some? && h[at].c.agent.value.uid == ta.uid && h[at].c.agent.value.generation == ta.generation
    requires Bears(h[to].c, tunnel.resourceVersion)
    ensures InputsCurrent(h[at].c, ta, tunnel) && h[to].c.tunnel == h[at].c.tunnel
  {
    GenerationFixesSpec(h, setup, p.read, at);
    TunnelStoodBetween(h, setup, seen, at, to);
    TunnelStoodBetween(h, setup, seen, to, to);
  }

  datatype ApplyResult = Live(available: bool) | NotApplied(why: Failure)

  /** What stands is as good as what is wanted. */
  predicate UpToDate(c: Cluster, desired: Deployment)
    requires desired.template.spec.containers != []
  {
    c.deployment.Some? && !DeploymentNeedsWrite(c.deployment.value, desired)
  }

  /** What was wanted stood at that instant. */
  ghost predicate Stood(h: seq<Moment>, i: nat, desired: Deployment)
    requires desired.template.spec.containers != []
  {
    i < |h| && UpToDate(h[i].c, desired)
  }

  /** Both rechecks have just passed: agent and tunnel as read at the first, the tunnel still at the second. */
  ghost predicate JustRechecked(client: AgentClient, at: nat, to: nat)
    reads client
  {
    Rechecked(client.history, at, to) && client.calls == client.history[to].calls
  }

  /** The Deployment stood no more than two calls after the recheck. */
  ghost predicate StoodSoon(h: seq<Moment>, to: nat, stood: nat) {
    to < stood < |h| && h[stood].calls <= h[to].calls + 2
  }

  /** ensureDeployment: write only if the live object differs where it counts. */
  method EnsureDeployment(client: AgentClient, ta: StoredAgent, tunnel: StoredTunnel, cfg: Config, setup: Setup,
                          ghost at: nat, ghost to: nat)
    returns (r: ApplyResult, ghost stood: nat)
    requires client.Valid(setup) && JustRechecked(client, at, to) && InputsCurrent(client.history[at].c, ta, tunnel)
    requires cfg == ConfigFor(setup, ta.spec, tunnel)
    modifies client
    ensures client.Valid(setup) && old(client.history) <= client.history
    ensures r.Live? ==>
              && StoodSoon(client.history, to, stood)
              && Stood(client.history, stood, DeploymentFor(setup, ta.spec, tunnel))
    ensures r.Live? && r.available ==> client.c.available
    ensures client.Undisturbed() ==>
              && r == Live(client.c.available) && client.c == old(client.c).(deployment := client.c.deployment)
              && UpToDate(client.c, DeploymentFor(setup, ta.spec, tunnel))
  {
    hide AgentClient.Valid;
    var sum := Hash(cfg, setup.digest);
    var desired := BuildDeployment(ta.spec, cfg, sum, setup.defaults);
    r, stood := EnsureDesired(client, desired, at, to, setup);
  }

  method EnsureDesired(client: AgentClient, desired: Deployment, ghost at: nat, ghost to: nat, ghost setup: Setup)
    returns (r: ApplyResult, ghost stood: nat)
    requires client.Valid(setup) && JustRechecked(client, at, to) && IsFor(setup, client.history[at].c, desired)
    requires desired.template.spec.containers != []
    modifies client
    ensures client.Valid(setup) && old(client.history) <= client.history
    ensures r.Live? ==> StoodSoon(client.history, to, stood) && Stood(client.history, stood, desired)
    ensures r.Live? && r.available ==> client.c.available
    ensures client.Undisturbed() ==>
              && r == Live(client.c.available) && client.c == old(client.c).(deployment := client.c.deployment)
              && UpToDate(client.c, desired)
  {
    hide IsFor;
    stood := 0;
    var f := client.Elapse(setup);
    if !f.Delivered? {
      r := NotApplied(IsOtherAPI);
      return;
    }
    if UpToDate(client.c, desired) {
      stood := |client.history| - 1;
      assert client.history[stood].c == client.c;
      r := Live(client.c.available);
      return;
    }
    r, stood := ApplyDeployment(client, desired, at, to, setup);
  }

  /** The forced apply; if its reply is lost, it may have landed all the same. */
  method Patch(client: AgentClient, desired: Deployment, ghost at: nat, ghost to: nat, ghost setup: Setup)
    returns (ok: bool)
    requires client.Valid(setup) && Rechecked(client.history, at, to) && client.calls == client.history[to].calls + 1
    requires IsFor(setup, client.history[at].c, desired)
    modifies client
    ensures client.Valid(setup) && old(client.history) <= client.history && client.calls == old(client.calls) + 1
    ensures ok ==> to < |client.history| - 1 && client.c.deployment == Some(desired)
    ensures client.Undisturbed() ==> ok && client.c == old(client.c).(deployment := Some(desired))
  {
    hide IsFor;
    var f := client.Elapse(setup);
    if f.Refused? {
      return false;
    }
    client.Apply(desired, at, to, setup);
    ok := f.Delivered?;
  }

  /** What is live after an apply; a read that fails settles next time. */
  method ReadBack(client: AgentClient, ghost setup: Setup) returns (r: ApplyResult)
    requires client.Valid(setup)
    modifies client
    ensures client.Valid(setup) && old(client.history) <= client.history
    ensures r.Live? && (r.available ==> client.c.available)
    ensures client.Undisturbed() && old(client.c).deployment.Some? ==>
              r == Live(client.c.available) && client.c == old(client.c)
  {
    var f := client.Elapse(setup);
    r := Live(f.Delivered? && client.c.deployment.Some? && client.c.available);
  }

  /** The forced apply, and a look at what is live afterwards. */
  method ApplyDeployment(client: AgentClient, desired: Deployment, ghost at: nat, ghost to: nat, ghost setup: Setup)
    returns (r: ApplyResult, ghost stood: nat)
    requires client.Valid(setup) && Rechecked(client.history, at, to) && client.calls == client.history[to].calls + 1
    requires IsFor(setup, client.history[at].c, desired)
    modifies client
    ensures client.Valid(setup) && old(client.history) <= client.history
    ensures r.Live? ==>
              && StoodSoon(client.history, to, stood)
              && client.history[stood].c.deployment == Some(desired)
    ensures r.Live? && r.available ==> client.c.available
    ensures client.Undisturbed() ==>
              r == Live(client.c.available) && client.c == old(client.c).(deployment := Some(desired))
  {
    hide IsFor;
    stood := 0;
    var ok := Patch(client, desired, at, to, setup);
    if !ok {
      r := NotApplied(IsOtherAPI);
      return;
    }
    stood := |client.history| - 1;
    assert client.history[stood].c == client.c && client.history[stood].calls == client.calls;
    r := ReadBack(client, setup);
  }

  /** rollupAgentStatus: the two derived conditions, the hash, and the phase they add up to. */
  method RollupStatus(s: AgentStatus, spec: AgentSpec, cfg: Config, available: bool, digest: string -> string)
    returns (r: AgentStatus)
    requires s.tunnelReady.Some?
    ensures PhaseFits(r) && r.observedConfigHash == digest(HashInput(cfg))
    ensures r.portsAllocated == Some((spec.routing.tcp == [] && spec.routing.udp == []) || cfg.pending == [])
    ensures r.workloadAvailable == Some(available)
    ensures r == s.(portsAllocated := r.portsAllocated, workloadAvailable := r.workloadAvailable,
                    observedConfigHash := r.observedConfigHash, phase := r.phase)
  {
    r := s;
    if |spec.routing.tcp| + |spec.routing.udp| == 0 {
      r := r.(portsAllocated := Some(true));
    } else if |cfg.pending| > 0 {
      r := r.(portsAllocated := Some(false));
    } else {
      r := r.(portsAllocated := Some(true));
    }
    r := r.(workloadAvailable := Some(available));
    var sum := Hash(cfg, digest);
    r := r.(observedConfigHash := sum);
    if r.tunnelReady != Some(true) {
      assert !r.tunnelReady.value;
      r := r.(phase := WaitingForTunnel);
      return;
    }
    var conditions := [r.tunnelReady, r.configRendered, r.portsAllocated, r.workloadAvailable];
    var allTrue := true;
    for i := 0 to |conditions|
      invariant allTrue <==> forall j :: 0 <= j < i ==> conditions[j] == Some(true)
    {
      if conditions[i] != Some(true) {
        allTrue := false;
      }
    }
    assert conditions[0] == r.tunnelReady && conditions[1] == r.configRendered;
    assert conditions[2] == r.portsAllocated && conditions[3] == r.workloadAvailable;
    r := r.(phase := if allTrue then Ready else Pending);
  }

  /** The status a rendering of these inputs earns, given whether the workload was seen available. */
  ghost predicate Reflects(s: AgentStatus, setup: Setup, ta: StoredAgent, tunnel: StoredTunnel, available: bool) {
    && PhaseFits(s) && s.observedGeneration == ta.generation && s.observedConfigHash == HashFor(setup, ta.spec, tunnel)
    && s.tunnelReady == Some(true) && s.configRendered == Some(true) && s.workloadAvailable == Some(available)
    && s.portsAllocated ==
         Some((ta.spec.routing.tcp == [] && ta.spec.routing.udp == [])
              || ConfigFor(setup, ta.spec, tunnel).pending == [])
  }

  lemma RenderedHashFits(h: seq<Moment>, setup: Setup, ta: StoredAgent, tunnel: StoredTunnel, seen: nat, p: Pass,
                         s: AgentStatus)
    requires Run(h, setup) && Working(h, ta, p) && TunnelSeen(h, tunnel, seen) && PhaseFits(s)
    requires s.observedGeneration == ta.generation && s.observedConfigHash == HashFor(setup, ta.spec, tunnel)
    ensures StatusSound(setup, h[|h| - 1].c, ta.uid, s)
  {
    hide HashFor;
    RunIsSound(h, setup, p.read);
    RunRemembers(h, setup, p.read, |h| - 1);
    RunIsSound(h, setup, seen);
    RunRemembers(h, setup, seen, |h| - 1);
    assert tunnel.resourceVersion in h[|h| - 1].c.tunnels;
  }

  /** What a finished attempt rendered, wrote and saw. */
  datatype Account = Account(ta: StoredAgent, tunnel: StoredTunnel, status: AgentStatus, available: bool,
                             at: nat, to: nat, stood: nat, seen: nat)

  /**
   * Agent and tunnel stood together at the recheck, their Deployment stood no more than two calls after it, and the
   * status that was stored says so.
   */
  ghost predicate Accounted(base: nat, h: seq<Moment>, setup: Setup, a: Account) {
    && base <= a.at && Rechecked(h, a.at, a.to) && InputsCurrent(h[a.at].c, a.ta, a.tunnel)
    && StoodSoon(h, a.to, a.stood) && Stood(h, a.stood, DeploymentFor(setup, a.ta.spec, a.tunnel))
    && a.stood <= a.seen < |h| && (a.available ==> h[a.seen].c.available)
    && Reflects(a.status, setup, a.ta, a.tunnel, a.available) && Stored(base, h, a.ta, a.status)
  }

  /** The end of the happy path: conditions, rollup, write. */
  method FinishStatus(client: AgentClient, ta: StoredAgent, orig: AgentStatus, tunnel: StoredTunnel, cfg: Config,
                      available: bool, setup: Setup, ghost seen: nat, ghost p: Pass)
    returns (r: Attempt, ghost s: AgentStatus)
    requires client.Valid(setup) && Working(client.history, ta, p) && orig == p.orig
    requires TunnelSeen(client.history, tunnel, seen)
    requires ta.status.tunnelReady == Some(true) && cfg == ConfigFor(setup, ta.spec, tunnel)
    modifies client
    ensures client.Valid(setup) && old(client.history) <= client.history && (r.Done? || r.Failed?)
    ensures Reflects(s, setup, ta, tunnel, available) && (r.Done? ==> Stored(p.base, client.history, ta, s))
    ensures client.Undisturbed() && Untouched(old(client.c), ta, p) ==>
              r.Done? && Kept(old(client.c), client.c, ta.(status := s))
  {
    hide ConfigFor, Run;
    var status := RollupStatus(ta.status.(configRendered := Some(true)), ta.spec, cfg, available, setup.digest);
    status := status.(observedGeneration := ta.generation);
    s := status;
    RenderedHashFits(client.history, setup, ta, tunnel, seen, p, s);
    var w := client.WriteStatus(ta.(status := status), orig, p, setup);
    r := AfterWrite(w, Done);
  }

  /** What applying the other objects came to; they are not part of this model. */
  datatype SideEffect = SideDone | SideClash | SideFailed(why: Failure)

  /** Agent and Deployment are what these inputs call for. */
  ghost predicate Settled(c: Cluster, setup: Setup, ta: StoredAgent, tunnel: StoredTunnel) {
    && c.agent.Some? && InputsCurrent(c, ta, tunnel) && UpToDate(c, DeploymentFor(setup, ta.spec, tunnel))
    && Reflects(c.agent.value.status, setup, ta, tunnel, c.available)
  }

  /** Render, recheck, apply. */
  method RenderAndApply(client: AgentClient, ta: StoredAgent, orig: AgentStatus, tunnel: StoredTunnel, setup: Setup,
                        ghost seen: nat, ghost p: Pass)
    returns (r: Attempt, ghost a: Account)
    requires client.Valid(setup) && Working(client.history, ta, p) && orig == p.orig
    requires TunnelSeen(client.history, tunnel, seen)
    requires ta.status.tunnelReady == Some(true)
    modifies client
    ensures client.Valid(setup) && old(client.history) <= client.history && (r.Done? || r.Failed?)
    ensures r.Done? ==> Accounted(p.base, client.history, setup, a)
    ensures client.Undisturbed() && Untouched(old(client.c), ta, p) && old(client.c).tunnel == Some(tunnel) ==>
              r.Done? && Settled(client.c, setup, ta, tunnel)
  {
    hide DeploymentFor, HashFor;
    var cfg := RenderConfig(ta.spec, tunnel.allocations, tunnel.inviteID, setup.enc);
    cfg := WithExtraEnv(cfg, ta.spec.Name(), setup.enc, setup.extra);
    a := Account(ta, tunnel, orig, false, 0, 0, 0, 0);
    var changed;
    ghost var at, to;
    changed, at, to := CheckUnchanged(client, ta, tunnel, seen, p, setup);
    if changed.Some? {
      r := Failed(changed.value);
      return;
    }
    r, a := ApplyAndFinish(client, ta, orig, tunnel, cfg, setup, seen, at, to, p);
  }

  /** From the recheck on. */
  method ApplyAndFinish(client: AgentClient, ta: StoredAgent, orig: AgentStatus, tunnel: StoredTunnel, cfg: Config,
                        setup: Setup, ghost seen: nat, ghost at: nat, ghost to: nat, ghost p: Pass)
    returns (r: Attempt, ghost a: Account)
    requires client.Valid(setup) && Working(client.history, ta, p) && orig == p.orig
    requires TunnelSeen(client.history, tunnel, seen)
    requires ta.status.tunnelReady == Some(true) && cfg == ConfigFor(setup, ta.spec, tunnel)
    requires p.base <= at && JustRechecked(client, at, to) && InputsCurrent(client.history[at].c, ta, tunnel)
    modifies client
    ensures client.Valid(setup) && old(client.history) <= client.history && (r.Done? || r.Failed?)
    ensures r.Done? ==> Accounted(p.base, client.history, setup, a)
    ensures client.Undisturbed() && Untouched(old(client.c), ta, p) && old(client.c).tunnel == Some(tunnel) ==>
              r.Done? && Settled(client.c, setup, ta, tunnel)
  {
    hide DeploymentFor, ConfigFor, HashFor;
    a := Account(ta, tunnel, orig, false, at, to, to, to);
    var dep; ghost var stood;
    dep, stood := EnsureDeployment(client, ta, tunnel, cfg, setup, at, to);
    if dep.NotApplied? {
      r := FailStatus(client, ta, orig, dep.why, p, setup);
      return;
    }
    ghost var now, s := |client.history| - 1, orig;
    assert client.history[now].c == client.c;
    r, s := FinishStatus(client, ta, orig, tunnel, cfg, dep.available, setup, seen, p);
    a := Account(ta, tunnel, s, dep.available, at, to, stood, now);
  }

  /** What each outcome of an attempt says of the history. */
  ghost predicate Explained(base: nat, h: seq<Moment>, setup: Setup, r: Attempt, a: Account) {
    match r
    case Done => Accounted(base, h, setup, a)
    case BeingDeleted => exists i :: base <= i < |h| && h[i].c.agent.Some? && h[i].c.agent.value.deleting
    case Missing => exists i :: base <= i < |h| && h[i].c.agent.None?
    case Requeue =>
      && Stored(base, h, a.ta, a.status) && PhaseFits(a.status)
      && (SaysWaiting(a.status, a.ta.status, a.ta.generation) || SaysUnrendered(a.status, a.ta.status, a.ta.generation))
    case Failed(_) => true
  }

  /** An attempt is explained by a reconcile it is part of. */
  lemma ExplainedSince(base: nat, later: nat, h: seq<Moment>, setup: Setup, r: Attempt, a: Account)
    requires base <= later && Explained(later, h, setup, r, a)
    ensures Explained(base, h, setup, r, a)
  {}

  /** One pass of the retry closure. */
  method TryOnce(client: AgentClient, setup: Setup, secret: SideEffect, connectivity: SideEffect)
    returns (r: Attempt, ghost a: Account)
    requires client.Valid(setup)
    modifies client
    ensures client.Valid(setup) && old(client.history) <= client.history
    ensures Explained(|old(client.history)| - 1, client.history, setup, r, a)
    ensures client.Undisturbed() ==> Ends(old(client.c), client.c, setup, secret, connectivity, r)
  {
    ghost var base := |client.history| - 1;
    var f := client.Elapse(setup);
    ghost var read := |client.history| - 1;
    assert client.history[read].c == client.c;
    a := NoAccount();
    if !f.Delivered? {
      r := Failed(IsOtherAPI);
      return;
    }
    if client.c.agent.None? {
      r := Missing;
      return;
    }
    var ta := client.c.agent.value;
    if ta.deleting {
      r := BeingDeleted;
      return;
    }
    r, a := TryRead(client, ta, ta.status, setup, secret, connectivity, Pass(base, read, ta.status));
  }

  /** An account of nothing, for the outcomes that need none. */
  ghost function NoAccount(): Account {
    var spec := AgentSpec(Agent(ObjectKey("", ""), TunnelRef("", ""), [], [], []), "",
                          Connectivity(false, 0, [], NodePort(false, "", 0)),
                          Workload("", None, false, Resources(map[], map[]), map[], [], None, None, None));
    Account(StoredAgent(0, 0, 0, false, spec, NO_STATUS), StoredTunnel(0, "", [], false), NO_STATUS, false, 0, 0, 0, 0)
  }

  /** How an attempt ends with nobody else about. */
  ghost predicate Ends(c: Cluster, d: Cluster, setup: Setup, secret: SideEffect, connectivity: SideEffect, r: Attempt) {
    if c.agent.None? then r == Missing
    else if c.agent.value.deleting then r == BeingDeleted
    else
      var was, generation := c.agent.value.status, c.agent.value.generation;
      if !Provided(c) then r == Requeue && d.agent.Some? && SaysWaiting(d.agent.value.status, was, generation)
      else EndsWithToken(c.agent.value, c.tunnel.value, d, setup, secret, connectivity, r)
  }

  /** And once there is a token. */
  ghost predicate EndsWithToken(ta: StoredAgent, tunnel: StoredTunnel, d: Cluster, setup: Setup, secret: SideEffect,
                                connectivity: SideEffect, r: Attempt) {
    if secret.SideDone? && !connectivity.SideFailed? then r == Done && Settled(d, setup, ta, tunnel)
    else
      && d.agent.Some? && SaysUnrendered(d.agent.value.status, ta.status, ta.generation)
      && r == (match secret
               case SideDone => Failed(connectivity.why)
               case SideClash => Requeue
               case SideFailed(why) => Failed(why))
  }

  /** The attempt, once the agent is read. */
  method TryRead(client: AgentClient, read: StoredAgent, orig: AgentStatus, setup: Setup, secret: SideEffect,
                 connectivity: SideEffect, ghost p: Pass)
    returns (r: Attempt, ghost a: Account)
    requires client.Valid(setup) && Working(client.history, read, p) && orig == p.orig == read.status && !read.deleting
    modifies client
    ensures client.Valid(setup) && old(client.history) <= client.history
    ensures Explained(p.base, client.history, setup, r, a)
    ensures client.Undisturbed() && old(client.c).agent == Some(read) ==>
              Ends(old(client.c), client.c, setup, secret, connectivity, r)
  {
    hide DeploymentFor, ConfigFor, HashFor, Accounted, Told;
    a := NoAccount();
    var gate; ghost var seen;
    gate, seen := ReadTunnelToken(client, setup);
    if gate.Unreadable? {
      r := Failed(gate.why);
      return;
    }
    if gate.Gated? {
      r := MarkWaiting(client, read, orig, p, setup);
      a := a.(ta := read, status := Waiting(read));
      return;
    }
    var ta := read.(status := read.status.(tunnelReady := Some(true)));
    r, a := WithToken(client, ta, orig, gate.tunnel, setup, secret, connectivity, seen, p);
  }

  /** The attempt, once the token is read. */
  method WithToken(client: AgentClient, ta: StoredAgent, orig: AgentStatus, tunnel: StoredTunnel, setup: Setup,
                   secret: SideEffect, connectivity: SideEffect, ghost seen: nat, ghost p: Pass)
    returns (r: Attempt, ghost a: Account)
    requires client.Valid(setup) && Working(client.history, ta, p) && orig == p.orig
    requires TunnelSeen(client.history, tunnel, seen)
    requires ta.status.tunnelReady == Some(true)
    modifies client
    ensures client.Valid(setup) && old(client.history) <= client.history
    ensures Explained(p.base, client.history, setup, r, a)
    ensures client.Undisturbed() && Untouched(old(client.c), ta, p) && old(client.c).tunnel == Some(tunnel) ==>
              EndsWithToken(ta, tunnel, client.c, setup, secret, connectivity, r)
  {
    a := NoAccount().(ta := ta, status := Unrendered(ta));
    if secret.SideClash? {
      r := MarkSecretClash(client, ta, orig, p, setup);
    } else if secret.SideFailed? || connectivity.SideFailed? {
      r := FailStatus(client, ta, orig, if secret.SideFailed? then secret.why else connectivity.why, p, setup);
    } else {
      r, a := RenderAndApply(client, ta, orig, tunnel, setup, seen, p);
    }
  }

  predicate Conflicting(secret: SideEffect, connectivity: SideEffect) {
    secret == SideFailed(IsConflict) || connectivity == SideFailed(IsConflict)
  }

  lemma EndsInNoConflict(c: Cluster, d: Cluster, setup: Setup, secret: SideEffect, connectivity: SideEffect, r: Attempt)
    requires Ends(c, d, setup, secret, connectivity, r) && r == Failed(IsConflict)
    ensures Conflicting(secret, connectivity)
  {}

  const RETRY_STEPS := 4

  /**
   * Reconcile: up to four attempts, again only after a conflict. Whatever others edit before each call, and whichever
   * replies are lost, every step of ours is a sound status write, or a Deployment for the agent and the tunnel that
   * stood together three calls earlier; and when it reports success, such a Deployment stood and the status stored says
   * so.
   */
  method Reconcile(client: AgentClient, setup: Setup, secrets: nat -> SideEffect, connectivity: nat -> SideEffect)
    returns (r: Attempt, attempts: nat, ghost a: Account)
    requires client.Valid(setup)
    modifies client
    ensures client.Valid(setup) && old(client.history) <= client.history
    ensures Explained(|old(client.history)| - 1, client.history, setup, r, a)
    ensures 1 <= attempts <= RETRY_STEPS && (r == Failed(IsConflict) ==> attempts == RETRY_STEPS)
    ensures client.Undisturbed() && !Conflicting(secrets(0), connectivity(0)) ==>
              attempts == 1 && Ends(old(client.c), client.c, setup, secrets(0), connectivity(0), r)
  {
    hide FollowsAt, EditsIn, Ends, Accounted;
    ghost var base := |client.history| - 1;
    attempts := 1;
    r, a := TryOnce(client, setup, secrets(0), connectivity(0));
    while r == Failed(IsConflict) && attempts < RETRY_STEPS
      invariant client.Valid(setup) && old(client.history) <= client.history && 1 <= attempts <= RETRY_STEPS
      invariant Explained(base, client.history, setup, r, a)
      invariant client.Undisturbed() && !Conflicting(secrets(0), connectivity(0)) ==>
                  attempts == 1 && Ends(old(client.c), client.c, setup, secrets(0), connectivity(0), r)
    {
      if Ends(old(client.c), client.c, setup, secrets(0), connectivity(0), r) {
        EndsInNoConflict(old(client.c), client.c, setup, secrets(0), connectivity(0), r);
      }
      r, a := TryAgain(client, setup, secrets(attempts), connectivity(attempts), base);
      attempts := attempts + 1;
    }
  }

  method TryAgain(client: AgentClient, setup: Setup, secret: SideEffect, connectivity: SideEffect, ghost base: nat)
    returns (r: Attempt, ghost a: Account)
    requires client.Valid(setup) && base < |client.history|
    modifies client
    ensures client.Valid(setup) && old(client.history) <= client.history
    ensures Explained(base, client.history, setup, r, a)
  {
    ghost var past := client.history;
    r, a := TryOnce(client, setup, secret, connectivity);
    ExplainedSince(base, |past| - 1, client.history, setup, r, a);
  }
}
