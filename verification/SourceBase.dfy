/**
 * One source's reconcile against the agents, with other sources, collectors and edits of anything
 * but routing interleaved before every call.
 */
module SourceBase {
  import opened Text
  import opened Histories
  import opened Conventions
  import opened SourceStore
  import Environment

  type Fault = Environment.Fault

  datatype StoreError = NotFound | AlreadyExists | Conflict | Other

  datatype Outcome<+T> = Ok(value: T) | Err(error: StoreError)

  // ---- what a source has where ----

  function ContributionAt(s: Sys, nn: ObjectKey, m: Manager): Routing {
    if nn in s.agents then Contribution(s.agents[nn], m) else map[]
  }

  /** The operator's own, managed, for that tunnel, and marked as made by it; nobody's routing on it yet. */
  predicate JustMade(a: AgentObject, tunnel: ObjectKey) {
    a.operatorOwned && a.autoCreated && !a.observeOnly && a.tunnel == tunnel && a.leaves == map[] && a.managers == {}
  }

  predicate ClaimsAt(s: Sys, nn: ObjectKey, m: Manager) {
    nn in s.agents && OwnsAnyField(s.agents[nn], m)
  }

  /** Everything the source has is what it had. */
  ghost predicate Unmoved(w: Sys, v: Sys, m: Manager) {
    forall nn :: ContributionAt(v, nn, m) == ContributionAt(w, nn, m) && ClaimsAt(v, nn, m) == ClaimsAt(w, nn, m)
  }

  ghost predicate UnmovedExcept(w: Sys, v: Sys, m: Manager, nn: ObjectKey) {
    forall k :: k != nn ==> ContributionAt(v, k, m) == ContributionAt(w, k, m) && ClaimsAt(v, k, m) == ClaimsAt(w, k, m)
  }

  /** A step of anyone else that leaves this source's routing to it. */
  predicate Peaceful(step: Step, m: Manager) {
    match step
    case Contribute(_, mgr, _) => Manager(mgr, true) != m
    case Release(_, mgr) => Manager(mgr, true) != m
    case UserEdit(_, _, _, _) => false
    case UserErase(_, _) => false
    case UserDelete(_) => false
    case _ => true
  }

  /** What the source itself may do in a stretch of its reconcile. */
  datatype Plan = Nothing | Contributing(nn: ObjectKey, want: Routing) | Releasing(spare: Option<ObjectKey>)

  predicate OwnStep(step: Step, m: Manager, plan: Plan) {
    match plan
    case Nothing => false
    case Contributing(nn, want) => m.apply && step == Contribute(nn, m.name, want)
    case Releasing(spare) => m.apply && step.Release? && step.mgr == m.name && spare != Some(step.nn)
  }

  ghost predicate Allowed(w: Sys, v: Sys, m: Manager, plan: Plan) {
    v == w || exists step :: v == Next(w, step) && (Peaceful(step, m) || OwnStep(step, m, plan))
  }

  ghost function AllowedSteps(m: Manager, plan: Plan): Rule<Sys> {
    (w, v) => Allowed(w, v, m, plan)
  }

  /** What nobody planned can happen under any plan. */
  lemma QuietFitsAnyPlan(a: seq<Sys>, b: seq<Sys>, m: Manager, plan: Plan)
    requires Extends(a, b, AllowedSteps(m, Nothing))
    ensures Extends(a, b, AllowedSteps(m, plan))
  {
    forall w, v | AllowedSteps(m, Nothing)(w, v) ensures AllowedSteps(m, plan)(w, v) {
      if v != w {
        var step :| v == Next(w, step) && (Peaceful(step, m) || OwnStep(step, m, Nothing));
        assert Peaceful(step, m);
      }
    }
    Relaxed(a, b, AllowedSteps(m, Nothing), AllowedSteps(m, plan));
  }

  // ---- what others' steps leave alone ----

  lemma PutOfOther(s: Sys, nn: ObjectKey, a: AgentObject, m: Manager)
    requires Contribution(a, m) == ContributionAt(s, nn, m) && (m in a.managers) == ClaimsAt(s, nn, m)
    ensures Unmoved(s, Put(s, nn, a), m)
  {
    var v := Put(s, nn, a);
    if nn !in s.agents || s.agents[nn] != a {
      assert Contribution(v.agents[nn], m) == Contribution(a, m);
    }
  }

  lemma ApplyOfOther(s: Sys, nn: ObjectKey, mgr: string, want: Routing, m: Manager)
    requires Manager(mgr, true) != m
    ensures Unmoved(s, ApplyTo(s, nn, mgr, want), m)
  {
    var o := Manager(mgr, true);
    if nn in s.agents && !Conflicts(s.agents[nn], o, want) {
      var a := s.agents[nn];
      AppliedContributes(a, o, want);
      PutOfOther(s, nn, Applied(a, o, want), m);
      var p := Put(s, nn, Applied(a, o, want));
      assert forall k :: ContributionAt(ApplyTo(s, nn, mgr, want), k, m) == ContributionAt(p, k, m);
    }
  }

  lemma CollectOfOther(s: Sys, nn: ObjectKey, v: nat, m: Manager)
    requires Inv(s) && IsSource(m)
    ensures Unmoved(s, Next(s, Collect(nn, v)), m)
  {
    if (nn, v) in s.pending && nn in s.agents && s.agents[nn].resourceVersion == v {
      assert Collectable(s.agents[nn]);
    }
  }

  /** Nobody else's apply, release, creation, inspection or collection takes anything from a source. */
  lemma PeacefulLeavesUnmoved(s: Sys, step: Step, m: Manager)
    requires Inv(s) && IsSource(m) && Peaceful(step, m)
    ensures Unmoved(s, Next(s, step), m)
  {
    match step
    case Contribute(nn, mgr, want) => ApplyOfOther(s, nn, mgr, want, m);
    case Release(nn, mgr) => ApplyOfOther(s, nn, mgr, map[], m);
    case EnsureDefault(nn, tunnel) => if nn !in s.agents { PutOfOther(s, nn, DefaultAgent(tunnel), m); }
    case Inspect(nn) =>
    case Collect(nn, v) => CollectOfOther(s, nn, v, m);
    case Touch(nn, auto, owned, observe) =>
      if nn in s.agents {
        PutOfOther(s, nn, s.agents[nn].(autoCreated := auto, operatorOwned := owned, observeOnly := observe), m);
      }
    case UserCreate(nn, owned, observe, tunnel, routing, editor) =>
      if nn !in s.agents && !IsSource(editor) {
        PutOfOther(s, nn, AgentObject(SourceStore.Owned(routing, editor), {editor}, false, owned, observe, tunnel, 0),
                   m);
      }
  }

  /** Its own apply, if accepted, puts exactly what it asked for there, and touches nothing of its elsewhere. */
  lemma OwnApply(s: Sys, nn: ObjectKey, m: Manager, want: Routing)
    requires m.apply
    ensures var v := ApplyTo(s, nn, m.name, want);
      && UnmovedExcept(s, v, m, nn)
      && (nn in s.agents && !Conflicts(s.agents[nn], m, want) ==>
            ContributionAt(v, nn, m) == want && (ClaimsAt(v, nn, m) <==> want != map[]))
      && (!(nn in s.agents && !Conflicts(s.agents[nn], m, want)) ==> v == s)
  {
    if nn in s.agents && !Conflicts(s.agents[nn], m, want) {
      var b := Applied(s.agents[nn], m, want);
      AppliedContributes(s.agents[nn], m, want);
      var p := Put(s, nn, b);
      assert Contribution(p.agents[nn], m) == Contribution(b, m);
    }
  }

  lemma AllowedKeepsInv(w: Sys, v: Sys, m: Manager, plan: Plan)
    requires Inv(w) && Allowed(w, v, m, plan)
    ensures Inv(v)
  {
    if v != w {
      var step :| v == Next(w, step) && (Peaceful(step, m) || OwnStep(step, m, plan));
      StepKeepsInv(w, step);
    }
  }

  // ---- whole stretches ----

  /** Through any stretch in which the source itself does nothing, it keeps exactly what it has. */
  lemma {:induction false} QuietRunUnmoved(run: seq<Sys>, m: Manager)
    requires run != [] && Inv(run[0]) && IsSource(m) && Chain(run, AllowedSteps(m, Nothing))
    ensures Inv(run[|run| - 1]) && Unmoved(run[0], run[|run| - 1], m)
  {
    if |run| > 1 {
      var n := |run| - 1;
      QuietRunUnmoved(run[..n], m);
      if run[n] != run[n - 1] {
        var step :| run[n] == Next(run[n - 1], step) && (Peaceful(step, m) || OwnStep(step, m, Nothing));
        PeacefulLeavesUnmoved(run[n - 1], step, m);
        StepKeepsInv(run[n - 1], step);
      }
    }
  }

  /** Before the switch everything is as it was; after it, the whole new contribution stands. */
  ghost predicate Covered(start: Sys, s: Sys, m: Manager, nn: ObjectKey, want: Routing) {
    Unmoved(start, s, m) || ContributionAt(s, nn, m) == want
  }

  lemma ContributingStep(start: Sys, w: Sys, v: Sys, m: Manager, nn: ObjectKey, want: Routing)
    requires Inv(w) && IsSource(m) && Allowed(w, v, m, Contributing(nn, want)) && Covered(start, w, m, nn, want)
    ensures Inv(v) && Covered(start, v, m, nn, want)
  {
    AllowedKeepsInv(w, v, m, Contributing(nn, want));
    if v != w {
      var step :| v == Next(w, step) && (Peaceful(step, m) || OwnStep(step, m, Contributing(nn, want)));
      if Peaceful(step, m) {
        PeacefulLeavesUnmoved(w, step, m);
      } else {
        OwnApply(w, nn, m, want);
      }
    }
  }

  lemma ReleasingStep(w: Sys, v: Sys, m: Manager, nn: ObjectKey, want: Routing)
    requires Inv(w) && IsSource(m) && Allowed(w, v, m, Releasing(Some(nn))) && ContributionAt(w, nn, m) == want
    ensures Inv(v) && ContributionAt(v, nn, m) == want
  {
    AllowedKeepsInv(w, v, m, Releasing(Some(nn)));
    if v != w {
      var step :| v == Next(w, step) && (Peaceful(step, m) || OwnStep(step, m, Releasing(Some(nn))));
      if Peaceful(step, m) {
        PeacefulLeavesUnmoved(w, step, m);
      } else {
        OwnApply(w, step.nn, m, map[]);
      }
    }
  }

  lemma {:induction false} ContributingRunCovered(run: seq<Sys>, m: Manager, nn: ObjectKey, want: Routing)
    requires run != [] && Inv(run[0]) && IsSource(m) && Chain(run, AllowedSteps(m, Contributing(nn, want)))
    ensures forall i :: 0 <= i < |run| ==> Inv(run[i]) && Covered(run[0], run[i], m, nn, want)
  {
    if |run| > 1 {
      var n := |run| - 1;
      ContributingRunCovered(run[..n], m, nn, want);
      assert run[..n][n - 1] == run[n - 1];
      ContributingStep(run[0], run[n - 1], run[n], m, nn, want);
      forall i | 0 <= i < |run| ensures Inv(run[i]) && Covered(run[0], run[i], m, nn, want) {
        if i < n { assert run[..n][i] == run[i]; }
      }
    }
  }

  lemma {:induction false} ReleasingRunKeeps(run: seq<Sys>, m: Manager, nn: ObjectKey, want: Routing)
    requires run != [] && Inv(run[0]) && IsSource(m) && Chain(run, AllowedSteps(m, Releasing(Some(nn))))
    requires ContributionAt(run[0], nn, m) == want
    ensures forall i :: 0 <= i < |run| ==> Inv(run[i]) && ContributionAt(run[i], nn, m) == want
  {
    if |run| > 1 {
      var n := |run| - 1;
      ReleasingRunKeeps(run[..n], m, nn, want);
      assert run[..n][n - 1] == run[n - 1];
      ReleasingStep(run[n - 1], run[n], m, nn, want);
      forall i | 0 <= i < |run| ensures Inv(run[i]) && ContributionAt(run[i], nn, m) == want {
        if i < n { assert run[..n][i] == run[i]; }
      }
    }
  }

  lemma ClaimsShrinkStep(w: Sys, v: Sys, m: Manager, spare: Option<ObjectKey>)
    requires Inv(w) && IsSource(m) && Allowed(w, v, m, Releasing(spare))
    ensures Inv(v) && forall nn :: ClaimsAt(v, nn, m) ==> ClaimsAt(w, nn, m)
  {
    AllowedKeepsInv(w, v, m, Releasing(spare));
    if v != w {
      var step :| v == Next(w, step) && (Peaceful(step, m) || OwnStep(step, m, Releasing(spare)));
      if Peaceful(step, m) {
        PeacefulLeavesUnmoved(w, step, m);
      } else {
        OwnApply(w, step.nn, m, map[]);
      }
    }
  }

  lemma {:induction false} ClaimsShrink(run: seq<Sys>, m: Manager, spare: Option<ObjectKey>)
    requires run != [] && Inv(run[0]) && IsSource(m) && Chain(run, AllowedSteps(m, Releasing(spare)))
    ensures Inv(run[|run| - 1]) && forall nn :: ClaimsAt(run[|run| - 1], nn, m) ==> ClaimsAt(run[0], nn, m)
  {
    if |run| > 1 {
      var n := |run| - 1;
      ClaimsShrink(run[..n], m, spare);
      ClaimsShrinkStep(run[n - 1], run[n], m, spare);
    }
  }

  // ---- the API server ----

  class AgentStore {
    var s: Sys
    var calls: nat
    /** The fate of each call, and what everybody else does just before it. */
    const fault: nat -> Fault
    const others: nat -> seq<Step>
    /** Every state there has been, oldest first. */
    ghost var history: seq<Sys>

    constructor (s: Sys, fault: nat -> Fault, others: nat -> seq<Step>)
      requires Inv(s)
      ensures Valid() && this.s == s && this.fault == fault && this.others == others && history == [s]
    {
      this.s, this.fault, this.others, calls, history := s, fault, others, 0, [s];
    }

    ghost predicate Valid()
      reads this
    {
      history != [] && history[|history| - 1] == s && Inv(s)
    }

    /** Every call gets through, with nobody else about. */
    ghost predicate Undisturbed() {
      forall i :: fault(i) == Environment.Delivered && others(i) == []
    }

    /** Nobody else edits routing by hand or acts under this source's manager. */
    ghost predicate PeacefulTo(m: Manager) {
      forall i, k :: 0 <= k < |others(i)| ==> Peaceful(others(i)[k], m)
    }

    /** One step, ours or theirs. */
    method Take(step: Step, ghost m: Manager, ghost plan: Plan)
      requires Valid() && (Peaceful(step, m) || OwnStep(step, m, plan))
      modifies this`s, this`history
      ensures Valid() && s == Next(old(s), step) && Extends(old(history), history, AllowedSteps(m, plan))
      ensures old(s.pending) <= s.pending
    {
      StepKeepsInv(s, step);
      ghost var past := history;
      NoSteps(past, AllowedSteps(m, plan));
      s := Next(s, step);
      history := history + [s];
      OneMore(past, past, s, AllowedSteps(m, plan));
    }

    /** Whatever the others do before our next call. */
    method Elapse(ghost m: Manager) returns (f: Fault)
      requires Valid() && PeacefulTo(m)
      modifies this
      ensures Valid() && Extends(old(history), history, AllowedSteps(m, Nothing))
      ensures old(s.pending) <= s.pending
      ensures Undisturbed() ==> s == old(s) && f.Delivered?
    {
      var steps := others(calls);
      NoSteps(history, AllowedSteps(m, Nothing));
      for i := 0 to |steps|
        invariant Valid() && Extends(old(history), history, AllowedSteps(m, Nothing))
        invariant old(s.pending) <= s.pending
        invariant Undisturbed() ==> s == old(s)
      {
        ghost var past := history;
        Take(steps[i], m, Nothing);
        Joined(old(history), past, history, AllowedSteps(m, Nothing));
      }
      f := fault(calls);
      calls := calls + 1;
    }

    method Get(nn: ObjectKey, ghost m: Manager) returns (r: Outcome<AgentObject>)
      requires Valid() && PeacefulTo(m)
      modifies this
      ensures Valid() && Extends(old(history), history, AllowedSteps(m, Nothing))
      ensures r.Ok? ==> nn in s.agents && r.value == s.agents[nn]
      ensures r == Err(NotFound) ==> nn !in s.agents
      ensures Undisturbed() ==> s == old(s) && (r.Ok? || r == Err(NotFound))
    {
      var f := Elapse(m);
      r := if !f.Delivered? then Err(Other) else if nn in s.agents then Ok(s.agents[nn]) else Err(NotFound);
    }

    method List(ghost m: Manager) returns (r: Outcome<map<ObjectKey, AgentObject>>)
      requires Valid() && PeacefulTo(m)
      modifies this
      ensures Valid() && Extends(old(history), history, AllowedSteps(m, Nothing))
      ensures r.Ok? ==> r.value == s.agents
      ensures Undisturbed() ==> s == old(s) && r.Ok?
    {
      var f := Elapse(m);
      r := if f.Delivered? then Ok(s.agents) else Err(Other);
    }

    /** Create the tunnel's default agent. */
    method Create(nn: ObjectKey, tunnel: ObjectKey, ghost m: Manager) returns (r: Outcome<()>)
      requires Valid() && PeacefulTo(m)
      modifies this
      ensures Valid() && Extends(old(history), history, AllowedSteps(m, Nothing))
      ensures r.Ok? ==> nn in s.agents && JustMade(s.agents[nn], tunnel)
      ensures r == Err(AlreadyExists) ==> nn in s.agents
      ensures Undisturbed() && nn !in old(s).agents ==> r.Ok?
      ensures Undisturbed() && nn in old(s).agents ==> s == old(s)
    {
      var f := Elapse(m);
      if f.Refused? || f.Rejected? {
        return Err(Other);
      }
      if nn in s.agents {
        return Err(if f.Delivered? then AlreadyExists else Other);
      }
      ghost var past := history;
      Take(EnsureDefault(nn, tunnel), m, Nothing);
      Joined(old(history), past, history, AllowedSteps(m, Nothing));
      r := if f.Delivered? then Ok(()) else Err(Other);
    }

    /** A server-side apply under the source's manager, without force. */
    method Patch(nn: ObjectKey, m: Manager, want: Routing, ghost plan: Plan) returns (r: Outcome<()>)
      requires Valid() && PeacefulTo(m) && m.apply
      requires OwnStep(if want == map[] then Release(nn, m.name) else Contribute(nn, m.name, want), m, plan)
      modifies this
      ensures Valid() && Extends(old(history), history, AllowedSteps(m, plan))
      ensures r.Ok? ==> ContributionAt(s, nn, m) == want && (ClaimsAt(s, nn, m) <==> want != map[])
      ensures r == Err(NotFound) ==> nn !in s.agents
      ensures r == Err(Conflict) ==>
                want != map[] && nn in s.agents && Conflicts(s.agents[nn], m, want)
                    && Extends(old(history), history, AllowedSteps(m, Nothing))
      ensures Undisturbed() && nn in old(s).agents ==> r.Ok? || r == Err(Conflict)
      ensures Undisturbed() ==> r.Ok? || r == Err(Conflict) || r == Err(NotFound)
      ensures Undisturbed() ==> s.agents.Keys == old(s).agents.Keys
    {
      var f := Elapse(m);
      QuietFitsAnyPlan(old(history), history, m, plan);
      if f.Refused? || f.Rejected? {
        return Err(Other);
      }
      if nn !in s.agents {
        return Err(if f.Delivered? then NotFound else Other);
      }
      if Conflicts(s.agents[nn], m, want) {
        return Err(if f.Delivered? then Conflict else Other);
      }
      ghost var past := history;
      OwnApply(s, nn, m, want);
      Take(if want == map[] then Release(nn, m.name) else Contribute(nn, m.name, want), m, plan);
      Joined(old(history), past, history, AllowedSteps(m, plan));
      r := if f.Delivered? then Ok(()) else Err(Other);
    }

    /** Delete with a resourceVersion precondition, of an agent inspected at that version. */
    method Delete(nn: ObjectKey, resourceVersion: nat, ghost m: Manager) returns (r: Outcome<()>)
      requires Valid() && PeacefulTo(m) && (nn, resourceVersion) in s.pending
      modifies this
      ensures Valid() && Extends(old(history), history, AllowedSteps(m, Nothing))
      ensures r.Ok? || r == Err(NotFound) ==> nn !in s.agents
      ensures r == Err(Conflict) ==> nn in s.agents && s.agents[nn].resourceVersion != resourceVersion
      ensures Undisturbed() ==> r.Ok? || r == Err(NotFound) || r == Err(Conflict)
    {
      var f := Elapse(m);
      if f.Refused? || f.Rejected? {
        return Err(Other);
      }
      var error := if nn !in s.agents then Some(NotFound)
          else if s.agents[nn].resourceVersion != resourceVersion then Some(Conflict) else None;
      ghost var past := history;
      Take(Collect(nn, resourceVersion), m, Nothing);
      Joined(old(history), past, history, AllowedSteps(m, Nothing));
      r := if !f.Delivered? then Err(Other) else if error.Some? then Err(error.value) else Ok(());
    }
  }

  // ---- releasing ----

  /** releaseRouting: an empty apply; an agent that is gone is a no-op. */
  method ReleaseRouting(store: AgentStore, nn: ObjectKey, m: Manager, ghost spare: Option<ObjectKey>) returns (ok: bool)
    requires store.Valid() && store.PeacefulTo(m) && m.apply && spare != Some(nn)
    modifies store
    ensures store.Valid() && Extends(old(store.history), store.history, AllowedSteps(m, Releasing(spare)))
    ensures ok ==> !ClaimsAt(store.s, nn, m)
    ensures store.Undisturbed() ==> ok
  {
    var r := store.Patch(nn, m, map[], Releasing(spare));
    ok := r.Ok? || r.error == NotFound;
  }

  /** The source holds nothing anywhere but possibly on the spared agent. */
  ghost predicate OwnsOnlyOn(s: Sys, m: Manager, spare: Option<ObjectKey>) {
    forall nn :: ClaimsAt(s, nn, m) ==> spare == Some(nn)
  }

  /** releaseFromOtherAgents: every agent of the cluster the source owns a field on, but one. */
  method ReleaseFromOtherAgents(store: AgentStore, m: Manager, keep: Option<ObjectKey>) returns (ok: bool)
    requires store.Valid() && store.PeacefulTo(m) && IsSource(m)
    modifies store
    ensures store.Valid() && Extends(old(store.history), store.history, AllowedSteps(m, Releasing(keep)))
    ensures ok ==> OwnsOnlyOn(store.s, m, keep)
    ensures store.Undisturbed() ==> ok
  {
    ghost var from := store.history;
    var listed := store.List(m);
    QuietFitsAnyPlan(from, store.history, m, Releasing(keep));
    if listed.Err? {
      return false;
    }
    var todo := listed.value.Keys;
    while todo != {}
      invariant todo <= listed.value.Keys
      invariant store.Valid() && Extends(from, store.history, AllowedSteps(m, Releasing(keep)))
      invariant forall nn :: ClaimsAt(store.s, nn, m) && keep != Some(nn) ==>
                  nn in todo && OwnsAnyField(listed.value[nn], m)
      decreases todo
    {
      var nn :| nn in todo;
      todo := todo - {nn};
      if keep == Some(nn) || !OwnsAnyField(listed.value[nn], m) {
        continue;
      }
      ghost var past, was := store.history, store.s;
      var released := ReleaseRouting(store, nn, m, keep);
      Joined(from, past, store.history, AllowedSteps(m, Releasing(keep)));
      ClaimsShrink(store.history[|past| - 1..], m, keep);
      assert forall k :: ClaimsAt(store.s, k, m) ==> ClaimsAt(was, k, m);
      if !released {
        return false;
      }
    }
    ok := true;
  }

  // ---- contributing ----

  datatype ContributeResult = Accepted | HostnameConflict | ContributeFailed

  /** contributeRouting. */
  method ContributeRouting(store: AgentStore, nn: ObjectKey, m: Manager, want: Routing) returns (r: ContributeResult)
    requires store.Valid() && store.PeacefulTo(m) && m.apply && want != map[]
    modifies store
    ensures store.Valid() && Extends(old(store.history), store.history, AllowedSteps(m, Contributing(nn, want)))
    ensures r.Accepted? ==> ContributionAt(store.s, nn, m) == want
    ensures r.HostnameConflict? ==>
              && nn in store.s.agents && Conflicts(store.s.agents[nn], m, want)
              && Extends(old(store.history), store.history, AllowedSteps(m, Nothing))
    ensures store.Undisturbed() && nn in old(store.s).agents ==> !r.ContributeFailed?
  {
    var p := store.Patch(nn, m, want, Contributing(nn, want));
    r := match p
      case Ok(_) => Accepted
      case Err(Conflict) => HostnameConflict
      case Err(_) => ContributeFailed;
  }

  // ---- choosing the agent ----

  datatype Target = Write(nn: ObjectKey) | Observe(nn: ObjectKey) | Skip | Unresolved

  /** At some instant of this stretch the agent was one this source may write to. */
  ghost predicate SeenWritable(before: seq<Sys>, after: seq<Sys>, nn: ObjectKey, agentRef: string, tunnel: ObjectKey) {
    exists i :: |before| - 1 <= i < |after| && i >= 0 && nn in after[i].agents
                && if agentRef == "" then after[i].agents[nn].operatorOwned
                   else !after[i].agents[nn].observeOnly && after[i].agents[nn].tunnel == tunnel
  }

  /**
   * At some instant it was not: a stranger's under the default name, or missing or another tunnel's under the
   * agent-ref.
   */
  ghost predicate SeenUnfit(before: seq<Sys>, after: seq<Sys>, nn: ObjectKey, agentRef: string, tunnel: ObjectKey) {
    exists i :: |before| - 1 <= i < |after| && i >= 0
                && if agentRef == "" then nn in after[i].agents && !after[i].agents[nn].operatorOwned
                   else nn in after[i].agents ==>
                       !after[i].agents[nn].observeOnly && after[i].agents[nn].tunnel != tunnel
  }

  ghost predicate SeenObserveOnly(before: seq<Sys>, after: seq<Sys>, nn: ObjectKey) {
    exists i :: |before| - 1 <= i < |after| && i >= 0 && nn in after[i].agents && after[i].agents[nn].observeOnly
  }

  /** Where a source's routing belongs: under its agent-ref, else under the tunnel's default name. */
  function NamedAgent(agentNS: string, defaultName: string, agentRef: string): ObjectKey {
    ObjectKey(agentNS, if agentRef == "" then defaultName else agentRef)
  }

  /** Every choice of a target has its reason at some instant of this stretch. */
  ghost predicate Reasoned(before: seq<Sys>, after: seq<Sys>, named: ObjectKey, agentRef: string, tunnel: ObjectKey,
                           target: Target) {
    match target
    case Write(nn) => nn == named && SeenWritable(before, after, nn, agentRef, tunnel)
    case Observe(nn) => nn == named && agentRef != "" && SeenObserveOnly(before, after, nn)
    case Skip => SeenUnfit(before, after, named, agentRef, tunnel)
    case Unresolved => true
  }

  lemma ReasonedLasts(before: seq<Sys>, past: seq<Sys>, after: seq<Sys>, named: ObjectKey, agentRef: string,
                      tunnel: ObjectKey, target: Target)
    requires Reasoned(before, past, named, agentRef, tunnel, target) && past <= after
    ensures Reasoned(before, after, named, agentRef, tunnel, target)
  {}

  /** An agent this source may write to, or may create. */
  predicate Fit(s: Sys, nn: ObjectKey, agentRef: string, tunnel: ObjectKey) {
    if agentRef == "" then nn in s.agents ==> s.agents[nn].operatorOwned
    else nn in s.agents && !s.agents[nn].observeOnly && s.agents[nn].tunnel == tunnel
  }

  /** ensureDefaultAgent: get, else create, else get what won the race; never a stranger's agent. */
  method EnsureDefaultAgent(store: AgentStore, nn: ObjectKey, tunnel: ObjectKey, ghost m: Manager) returns (r: Target)
    requires store.Valid() && store.PeacefulTo(m)
    modifies store
    ensures store.Valid() && Extends(old(store.history), store.history, AllowedSteps(m, Nothing))
    ensures r == Write(nn) || r.Skip? || r.Unresolved?
    ensures r.Write? ==> SeenWritable(old(store.history), store.history, nn, "", tunnel)
    ensures store.Undisturbed() ==> !r.Unresolved? && (r.Write? ==> nn in store.s.agents)
    ensures r.Skip? ==> SeenUnfit(old(store.history), store.history, nn, "", tunnel)
    ensures store.Undisturbed() && nn in old(store.s).agents ==> store.s == old(store.s)
    ensures store.Undisturbed() && nn !in old(store.s).agents ==>
              r.Write? && nn in store.s.agents && JustMade(store.s.agents[nn], tunnel)
    ensures store.Undisturbed() ==> (r.Write? <==> Fit(old(store.s), nn, "", tunnel))
  {
    ghost var from := store.history;
    var got := store.Get(nn, m);
    if got.Err? {
      if got.error != NotFound {
        return Unresolved;
      }
      ghost var past := store.history;
      var made := store.Create(nn, tunnel, m);
      Joined(from, past, store.history, AllowedSteps(m, Nothing));
      if made.Ok? {
        assert store.history[|store.history| - 1] == store.s;
        return Write(nn);
      }
      if made.error != AlreadyExists {
        return Unresolved;
      }
      past := store.history;
      got := store.Get(nn, m);
      Joined(from, past, store.history, AllowedSteps(m, Nothing));
      if got.Err? {
        return Unresolved;
      }
    }
    assert store.history[|store.history| - 1] == store.s;
    r := if got.value.operatorOwned then Write(nn) else Skip;
  }

  /** resolveTarget. */
  method ResolveTarget(store: AgentStore, agentNS: string, defaultName: string, tunnel: ObjectKey, agentRef: string,
                       ghost m: Manager)
    returns (r: Target)
    requires store.Valid() && store.PeacefulTo(m)
    modifies store
    ensures store.Valid() && Extends(old(store.history), store.history, AllowedSteps(m, Nothing))
    ensures Reasoned(old(store.history), store.history, NamedAgent(agentNS, defaultName, agentRef), agentRef, tunnel, r)
    ensures store.Undisturbed() ==> !r.Unresolved? && (r.Write? ==> r.nn in store.s.agents)
    ensures store.Undisturbed() ==>
              (r.Write? <==> Fit(old(store.s), NamedAgent(agentNS, defaultName, agentRef), agentRef, tunnel))
  {
    if agentRef == "" {
      r := EnsureDefaultAgent(store, ObjectKey(agentNS, defaultName), tunnel, m);
      return;
    }
    var nn := ObjectKey(agentNS, agentRef);
    var got := store.Get(nn, m);
    if got.Err? {
      return if got.error == NotFound then Skip else Unresolved;
    }
    assert store.history[|store.history| - 1] == store.s;
    if got.value.observeOnly {
      return Observe(nn);
    }
    r := if got.value.tunnel == tunnel then Write(nn) else Skip;
  }

  // ---- the whole contribution ----

  /** Retry: released, but an emptied agent could not be collected yet. */
  datatype SourceResult = Settled | Retry | Conflicted | Failed

  /** Between these two points of the history the source was never without its old routing or its new. */
  ghost predicate CoveredThroughout(before: seq<Sys>, after: seq<Sys>, m: Manager, nn: ObjectKey, want: Routing) {
    && before != [] && before <= after
    && forall i :: |before| - 1 <= i < |after| ==> Covered(before[|before| - 1], after[i], m, nn, want)
  }

  lemma CoveredSoFar(before: seq<Sys>, after: seq<Sys>, m: Manager, nn: ObjectKey, want: Routing)
    requires Extends(before, after, AllowedSteps(m, Contributing(nn, want))) && Inv(before[|before| - 1]) && IsSource(m)
    ensures CoveredThroughout(before, after, m, nn, want)
  {
    var run := after[|before| - 1..];
    ContributingRunCovered(run, m, nn, want);
    forall i | |before| - 1 <= i < |after| ensures Covered(before[|before| - 1], after[i], m, nn, want) {
      assert after[i] == run[i - (|before| - 1)];
    }
  }

  /** Releasing everywhere else keeps the new contribution standing. */
  lemma CoveredToTheEnd(before: seq<Sys>, switched: seq<Sys>, after: seq<Sys>, m: Manager, nn: ObjectKey, want: Routing)
    requires CoveredThroughout(before, switched, m, nn, want) && IsSource(m)
    requires Extends(switched, after, AllowedSteps(m, Releasing(Some(nn)))) && Inv(switched[|switched| - 1])
    requires ContributionAt(switched[|switched| - 1], nn, m) == want
    ensures CoveredThroughout(before, after, m, nn, want)
    ensures ContributionAt(after[|after| - 1], nn, m) == want
  {
    var run := after[|switched| - 1..];
    ReleasingRunKeeps(run, m, nn, want);
    forall i | |before| - 1 <= i < |after| ensures Covered(before[|before| - 1], after[i], m, nn, want) {
      if i < |switched| {
        assert after[i] == switched[i];
      } else {
        assert after[i] == run[i - (|switched| - 1)];
      }
    }
  }

  /** The write branch of applyContribution: apply first, release elsewhere strictly after. */
  method Retarget(store: AgentStore, nn: ObjectKey, m: Manager, want: Routing, ghost from: seq<Sys>)
    returns (r: SourceResult)
    requires store.Valid() && store.PeacefulTo(m) && IsSource(m) && want != map[]
    requires Extends(from, store.history, AllowedSteps(m, Nothing)) && Inv(from[|from| - 1])
    modifies store
    ensures store.Valid() && CoveredThroughout(from, store.history, m, nn, want)
    ensures old(store.history) <= store.history && !r.Retry?
    ensures r.Settled? ==> ContributionAt(store.s, nn, m) == want && OwnsOnlyOn(store.s, m, Some(nn))
    ensures r.Conflicted? ==>
              && nn in store.s.agents && Conflicts(store.s.agents[nn], m, want)
              && Extends(from, store.history, AllowedSteps(m, Nothing))
    ensures store.Undisturbed() && nn in old(store.s).agents ==> !r.Failed?
  {
    ghost var past := store.history;
    QuietFitsAnyPlan(from, past, m, Contributing(nn, want));
    var c := ContributeRouting(store, nn, m, want);
    Joined(from, past, store.history, AllowedSteps(m, Contributing(nn, want)));
    CoveredSoFar(from, store.history, m, nn, want);
    if c.HostnameConflict? {
      Joined(from, past, store.history, AllowedSteps(m, Nothing));
      return Conflicted;
    }
    if c.ContributeFailed? {
      return Failed;
    }
    ghost var switched := store.history;
    var ok := ReleaseFromOtherAgents(store, m, Some(nn));
    CoveredToTheEnd(from, switched, store.history, m, nn, want);
    r := if ok then Settled else Failed;
  }

  /** applyContribution. */
  method ApplyContribution(store: AgentStore, m: Manager, want: Routing, agentNS: string, defaultName: string,
                           tunnel: ObjectKey, agentRef: string)
    returns (target: Target, r: SourceResult)
    requires store.Valid() && store.PeacefulTo(m) && IsSource(m) && want != map[]
    modifies store
    ensures store.Valid()
    ensures Reasoned(old(store.history), store.history, NamedAgent(agentNS, defaultName, agentRef), agentRef, tunnel,
                     target)
    ensures target.Write? ==> CoveredThroughout(old(store.history), store.history, m, target.nn, want)
    ensures !r.Retry? && (r.Settled? ==> !target.Unresolved?)
    ensures r.Settled? && target.Write? ==>
              ContributionAt(store.s, target.nn, m) == want && OwnsOnlyOn(store.s, m, Some(target.nn))
    ensures r.Settled? && !target.Write? ==> OwnsOnlyOn(store.s, m, None)
    ensures r.Conflicted? ==>
              target.Write? && target.nn in store.s.agents && Conflicts(store.s.agents[target.nn], m, want)
    ensures r.Conflicted? ==>
              Unmoved(old(store.s), store.s, m) && Extends(old(store.history), store.history, AllowedSteps(m, Nothing))
    ensures target.Unresolved? ==> r.Failed? && Unmoved(old(store.s), store.s, m)
    ensures store.Undisturbed() ==>
              !r.Failed?
                  && (target.Write? <==>
                      Fit(old(store.s), NamedAgent(agentNS, defaultName, agentRef), agentRef, tunnel))
  {
    ghost var from, named := store.history, NamedAgent(agentNS, defaultName, agentRef);
    target := ResolveTarget(store, agentNS, defaultName, tunnel, agentRef, m);
    ghost var past := store.history;
    if target.Unresolved? {
      QuietRunUnmoved(store.history[|from| - 1..], m);
      return target, Failed;
    }
    if !target.Write? {
      var ok := ReleaseFromOtherAgents(store, m, None);
      ReasonedLasts(from, past, store.history, named, agentRef, tunnel, target);
      return target, if ok then Settled else Failed;
    }
    r := Retarget(store, target.nn, m, want, from);
    ReasonedLasts(from, past, store.history, named, agentRef, tunnel, target);
    if r.Conflicted? {
      QuietRunUnmoved(store.history[|from| - 1..], m);
    }
  }

  // ---- leaving for good ----

  datatype GCResult = Collected | Kept | InFlight | GCFailed

  /** At some instant of this stretch the agent was empty and auto-created, yet claimed by a source. */
  ghost predicate SeenInFlight(before: seq<Sys>, after: seq<Sys>, nn: ObjectKey) {
    exists i :: |before| - 1 <= i < |after| && i >= 0 && nn in after[i].agents
                && after[i].agents[nn].autoCreated && after[i].agents[nn].leaves == map[]
                && HasSourceManager(after[i].agents[nn])
  }

  /** Gone, or in use, or changed while being decided on; or, if that is allowed for, empty but claimed. */
  predicate Spared(w: Sys, v: Sys, nn: ObjectKey, inFlight: bool) {
    || nn !in v.agents
    || (nn in w.agents && w.agents[nn].resourceVersion != v.agents[nn].resourceVersion)
    || (nn in w.agents && (!w.agents[nn].autoCreated || w.agents[nn].leaves != map[]))
    || (nn in w.agents && inFlight && HasSourceManager(w.agents[nn]))
  }

  /** The agent was dealt with at some instant of this stretch. */
  ghost predicate Considered(before: seq<Sys>, after: seq<Sys>, nn: ObjectKey, inFlight: bool) {
    exists i, j :: 0 <= i <= j < |after| && |before| <= i + 1 && Spared(after[i], after[j], nn, inFlight)
  }

  /** orphanGCIfEmpty: decide on an authoritative read, delete only what has not changed since. */
  method OrphanGCIfEmpty(store: AgentStore, nn: ObjectKey, ghost m: Manager) returns (r: GCResult)
    requires store.Valid() && store.PeacefulTo(m)
    modifies store
    ensures store.Valid() && Extends(old(store.history), store.history, AllowedSteps(m, Nothing))
    ensures r.Collected? ==> nn !in store.s.agents
    ensures r.InFlight? ==> SeenInFlight(old(store.history), store.history, nn)
    ensures !r.GCFailed? ==> Considered(old(store.history), store.history, nn, r.InFlight?)
    ensures store.Undisturbed() ==> !r.GCFailed?
  {
    ghost var from := store.history;
    var got := store.Get(nn, m);
    ghost var past := store.history;
    ghost var n := |past| - 1;
    if got.Err? {
      assert nn !in store.s.agents ==> Spared(past[n], past[n], nn, false);
      return if got.error == NotFound then Collected else GCFailed;
    }
    var ta := got.value;
    assert !Collectable(ta) ==> Spared(past[n], past[n], nn, !(!ta.autoCreated || ta.leaves != map[]));
    if !ta.autoCreated || ta.leaves != map[] {
      return Kept;
    }
    if HasSourceManager(ta) {
      return InFlight;
    }
    r := CollectUnchanged(store, nn, ta.resourceVersion, m);
    Joined(from, past, store.history, AllowedSteps(m, Nothing));
    assert store.history[n] == past[n]
           && (!r.GCFailed? ==> Spared(store.history[n], store.history[|store.history| - 1], nn, false));
  }

  /** Delete an agent just read as collectable, unless it has changed since. */
  method CollectUnchanged(store: AgentStore, nn: ObjectKey, resourceVersion: nat, ghost m: Manager)
    returns (r: GCResult)
    requires store.Valid() && store.PeacefulTo(m)
    requires nn in store.s.agents && store.s.agents[nn].resourceVersion == resourceVersion
    requires Collectable(store.s.agents[nn])
    modifies store
    ensures store.Valid() && Extends(old(store.history), store.history, AllowedSteps(m, Nothing))
    ensures r.Collected? ==> nn !in store.s.agents
    ensures r.Collected? || r.Kept? || r.GCFailed?
    ensures !r.GCFailed? ==> Spared(old(store.s), store.s, nn, false)
    ensures store.Undisturbed() ==> !r.GCFailed?
  {
    store.Take(Inspect(nn), m, Nothing);
    ghost var past := store.history;
    var d := store.Delete(nn, resourceVersion, m);
    Joined(old(store.history), past, store.history, AllowedSteps(m, Nothing));
    r := match d
      case Ok(_) => Collected
      case Err(NotFound) => Collected
      case Err(Conflict) => Kept
      case Err(_) => GCFailed;
  }

  datatype ReleaseResult = Released | ReleasedInFlight | ReleaseFailed

  /** At some instant the operator's agents were listed, and each of them has been considered since. */
  ghost predicate AllConsidered(before: seq<Sys>, after: seq<Sys>, inFlight: bool) {
    exists n :: 0 <= n < |after| && |before| <= n + 1
                && forall nn :: nn in after[n].agents && after[n].agents[nn].operatorOwned ==>
                     Considered(before, after, nn, inFlight)
  }

  /** releaseEverywhere: drop the source's ownership cluster-wide, then collect what is left empty. */
  method ReleaseEverywhere(store: AgentStore, m: Manager) returns (r: ReleaseResult)
    requires store.Valid() && store.PeacefulTo(m) && IsSource(m)
    modifies store
    ensures store.Valid() && Extends(old(store.history), store.history, AllowedSteps(m, Releasing(None)))
    ensures !r.ReleaseFailed? ==>
              OwnsOnlyOn(store.s, m, None) && AllConsidered(old(store.history), store.history, r.ReleasedInFlight?)
    ensures r.ReleasedInFlight? ==> exists nn :: SeenInFlight(old(store.history), store.history, nn)
    ensures store.Undisturbed() ==> !r.ReleaseFailed?
  {
    ghost var from := store.history;
    var ok := ReleaseFromOtherAgents(store, m, None);
    if !ok {
      return ReleaseFailed;
    }
    ghost var past := store.history;
    var listed := store.List(m);
    StayReleased(from, past, store.history, m);
    if listed.Err? {
      return ReleaseFailed;
    }
    ghost var n := |store.history| - 1;
    var candidates := set nn | nn in listed.value && listed.value[nn].operatorOwned;
    r := CollectOrphans(store, candidates, m, from);
    assert store.history[n].agents == listed.value;
  }

  /** The collecting loop of releaseEverywhere. */
  method CollectOrphans(store: AgentStore, candidates: set<ObjectKey>, m: Manager, ghost from: seq<Sys>)
    returns (r: ReleaseResult)
    requires Leaving(store, m, from, Released, {}) && store.PeacefulTo(m) && IsSource(m)
    modifies store
    ensures store.Valid() && Extends(from, store.history, AllowedSteps(m, Releasing(None)))
    ensures old(store.history) <= store.history
    ensures !r.ReleaseFailed? ==> Leaving(store, m, from, r, candidates)
    ensures store.Undisturbed() ==> !r.ReleaseFailed?
  {
    var todo := candidates;
    r := Released;
    while todo != {}
      invariant todo <= candidates && Leaving(store, m, from, r, candidates - todo)
      invariant old(store.history) <= store.history
      decreases todo
    {
      var nn :| nn in todo;
      ghost var done := candidates - todo;
      todo := todo - {nn};
      assert candidates - todo == done + {nn};
      r := CollectNext(store, nn, m, from, r, done);
      if r.ReleaseFailed? {
        return;
      }
    }
    assert candidates - {} == candidates;
  }

  /** What the collecting loop has established: every candidate done is considered, an apply in flight remembered. */
  ghost predicate Decided(from: seq<Sys>, h: seq<Sys>, r: ReleaseResult, done: set<ObjectKey>) {
    && !r.ReleaseFailed?
    && (r.ReleasedInFlight? ==> exists nn :: SeenInFlight(from, h, nn))
    && (forall nn :: nn in done ==> Considered(from, h, nn, r.ReleasedInFlight?))
  }

  ghost predicate LeavingAt(h: seq<Sys>, m: Manager, from: seq<Sys>, r: ReleaseResult, done: set<ObjectKey>) {
    && Extends(from, h, AllowedSteps(m, Releasing(None))) && OwnsOnlyOn(h[|h| - 1], m, None)
    && Decided(from, h, r, done)
  }

  ghost predicate Leaving(store: AgentStore, m: Manager, from: seq<Sys>, r: ReleaseResult, done: set<ObjectKey>)
    reads store
  {
    store.Valid() && LeavingAt(store.history, m, from, r, done)
  }

  lemma CandidateDone(from: seq<Sys>, past: seq<Sys>, h: seq<Sys>, m: Manager, soFar: ReleaseResult,
                      done: set<ObjectKey>, nn: ObjectKey, gc: GCResult)
    requires LeavingAt(past, m, from, soFar, done) && Extends(past, h, AllowedSteps(m, Nothing))
    requires IsSource(m) && Inv(past[|past| - 1])
    requires !gc.GCFailed? ==> Considered(past, h, nn, gc.InFlight?)
    requires gc.InFlight? ==> SeenInFlight(past, h, nn)
    ensures Extends(from, h, AllowedSteps(m, Releasing(None)))
    ensures !gc.GCFailed? ==> LeavingAt(h, m, from, if gc.InFlight? then ReleasedInFlight else soFar, done + {nn})
  {
    StayReleased(from, past, h, m);
    if !gc.GCFailed? {
      DecidedNext(from, past, h, soFar, done, nn, gc.InFlight?);
    }
  }

  lemma DecidedNext(from: seq<Sys>, past: seq<Sys>, h: seq<Sys>, soFar: ReleaseResult, done: set<ObjectKey>,
                    nn: ObjectKey, inFlight: bool)
    requires from <= past <= h && past != [] && Decided(from, past, soFar, done)
    requires Considered(past, h, nn, inFlight) && (inFlight ==> SeenInFlight(past, h, nn))
    ensures Decided(from, h, if inFlight then ReleasedInFlight else soFar, done + {nn})
  {
    SeenLonger(from, past, h);
    ConsideredLonger(from, past, h);
    if inFlight {
      assert SeenInFlight(from, h, nn);
    }
  }

  /** One candidate; an apply in flight is remembered, and the loop goes on. */
  method CollectNext(store: AgentStore, nn: ObjectKey, m: Manager, ghost from: seq<Sys>, soFar: ReleaseResult,
                     ghost done: set<ObjectKey>)
    returns (r: ReleaseResult)
    requires Leaving(store, m, from, soFar, done) && store.PeacefulTo(m) && IsSource(m)
    modifies store
    ensures store.Valid() && Extends(from, store.history, AllowedSteps(m, Releasing(None)))
    ensures old(store.history) <= store.history
    ensures !r.ReleaseFailed? ==> Leaving(store, m, from, r, done + {nn})
    ensures store.Undisturbed() ==> !r.ReleaseFailed?
  {
    ghost var past := store.history;
    var gc := OrphanGCIfEmpty(store, nn, m);
    CandidateDone(from, past, store.history, m, soFar, done, nn, gc);
    if gc.GCFailed? {
      return ReleaseFailed;
    }
    r := if gc.InFlight? then ReleasedInFlight else soFar;
  }

  lemma ConsideredLonger(from: seq<Sys>, past: seq<Sys>, h: seq<Sys>)
    requires from <= past <= h
    ensures forall nn, b :: Considered(from, past, nn, b) ==>
              Considered(from, h, nn, b) && Considered(from, h, nn, true)
    ensures forall nn, b :: Considered(past, h, nn, b) ==> Considered(from, h, nn, b) && Considered(from, h, nn, true)
  {
    forall nn, b | Considered(from, past, nn, b) ensures Considered(from, h, nn, b) && Considered(from, h, nn, true) {
      var i, j :| 0 <= i <= j < |past| && |from| <= i + 1 && Spared(past[i], past[j], nn, b);
      assert Spared(h[i], h[j], nn, b) && Spared(h[i], h[j], nn, true);
    }
    forall nn, b | Considered(past, h, nn, b) ensures Considered(from, h, nn, b) && Considered(from, h, nn, true) {
      var i, j :| 0 <= i <= j < |h| && |past| <= i + 1 && Spared(h[i], h[j], nn, b);
      assert Spared(h[i], h[j], nn, true);
    }
  }

  lemma StayReleased(from: seq<Sys>, past: seq<Sys>, h: seq<Sys>, m: Manager)
    requires Extends(from, past, AllowedSteps(m, Releasing(None))) && Extends(past, h, AllowedSteps(m, Nothing))
    requires IsSource(m)
    requires Inv(past[|past| - 1]) && OwnsOnlyOn(past[|past| - 1], m, None)
    ensures Extends(from, h, AllowedSteps(m, Releasing(None))) && OwnsOnlyOn(h[|h| - 1], m, None)
  {
    QuietFitsAnyPlan(past, h, m, Releasing(None));
    Joined(from, past, h, AllowedSteps(m, Releasing(None)));
    QuietRunUnmoved(h[|past| - 1..], m);
  }

  lemma SeenLonger(from: seq<Sys>, past: seq<Sys>, h: seq<Sys>)
    requires from <= past <= h
    ensures forall nn :: SeenInFlight(from, past, nn) ==> SeenInFlight(from, h, nn)
    ensures forall nn :: past != [] && SeenInFlight(past, h, nn) ==> SeenInFlight(from, h, nn)
  {}

  // ---- one source's reconcile ----

  /** What reading the source object and its annotations came to. */
  datatype SourceView =
    | NotFoundOrOptedOut
    | NoTunnel
    | Underivable
    | NothingToRoute
    | Wants(want: Routing, agentNS: string, defaultName: string, tunnel: ObjectKey, agentRef: string)

  /** The choice of a target has its reason, and through the switch to one the source was never without routing. */
  ghost predicate Chosen(before: seq<Sys>, after: seq<Sys>, m: Manager, view: SourceView, target: Target)
    requires view.Wants?
  {
    && Reasoned(before, after, NamedAgent(view.agentNS, view.defaultName, view.agentRef), view.agentRef, view.tunnel,
                target)
    && (target.Write? ==> CoveredThroughout(before, after, m, target.nn, view.want))
  }

  /** What a reconcile that does not fail leaves behind, and what it has looked at. */
  ghost predicate Converged(before: seq<Sys>, after: seq<Sys>, m: Manager, view: SourceView, target: Target,
                            retry: bool)
    requires after != []
  {
    var now := after[|after| - 1];
    match view
    case NotFoundOrOptedOut => OwnsOnlyOn(now, m, None) && AllConsidered(before, after, retry)
    case NothingToRoute => OwnsOnlyOn(now, m, None) && AllConsidered(before, after, retry)
    case NoTunnel => after == before && !retry
    case Underivable => after == before && !retry
    case Wants(want, _, _, _, _) =>
      && !retry && !target.Unresolved?
      && if target.Write? then ContributionAt(now, target.nn, m) == want && OwnsOnlyOn(now, m, Some(target.nn))
         else OwnsOnlyOn(now, m, None)
  }

  /** What such a view comes to with nobody else about: its routing, exactly if the agent named is fit for it. */
  ghost predicate Foreseen(before: Sys, view: SourceView, target: Target, r: SourceResult) {
    && !r.Failed?
    && (view.Wants? ==>
          && (r.Settled? || r.Conflicted?)
          && (target.Write? <==>
              Fit(before, NamedAgent(view.agentNS, view.defaultName, view.agentRef), view.agentRef, view.tunnel)))
  }

  /**
   * The body shared by the source reconcilers. An opted-out source lets go of everything; one whose
   * tunnel does not resolve, or whose annotations do not parse, keeps whatever it has.
   */
  method ReconcileSource(store: AgentStore, m: Manager, view: SourceView) returns (r: SourceResult, target: Target)
    requires store.Valid() && store.PeacefulTo(m) && IsSource(m) && (view.Wants? ==> view.want != map[])
    modifies store
    ensures store.Valid()
    ensures r.Settled? || r.Retry? ==> Converged(old(store.history), store.history, m, view, target, r.Retry?)
    ensures view.Wants? ==> Chosen(old(store.history), store.history, m, view, target)
    ensures r.Conflicted? ==>
              && view.Wants? && target.Write? && Unmoved(old(store.s), store.s, m)
              && target.nn in store.s.agents && Conflicts(store.s.agents[target.nn], m, view.want)
    ensures store.Undisturbed() ==> Foreseen(old(store.s), view, target, r)
    ensures view.NoTunnel? || view.Underivable? ==> r.Settled? && store.history == old(store.history)
  {
    target := Skip;
    match view
    case NotFoundOrOptedOut =>
      var left := ReleaseEverywhere(store, m);
      r := ResultOf(left);
    case NothingToRoute =>
      var left := ReleaseEverywhere(store, m);
      r := ResultOf(left);
    case NoTunnel =>
      r := Settled;
    case Underivable =>
      r := Settled;
    case Wants(want, agentNS, defaultName, tunnel, agentRef) =>
      target, r := ApplyContribution(store, m, want, agentNS, defaultName, tunnel, agentRef);
  }

  /** releaseResult. */
  function ResultOf(left: ReleaseResult): SourceResult {
    match left
    case Released => Settled
    case ReleasedInFlight => Retry
    case ReleaseFailed => Failed
  }
}
