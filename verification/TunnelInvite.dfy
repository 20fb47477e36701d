/** Converging an invite's hostnames on the desired set, one fallible hub call at a time. */
module TunnelInvite {
  import opened Text
  import opened Histories
  import opened Conventions
  import opened Environment
  import opened Api

  const HUB_DEFAULT_REGION := "EU"

  /** hubRegion: trimmed and upper-cased, a blank one being the hub's default. */
  function HubRegion(r: string): string {
    var region := ToUpper(TrimSpace(r));
    if region != "" then region else HUB_DEFAULT_REGION
  }

  /** The region said, blanks around it dropped, in capitals; or, if none is said, Europe. */
  ghost predicate MeansRegion(raw: string, region: string) {
    exists said :: Stripped(raw, said) && if said == "" then region == "EU" else Capitals(said, region)
  }

  ghost predicate Capitals(s: string, t: string) {
    && |s| == |t|
    && forall i :: 0 <= i < |s| ==>
         t[i] as int == if 'a' <= s[i] <= 'z' then s[i] as int - 32 else s[i] as int
  }

  lemma HubRegionIsMeant(raw: string)
    ensures MeansRegion(raw, HubRegion(raw))
  {
    TrimSpaceStrips(raw);
    assert Capitals(TrimSpace(raw), ToUpper(TrimSpace(raw)));
  }

  /** What DNS may publish from. */
  datatype InviteView = InviteView(confirmed: seq<string>, region: string, revoked: bool)

  datatype ViewResult = View(view: InviteView) | InviteGone | Failed

  function ServiceHostnames(agents: seq<Agent>): set<string> {
    set i, j | 0 <= i < |agents| && 0 <= j < |agents[i].services| :: agents[i].services[j].hostname
  }

  /** desiredHostnames: extra hostnames and every agent's HTTPS hostnames, normalised. */
  method DesiredHostnames(extra: seq<string>, agents: seq<Agent>) returns (out: seq<string>)
    ensures StrictlySorted(out) && "" !in out
    ensures Elements(out) == Elements(extra) + ServiceHostnames(agents) - {""}
  {
    var hs := extra;
    for i := 0 to |agents|
      invariant Elements(hs) == Elements(extra) + ServiceHostnames(agents[..i])
    {
      ghost var before := Elements(hs);
      for j := 0 to |agents[i].services|
        invariant Elements(hs) == before + set k | 0 <= k < j :: agents[i].services[k].hostname
      {
        var h := agents[i].services[j].hostname;
        assert Elements(hs + [h]) == Elements(hs) + {h};
        hs := hs + [h];
      }
      ServiceHostnamesGrow(agents, i);
    }
    assert agents[..|agents|] == agents;
    out := Dedupe(hs);
    assert "" !in Elements(out);
  }

  lemma ServiceHostnamesGrow(agents: seq<Agent>, i: nat)
    requires i < |agents|
    ensures ServiceHostnames(agents[..i + 1])
            == ServiceHostnames(agents[..i]) + set k | 0 <= k < |agents[i].services| :: agents[i].services[k].hostname
  {}

  // ---- single hub calls ----

  ghost predicate Adds(w: World, v: World, id: string, h: string) {
    Active(w, id) && !Reserved(w, h) && h !in Names(w, id) && v == Authorize(w, id, h)
  }

  ghost predicate Removes(w: World, v: World, id: string, h: string) {
    Active(w, id) && h in Names(w, id) && v == Deauthorize(w, id, h)
  }

  /** One call: nothing happens, a desired name is added, or an undesired one removed. */
  ghost predicate HostnameStep(w: World, v: World, id: string, desired: set<string>) {
    || v == w
    || (exists h :: h in desired && Adds(w, v, id, h))
    || (exists h :: h !in desired && Removes(w, v, id, h))
  }

  ghost function HostnameSteps(id: string, desired: set<string>): Rule<World> {
    (w, v) => HostnameStep(w, v, id, desired)
  }

  /** Everything but this invite's hostnames is as it was. */
  ghost predicate OnlyHostnames(w: World, v: World, id: string) {
    && v == w.(invites := v.invites)
    && (forall other :: Active(v, other) == Active(w, other))
    && (forall other :: other != id ==> Names(v, other) == Names(w, other))
  }

  function Difference(names: set<string>, desired: set<string>): set<string> {
    (names - desired) + (desired - names)
  }

  /** How many calls of a run took effect. */
  ghost function EffectiveCalls(run: seq<World>): nat {
    if |run| < 2 then 0
    else EffectiveCalls(run[..|run| - 1]) + if run[|run| - 2] == run[|run| - 1] then 0 else 1
  }

  lemma OneNameCloser(names: set<string>, names': set<string>, desired: set<string>, h: string)
    requires if h in desired then h !in names && names' == names + {h} else h in names && names' == names - {h}
    ensures names * desired <= names' <= names + desired
    ensures |Difference(names', desired)| == |Difference(names, desired)| - 1
  {
    assert Difference(names', desired) == Difference(names, desired) - {h};
    assert h in Difference(names, desired);
  }

  lemma StepShrinks(w: World, v: World, id: string, desired: set<string>)
    requires HostnameStep(w, v, id, desired) && v != w
    ensures OnlyHostnames(w, v, id)
    ensures Names(w, id) * desired <= Names(v, id) <= Names(w, id) + desired
    ensures |Difference(Names(v, id), desired)| == |Difference(Names(w, id), desired)| - 1
  {
    if h :| h in desired && Adds(w, v, id, h) {
      OneNameCloser(Names(w, id), Names(v, id), desired, h);
    } else {
      var h :| h !in desired && Removes(w, v, id, h);
      OneNameCloser(Names(w, id), Names(v, id), desired, h);
    }
  }

  /** No desired name is lost and no undesired one gained, by this many effective calls. */
  ghost predicate Nearer(w: World, v: World, id: string, desired: set<string>, calls: nat) {
    && OnlyHostnames(w, v, id)
    && Names(w, id) * desired <= Names(v, id) <= Names(w, id) + desired
    && |Difference(Names(v, id), desired)| + calls == |Difference(Names(w, id), desired)|
  }

  lemma NearerTransitive(u: World, w: World, v: World, id: string, desired: set<string>, m: nat, n: nat)
    requires Nearer(u, w, id, desired, m) && Nearer(w, v, id, desired, n)
    ensures Nearer(u, v, id, desired, m + n)
  {}

  /**
   * Over any number of passes, each cut off anywhere: no desired name is ever lost, no undesired
   * one gained, nothing else touched, and every effective call brings the set one name closer,
   * so there are never more of them than names that differed.
   */
  lemma {:induction false} RunConverges(run: seq<World>, id: string, desired: set<string>)
    requires run != [] && Chain(run, HostnameSteps(id, desired))
    ensures Nearer(run[0], run[|run| - 1], id, desired, EffectiveCalls(run))
  {
    if |run| > 1 {
      var n := |run| - 1;
      RunConverges(run[..n], id, desired);
      var w, v := run[n - 1], run[n];
      if w != v {
        StepShrinks(w, v, id, desired);
      }
      NearerTransitive(run[0], w, v, id, desired, EffectiveCalls(run[..n]), if w == v then 0 else 1);
    }
  }

  // ---- one pass ----

  /** The names a finished pass leaves on the invite: those desired and not held by another. */
  ghost predicate Settled(w: World, id: string, desired: seq<string>) {
    forall h :: h in Names(w, id) <==> h in desired && !HeldElsewhere(w, id, h)
  }

  /** What the first loop has established after i desired names. */
  ghost predicate AddProgress(start: World, w: World, id: string, desired: seq<string>, i: nat,
                              confirmed: seq<string>, authorized: seq<string>)
    requires i <= |desired|
  {
    && Elements(confirmed) == Names(w, id)
    && Names(start, id) <= Elements(confirmed) <= Names(start, id) + Elements(desired[..i])
    && Elements(authorized) == Names(start, id) + Elements(desired[..i])
    && (forall h :: h in desired[..i] ==> h in Names(w, id) || HeldElsewhere(start, id, h))
  }

  /** The adding half of convergeHostnames: every desired name the hub does not list. */
  method AddMissing(env: Env, id: string, desired: seq<string>, hubSet: seq<string>)
    returns (ok: bool, confirmed: seq<string>, authorized: seq<string>)
    requires env.Valid() && StrictlySorted(desired) && "" !in desired
    requires Elements(hubSet) == Names(env.w, id)
    modifies env`w, env`calls, env`history
    ensures env.Valid() && Extends(old(env.history), env.history, HostnameSteps(id, Elements(desired)))
    ensures OnlyHostnames(old(env.w), env.w, id)
    ensures ok ==> AddProgress(old(env.w), env.w, id, desired, |desired|, confirmed, authorized)
    ensures env.Flawless() && Active(old(env.w), id) ==> ok
  {
    ghost var start, goal := env.w, Elements(desired);
    ok, confirmed, authorized := true, hubSet, hubSet;
    for i := 0 to |desired|
      invariant env.Valid() && ok && Extends(old(env.history), env.history, HostnameSteps(id, goal))
      invariant OnlyHostnames(start, env.w, id)
      invariant AddProgress(start, env.w, id, desired, i, confirmed, authorized)
    {
      var h := desired[i];
      ghost var before, past, c, a := env.w, env.history, confirmed, authorized;
      NextDesired(desired, i);
      if h !in hubSet {
        assert h in goal && h !in Elements(hubSet);
        assert h !in Names(before, id);
        var added := env.AddHostname(id, h);
        assert env.w == before || Adds(before, env.w, id, h);
        OneMore(old(env.history), past, env.w, HostnameSteps(id, goal));
        if added.Err? && added.error != HostnameConflict {
          return false, confirmed, authorized;
        }
        if added.Err? {
          ConflictIsElsewhere(start, before, id, h);
        }
        authorized := Include(authorized, h);
        if added.Ok? {
          confirmed := Include(confirmed, h);
        }
      } else {
        assert h in Elements(hubSet);
      }
      AddProgressStep(start, before, env.w, id, desired, i, c, a, confirmed, authorized);
    }
    assert desired[..|desired|] == desired;
  }

  /** Of what there was, exactly the undesired names gone through are gone. */
  ghost predicate RemoveProgress(start: set<string>, now: set<string>, through: seq<string>, goal: set<string>,
                                 authorized: seq<string>, authorized': seq<string>) {
    && now == start - (Elements(through) - goal)
    && Elements(authorized') == Elements(authorized) - (Elements(through) - goal)
  }

  lemma RemoveProgressStep(start: set<string>, before: set<string>, now: set<string>, hubSet: seq<string>, i: nat,
                           goal: set<string>, authorized: seq<string>, a: seq<string>, a': seq<string>)
    requires StrictlySorted(hubSet) && i < |hubSet| && RemoveProgress(start, before, hubSet[..i], goal, authorized, a)
    requires hubSet[i] in goal ==> now == before && a' == a
    requires hubSet[i] !in goal ==> now == before - {hubSet[i]} && Elements(a') == Elements(a) - {hubSet[i]}
    ensures RemoveProgress(start, now, hubSet[..i + 1], goal, authorized, a')
  {
    NextDesired(hubSet, i);
  }

  lemma NotGoneYet(start: set<string>, now: set<string>, hubSet: seq<string>, i: nat, goal: set<string>,
                   authorized: seq<string>, a: seq<string>)
    requires StrictlySorted(hubSet) && i < |hubSet| && RemoveProgress(start, now, hubSet[..i], goal, authorized, a)
    ensures hubSet[i] in start ==> hubSet[i] in now
  {
    NextDesired(hubSet, i);
  }

  /** The removing half: every listed name that is not desired. */
  method RemoveUndesired(env: Env, id: string, desired: seq<string>, hubSet: seq<string>,
                         confirmed: seq<string>, authorized: seq<string>)
    returns (ok: bool, confirmed': seq<string>, authorized': seq<string>)
    requires env.Valid() && Active(env.w, id) && StrictlySorted(hubSet)
    requires Elements(hubSet) <= Elements(confirmed) == Names(env.w, id)
    modifies env`w, env`calls, env`history
    ensures env.Valid() && Extends(old(env.history), env.history, HostnameSteps(id, Elements(desired)))
    ensures OnlyHostnames(old(env.w), env.w, id)
    ensures ok ==>
              && Elements(confirmed') == Names(env.w, id)
              && Names(env.w, id) == Names(old(env.w), id) - (Elements(hubSet) - Elements(desired))
              && Elements(authorized') == Elements(authorized) - (Elements(hubSet) - Elements(desired))
    ensures env.Flawless() ==> ok
  {
    hide Chain, HeldElsewhere;
    ghost var start, goal := env.w, Elements(desired);
    NoSteps(env.history, HostnameSteps(id, goal));
    ok, confirmed', authorized' := true, confirmed, authorized;
    for i := 0 to |hubSet|
      invariant env.Valid() && ok && Extends(old(env.history), env.history, HostnameSteps(id, goal))
      invariant OnlyHostnames(start, env.w, id)
      invariant Elements(confirmed') == Names(env.w, id)
      invariant RemoveProgress(Names(start, id), Names(env.w, id), hubSet[..i], goal, authorized, authorized')
    {
      var h := hubSet[i];
      ghost var before, past, a := env.w, env.history, authorized';
      if h !in desired {
        assert h in Elements(hubSet) && h !in goal;
        NotGoneYet(Names(start, id), Names(before, id), hubSet, i, goal, authorized, a);
        var removed := env.RemoveHostname(id, h);
        assert env.w == before || Removes(before, env.w, id, h);
        OneMore(old(env.history), past, env.w, HostnameSteps(id, goal));
        if removed.Err? {
          return false, confirmed', authorized';
        }
        authorized' := Without(authorized', h);
        confirmed' := Without(confirmed', h);
      }
      RemoveProgressStep(Names(start, id), Names(before, id), Names(env.w, id), hubSet, i, goal, authorized, a,
                         authorized');
    }
    assert hubSet[..|hubSet|] == hubSet;
  }

  /** convergeHostnames. */
  method ConvergeHostnames(env: Env, tt: Tunnel, desired: seq<string>) returns (r: ViewResult)
    requires env.Valid()
    requires StrictlySorted(desired) && "" !in desired
    modifies env`w, env`calls, env`history, tt`status
    ensures env.Valid() && Extends(old(env.history), env.history, HostnameSteps(tt.status.inviteID, Elements(desired)))
    ensures tt.status == old(tt.status).(authorizedHostnames := tt.status.authorizedHostnames)
    ensures !r.View? ==> tt.status == old(tt.status)
    ensures r.View? ==> tt.status.inviteID in old(env.w).invites
    ensures r.View? ==> r.view.region == HubRegion(old(env.w).invites[tt.status.inviteID].region)
    ensures r.View? ==> MeansRegion(old(env.w).invites[tt.status.inviteID].region, r.view.region)
    ensures r == InviteGone ==> tt.status.inviteID !in env.w.invites && env.w == old(env.w)
    ensures r.View? ==> tt.status.inviteID in env.w.invites && Active(env.w, tt.status.inviteID) == !r.view.revoked
    ensures r.View? && r.view.revoked ==>
              && env.w == old(env.w) && r.view.confirmed == []
              && tt.status.authorizedHostnames == Dedup(env.w.invites[tt.status.inviteID].hostnames)
    ensures r.View? && !r.view.revoked ==>
              && Settled(env.w, tt.status.inviteID, desired)
              && StrictlySorted(r.view.confirmed) && Elements(r.view.confirmed) == Names(env.w, tt.status.inviteID)
              && tt.status.authorizedHostnames == desired
    ensures env.Flawless() ==> r != Failed
  {
    hide Chain, WellFormed, MeansRegion;
    var id := tt.status.inviteID;
    NoSteps(env.history, HostnameSteps(id, Elements(desired)));
    var got := env.GetInvite(id);
    if got.Err? {
      return if got.error == NotFound then InviteGone else Failed;
    }
    var invite := got.value;
    HubRegionIsMeant(invite.region);
    var hubSet := Dedupe(invite.hostnames);
    if invite.revoked {
      tt.status := tt.status.(authorizedHostnames := hubSet);
      return View(InviteView([], HubRegion(invite.region), true));
    }
    ghost var start := env.w;
    NoEmptyNames(start, id);
    var ok, confirmed, authorized := AddMissing(env, id, desired, hubSet);
    if !ok {
      return Failed;
    }
    ghost var middle, between := env.w, env.history;
    ok, confirmed, authorized := RemoveUndesired(env, id, desired, hubSet, confirmed, authorized);
    Joined(old(env.history), between, env.history, HostnameSteps(id, Elements(desired)));
    OnlyHostnamesTransitive(start, middle, env.w, id);
    if !ok {
      return Failed;
    }
    FinishedPassSettles(start, middle, env.w, id, desired, authorized);
    NoEmptyNames(env.w, id);
    authorized := Dedupe(authorized);
    confirmed := Dedupe(confirmed);
    SortedListsAgree(authorized, desired, Itself);
    tt.status := tt.status.(authorizedHostnames := authorized);
    return View(InviteView(confirmed, HubRegion(invite.region), false));
  }

  lemma OnlyHostnamesTransitive(u: World, w: World, v: World, id: string)
    requires OnlyHostnames(u, w, id) && OnlyHostnames(w, v, id)
    ensures OnlyHostnames(u, v, id)
  {}

  /** Adding then removing leaves the desired names nobody else holds, and the desired list in status. */
  lemma FinishedPassSettles(start: World, middle: World, w: World, id: string, desired: seq<string>,
                            authorized: seq<string>)
    requires WellFormed(w) && Active(start, id) && OnlyHostnames(start, w, id)
    requires forall h :: h in desired ==> h in Names(middle, id) || HeldElsewhere(start, id, h)
    requires Names(start, id) <= Names(middle, id) <= Names(start, id) + Elements(desired)
    requires Names(w, id) == Names(middle, id) - (Names(start, id) - Elements(desired))
    requires Elements(authorized) == Names(start, id) + Elements(desired) - (Names(start, id) - Elements(desired))
    ensures Settled(w, id, desired)
    ensures Elements(authorized) == Elements(desired)
  {
    forall h ensures h in Names(w, id) <==> h in desired && !HeldElsewhere(w, id, h) {
      SameHolders(start, w, id, h);
      assert h in desired <==> h in Elements(desired);
      assert Active(w, id);
    }
  }

  lemma SameHolders(w: World, v: World, id: string, h: string)
    requires OnlyHostnames(w, v, id)
    ensures HeldElsewhere(w, id, h) == HeldElsewhere(v, id, h)
  {}

  function Include(s: seq<string>, h: string): (r: seq<string>)
    ensures Elements(r) == Elements(s) + {h}
  {
    if h in s then
      assert h in Elements(s);
      s
    else
      assert Elements(s + [h]) == Elements(s) + {h};
      s + [h]
  }

  lemma NextDesired(desired: seq<string>, i: nat)
    requires i < |desired| && StrictlySorted(desired)
    ensures desired[..i + 1] == desired[..i] + [desired[i]]
    ensures Elements(desired[..i + 1]) == Elements(desired[..i]) + {desired[i]}
    ensures desired[i] !in Elements(desired[..i])
  {
    SortedPrefixAvoids(desired, i);
  }

  lemma SortedPrefixAvoids(s: seq<string>, i: nat)
    requires i < |s| && StrictlySorted(s)
    ensures s[i] !in Elements(s[..i])
  {
    LessIrreflexive(s[i]);
  }

  lemma NoEmptyNames(w: World, id: string)
    requires WellFormed(w) && id in w.invites
    ensures "" !in Names(w, id)
  {}

  lemma ConflictIsElsewhere(start: World, w: World, id: string, h: string)
    requires OnlyHostnames(start, w, id) && Reserved(w, h) && h !in Names(w, id)
    ensures HeldElsewhere(start, id, h)
  {}

  lemma AddProgressStep(start: World, w: World, v: World, id: string, desired: seq<string>, i: nat,
                        c: seq<string>, a: seq<string>, c': seq<string>, a': seq<string>)
    requires i < |desired| && StrictlySorted(desired)
    requires AddProgress(start, w, id, desired, i, c, a)
    requires Elements(a') == Elements(a) + {desired[i]}
    requires Elements(c') == Names(v, id)
    requires v == w || (id in w.invites && v == Authorize(w, id, desired[i]))
    requires desired[i] in Names(v, id) || HeldElsewhere(start, id, desired[i])
    ensures AddProgress(start, v, id, desired, i + 1, c', a')
  {
    NextDesired(desired, i);
  }
}
