/** The bounded event-dedupe cache, against the unbounded map it stands in for. */
module EventDedupe {
  import opened Text

  const EVENT_DEDUPE_TTL := 3600
  const EVENT_DEDUPE_MAX_SIZE := 1024

  /** When each key was last let through, in seconds. */
  type SentAt = map<string, int>

  datatype Event = Event(key: string, at: int)

  function EventKey(uid: string, reason: string, message: string): string {
    uid + "|" + reason + "|" + message
  }

  /** Different events never share a key: a UID and a reason contain no bar. */
  lemma EventKeyInjective(u1: string, r1: string, m1: string, u2: string, r2: string, m2: string)
    requires '|' !in u1 && '|' !in r1 && '|' !in u2 && '|' !in r2
    ensures EventKey(u1, r1, m1) == u1 + "|" + r1 + "|" + m1
    ensures EventKey(u1, r1, m1) == EventKey(u2, r2, m2) <==> u1 == u2 && r1 == r2 && m1 == m2
  {
    if EventKey(u1, r1, m1) == EventKey(u2, r2, m2) {
      assert u1 + ['|'] + (r1 + ['|'] + m1) == EventKey(u1, r1, m1);
      assert u2 + ['|'] + (r2 + ['|'] + m2) == EventKey(u2, r2, m2);
      CutIsUnique(u1, r1 + ['|'] + m1, u2, r2 + ['|'] + m2, '|');
      CutIsUnique(r1, m1, r2, m2, '|');
    }
  }

  predicate RecentlySent(m: SentAt, key: string, now: int) {
    key in m && now - m[key] < EVENT_DEDUPE_TTL
  }

  function Unexpired(m: SentAt, now: int): set<string> {
    set k | k in m && RecentlySent(m, k, now)
  }

  /** The reference: a map that never forgets. */
  function Remember(m: SentAt, key: string, now: int): SentAt {
    if RecentlySent(m, key, now) then m else m[key := now]
  }

  function RememberAll(events: seq<Event>): SentAt {
    if events == [] then map[]
    else
      var e := events[|events| - 1];
      Remember(RememberAll(events[..|events| - 1]), e.key, e.at)
  }

  /** Whether the reference lets event i through. */
  predicate ReferenceSends(events: seq<Event>, i: nat)
    requires i < |events|
  {
    !RecentlySent(RememberAll(events[..i]), events[i].key, events[i].at)
  }

  ghost predicate InTimeOrder(events: seq<Event>) {
    forall i, j :: 0 <= i < j < |events| ==> events[i].at <= events[j].at
  }

  /** At no point up to event n are more keys unexpired than the cache can hold. */
  ghost predicate WithinCapacity(events: seq<Event>, n: nat)
    requires n <= |events|
  {
    forall i :: 0 <= i < n ==> |Unexpired(RememberAll(events[..i + 1]), events[i].at)| <= EVENT_DEDUPE_MAX_SIZE
  }

  /** One let-through: the cache gains the key, losing an oldest one only when it is full. */
  ghost predicate LetThrough(before: SentAt, after: SentAt, key: string, now: int) {
    if |before| < EVENT_DEDUPE_MAX_SIZE then after == before[key := now]
    else exists victim :: IsOldest(before, victim) && after == (before - {victim})[key := now]
  }

  ghost predicate IsOldest(m: SentAt, k: string) {
    k in m && forall other :: other in m ==> m[k] <= m[other]
  }

  /** The cache agrees with the reference wherever the reference still suppresses. */
  ghost predicate Covers(recent: SentAt, all: SentAt, now: int) {
    && Within(recent, all)
    && Unexpired(all, now) <= recent.Keys
  }

  ghost predicate Within(recent: SentAt, all: SentAt) {
    forall k :: k in recent ==> k in all && all[k] == recent[k]
  }

  lemma WithinAfter(recent: SentAt, all: SentAt, gone: set<string>, key: string, now: int)
    requires Within(recent, all)
    ensures Within((recent - gone)[key := now], all[key := now])
  {}

  lemma CoversLater(recent: SentAt, all: SentAt, now: int, later: int)
    requires Covers(recent, all, now) && now <= later
    ensures Covers(recent, all, later)
  {}

  /**
   * A let-through keeps the cache equivalent to the reference exactly when the reference has
   * no more unexpired keys than the cache has room for.
   */
  lemma EvictionIsHarmlessIff(before: SentAt, after: SentAt, all: SentAt, key: string, now: int)
    requires |before| <= EVENT_DEDUPE_MAX_SIZE
    requires Covers(before, all, now)
    requires !RecentlySent(before, key, now)
    requires LetThrough(before, after, key, now)
    ensures !RecentlySent(all, key, now)
    ensures Covers(after, Remember(all, key, now), now)
            <==> |Unexpired(Remember(all, key, now), now)| <= EVENT_DEDUPE_MAX_SIZE
    ensures |after| <= EVENT_DEDUPE_MAX_SIZE
  {
    assert key in Unexpired(all, now) <==> RecentlySent(all, key, now);
    UnexpiredAfter(all, key, now);
    if |before| < EVENT_DEDUPE_MAX_SIZE {
      assert before - {} == before;
      LetThroughCovers(before, {}, all, key, now);
      SubsetIsSmaller(Unexpired(all, now) + {key}, after.Keys);
    } else {
      var victim :| IsOldest(before, victim) && after == (before - {victim})[key := now];
      LetThroughCovers(before, {victim}, all, key, now);
      EvictionKeeps(before, all, key, now, victim);
    }
  }

  /** Which is to say: evicting a key loses nothing exactly when that key has expired. */
  lemma EvictionIsHarmlessIffExpired(before: SentAt, all: SentAt, key: string, now: int, victim: string)
    requires Covers(before, all, now) && victim in before && !RecentlySent(before, key, now)
    ensures Covers((before - {victim})[key := now], Remember(all, key, now), now) <==>
            !RecentlySent(before, victim, now)
  {
    LetThroughCovers(before, {victim}, all, key, now);
    UnexpiredAfter(all, key, now);
    assert victim in Unexpired(all, now) <==> RecentlySent(before, victim, now);
    assert Unexpired(all, now) <= before.Keys;
  }

  lemma LetThroughCovers(before: SentAt, gone: set<string>, all: SentAt, key: string, now: int)
    requires Covers(before, all, now) && gone <= before.Keys && |gone| <= 1
    ensures Covers((before - gone)[key := now], all[key := now], now)
            <==> Unexpired(all, now) + {key} <= before.Keys - gone + {key}
    ensures |(before - gone)[key := now]| <= |before| - |gone| + 1
    ensures (before - gone)[key := now].Keys == before.Keys - gone + {key}
    ensures |(before - gone)[key := now].Keys| == |(before - gone)[key := now]|
  {
    WithinAfter(before, all, gone, key, now);
    KeysAfter(before, gone, key, now);
    UnexpiredAfter(all, key, now);
  }

  lemma UnexpiredAfter(all: SentAt, key: string, now: int)
    ensures Unexpired(all[key := now], now) == Unexpired(all, now) + {key}
  {}

  lemma KeysAfter(m: SentAt, gone: set<string>, key: string, now: int)
    requires gone <= m.Keys && |gone| <= 1
    ensures (m - gone)[key := now].Keys == m.Keys - gone + {key}
    ensures |(m - gone)[key := now].Keys| == |(m - gone)[key := now]| <= |m| - |gone| + 1
  {}

  lemma EvictionKeeps(before: SentAt, all: SentAt, key: string, now: int, victim: string)
    requires |before| == EVENT_DEDUPE_MAX_SIZE
    requires Covers(before, all, now) && IsOldest(before, victim)
    requires !RecentlySent(before, key, now)
    ensures Unexpired(all, now) + {key} <= before.Keys - {victim} + {key}
            <==> |Unexpired(all, now) + {key}| <= EVENT_DEDUPE_MAX_SIZE
  {
    var live := Unexpired(all, now) + {key};
    if live <= before.Keys - {victim} + {key} {
      KeysAfter(before, {victim}, key, now);
      SubsetIsSmaller(live, before.Keys - {victim} + {key});
    }
    if |live| <= EVENT_DEDUPE_MAX_SIZE {
      FullCacheHasExpiredOldest(before, all, key, now, victim);
    }
  }

  lemma FullCacheHasExpiredOldest(before: SentAt, all: SentAt, key: string, now: int, victim: string)
    requires |before| == EVENT_DEDUPE_MAX_SIZE
    requires Covers(before, all, now) && IsOldest(before, victim)
    requires !RecentlySent(before, key, now)
    requires |Unexpired(all, now) + {key}| <= EVENT_DEDUPE_MAX_SIZE
    ensures !RecentlySent(before, victim, now)
  {
    if RecentlySent(before, victim, now) {
      forall k | k in before ensures k in Unexpired(all, now) {
        assert before[victim] <= before[k];
      }
      assert before.Keys <= Unexpired(all, now);
      assert key !in before;
      SubsetIsSmaller(before.Keys + {key}, Unexpired(all, now) + {key});
    }
  }

  lemma {:induction false} SubsetIsSmaller(a: set<string>, b: set<string>)
    requires a <= b
    ensures |a| <= |b|
  {
    if a != {} {
      var x :| x in a;
      SubsetIsSmaller(a - {x}, b - {x});
    }
  }

  /** eventDedupe: the cache the source controllers share. */
  class Cache {
    var recent: SentAt
    /** Every key ever let through by this cache, with its latest time. */
    ghost var sent: SentAt

    ghost predicate Valid()
      reads this
    {
      && |recent| <= EVENT_DEDUPE_MAX_SIZE
      && Within(recent, sent)
    }

    constructor ()
      ensures Valid() && recent == map[] && sent == map[]
    {
      recent, sent := map[], map[];
    }

    /** Drop one key whose time is not later than any other. */
    method EvictOldest() returns (ghost victim: string)
      requires recent != map[]
      modifies this`recent
      ensures IsOldest(old(recent), victim) && recent == old(recent) - {victim}
    {
      var todo := recent.Keys;
      var oldKey: string :| oldKey in todo;
      while todo != {}
        invariant todo <= recent.Keys && oldKey in recent
        invariant recent == old(recent)
        invariant forall k :: k in recent && k !in todo ==> recent[oldKey] <= recent[k]
        decreases todo
      {
        var k :| k in todo;
        if recent[k] < recent[oldKey] {
          oldKey := k;
        }
        todo := todo - {k};
      }
      victim := oldKey;
      recent := recent - {oldKey};
    }

    /** emit: whether the event goes out. A nil recorder drops it and remembers nothing. */
    method Emit(haveRecorder: bool, key: string, now: int) returns (out: bool)
      requires Valid()
      modifies this
      ensures Valid() && |recent| <= 1024
      ensures out == (haveRecorder && !RecentlySent(old(recent), key, now))
      ensures out <==> haveRecorder && (key in old(recent) ==> now - old(recent)[key] >= 3600)
      ensures haveRecorder && !out ==> RecentlySent(old(sent), key, now)
      ensures if out then LetThrough(old(recent), recent, key, now) else recent == old(recent)
      ensures sent == if out then old(sent)[key := now] else old(sent)
    {
      if !haveRecorder {
        return false;
      }
      if key in recent && now - recent[key] < EVENT_DEDUPE_TTL {
        return false;
      }
      if |recent| >= EVENT_DEDUPE_MAX_SIZE {
        ghost var victim := EvictOldest();
        assert |recent| == |old(recent)| - 1 by {
          assert recent.Keys == old(recent).Keys - {victim};
        }
      }
      assert recent[key := now].Keys == recent.Keys + {key};
      recent := recent[key := now];
      sent := sent[key := now];
      out := true;
    }
  }

  /** The decisions taken so far, as long as capacity was never exceeded. */
  ghost predicate AgreesSoFar(events: seq<Event>, out: seq<bool>) {
    && |out| <= |events|
    && forall n, i :: 0 <= i < n <= |out| && WithinCapacity(events, n) ==> out[i] == ReferenceSends(events, i)
  }

  lemma ExtendAgreement(events: seq<Event>, out: seq<bool>, sends: bool)
    requires |out| < |events| && AgreesSoFar(events, out)
    requires WithinCapacity(events, |out| + 1) ==> sends == ReferenceSends(events, |out|)
    ensures AgreesSoFar(events, out + [sends])
  {
    forall m, i | 0 <= i < m <= |out| + 1 && WithinCapacity(events, m)
      ensures (out + [sends])[i] == ReferenceSends(events, i) {
      if i < |out| {
        assert WithinCapacity(events, i + 1);
      }
    }
  }

  ghost predicate Tracks(recent: SentAt, events: seq<Event>, n: nat)
    requires n <= |events|
  {
    n < |events| && WithinCapacity(events, n) ==> Covers(recent, RememberAll(events[..n]), events[n].at)
  }

  lemma ReplayStep(before: SentAt, after: SentAt, events: seq<Event>, n: nat)
    requires InTimeOrder(events) && n < |events| && WithinCapacity(events, n + 1)
    requires |before| <= EVENT_DEDUPE_MAX_SIZE && Tracks(before, events, n)
    requires var e := events[n];
      if RecentlySent(before, e.key, e.at) then after == before else LetThrough(before, after, e.key, e.at)
    ensures !RecentlySent(before, events[n].key, events[n].at) == ReferenceSends(events, n)
    ensures Tracks(after, events, n + 1)
  {
    var e, all := events[n], RememberAll(events[..n]);
    assert events[..n + 1][..n] == events[..n];
    assert WithinCapacity(events, n);
    assert RememberAll(events[..n + 1]) == Remember(all, e.key, e.at);
    assert |Unexpired(RememberAll(events[..n + 1]), e.at)| <= EVENT_DEDUPE_MAX_SIZE;
    if RecentlySent(before, e.key, e.at) {
      assert RecentlySent(all, e.key, e.at);
    } else {
      EvictionIsHarmlessIff(before, after, all, e.key, e.at);
    }
    if n + 1 < |events| {
      CoversLater(after, RememberAll(events[..n + 1]), e.at, events[n + 1].at);
    }
  }

  // ---- what the decisions mean ----

  /** An event goes out exactly if no event of its key that went out before it is less than an hour older. */
  ghost predicate HourApart(events: seq<Event>, out: seq<bool>, i: nat)
    requires i < |events| == |out|
  {
    out[i] <==>
      forall j :: 0 <= j < i && out[j] && events[j].key == events[i].key ==> events[i].at - events[j].at >= 3600
  }

  /** The reference has for each key the time of the latest event it let through. */
  ghost predicate LatestSent(m: SentAt, events: seq<Event>, n: nat, key: string)
    requires n <= |events|
  {
    && (key in m ==> exists j :: SentWith(events, n, j, key) && m[key] == events[j].at)
    && (forall j :: SentWith(events, n, j, key) ==> key in m && events[j].at <= m[key])
  }

  ghost predicate SentWith(events: seq<Event>, n: nat, j: int, key: string)
    requires n <= |events|
  {
    0 <= j < n && events[j].key == key && ReferenceSends(events, j)
  }

  lemma {:induction false} RememberedIsLatest(events: seq<Event>, n: nat, key: string)
    requires InTimeOrder(events) && n <= |events|
    ensures LatestSent(RememberAll(events[..n]), events, n, key)
  {
    if n > 0 {
      RememberedIsLatest(events, n - 1, key);
      var m, e := RememberAll(events[..n - 1]), events[n - 1];
      assert events[..n][..n - 1] == events[..n - 1];
      assert RememberAll(events[..n]) == Remember(m, e.key, e.at);
      LatestNext(m, events, n - 1, key);
    }
  }

  lemma LatestNext(m: SentAt, events: seq<Event>, n: nat, key: string)
    requires InTimeOrder(events) && n < |events| && m == RememberAll(events[..n]) && LatestSent(m, events, n, key)
    ensures LatestSent(Remember(m, events[n].key, events[n].at), events, n + 1, key)
  {
    hide RememberAll;
    var next := Remember(m, events[n].key, events[n].at);
    assert forall j :: SentWith(events, n + 1, j, key) ==> j == n || SentWith(events, n, j, key);
    if events[n].key == key && ReferenceSends(events, n) {
      assert SentWith(events, n + 1, n, key) && next[key] == events[n].at;
    } else if key in m {
      var j :| SentWith(events, n, j, key) && m[key] == events[j].at;
      assert SentWith(events, n + 1, j, key);
    }
  }

  lemma ReferenceIsHourApart(events: seq<Event>, out: seq<bool>, i: nat)
    requires InTimeOrder(events) && i < |events| == |out|
    requires forall j :: 0 <= j <= i ==> out[j] == ReferenceSends(events, j)
    ensures HourApart(events, out, i)
  {
    var m, key := RememberAll(events[..i]), events[i].key;
    RememberedIsLatest(events, i, key);
    hide RememberAll;
    assert forall j :: 0 <= j < i && out[j] && events[j].key == key <==> SentWith(events, i, j, key);
  }

  /**
   * On every run in time order, up to the point where more than 1024 keys are unexpired at
   * once, the bounded cache makes the decisions the unbounded map makes.
   */
  method Replay(events: seq<Event>) returns (out: seq<bool>)
    requires InTimeOrder(events)
    ensures |out| == |events|
    ensures forall n, i :: 0 <= i < n <= |events| && WithinCapacity(events, n) ==> out[i] == ReferenceSends(events, i)
    ensures forall n, i :: 0 <= i < n <= |events| && WithinCapacity(events, n) ==> HourApart(events, out, i)
  {
    var cache := new Cache();
    out := [];
    for n := 0 to |events|
      invariant fresh(cache) && cache.Valid()
      invariant |out| == n && AgreesSoFar(events, out)
      invariant Tracks(cache.recent, events, n)
    {
      ghost var before := cache.recent;
      var sends := cache.Emit(true, events[n].key, events[n].at);
      if WithinCapacity(events, n + 1) {
        ReplayStep(before, cache.recent, events, n);
      }
      ExtendAgreement(events, out, sends);
      out := out + [sends];
    }
    forall n, i | 0 <= i < n <= |events| && WithinCapacity(events, n) ensures HourApart(events, out, i) {
      ReferenceIsHourApart(events, out, i);
    }
  }
}
