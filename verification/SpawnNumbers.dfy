/**
 * The number a spawn reserves (commands/temp_vc.go): over any run it is the
 * least positive one that no live channel of the hub has and no create in
 * flight of the hub waits for, and there is always exactly one such number.
 */
module SpawnNumbers {
  import opened SpawnSweeps
  import opened Wrappers

  /** A create in flight waits for this place. */
  ghost predicate Awaited(w: World, place: Place) {
    exists th :: th in w.spawns && w.spawns[th] == Creating(place)
  }

  /** The places reserved are those of the creates in flight, no two of which have one place. */
  ghost predicate PendingAreAwaited(w: World) {
    && (forall place :: place in w.record.pending <==> Awaited(w, place))
    && forall a, b, place :: a in w.spawns && b in w.spawns && w.spawns[a] == w.spawns[b] == Creating(place) ==> a == b
  }

  lemma AwaitedBy(w: World, th: Thread, place: Place)
    requires th in w.spawns && w.spawns[th] == Creating(place)
    ensures Awaited(w, place)
  {}

  /** What an event does to the creates in flight. */
  lemma AwaitedNext(w: World, e: Event, place: Place)
    requires PendingAreAwaited(w) && Possible(w, e)
    ensures Awaited(Next(w, e), place) <==>
              || (e.Reserve? && e.place == place)
              || (Awaited(w, place) && !((e.CreateFailed? || e.Created?) && w.spawns[e.thread] == Creating(place)))
  {
    hide IsNext;
    var n := Next(w, e);
    if e.Reserve? && e.place == place {
      AwaitedBy(n, e.thread, place);
    }
    if th :| th in w.spawns && w.spawns[th] == Creating(place) {
      if th in n.spawns && n.spawns[th] == w.spawns[th] {
        AwaitedBy(n, th, place);
      }
    }
    if th :| th in n.spawns && n.spawns[th] == Creating(place) {
      if th in w.spawns && n.spawns[th] == w.spawns[th] {
        AwaitedBy(w, th, place);
      }
    }
  }

  lemma PendingNext(w: World, e: Event, place: Place)
    requires Possible(w, e)
    ensures place in Next(w, e).record.pending <==>
              || (e.Reserve? && e.place == place)
              || (place in w.record.pending && !((e.CreateFailed? || e.Created?) && w.spawns[e.thread] == Creating(place)))
  {
    hide IsNext;
  }

  lemma CreatesNext(w: World, e: Event, a: Thread, b: Thread, place: Place)
    requires PendingAreAwaited(w) && Possible(w, e)
    requires var n := Next(w, e); a in n.spawns && b in n.spawns && n.spawns[a] == n.spawns[b] == Creating(place)
    ensures a == b
  {
    if e.Reserve? && e.place == place {
      assert place !in w.record.pending;
    }
  }

  lemma {:induction false} PendingReached(start: World, events: seq<Event>)
    requires Feasible(start, events)
    ensures PendingAreAwaited(Run(start, events))
    decreases |events|
  {
    if events != [] {
      var rest, e := events[..|events| - 1], events[|events| - 1];
      PendingReached(start, rest);
      var w := Run(start, rest);
      var n := Next(w, e);
      assert Run(start, events) == n;
      forall place
        ensures place in n.record.pending <==> Awaited(n, place)
      {
        AwaitedNext(w, e, place);
        PendingNext(w, e, place);
      }
      forall a, b, place | a in n.spawns && b in n.spawns && n.spawns[a] == n.spawns[b] == Creating(place)
        ensures a == b
      {
        CreatesNext(w, e, a, b, place);
      }
    }
  }

  /** A live channel of the hub has the number, or a create in flight waits for it. */
  ghost predicate Taken(w: World, place: Place) {
    Awaited(w, place) || exists ch :: ch in w.record.tracked && w.record.tracked[ch] == place
  }

  /** Over any run, a spawn reserves the least positive number that is not taken in its hub. */
  lemma ReservesLeastFree(start: World, events: seq<Event>, th: Thread, place: Place)
    requires Feasible(start, events) && th !in Run(start, events).spawns
    ensures var w := Run(start, events);
            Possible(w, Reserve(th, place)) <==>
            && place.number >= 1 && !Taken(w, place)
            && forall k :: 1 <= k < place.number ==> Taken(w, Place(place.hub, k))
  {
    PendingReached(start, events);
    var w := Run(start, events);
    hide Feasible, Run, Awaited;
    forall k
      ensures Used(w.record, place.hub, k) <==> Taken(w, Place(place.hub, k))
    {}
  }

  // ---------------------------------------------------------------------------
  // There is one, and it is small
  // ---------------------------------------------------------------------------

  /** The numbers of a hub up to n that are taken are no more than the places in use. */
  lemma {:induction false} TakenAreFew(places: set<Place>, hub: int, n: nat)
    requires forall k :: 1 <= k <= n ==> Place(hub, k) in places
    ensures n <= |places|
    decreases n
  {
    if n > 0 {
      TakenAreFew(places - {Place(hub, n)}, hub, n - 1);
    }
  }

  ghost function InUse(r: Record): set<Place> {
    r.tracked.Values + r.pending
  }

  lemma UsedAreInUse(r: Record, hub: int, n: int)
    ensures Used(r, hub, n) <==> Place(hub, n) in InUse(r)
  {}

  lemma {:induction false} LeastFrom(r: Record, hub: int, n: nat) returns (least: nat)
    requires n >= 1 && forall k :: 1 <= k < n ==> Used(r, hub, k)
    ensures IsNext(r, hub, least) && least <= |InUse(r)| + 1
    decreases |InUse(r)| + 1 - n
  {
    forall k | 1 <= k < n
      ensures Place(hub, k) in InUse(r)
    {
      UsedAreInUse(r, hub, k);
    }
    TakenAreFew(InUse(r), hub, n - 1);
    if Used(r, hub, n) {
      UsedAreInUse(r, hub, n);
      TakenAreFew(InUse(r), hub, n);
      least := LeastFrom(r, hub, n + 1);
    } else {
      least := n;
    }
  }

  lemma FewInUse(r: Record)
    ensures |InUse(r)| <= |r.tracked| + |r.pending|
  {
    ValuesAreFew(r.tracked);
  }

  lemma {:induction false} ValuesAreFew<K, V>(m: map<K, V>)
    ensures |m.Values| <= |m|
    decreases |m|
  {
    if m.Keys == {} {
      assert m.Values == {};
    } else {
      var k :| k in m.Keys;
      var rest := m - {k};
      ValuesAreFew(rest);
      forall v | v in m.Values
        ensures v in rest.Values + {m[k]}
      {
        var j :| j in m && m[j] == v;
        assert j == k || (j in rest && rest[j] == v);
      }
      SubsetIsSmaller(m.Values, rest.Values + {m[k]});
      assert m.Keys == rest.Keys + {k} && k !in rest.Keys;
      assert |m| == |m.Keys| && |rest| == |rest.Keys|;
    }
  }

  lemma {:induction false} SubsetIsSmaller<T>(a: set<T>, b: set<T>)
    requires a <= b
    ensures |a| <= |b|
  {
    assert b == a + (b - a);
  }

  /** Exactly one number is next, and it is at most one more than the channels live and the creates in flight. */
  lemma NextNumberExists(r: Record, hub: int)
    ensures exists n :: IsNext(r, hub, n)
    ensures forall n, m :: IsNext(r, hub, n) && IsNext(r, hub, m) ==> n == m
    ensures forall n :: IsNext(r, hub, n) ==> n <= |r.tracked| + |r.pending| + 1
  {
    var least := LeastFrom(r, hub, 1);
    FewInUse(r);
    forall n | IsNext(r, hub, n)
      ensures n == least
    {}
  }
}
