/**
 * The runtime's record of its spawned channels (commands/temp_vc.go): numbers,
 * spawns in flight and the rebuild of a sweep, each method one section under
 * its lock, proved against the steps of SpawnSweeps.
 */
module SpawnRecords {
  import opened SpawnSweeps

  /** A stored row: a spawned channel and its place. */
  datatype Row = Row(channel: Channel, place: Place)

  /** The rows by channel. */
  function RowsOf(rows: seq<Row>): map<Channel, Place> {
    if rows == [] then map[] else RowsOf(rows[..|rows| - 1])[rows[|rows| - 1].channel := rows[|rows| - 1].place]
  }

  function Places(channelHub: map<Channel, int>, channelIndex: map<Channel, int>): map<Channel, Place>
    requires channelHub.Keys == channelIndex.Keys
  {
    map ch | ch in channelIndex :: Place(channelHub[ch], channelIndex[ch])
  }

  ghost function Slots(pending: map<int, set<int>>): (slots: set<Place>)
    ensures forall p: Place :: p in slots <==> p.hub in pending && p.number in pending[p.hub]
  {
    set hub, n | hub in pending && n in pending[hub] :: Place(hub, n)
  }

  // ---------------------------------------------------------------------------
  // The search for a number ends
  // ---------------------------------------------------------------------------

  /** Numbers that hold 1 up to n - 1 are at least n - 1. */
  lemma {:induction false} AtLeast(used: set<int>, n: int)
    requires n >= 1 && forall k :: 1 <= k < n ==> k in used
    ensures |used| >= n - 1
    decreases n
  {
    if n > 1 {
      AtLeast(used - {n - 1}, n - 1);
    }
  }

  /** The hub's live channels. */
  function Live(channelHub: map<Channel, int>, hub: int): set<Channel> {
    set ch | ch in channelHub && channelHub[ch] == hub
  }

  class SpawnRecord {
    var channelHub: map<Channel, int>
    var channelIndex: map<Channel, int>
    var pending: map<int, set<int>>
    var inFlight: set<Channel>
    var settled: set<Channel>
    var sweepActive: bool

    ghost predicate Valid()
      reads this
    {
      channelHub.Keys == channelIndex.Keys
    }

    ghost function State(): Record
      reads this
      requires Valid()
    {
      Record(Places(channelHub, channelIndex), Slots(pending), inFlight, settled, sweepActive)
    }

    constructor ()
      ensures Valid() && State() == Record(map[], {}, {}, {}, false)
    {
      channelHub, channelIndex, pending := map[], map[], map[];
      inFlight, settled, sweepActive := {}, {}, false;
    }

    /** The least number of the hub not in use, found within its live channels and reservations plus one. */
    method NextChannelIndexLocked(hub: int) returns (n: int)
      requires Valid()
      ensures IsNext(State(), hub, n)
      ensures n <= |Live(channelHub, hub)| + (if hub in pending then |pending[hub]| else 0) + 1
    {
      var used := LiveNumbers(hub);
      ghost var live := used;
      if hub in pending {
        used := used + pending[hub];
      }
      UsedNumbers(hub, used, live);
      n := 1;
      while n in used
        invariant n >= 1 && forall k :: 1 <= k < n ==> k in used
        decreases |used| + 1 - n
      {
        AtLeast(used, n + 1);
        n := n + 1;
      }
      AtLeast(used, n);
    }

    method LiveNumbers(hub: int) returns (used: set<int>)
      requires Valid()
      ensures forall k :: k in used <==> exists ch :: ch in Live(channelHub, hub) && channelIndex[ch] == k
      ensures |used| <= |Live(channelHub, hub)|
    {
      used := {};
      var left := channelIndex.Keys;
      ghost var seen: set<Channel> := {};
      while left != {}
        invariant Valid() && left <= channelIndex.Keys
        invariant seen == Live(channelHub, hub) - left
        invariant forall k :: k in used <==> exists ch :: ch in seen && channelIndex[ch] == k
        invariant |used| <= |seen|
        decreases |left|
      {
        var ch :| ch in left;
        if channelHub[ch] == hub {
          assert ch !in seen;
          seen := seen + {ch};
          used := used + {channelIndex[ch]};
        }
        left := left - {ch};
      }
      assert seen == Live(channelHub, hub);
    }

    lemma UsedNumbers(hub: int, used: set<int>, live: set<int>)
      requires Valid()
      requires forall k :: k in live <==> exists ch :: ch in Live(channelHub, hub) && channelIndex[ch] == k
      requires used == live + if hub in pending then pending[hub] else {}
      ensures forall k :: k in used <==> Used(State(), hub, k)
    {
      forall k
        ensures k in used <==> Used(State(), hub, k)
      {
        if ch :| ch in Live(channelHub, hub) && channelIndex[ch] == k {
          assert State().tracked[ch] == Place(hub, k);
        }
        if ch :| ch in State().tracked && State().tracked[ch] == Place(hub, k) {
          assert ch in Live(channelHub, hub) && channelIndex[ch] == k;
        }
      }
    }

    method ReserveChannelIndexLocked(hub: int) returns (n: int)
      requires Valid()
      modifies `pending
      ensures Valid() && IsNext(old(State()), hub, n)
      ensures State() == old(State()).(pending := old(State()).pending + {Place(hub, n)})
    {
      n := NextChannelIndexLocked(hub);
      if hub !in pending {
        pending := pending[hub := {}];
      }
      pending := pending[hub := pending[hub] + {n}];
    }

    method ReleaseChannelIndexLocked(hub: int, n: int)
      requires Valid()
      modifies `pending
      ensures Valid() && State() == old(State()).(pending := old(State()).pending - {Place(hub, n)})
    {
      if hub in pending {
        SlotsWithout(pending, hub, n);
        pending := pending[hub := pending[hub] - {n}];
        if pending[hub] == {} {
          SlotsWithoutHub(pending, hub);
          pending := pending - {hub};
        }
      } else {
        assert Place(hub, n) !in Slots(pending);
      }
    }

    /** The commit of a create that went through. */
    method CommitSpawn(ch: Channel, hub: int, n: int)
      requires Valid()
      modifies this
      ensures Valid() && State() == Commit(old(State()), ch, Place(hub, n))
    {
      hide Places, Slots;
      PlacedOneMore(channelHub, channelIndex, Row(ch, Place(hub, n)));
      channelHub := channelHub[ch := hub];
      channelIndex := channelIndex[ch := n];
      ReleaseChannelIndexLocked(hub, n);
      inFlight := inFlight + {ch};
    }

    method UntrackLocked(ch: Channel)
      requires Valid()
      modifies this
      ensures Valid() && State() == Untrack(old(State()), ch)
    {
      channelHub := channelHub - {ch};
      channelIndex := channelIndex - {ch};
    }

    method SettleSpawn(ch: Channel)
      requires Valid()
      modifies this
      ensures Valid() && State() == Settle(old(State()), ch)
    {
      if ch !in inFlight {
        return;
      }
      if sweepActive {
        settled := settled + {ch};
        return;
      }
      inFlight := inFlight - {ch};
    }

    method FinishSweep()
      requires Valid()
      modifies this
      ensures Valid() && State() == SpawnSweeps.FinishSweep(old(State()))
    {
      sweepActive := false;
      var left := settled;
      while left != {}
        invariant Valid() && left <= settled
        invariant State() == old(State()).(sweepActive := false, inFlight := old(inFlight) - (settled - left))
        decreases |left|
      {
        var id :| id in left;
        inFlight := inFlight - {id};
        left := left - {id};
      }
      settled := {};
    }

    /** The record's maps replaced with ones of the spawns in flight it tracks alone, which it counts. */
    method KeepSpawnsInFlightLocked() returns (kept: nat)
      requires Valid()
      modifies `channelHub, `channelIndex
      ensures Valid()
      ensures Places(channelHub, channelIndex) == KeptOf(old(State()).tracked, inFlight)
      ensures kept == |channelIndex|
    {
      hide Places, KeptOf;
      ghost var tracked := Places(channelHub, channelIndex);
      var hubs: map<Channel, int> := map[];
      var numbers: map<Channel, int> := map[];
      kept := 0;
      var left := inFlight;
      assert inFlight - left == {};
      NothingPlaced(tracked);
      while left != {}
        invariant channelHub == old(channelHub) && channelIndex == old(channelIndex)
        invariant left <= inFlight && hubs.Keys == numbers.Keys && kept == |numbers|
        invariant Places(hubs, numbers) == KeptOf(tracked, inFlight - left)
        decreases |left|
      {
        var id :| id in left;
        ghost var done := inFlight - left;
        KeptOneMore(channelHub, channelIndex, hubs, numbers, done, id);
        left := left - {id};
        assert inFlight - left == done + {id};
        if id in channelIndex {
          OneMore(numbers, id, channelIndex[id]);
          kept := kept + 1;
          hubs := hubs[id := channelHub[id]];
          numbers := numbers[id := channelIndex[id]];
        }
      }
      assert inFlight - left == inFlight;
      channelHub, channelIndex := hubs, numbers;
    }

    /** The rebuild of a restart sweep, from the rows listed and the channels its snapshot shows. */
    method RebuildLocked(rows: seq<Row>, shown: set<Channel>) returns (gone: seq<Channel>)
      requires Valid()
      modifies `channelHub, `channelIndex
      ensures Valid() && State() == Rebuild(old(State()), RowsOf(rows), shown)
      ensures forall ch :: ch in gone <==> ch in Gone(old(State()), RowsOf(rows), shown)
    {
      hide Places, Restored, RowsOf;
      ghost var r := State();
      var kept := KeepSpawnsInFlightLocked();
      ghost var base := Places(channelHub, channelIndex);
      gone := [];
      RestoredNone(base, rows, inFlight, shown);
      for i := 0 to |rows|
        invariant Valid()
        invariant Places(channelHub, channelIndex) == Restored(base, RowsOf(rows[..i]), inFlight, shown)
        invariant forall ch :: ch in gone <==> ch in RowsOf(rows[..i]) && ch !in inFlight && ch !in shown
      {
        var row := rows[i];
        RowsOfMore(rows, i);
        RestoredOneMore(base, RowsOf(rows[..i]), inFlight, shown, row);
        if row.channel !in inFlight {
          if row.channel !in shown {
            gone := gone + [row.channel];
          } else {
            PlacedOneMore(channelHub, channelIndex, row);
            channelHub := channelHub[row.channel := row.place.hub];
            channelIndex := channelIndex[row.channel := row.place.number];
          }
        }
      }
      assert rows[..|rows|] == rows;
      RestoredIsRebuilt(r, base, RowsOf(rows), shown);
    }
  }

  /** Of the places tracked, those of the channels given. */
  function KeptOf(tracked: map<Channel, Place>, channels: set<Channel>): map<Channel, Place> {
    map ch | ch in tracked && ch in channels :: tracked[ch]
  }

  lemma SlotsWithout(pending: map<int, set<int>>, hub: int, n: int)
    requires hub in pending
    ensures Slots(pending[hub := pending[hub] - {n}]) == Slots(pending) - {Place(hub, n)}
  {}

  lemma SlotsWithoutHub(pending: map<int, set<int>>, hub: int)
    requires hub in pending && pending[hub] == {}
    ensures Slots(pending - {hub}) == Slots(pending)
  {}

  lemma NothingPlaced(tracked: map<Channel, Place>)
    ensures Places(map[], map[]) == KeptOf(tracked, {})
  {}

  lemma KeptOneMore(channelHub: map<Channel, int>, channelIndex: map<Channel, int>, hubs: map<Channel, int>,
                    numbers: map<Channel, int>, done: set<Channel>, id: Channel)
    requires channelHub.Keys == channelIndex.Keys && hubs.Keys == numbers.Keys && id !in done
    requires Places(hubs, numbers) == KeptOf(Places(channelHub, channelIndex), done)
    ensures id !in numbers
    ensures if id in channelIndex
            then Places(hubs[id := channelHub[id]], numbers[id := channelIndex[id]]) == KeptOf(Places(channelHub, channelIndex), done + {id})
            else Places(hubs, numbers) == KeptOf(Places(channelHub, channelIndex), done + {id})
  {
    var tracked := Places(channelHub, channelIndex);
    assert id !in Places(hubs, numbers);
    forall ch | ch in numbers
      ensures ch in KeptOf(tracked, done) && Place(hubs[ch], numbers[ch]) == tracked[ch]
    {
      assert Places(hubs, numbers)[ch] == KeptOf(tracked, done)[ch];
    }
    forall ch | ch in KeptOf(tracked, done)
      ensures ch in numbers
    {
      assert ch in Places(hubs, numbers);
    }
    if id in channelIndex {
      assert Places(hubs[id := channelHub[id]], numbers[id := channelIndex[id]]) == Places(hubs, numbers)[id := tracked[id]];
    }
  }

  lemma RowsOfMore(rows: seq<Row>, i: nat)
    requires i < |rows|
    ensures RowsOf(rows[..i + 1]) == RowsOf(rows[..i])[rows[i].channel := rows[i].place]
  {
    assert rows[..i + 1][..i] == rows[..i];
  }

  lemma RestoredIsRebuilt(r: Record, base: map<Channel, Place>, rows: map<Channel, Place>, shown: set<Channel>)
    requires base == KeptOf(r.tracked, r.inFlight)
    ensures Restored(base, rows, r.inFlight, shown) == Rebuild(r, rows, shown).tracked
  {}

  /** The record's places with those of the rows a sweep tracks. */
  function Restored(base: map<Channel, Place>, rows: map<Channel, Place>, inFlight: set<Channel>, shown: set<Channel>): map<Channel, Place> {
    base + map ch | ch in rows && ch !in inFlight && ch in shown :: rows[ch]
  }

  lemma RestoredNone(base: map<Channel, Place>, rows: seq<Row>, inFlight: set<Channel>, shown: set<Channel>)
    ensures RowsOf(rows[..0]) == map[] && Restored(base, map[], inFlight, shown) == base
  {}

  lemma RestoredOneMore(base: map<Channel, Place>, rows: map<Channel, Place>, inFlight: set<Channel>, shown: set<Channel>, row: Row)
    ensures Restored(base, rows[row.channel := row.place], inFlight, shown) ==
            if row.channel !in inFlight && row.channel in shown then Restored(base, rows, inFlight, shown)[row.channel := row.place]
            else Restored(base, rows, inFlight, shown)
  {}

  lemma PlacedOneMore(channelHub: map<Channel, int>, channelIndex: map<Channel, int>, row: Row)
    requires channelHub.Keys == channelIndex.Keys
    ensures Places(channelHub[row.channel := row.place.hub], channelIndex[row.channel := row.place.number]) ==
            Places(channelHub, channelIndex)[row.channel := row.place]
  {}

  lemma OneMore(m: map<Channel, int>, ch: Channel, n: int)
    requires ch !in m
    ensures |m[ch := n]| == |m| + 1
  {
    assert m[ch := n].Keys == m.Keys + {ch};
    assert |m[ch := n]| == |m[ch := n].Keys| && |m| == |m.Keys|;
  }

  // ---------------------------------------------------------------------------
  // The record follows the run
  // ---------------------------------------------------------------------------

  lemma NextIsOne(r: Record, hub: int, a: int, b: int)
    requires IsNext(r, hub, a) && IsNext(r, hub, b)
    ensures a == b
  {}

  method ListRows(rows: map<Channel, Place>) returns (listed: seq<Row>)
    ensures RowsOf(listed) == rows
  {
    listed := [];
    var left := rows.Keys;
    while left != {}
      invariant left <= rows.Keys && RowsOf(listed) == rows - left
      decreases |left|
    {
      var ch :| ch in left;
      ghost var before := listed;
      listed := listed + [Row(ch, rows[ch])];
      assert listed[..|before|] == before;
      assert rows - (left - {ch}) == (rows - left)[ch := rows[ch]];
      left := left - {ch};
    }
  }

  lemma {:induction false} PrefixFeasible(start: World, events: seq<Event>, k: nat)
    requires Feasible(start, events) && k < |events|
    ensures Feasible(start, events[..k]) && Possible(Run(start, events[..k]), events[k])
    ensures Feasible(start, events[..k + 1]) && Run(start, events[..k + 1]) == Next(Run(start, events[..k]), events[k])
    decreases |events|
  {
    hide Next, Possible;
    assert events[..k + 1][..k] == events[..k];
    if k < |events| - 1 {
      PrefixFeasible(start, events[..|events| - 1], k);
      assert events[..|events| - 1][..k] == events[..k];
      assert events[..|events| - 1][..k + 1] == events[..k + 1];
    } else {
      assert events[..k + 1] == events;
    }
  }

  /** The record's methods, called as a run's events call them, keep the record as the run has it. */
  method Replay(start: World, events: seq<Event>) returns (record: SpawnRecord)
    requires Fresh(start) && Feasible(start, events)
    ensures fresh(record) && record.Valid() && record.State() == Run(start, events).record
  {
    hide Places, Slots;
    record := new SpawnRecord();
    var w := start;
    assert events[..0] == [];
    for i := 0 to |events|
      invariant Feasible(start, events[..i]) && w == Run(start, events[..i])
      invariant fresh(record) && record.Valid() && record.State() == w.record
    {
      PrefixFeasible(start, events, i);
      Apply(record, w, events[i]);
      w := Next(w, events[i]);
    }
    assert events[..|events|] == events;
  }

  /** What an event's goroutine does under the lock. */
  method Apply(record: SpawnRecord, w: World, e: Event)
    requires Possible(w, e) && record.Valid() && record.State() == w.record
    modifies record
    ensures record.Valid() && record.State() == Next(w, e).record
  {
    hide Places, Slots, IsNext;
    match e
    case Reserve(_, place) =>
      var n := record.ReserveChannelIndexLocked(place.hub);
      NextIsOne(w.record, place.hub, n, place.number);
    case CreateFailed(th) => record.ReleaseChannelIndexLocked(w.spawns[th].place.hub, w.spawns[th].place.number);
    case Created(th, ch) => record.CommitSpawn(ch, w.spawns[th].place.hub, w.spawns[th].place.number);
    case DeleteAnswer(th) => record.UntrackLocked(w.spawns[th].channel);
    case ChannelDeleted(ch) => record.UntrackLocked(ch);
    case Settles(th) => record.SettleSpawn(w.spawns[th].channel);
    case SweepStart => record.sweepActive := true;
    case SweepRebuild(shown) =>
      var rows := ListRows(w.sweep.rows);
      var _ := record.RebuildLocked(rows, shown);
    case SweepFinish => record.FinishSweep();
    case _ =>
  }
}
