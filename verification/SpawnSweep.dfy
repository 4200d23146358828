/**
 * Spawned channels and the restart sweep (commands/temp_vc.go): spawns commit,
 * write their rows and settle while a sweep lists the rows, rebuilds the record
 * from them and finishes. Each section under the runtime's lock is one step;
 * Discord and the store answer when and what they like.
 */
module SpawnSweeps {
  import opened Wrappers

  type Channel = string
  type Thread = nat

  /** A hub's surrogate ID, 0 once the hub row is gone, and a number of that hub's. */
  datatype Place = Place(hub: int, number: int)

  // ---------------------------------------------------------------------------
  // The record, and the sections under its lock
  // ---------------------------------------------------------------------------

  /** pending holds the numbers reserved for creates in flight. */
  datatype Record = Record(tracked: map<Channel, Place>, pending: set<Place>, inFlight: set<Channel>, settled: set<Channel>,
                           sweepActive: bool)

  predicate Used(r: Record, hub: int, n: int) {
    Place(hub, n) in r.pending || exists ch :: ch in r.tracked && r.tracked[ch] == Place(hub, n)
  }

  /** The least positive number no live channel and no create in flight of the hub holds. */
  ghost predicate IsNext(r: Record, hub: int, n: int) {
    n >= 1 && !Used(r, hub, n) && forall k :: 1 <= k < n ==> Used(r, hub, k)
  }

  function Commit(r: Record, ch: Channel, place: Place): Record {
    r.(tracked := r.tracked[ch := place], pending := r.pending - {place}, inFlight := r.inFlight + {ch})
  }

  function Untrack(r: Record, ch: Channel): Record {
    r.(tracked := r.tracked - {ch})
  }

  /** A spawn settles: it is in flight no more, unless a sweep is active, which keeps it so until it finishes. */
  function Settle(r: Record, ch: Channel): Record {
    if ch !in r.inFlight then r
    else if r.sweepActive then r.(settled := r.settled + {ch})
    else r.(inFlight := r.inFlight - {ch})
  }

  function FinishSweep(r: Record): Record {
    r.(sweepActive := false, inFlight := r.inFlight - r.settled, settled := {})
  }

  /** The spawns in flight as the record has them, and of the other rows those whose channel the snapshot shows. */
  function Rebuild(r: Record, rows: map<Channel, Place>, shown: set<Channel>): Record {
    r.(tracked := (map ch | ch in r.tracked && ch in r.inFlight :: r.tracked[ch]) +
                  (map ch | ch in rows && ch !in r.inFlight && ch in shown :: rows[ch]))
  }

  /** The rows judged gone: of a channel that is no spawn in flight and that the snapshot does not show. */
  function Gone(r: Record, rows: map<Channel, Place>, shown: set<Channel>): set<Channel> {
    set ch | ch in rows && ch !in r.inFlight && ch !in shown
  }

  function PlaceOf(r: Record, ch: Channel): Place {
    if ch in r.tracked then r.tracked[ch] else Place(0, 0)
  }

  // ---------------------------------------------------------------------------
  // Runs
  // ---------------------------------------------------------------------------

  /** Where a spawn is. A row write is applied by the store at some moment before its answer, or not at all. */
  datatype Phase =
    | Creating(place: Place)
    | Committed(channel: Channel, place: Place)
    | Abandoning(channel: Channel)
    | Deleting(channel: Channel)
    | RowDeleting(channel: Channel)
    | Writing(channel: Channel, row: Place, applied: bool)
    | Settling(channel: Channel)
    | Done

  datatype Sweep = NoSweep | Started | Listed(rows: map<Channel, Place>) | Rebuilt

  /** What happened to the channels the record ever tracked, each by the place it was first tracked at. */
  datatype Past = Past(
    tracked: map<Channel, Place>,
    deleted: set<Channel>,  // Discord or the gateway said so
    failed: set<Channel>,   // its spawn's row write failed
    missed: set<Channel>,   // a sweep's snapshot did not show it, with no spawn of it in flight
    hubsGone: set<int>,
    known: set<Channel>)

  datatype World = World(record: Record, spawns: map<Thread, Phase>, sweep: Sweep, rows: map<Channel, Place>,
                         rowDeletes: set<Channel>, rowWrites: set<(Channel, Place)>, past: Past)

  datatype Event =
    | Reserve(thread: Thread, place: Place)
    | CreateFailed(thread: Thread)
    | Created(thread: Thread, channel: Channel)
    | Moved(thread: Thread)
    | Abandon(thread: Thread)
    | FoundUntracked(thread: Thread)
    | AskDelete(thread: Thread)
    | Kept(thread: Thread)
    | DeleteAnswer(thread: Thread)
    | RowDeleteAnswer(thread: Thread, ok: bool)
    | RowApplied(thread: Thread)
    | RowAnswer(thread: Thread, ok: bool)
    | Settles(thread: Thread)
    | ChannelDeleted(channel: Channel)
    | RowDelete(channel: Channel)
    | HandoverWrite(channel: Channel)
    | HandoverApplied(channel: Channel, place: Place)
    | HubDeleted(hub: int)
    | SweepStart
    | SweepList
    | SweepRebuild(shown: set<Channel>)
    | SweepFinish

  /** A new process: nothing tracked, and whatever rows the store has. */
  predicate Fresh(w: World) {
    && w.record == Record(map[], {}, {}, {}, false) && w.spawns == map[] && w.sweep == NoSweep
    && w.rowDeletes == {} && w.rowWrites == {}
    && w.past == Past(map[], {}, {}, {}, {}, w.rows.Keys)
  }

  predicate In(w: World, th: Thread, at: Phase -> bool) {
    th in w.spawns && at(w.spawns[th])
  }

  ghost predicate Possible(w: World, e: Event) {
    match e
    case Reserve(th, place) => th !in w.spawns && IsNext(w.record, place.hub, place.number)
    case CreateFailed(th) => In(w, th, (p: Phase) => p.Creating?)
    case Created(th, ch) => In(w, th, (p: Phase) => p.Creating?) && ch !in w.past.known
    case Moved(th) => In(w, th, (p: Phase) => p.Committed?)
    case Abandon(th) => In(w, th, (p: Phase) => p.Committed?)
    case FoundUntracked(th) => In(w, th, (p: Phase) => p.Abandoning?) && w.spawns[th].channel !in w.record.tracked
    case AskDelete(th) => In(w, th, (p: Phase) => p.Abandoning?) && w.spawns[th].channel in w.record.tracked
    case Kept(th) => In(w, th, (p: Phase) => p.Abandoning? || p.Deleting?)
    case DeleteAnswer(th) => In(w, th, (p: Phase) => p.Deleting?)
    case RowDeleteAnswer(th, _) => In(w, th, (p: Phase) => p.RowDeleting?)
    case RowApplied(th) => In(w, th, (p: Phase) => p.Writing? && !p.applied)
    case RowAnswer(th, ok) => In(w, th, (p: Phase) => p.Writing? && (ok ==> p.applied))
    case Settles(th) => In(w, th, (p: Phase) => p.Settling?)
    case ChannelDeleted(ch) => ch in w.past.known
    case RowDelete(ch) => ch in w.rowDeletes
    case HandoverWrite(ch) => ch in w.record.tracked
    case HandoverApplied(ch, place) => (ch, place) in w.rowWrites
    case HubDeleted(hub) => hub != 0
    case SweepStart => w.sweep.NoSweep?
    case SweepList => w.sweep.Started?
    case SweepRebuild(_) => w.sweep.Listed?
    case SweepFinish => !w.sweep.NoSweep?
  }

  function At(w: World, th: Thread, p: Phase): World {
    w.(spawns := w.spawns[th := p])
  }

  /** The channel is gone from Discord: untracked, and its row is to go. */
  function Lose(w: World, ch: Channel): World {
    w.(record := Untrack(w.record, ch), rowDeletes := w.rowDeletes + {ch}, past := w.past.(deleted := w.past.deleted + {ch}))
  }

  function RebuildWorld(w: World, shown: set<Channel>): World
    requires w.sweep.Listed?
  {
    var r := Rebuild(w.record, w.sweep.rows, shown);
    w.(record := r, sweep := Rebuilt, rowDeletes := w.rowDeletes + Gone(w.record, w.sweep.rows, shown),
       past := w.past.(tracked := r.tracked + w.past.tracked,
                       missed := w.past.missed + (set ch | ch in w.past.known && ch !in w.record.inFlight && ch !in shown)))
  }

  function Next(w: World, e: Event): World
    requires Possible(w, e)
  {
    match e
    case Reserve(th, place) => At(w, th, Creating(place)).(record := w.record.(pending := w.record.pending + {place}))
    case CreateFailed(th) => At(w, th, Done).(record := w.record.(pending := w.record.pending - {w.spawns[th].place}))
    case Created(th, ch) =>
      At(w, th, Committed(ch, w.spawns[th].place)).(record := Commit(w.record, ch, w.spawns[th].place),
                                past := w.past.(tracked := w.past.tracked[ch := w.spawns[th].place], known := w.past.known + {ch}))
    case Moved(th) => At(w, th, Writing(w.spawns[th].channel, w.spawns[th].place, false))
    case Abandon(th) => At(w, th, Abandoning(w.spawns[th].channel))
    case FoundUntracked(th) => At(w, th, Settling(w.spawns[th].channel))
    case AskDelete(th) => At(w, th, Deleting(w.spawns[th].channel))
    case Kept(th) => At(w, th, Writing(w.spawns[th].channel, PlaceOf(w.record, w.spawns[th].channel), false))
    case DeleteAnswer(th) => At(Lose(w, w.spawns[th].channel), th, RowDeleting(w.spawns[th].channel))
    case RowDeleteAnswer(th, ok) =>
      At(w, th, Settling(w.spawns[th].channel)).(rows := if ok then w.rows - {w.spawns[th].channel} else w.rows)
    case RowApplied(th) =>
      At(w, th, w.spawns[th].(applied := true)).(rows := w.rows[w.spawns[th].channel := w.spawns[th].row])
    case RowAnswer(th, ok) =>
      At(w, th, Settling(w.spawns[th].channel))
        .(past := if ok then w.past else w.past.(failed := w.past.failed + {w.spawns[th].channel}))
    case Settles(th) => At(w, th, Done).(record := Settle(w.record, w.spawns[th].channel))
    case ChannelDeleted(ch) => Lose(w, ch)
    case RowDelete(ch) => w.(rows := w.rows - {ch})
    case HandoverWrite(ch) => w.(rowWrites := w.rowWrites + {(ch, w.record.tracked[ch])})
    case HandoverApplied(ch, place) => w.(rows := w.rows[ch := place])
    case HubDeleted(hub) =>
      w.(rows := map ch | ch in w.rows :: if w.rows[ch].hub == hub then w.rows[ch].(hub := 0) else w.rows[ch],
         past := w.past.(hubsGone := w.past.hubsGone + {hub}))
    case SweepStart => w.(sweep := Started, record := w.record.(sweepActive := true))
    case SweepList => w.(sweep := Listed(w.rows))
    case SweepRebuild(shown) => RebuildWorld(w, shown)
    case SweepFinish => w.(sweep := NoSweep, record := FinishSweep(w.record))
  }

  ghost predicate Feasible(start: World, events: seq<Event>)
    decreases |events|, 0
  {
    if events == [] then Fresh(start)
    else Feasible(start, events[..|events| - 1]) && Possible(Run(start, events[..|events| - 1]), events[|events| - 1])
  }

  ghost function Run(start: World, events: seq<Event>): World
    requires Feasible(start, events)
    decreases |events|, 1
  {
    if events == [] then start else Next(Run(start, events[..|events| - 1]), events[|events| - 1])
  }

  // ---------------------------------------------------------------------------
  // No spawn is lost to a sweep
  // ---------------------------------------------------------------------------

  /** Deleted, never written or not shown to a sweep: the record and the store need not have the channel. */
  predicate Excused(p: Past, ch: Channel) {
    ch in p.deleted || ch in p.failed || ch in p.missed
  }

  /** The place a channel was first tracked at, its hub 0 only once that hub's row is gone. */
  predicate SamePlace(p: Past, now: Place, first: Place) {
    now.number == first.number && (now.hub == first.hub || (now.hub == 0 && first.hub in p.hubsGone))
  }

  /** The spawn of a channel has not settled. */
  predicate Unsettled(p: Phase, ch: Channel) {
    !p.Creating? && !p.Done? && p.channel == ch
  }

  /** What holds of a channel the record ever tracked. */
  ghost predicate Safe(w: World, ch: Channel) {
    ch in w.past.tracked && !Excused(w.past, ch) ==>
      && ch in w.record.tracked
      && (ch in w.record.inFlight - w.record.settled || ch in w.rows)
      && (w.sweep.Listed? ==> ch in w.record.inFlight || ch in w.sweep.rows)
  }

  /** Its place is the same wherever it is written down. */
  ghost predicate Placed(w: World, ch: Channel) {
    ch in w.past.tracked && !Excused(w.past, ch) ==>
      var first := w.past.tracked[ch];
      && (ch in w.record.tracked ==> SamePlace(w.past, w.record.tracked[ch], first))
      && (ch in w.rows ==> SamePlace(w.past, w.rows[ch], first))
      && (w.sweep.Listed? && ch in w.sweep.rows ==> SamePlace(w.past, w.sweep.rows[ch], first))
      && (forall place :: (ch, place) in w.rowWrites ==> SamePlace(w.past, place, first))
  }

  /** A listed row is in the store still, unless its channel is gone, and at the same place if nobody tracks it. */
  ghost predicate ListedStands(w: World, ch: Channel) {
    w.sweep.Listed? && ch in w.sweep.rows && !Excused(w.past, ch) ==>
      ch in w.rows && (ch !in w.past.tracked ==> SamePlace(w.past, w.rows[ch], w.sweep.rows[ch]))
  }

  /** What the record, the store and the sweep have is known, and only of a channel once tracked are rows written. */
  ghost predicate Known(w: World, ch: Channel) {
    && (ch in w.record.tracked ==> ch in w.past.tracked)
    && (ch in w.past.tracked || ch in w.rows || (w.sweep.Listed? && ch in w.sweep.rows) ==> ch in w.past.known)
    && (ch in w.rowDeletes ==> ch in w.past.deleted || ch in w.past.missed)
    && (forall place :: (ch, place) in w.rowWrites ==> ch in w.past.tracked)
    && (ch in w.record.settled ==> ch in w.record.inFlight)
    && (ch in w.record.inFlight ==> ch in w.past.tracked)
  }

  ghost predicate ChannelHolds(w: World, ch: Channel) {
    Safe(w, ch) && Placed(w, ch) && ListedStands(w, ch) && Known(w, ch)
  }

  /** A spawn that has not settled is in flight, with its row in the store once the store has said so. */
  ghost predicate SpawnHolds(w: World, th: Thread) {
    th in w.spawns && !w.spawns[th].Creating? && !w.spawns[th].Done? ==>
      var p := w.spawns[th];
      && p.channel in w.past.tracked && p.channel in w.record.inFlight && p.channel !in w.record.settled
      && (p.Committed? ==> p.place == w.past.tracked[p.channel])
      && (p.Writing? ==> Excused(w.past, p.channel) || SamePlace(w.past, p.row, w.past.tracked[p.channel]))
      && ((p.Writing? && p.applied) || p.Settling? ==> p.channel in w.rows || Excused(w.past, p.channel))
      && (p.RowDeleting? ==> p.channel in w.past.deleted)
      && forall other :: other in w.spawns && other != th ==> !Unsettled(w.spawns[other], p.channel)
  }

  ghost predicate Holds(w: World) {
    && (w.record.sweepActive <==> !w.sweep.NoSweep?) && (!w.record.sweepActive ==> w.record.settled == {})
    && (forall ch :: ChannelHolds(w, ch))
    && (forall th :: SpawnHolds(w, th))
  }

  /** The channel an event is about, if it is about one. */
  function Subject(w: World, e: Event): Option<Channel>
    requires Possible(w, e)
  {
    match e
    case Created(_, ch) => Some(ch)
    case ChannelDeleted(ch) => Some(ch)
    case RowDelete(ch) => Some(ch)
    case HandoverWrite(ch) => Some(ch)
    case HandoverApplied(ch, _) => Some(ch)
    case Reserve(_, _) => None
    case CreateFailed(_) => None
    case HubDeleted(_) => None
    case SweepStart => None
    case SweepList => None
    case SweepRebuild(_) => None
    case SweepFinish => None
    case _ => Some(w.spawns[e.thread].channel)
  }

  predicate IsSweepEvent(e: Event) {
    e.SweepStart? || e.SweepList? || e.SweepRebuild? || e.SweepFinish? || e.HubDeleted?
  }

  /** An event that is not about a channel, nor the sweep's or a hub's, leaves the channel as it was. */
  lemma OthersUntouched(w: World, e: Event, ch: Channel)
    requires Possible(w, e) && !IsSweepEvent(e) && Subject(w, e) != Some(ch) && ChannelHolds(w, ch)
    ensures ChannelHolds(Next(w, e), ch)
  {
    hide Rebuild, Gone, FinishSweep, IsNext;
  }

  lemma SubjectHolds(w: World, e: Event, ch: Channel)
    requires Holds(w) && Possible(w, e) && !IsSweepEvent(e) && Subject(w, e) == Some(ch)
    ensures ChannelHolds(Next(w, e), ch)
  {
    assert ChannelHolds(w, ch);
    if !e.ChannelDeleted? && !e.RowDelete? && !e.HandoverWrite? && !e.HandoverApplied? {
      assert SpawnHolds(w, e.thread);
    }
  }

  lemma SweepHolds(w: World, e: Event, ch: Channel)
    requires Holds(w) && Possible(w, e) && IsSweepEvent(e)
    ensures ChannelHolds(Next(w, e), ch)
  {
    assert ChannelHolds(w, ch);
  }

  /** The spawn whose step it is, if it is one's. */
  predicate IsSpawnEvent(e: Event) {
    !IsSweepEvent(e) && !e.ChannelDeleted? && !e.RowDelete? && !e.HandoverWrite? && !e.HandoverApplied?
  }

  lemma ActingSpawnHolds(w: World, e: Event)
    requires Holds(w) && Possible(w, e) && IsSpawnEvent(e)
    ensures SpawnHolds(Next(w, e), e.thread)
  {
    assert SpawnHolds(w, e.thread);
    if e.Created? {
      assert ChannelHolds(w, e.channel);
      forall other | other in w.spawns && other != e.thread
        ensures !Unsettled(w.spawns[other], e.channel)
      {
        assert SpawnHolds(w, other);
      }
    } else if !e.Reserve? && !e.CreateFailed? {
      assert ChannelHolds(w, w.spawns[e.thread].channel);
    }
  }

  /** A spawn's step leaves every other spawn's channel alone. */
  lemma OtherSpawnHolds(w: World, e: Event, th: Thread)
    requires Holds(w) && Possible(w, e) && IsSpawnEvent(e) && e.thread != th
    ensures SpawnHolds(Next(w, e), th)
  {
    assert SpawnHolds(w, th) && SpawnHolds(w, e.thread);
    if e.Created? {
      assert ChannelHolds(w, e.channel);
    }
    if th in w.spawns && !w.spawns[th].Creating? && !w.spawns[th].Done? {
      assert !Unsettled(Next(w, e).spawns[e.thread], w.spawns[th].channel);
    }
  }

  lemma SpawnsUntouched(w: World, e: Event, th: Thread)
    requires Holds(w) && Possible(w, e) && !IsSpawnEvent(e) && !IsSweepEvent(e)
    ensures SpawnHolds(Next(w, e), th)
  {
    hide Rebuild, Gone, FinishSweep;
    assert SpawnHolds(w, th);
    if th in w.spawns && !w.spawns[th].Creating? && !w.spawns[th].Done? {
      assert ChannelHolds(w, w.spawns[th].channel);
      if e.RowDelete? {
        assert ChannelHolds(w, e.channel);
      }
    }
  }

  lemma SweepLeavesSpawns(w: World, e: Event, th: Thread)
    requires Holds(w) && Possible(w, e) && IsSweepEvent(e)
    ensures SpawnHolds(Next(w, e), th)
  {
    hide Gone;
    assert SpawnHolds(w, th);
    if th in w.spawns && !w.spawns[th].Creating? && !w.spawns[th].Done? {
      assert ChannelHolds(w, w.spawns[th].channel);
    }
  }

  lemma HoldsKept(w: World, e: Event)
    requires Holds(w) && Possible(w, e)
    ensures Holds(Next(w, e))
  {
    forall ch
      ensures ChannelHolds(Next(w, e), ch)
    {
      assert ChannelHolds(w, ch);
      if IsSweepEvent(e) {
        SweepHolds(w, e, ch);
      } else if Subject(w, e) == Some(ch) {
        SubjectHolds(w, e, ch);
      } else {
        OthersUntouched(w, e, ch);
      }
    }
    forall th
      ensures SpawnHolds(Next(w, e), th)
    {
      if IsSpawnEvent(e) && e.thread == th {
        ActingSpawnHolds(w, e);
      } else if IsSpawnEvent(e) {
        OtherSpawnHolds(w, e, th);
      } else if IsSweepEvent(e) {
        SweepLeavesSpawns(w, e, th);
      } else {
        SpawnsUntouched(w, e, th);
      }
    }
  }

  lemma {:induction false} HoldsReached(start: World, events: seq<Event>)
    requires Feasible(start, events)
    ensures Holds(Run(start, events))
    decreases |events|
  {
    if events != [] {
      HoldsReached(start, events[..|events| - 1]);
      HoldsKept(Run(start, events[..|events| - 1]), events[|events| - 1]);
    }
  }

  /**
   * No spawn is lost to a restart sweep: over any run, a channel the record ever
   * tracked is tracked still, at its number and its hub (0 only once that hub
   * is gone), unless it was deleted, its row write failed, or a sweep's
   * snapshot did not show it when no spawn of it was in flight.
   */
  lemma NoSpawnLost(start: World, events: seq<Event>, ch: Channel)
    requires Feasible(start, events)
    requires ch in Run(start, events).past.tracked && !Excused(Run(start, events).past, ch)
    ensures var w := Run(start, events);
            ch in w.record.tracked && SamePlace(w.past, w.record.tracked[ch], w.past.tracked[ch])
  {
    HoldsReached(start, events);
    assert ChannelHolds(Run(start, events), ch);
  }

  /** A channel whose spawn has not settled is in flight, so no rebuild judges its row or touches its tracking. */
  lemma UnsettledSpawnsAreLeftAlone(start: World, events: seq<Event>, th: Thread, shown: set<Channel>)
    requires Feasible(start, events) && Run(start, events).sweep.Listed?
    requires th in Run(start, events).spawns && !Run(start, events).spawns[th].Creating? && !Run(start, events).spawns[th].Done?
    ensures var w := Run(start, events);
            var ch := w.spawns[th].channel;
            && ch !in Gone(w.record, w.sweep.rows, shown)
            && (ch in w.record.tracked <==> ch in Rebuild(w.record, w.sweep.rows, shown).tracked)
            && (ch in w.record.tracked ==> Rebuild(w.record, w.sweep.rows, shown).tracked[ch] == w.record.tracked[ch])
  {
    HoldsReached(start, events);
    assert SpawnHolds(Run(start, events), th);
  }

  // ---------------------------------------------------------------------------
  // Per-hub numbering
  // ---------------------------------------------------------------------------

  /** No two live channels of a hub have one number, and none has a number reserved. */
  ghost predicate NumbersDistinct(r: Record) {
    && (forall a, b :: a in r.tracked && b in r.tracked && a != b && r.tracked[a].hub != 0 ==> r.tracked[a] != r.tracked[b])
    && (forall ch :: ch in r.tracked && r.tracked[ch].hub != 0 ==> r.tracked[ch] !in r.pending)
  }

  /** A create in flight has its number reserved, and no other has the same. */
  ghost predicate Reserved(w: World, th: Thread) {
    th in w.spawns && w.spawns[th].Creating? ==>
      && w.spawns[th].place in w.record.pending
      && forall other :: other in w.spawns && other != th && w.spawns[other].Creating? ==> w.spawns[other].place != w.spawns[th].place
  }

  ghost predicate Numbered(w: World) {
    NumbersDistinct(w.record) && forall th :: Reserved(w, th)
  }

  /** The rows a sweep is to track do not clash with each other, with the spawns it keeps or with a number reserved. */
  ghost predicate NoClash(w: World, shown: set<Channel>)
    requires w.sweep.Listed?
  {
    var restored := set ch | ch in w.sweep.rows && ch !in w.record.inFlight && ch in shown;
    forall a :: a in restored && w.sweep.rows[a].hub != 0 ==>
      && w.sweep.rows[a] !in w.record.pending
      && (forall b :: b in restored && b != a ==> w.sweep.rows[a] != w.sweep.rows[b])
      && (forall b :: b in w.record.tracked && b in w.record.inFlight ==> w.sweep.rows[a] != w.record.tracked[b])
  }

  /** A rebuild keeps the numbers distinct exactly when the rows it tracks do not clash. */
  lemma RebuildKeepsNumbers(w: World, shown: set<Channel>)
    requires NumbersDistinct(w.record) && w.sweep.Listed?
    ensures NumbersDistinct(Rebuild(w.record, w.sweep.rows, shown)) <==> NoClash(w, shown)
  {
    var r, n := w.record, Rebuild(w.record, w.sweep.rows, shown);
    if NumbersDistinct(n) {
      forall a | a in w.sweep.rows && a !in r.inFlight && a in shown && w.sweep.rows[a].hub != 0
        ensures w.sweep.rows[a] !in r.pending
        ensures forall b :: b in w.sweep.rows && b !in r.inFlight && b in shown && b != a ==> w.sweep.rows[a] != w.sweep.rows[b]
        ensures forall b :: b in r.tracked && b in r.inFlight ==> w.sweep.rows[a] != r.tracked[b]
      {
        assert n.tracked[a] == w.sweep.rows[a];
        forall b | b in w.sweep.rows && b !in r.inFlight && b in shown && b != a
          ensures w.sweep.rows[a] != w.sweep.rows[b]
        {
          assert n.tracked[b] == w.sweep.rows[b];
        }
        forall b | b in r.tracked && b in r.inFlight
          ensures w.sweep.rows[a] != r.tracked[b]
        {
          assert n.tracked[b] == r.tracked[b];
        }
      }
    }
  }

  lemma NumberedKept(w: World, e: Event)
    requires Numbered(w) && Possible(w, e) && (e.SweepRebuild? ==> NoClash(w, e.shown))
    ensures Numbered(Next(w, e))
  {
    var n := Next(w, e);
    if e.Reserve? || e.CreateFailed? || e.Created? {
      assert Reserved(w, e.thread);
    }
    forall th
      ensures Reserved(n, th)
    {
      assert Reserved(w, th);
      forall other | other in n.spawns && other != th && n.spawns[other].Creating? && th in n.spawns && n.spawns[th].Creating?
        ensures n.spawns[other].place != n.spawns[th].place
      {
        assert Reserved(w, other);
      }
    }
    if e.SweepRebuild? {
      RebuildKeepsNumbers(w, e.shown);
    }
  }

  /** Every rebuild of the run listed rows that do not clash. */
  ghost predicate NeverClashes(start: World, events: seq<Event>)
    requires Feasible(start, events)
    decreases |events|
  {
    events == [] ||
    (NeverClashes(start, events[..|events| - 1])
     && (events[|events| - 1].SweepRebuild? ==> NoClash(Run(start, events[..|events| - 1]), events[|events| - 1].shown)))
  }

  lemma {:induction false} NumberedReached(start: World, events: seq<Event>)
    requires Feasible(start, events) && NeverClashes(start, events)
    ensures Numbered(Run(start, events))
    decreases |events|
  {
    if events != [] {
      NumberedReached(start, events[..|events| - 1]);
      NumberedKept(Run(start, events[..|events| - 1]), events[|events| - 1]);
    }
  }

  /**
   * Over any run whose sweeps list rows that do not clash, a hub's live channels
   * have different numbers, none of which a create in flight has, and creates
   * in flight have different numbers too.
   */
  lemma NumbersAreDistinct(start: World, events: seq<Event>)
    requires Feasible(start, events) && NeverClashes(start, events)
    ensures NumbersDistinct(Run(start, events).record)
    ensures var spawns := Run(start, events).spawns;
            forall a, b :: a in spawns && b in spawns && a != b && spawns[a].Creating? && spawns[b].Creating? ==> spawns[a].place != spawns[b].place
  {
    NumberedReached(start, events);
    var w := Run(start, events);
    forall a | a in w.spawns && w.spawns[a].Creating?
      ensures forall b :: b in w.spawns && b != a && w.spawns[b].Creating? ==> w.spawns[b].place != w.spawns[a].place
    {
      assert Reserved(w, a);
    }
  }

  lemma RunNext(start: World, events: seq<Event>, k: nat)
    requires k < |events| && Feasible(start, events[..k]) && Possible(Run(start, events[..k]), events[k])
    ensures Feasible(start, events[..k + 1]) && Run(start, events[..k + 1]) == Next(Run(start, events[..k]), events[k])
  {
    assert events[..k + 1][..k] == events[..k];
  }

  /** A new process whose store lists two channels of a hub under one number. */
  const CLASHING_ROWS := map["first" := Place(1, 1), "second" := Place(1, 1)]
  const CLASHING := World(Record(map[], {}, {}, {}, false), map[], NoSweep, CLASHING_ROWS, {}, {},
                          Past(map[], {}, {}, {}, {}, CLASHING_ROWS.Keys))
  const FIRST_SWEEP := [SweepStart, SweepList, SweepRebuild({"first", "second"})]

  lemma ClashingRowsAreListed()
    ensures Fresh(CLASHING) && Feasible(CLASHING, FIRST_SWEEP[..2])
    ensures var w := Run(CLASHING, FIRST_SWEEP[..2]);
            w.sweep == Listed(CLASHING_ROWS) && w.record.inFlight == {} && w.record.tracked == map[]
  {
    hide RebuildWorld;
    assert FIRST_SWEEP[..0] == [] && Feasible(CLASHING, []) && Run(CLASHING, []) == CLASHING;
    hide Feasible, Run;
    RunNext(CLASHING, FIRST_SWEEP, 0);
    RunNext(CLASHING, FIRST_SWEEP, 1);
  }

  lemma ClashingRebuilt(w: World)
    requires w.sweep == Listed(CLASHING_ROWS) && w.record.inFlight == {} && w.record.tracked == map[]
    ensures !NumbersDistinct(RebuildWorld(w, {"first", "second"}).record)
  {
    var r := RebuildWorld(w, {"first", "second"}).record;
    assert "first"[0] != "second"[0];
    assert "first" in CLASHING_ROWS && "second" in CLASHING_ROWS;
    assert r.tracked["first"] == r.tracked["second"] == Place(1, 1);
  }

  /** Its first sweep tracks both under that number. */
  lemma ClashingRowsAreTracked()
    ensures Fresh(CLASHING) && Feasible(CLASHING, FIRST_SWEEP)
    ensures !NumbersDistinct(Run(CLASHING, FIRST_SWEEP).record)
  {
    ClashingRowsAreListed();
    hide Feasible, Run;
    ClashingRebuilt(Run(CLASHING, FIRST_SWEEP[..2]));
    hide RebuildWorld, NumbersDistinct, Fresh;
    RunNext(CLASHING, FIRST_SWEEP, 2);
    assert FIRST_SWEEP[..3] == FIRST_SWEEP;
  }
}
