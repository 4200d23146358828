/**
 * The delete delay (commands/temp_vc_delay.go, with its callers in
 * commands/temp_vc.go): an emptied channel waits for its hub's delay, under a
 * timer that knows the wait it is for. A timer that is stopped may already have
 * gone off and be waiting for the lock, so any timer ever set may go off once
 * its time has come.
 */
module DeleteDelays {
  import opened Wrappers

  type Channel = string
  type User = string

  /** A wait, its pointer in the source being the serial: no two waits of a channel have the same. */
  datatype Wait = Wait(emptiedAt: int, serial: nat)

  /** The timer of a channel's wait. */
  datatype Timer = Timer(channel: Channel, serial: nat)

  datatype Lock = Lock(locker: User, noticeMessageID: string)

  /**
   * The record of the spawned channels, the hubs' delays by hub row, and the
   * runtime's clock and timers with when each is due, those set and neither
   * stopped nor gone off being armed. serial numbers the sections.
   */
  datatype Record = Record(
    occupants: map<Channel, set<User>>, channelHub: map<Channel, int>, hubs: map<int, int>, locks: map<Channel, Lock>,
    waits: map<Channel, Wait>, timers: map<Timer, int>, armed: set<Timer>, serial: nat, now: int)

  // ---------------------------------------------------------------------------
  // The sections under the lock
  // ---------------------------------------------------------------------------

  /** The delay of a channel's hub as the hub is now, 0 when its row is gone. */
  function DelayOf(r: Record, ch: Channel): int {
    if ch in r.channelHub && r.channelHub[ch] in r.hubs && r.hubs[r.channelHub[ch]] > 0 then r.hubs[r.channelHub[ch]] else 0
  }

  /** A channel's wait timed to end once it has been empty for its hub's delay. */
  function Schedule(r: Record, ch: Channel, emptiedAt: int): Record {
    var timer := Timer(ch, r.serial);
    r.(timers := r.timers[timer := emptiedAt + DelayOf(r, ch)], armed := r.armed + {timer},
       waits := r.waits[ch := Wait(emptiedAt, r.serial)])
  }

  function CancelWait(r: Record, ch: Channel): Record {
    if ch in r.waits then r.(armed := r.armed - {Timer(ch, r.waits[ch].serial)}, waits := r.waits - {ch}) else r
  }

  function StartWait(r: Record, ch: Channel): Record {
    if DelayOf(r, ch) == 0 then r else Schedule(r, ch, r.now)
  }

  function Leave(r: Record, ch: Channel, u: User): Record {
    if ch !in r.occupants then r
    else
      var s := r.(occupants := r.occupants[ch := r.occupants[ch] - {u}]);
      if s.occupants[ch] == {} then StartWait(s, ch) else s
  }

  function Join(r: Record, ch: Channel, u: User): Record {
    if ch !in r.occupants then r
    else CancelWait(r.(occupants := r.occupants[ch := r.occupants[ch] + {u}]), ch)
  }

  /** The compensating delete takes the creator out of the record. */
  function Evict(r: Record, ch: Channel, u: User): Record {
    if ch in r.occupants then r.(occupants := r.occupants[ch := r.occupants[ch] - {u}]) else r
  }

  function Commit(r: Record, ch: Channel, hub: int, u: User): Record {
    r.(occupants := r.occupants[ch := {u}], channelHub := r.channelHub[ch := hub])
  }

  function Untrack(r: Record, ch: Channel): Record {
    var s := CancelWait(r, ch);
    s.(occupants := s.occupants - {ch}, channelHub := s.channelHub - {ch}, locks := s.locks - {ch})
  }

  predicate WaitsOn(r: Record, ch: Channel, hub: int) {
    ch in r.waits && ch in r.channelHub && r.channelHub[ch] == hub
  }

  /** Of the channels given, those waiting on the hub. */
  function WaitingOf(r: Record, hub: int, channels: set<Channel>): set<Channel> {
    set ch | ch in channels && WaitsOn(r, ch, hub)
  }

  function Timers(channels: set<Channel>, serial: nat): set<Timer> {
    set ch | ch in channels :: Timer(ch, serial)
  }

  function OwnTimers(r: Record, channels: set<Channel>): set<Timer> {
    set ch | ch in channels && ch in r.waits :: Timer(ch, r.waits[ch].serial)
  }

  function NewWaits(r: Record, channels: set<Channel>): map<Channel, Wait> {
    map ch | ch in r.waits :: if ch in channels then Wait(r.waits[ch].emptiedAt, r.serial) else r.waits[ch]
  }

  function NewTimers(r: Record, channels: set<Channel>): map<Timer, int> {
    map ch | ch in channels && ch in r.waits :: Timer(ch, r.serial) := r.waits[ch].emptiedAt + DelayOf(r, ch)
  }

  /** Of the channels given, those waiting on the hub timed again, each from when it emptied. */
  function RetimeOf(r: Record, hub: int, channels: set<Channel>): Record {
    var waiting := WaitingOf(r, hub, channels);
    r.(waits := NewWaits(r, waiting), timers := r.timers + NewTimers(r, waiting),
       armed := r.armed - OwnTimers(r, waiting) + Timers(waiting, r.serial))
  }

  /** A hub's waits timed again. */
  function Retime(r: Record, hub: int): Record {
    RetimeOf(r, hub, r.waits.Keys)
  }

  /** A stored row as the sweep reads it, and the members its snapshot shows in each channel it has. */
  datatype Row = Row(channel: Channel, hub: int, lock: Option<Lock>)

  type Shown = map<Channel, set<User>>

  /** The record with only the spawns in flight, every other wait's timer stopped. */
  function KeepInFlight(r: Record, inFlight: set<Channel>): Record {
    r.(occupants := map ch | ch in r.occupants && ch in inFlight :: r.occupants[ch],
       channelHub := map ch | ch in r.channelHub && ch in inFlight :: r.channelHub[ch],
       locks := map ch | ch in r.locks && ch in inFlight :: r.locks[ch],
       waits := map ch | ch in r.waits && ch in inFlight :: r.waits[ch],
       armed := r.armed - set ch | ch in r.waits && ch !in inFlight :: Timer(ch, r.waits[ch].serial))
  }

  /** A channel tracked before the sweep keeps the lock the record held; any other takes its row's. */
  function RestoreLock(s: Record, before: Record, row: Row): Record {
    var lock := if row.channel in before.occupants
                then if row.channel in before.locks then Some(before.locks[row.channel]) else None
                else row.lock;
    if lock.Some? then s.(locks := s.locks[row.channel := lock.value]) else s
  }

  /** An empty channel waits: from when it emptied if it was waiting before, else from now. */
  function SweepWait(s: Record, before: Record, ch: Channel): Record {
    if ch !in before.waits then StartWait(s, ch)
    else if DelayOf(s, ch) == 0 then s
    else Schedule(s, ch, before.waits[ch].emptiedAt)
  }

  function SweepRow(s: Record, before: Record, row: Row, inFlight: set<Channel>, shown: Shown): Record {
    if row.channel in inFlight || row.channel !in shown then s
    else
      var t := RestoreLock(s.(occupants := s.occupants[row.channel := shown[row.channel]],
                              channelHub := s.channelHub[row.channel := row.hub]), before, row);
      if shown[row.channel] == {} then SweepWait(t, before, row.channel) else t
  }

  /** The rebuild of a sweep over the first n rows. */
  function Rebuild(r: Record, rows: seq<Row>, n: nat, inFlight: set<Channel>, shown: Shown): Record
    requires n <= |rows|
  {
    if n == 0 then KeepInFlight(r, inFlight)
    else SweepRow(Rebuild(r, rows, n - 1, inFlight, shown), r, rows[n - 1], inFlight, shown)
  }

  /** A timer goes off: its wait ends if it is the channel's own still. */
  predicate Passes(r: Record, timer: Timer) {
    timer.channel in r.waits && r.waits[timer.channel].serial == timer.serial
  }

  function GoOff(r: Record, timer: Timer): Record {
    var s := r.(armed := r.armed - {timer});
    if Passes(r, timer) then s.(waits := s.waits - {timer.channel}) else s
  }

  // ---------------------------------------------------------------------------
  // Runs
  // ---------------------------------------------------------------------------

  datatype Event =
    | Ticks(elapsed: nat)
    | Moves(user: User, from: Channel, to: Channel)
    | Evicts(channel: Channel, user: User)
    | Commits(channel: Channel, hub: int, user: User)
    | Untracks(channel: Channel)
    | SavesHub(hub: int, delay: int)
    | RemovesHub(hub: int)
    | Sweeps(rows: seq<Row>, inFlight: set<Channel>, shown: Shown)
    | GoesOff(timer: Timer)

  /** The record, and since when each tracked channel that is empty has been so without a break. */
  datatype World = World(record: Record, emptySince: map<Channel, int>)

  const NEW_RECORD := Record(map[], map[], map[], map[], map[], map[], {}, 0, 0)

  /** A spawn commits a channel Discord has just made; the rows list a channel once; a timer goes off no sooner than it is due. */
  predicate Possible(w: World, e: Event) {
    match e
    case Moves(_, from, to) => from != to
    case Commits(ch, _, _) => ch !in w.record.occupants
    case Sweeps(rows, _, _) => forall i, j :: 0 <= i < j < |rows| ==> rows[i].channel != rows[j].channel
    case GoesOff(timer) => timer in w.record.timers && w.record.now >= w.record.timers[timer]
    case _ => true
  }

  function Step(r: Record, e: Event): Record {
    match e
    case Ticks(elapsed) => r.(now := r.now + elapsed)
    case Moves(u, from, to) => Join(Leave(r, from, u), to, u)
    case Evicts(ch, u) => Evict(r, ch, u)
    case Commits(ch, hub, u) => Commit(r, ch, hub, u)
    case Untracks(ch) => Untrack(r, ch)
    case SavesHub(hub, delay) => Retime(r.(hubs := r.hubs[hub := delay]), hub)
    case RemovesHub(hub) => if hub in r.hubs then Retime(r.(hubs := r.hubs - {hub}), hub) else r
    case Sweeps(rows, inFlight, shown) => Rebuild(r, rows, |rows|, inFlight, shown)
    case GoesOff(timer) => GoOff(r, timer)
  }

  /** A channel empty before and after a step has been so all along; one found empty now is so from now. */
  function EmptySince(since: map<Channel, int>, after: Record): map<Channel, int> {
    map ch | ch in after.occupants && after.occupants[ch] == {} :: if ch in since then since[ch] else after.now
  }

  function Next(w: World, e: Event): World {
    var r := Step(w.record.(serial := w.record.serial + 1), e);
    World(r, EmptySince(w.emptySince, r))
  }

  function Run(events: seq<Event>): World {
    if events == [] then World(NEW_RECORD, map[]) else Next(Run(events[..|events| - 1]), events[|events| - 1])
  }

  predicate Feasible(events: seq<Event>) {
    events == [] || (Feasible(events[..|events| - 1]) && Possible(Run(events[..|events| - 1]), events[|events| - 1]))
  }

  // ---------------------------------------------------------------------------
  // A wait is of a tracked, empty channel, under a timer of its own
  // ---------------------------------------------------------------------------

  /** What holds of a channel's wait. */
  ghost predicate WaitHolds(r: Record, since: map<Channel, int>, ch: Channel) {
    ch in r.waits ==>
      var w := r.waits[ch];
      && ch in r.occupants && r.occupants[ch] == {} && ch in r.channelHub
      && ch in since && since[ch] <= w.emptiedAt <= r.now
      && Timer(ch, w.serial) in r.armed && Timer(ch, w.serial) in r.timers
      && r.timers[Timer(ch, w.serial)] == w.emptiedAt + DelayOf(r, ch)
  }

  ghost predicate SinceHolds(w: World, ch: Channel) {
    && (ch in w.emptySince <==> ch in w.record.occupants && w.record.occupants[ch] == {})
    && (ch in w.emptySince ==> w.emptySince[ch] <= w.record.now)
    && (ch in w.record.occupants <==> ch in w.record.channelHub)
  }

  ghost predicate Holds(w: World) {
    && (forall ch :: WaitHolds(w.record, w.emptySince, ch) && SinceHolds(w, ch))
    && (forall timer :: timer in w.record.timers ==> timer.serial <= w.record.serial)
  }

  /** Timers set in this section are new ones. */
  ghost predicate NewSection(r: Record) {
    forall timer :: timer in r.timers ==> timer.serial < r.serial
  }

  ghost predicate ChannelHolds(w: World, ch: Channel) {
    WaitHolds(w.record, w.emptySince, ch) && SinceHolds(w, ch)
  }

  lemma LeaveHolds(w: World, from: Channel, u: User, ch: Channel)
    requires ChannelHolds(w, ch) && NewSection(w.record)
    ensures var r := Leave(w.record, from, u);
            ChannelHolds(World(r, EmptySince(w.emptySince, r)), ch)
  {}

  lemma JoinHolds(w: World, to: Channel, u: User, ch: Channel)
    requires ChannelHolds(w, ch)
    ensures var r := Join(w.record, to, u);
            ChannelHolds(World(r, EmptySince(w.emptySince, r)), ch)
  {}

  lemma MoveHolds(w: World, u: User, from: Channel, to: Channel, ch: Channel)
    requires (forall other :: ChannelHolds(w, other)) && NewSection(w.record) && from != to
    ensures var r := Join(Leave(w.record, from, u), to, u);
            ChannelHolds(World(r, EmptySince(w.emptySince, r)), ch)
  {
    hide WaitHolds;
    assert ChannelHolds(w, ch) && ChannelHolds(w, to);
    var mid := Leave(w.record, from, u);
    var r := Join(mid, to, u);
    LeaveHolds(w, from, u, ch);
    JoinHolds(World(mid, EmptySince(w.emptySince, mid)), to, u, ch);
    forall other
      ensures SinceHolds(w, other)
    {
      assert ChannelHolds(w, other);
    }
    assert EmptySince(EmptySince(w.emptySince, mid), r) == EmptySince(w.emptySince, r);
  }

  /** A hub's save times its waits again; no wait of another hub is touched. */
  lemma RetimeHolds(w: World, r: Record, hub: int, ch: Channel)
    requires ChannelHolds(w, ch) && NewSection(w.record)
    requires r == w.record.(hubs := r.hubs)
    requires forall other :: other != hub ==>
               (other in r.hubs <==> other in w.record.hubs) && (other in r.hubs ==> r.hubs[other] == w.record.hubs[other])
    ensures ChannelHolds(World(Retime(r, hub), EmptySince(w.emptySince, Retime(r, hub))), ch)
  {
    var s := Retime(r, hub);
    if ch in r.waits {
      assert DelayOf(s, ch) == DelayOf(r, ch);
      if WaitsOn(r, ch, hub) {
        assert Timer(ch, r.serial) in s.armed;
        assert Timer(ch, r.serial) in s.timers;
      } else {
        assert DelayOf(r, ch) == DelayOf(w.record, ch);
        assert Timer(ch, r.waits[ch].serial) in s.armed;
        assert Timer(ch, r.waits[ch].serial) in s.timers;
      }
    }
  }

  // ---------------------------------------------------------------------------
  // What a sweep leaves
  // ---------------------------------------------------------------------------

  /** The row of a channel among the first n. */
  function RowOf(rows: seq<Row>, n: nat, ch: Channel): Option<Row>
    requires n <= |rows|
  {
    if n == 0 then None else if rows[n - 1].channel == ch then Some(rows[n - 1]) else RowOf(rows, n - 1, ch)
  }

  lemma {:induction false} OneRowEach(rows: seq<Row>, n: nat, k: nat)
    requires n <= k < |rows| && (forall i, j :: 0 <= i < j < |rows| ==> rows[i].channel != rows[j].channel)
    ensures RowOf(rows, n, rows[k].channel) == None
  {
    if n > 0 {
      OneRowEach(rows, n - 1, k);
    }
  }

  /** A channel that waited before keeps its wait's start; any other waits from now. */
  function SweptFrom(before: Record, ch: Channel): int {
    if ch in before.waits then before.waits[ch].emptiedAt else before.now
  }

  /** A spawn in flight is as the record had it. */
  ghost predicate LeftAlone(before: Record, s: Record, ch: Channel) {
    && (ch in s.occupants <==> ch in before.occupants) && (ch in s.occupants ==> s.occupants[ch] == before.occupants[ch])
    && (ch in s.channelHub <==> ch in before.channelHub) && (ch in s.channelHub ==> s.channelHub[ch] == before.channelHub[ch])
    && (ch in s.locks <==> ch in before.locks) && (ch in s.locks ==> s.locks[ch] == before.locks[ch])
    && (ch in s.waits <==> ch in before.waits) && (ch in s.waits ==> s.waits[ch] == before.waits[ch])
    && (ch in s.waits ==> (Timer(ch, s.waits[ch].serial) in before.armed ==> Timer(ch, s.waits[ch].serial) in s.armed))
  }

  /** A row's channel is as the snapshot shows it, with the record's lock or else its row's, and waits if it is empty. */
  ghost predicate Restored(before: Record, s: Record, row: Row, shown: Shown)
    requires row.channel in shown
  {
    var ch := row.channel;
    && ch in s.occupants && s.occupants[ch] == shown[ch] && ch in s.channelHub && s.channelHub[ch] == row.hub
    && (ch in before.occupants ==> (ch in s.locks <==> ch in before.locks) && (ch in s.locks ==> s.locks[ch] == before.locks[ch]))
    && (ch !in before.occupants ==> (ch in s.locks <==> row.lock.Some?) && (ch in s.locks ==> Some(s.locks[ch]) == row.lock))
    && (ch in s.waits <==> shown[ch] == {} && DelayOf(s, ch) > 0)
    && (ch in s.waits ==>
          && s.waits[ch] == Wait(SweptFrom(before, ch), before.serial)
          && Timer(ch, before.serial) in s.armed && Timer(ch, before.serial) in s.timers
          && s.timers[Timer(ch, before.serial)] == SweptFrom(before, ch) + DelayOf(s, ch))
  }

  ghost predicate Dropped(s: Record, ch: Channel) {
    ch !in s.occupants && ch !in s.channelHub && ch !in s.locks && ch !in s.waits
  }

  /** What a sweep leaves of a channel, row being the one listed for it. */
  ghost predicate Swept(before: Record, s: Record, row: Option<Row>, inFlight: set<Channel>, shown: Shown, ch: Channel) {
    if ch in inFlight then LeftAlone(before, s, ch)
    else if ch in shown && row.Some? then row.value.channel == ch && Restored(before, s, row.value, shown)
    else Dropped(s, ch)
  }

  /** A part of a section leaves the hubs, the clock and the timers set before as they were. */
  ghost predicate Framed(s: Record, n: Record) {
    && n.hubs == s.hubs && n.now == s.now && n.serial == s.serial
    && (forall timer :: timer in n.timers ==> timer in s.timers || timer.serial == s.serial)
    && (forall timer :: timer in s.timers && timer.serial != s.serial ==> timer in n.timers && n.timers[timer] == s.timers[timer])
  }

  lemma WaitFrame(r: Record, s: Record, ch: Channel)
    ensures Framed(s, SweepWait(s, r, ch))
  {
    hide DelayOf;
  }

  lemma LockFrame(r: Record, s: Record, row: Row)
    ensures RestoreLock(s, r, row) == s.(locks := RestoreLock(s, r, row).locks)
  {}

  lemma RowFrame(r: Record, s: Record, row: Row, inFlight: set<Channel>, shown: Shown)
    ensures Framed(s, SweepRow(s, r, row, inFlight, shown))
  {
    hide SweepWait, RestoreLock;
    if row.channel !in inFlight && row.channel in shown {
      var u := s.(occupants := s.occupants[row.channel := shown[row.channel]], channelHub := s.channelHub[row.channel := row.hub]);
      LockFrame(r, u, row);
      WaitFrame(r, RestoreLock(u, r, row), row.channel);
    }
  }

  lemma {:induction false} RebuildFrame(r: Record, rows: seq<Row>, n: nat, inFlight: set<Channel>, shown: Shown)
    requires n <= |rows|
    ensures var s := Rebuild(r, rows, n, inFlight, shown);
            && s.hubs == r.hubs && s.now == r.now && s.serial == r.serial
            && (forall timer :: timer in s.timers ==> timer in r.timers || timer.serial == r.serial)
            && (forall timer :: timer in r.timers && timer.serial != r.serial ==> timer in s.timers && s.timers[timer] == r.timers[timer])
  {
    if n > 0 {
      RebuildFrame(r, rows, n - 1, inFlight, shown);
      RowFrame(r, Rebuild(r, rows, n - 1, inFlight, shown), rows[n - 1], inFlight, shown);
      hide SweepRow;
    }
  }

  /** The records have the same of a channel. */
  ghost predicate SameAt(a: Record, b: Record, ch: Channel) {
    && (ch in a.occupants <==> ch in b.occupants) && (ch in a.occupants ==> a.occupants[ch] == b.occupants[ch])
    && (ch in a.channelHub <==> ch in b.channelHub) && (ch in a.channelHub ==> a.channelHub[ch] == b.channelHub[ch])
    && (ch in a.locks <==> ch in b.locks) && (ch in a.locks ==> a.locks[ch] == b.locks[ch])
    && (ch in a.waits <==> ch in b.waits) && (ch in a.waits ==> a.waits[ch] == b.waits[ch])
    && (forall timer: Timer :: timer.channel == ch ==>
          && (timer in a.armed <==> timer in b.armed) && (timer in a.timers <==> timer in b.timers)
          && (timer in a.timers ==> a.timers[timer] == b.timers[timer]))
    && a.hubs == b.hubs
  }

  lemma ScheduleElsewhere(s: Record, ch: Channel, other: Channel, emptiedAt: int)
    requires other != ch
    ensures SameAt(s, Schedule(s, other, emptiedAt), ch)
  {}

  lemma LockRestored(s: Record, before: Record, row: Row)
    requires row.channel !in s.locks
    ensures var t, ch := RestoreLock(s, before, row), row.channel;
            && t == s.(locks := t.locks)
            && (ch in before.occupants ==> (ch in t.locks <==> ch in before.locks) && (ch in t.locks ==> t.locks[ch] == before.locks[ch]))
            && (ch !in before.occupants ==> (ch in t.locks <==> row.lock.Some?) && (ch in t.locks ==> Some(t.locks[ch]) == row.lock))
  {}

  lemma LockElsewhere(s: Record, before: Record, row: Row, ch: Channel)
    requires row.channel != ch
    ensures var t := RestoreLock(s, before, row);
            && t == s.(locks := t.locks)
            && (ch in t.locks <==> ch in s.locks) && (ch in t.locks ==> t.locks[ch] == s.locks[ch])
  {}

  lemma RowElsewhere(s: Record, before: Record, row: Row, inFlight: set<Channel>, shown: Shown, ch: Channel)
    requires row.channel != ch
    ensures SameAt(s, SweepRow(s, before, row, inFlight, shown), ch)
  {
    hide Schedule, RestoreLock, DelayOf;
    if row.channel !in inFlight && row.channel in shown {
      var u := s.(occupants := s.occupants[row.channel := shown[row.channel]], channelHub := s.channelHub[row.channel := row.hub]);
      var t := RestoreLock(u, before, row);
      LockElsewhere(u, before, row, ch);
      assert SameAt(s, t, ch);
      ScheduleElsewhere(t, ch, row.channel, t.now);
      if row.channel in before.waits {
        ScheduleElsewhere(t, ch, row.channel, before.waits[row.channel].emptiedAt);
      }
    }
  }

  /** Another channel's row changes nothing of a channel. */
  lemma OtherRow(before: Record, s: Record, row: Row, inFlight: set<Channel>, shown: Shown, ch: Channel, own: Option<Row>)
    requires row.channel != ch && Swept(before, s, own, inFlight, shown, ch)
    ensures Swept(before, SweepRow(s, before, row, inFlight, shown), own, inFlight, shown, ch)
  {
    hide SweepRow;
    RowElsewhere(s, before, row, inFlight, shown, ch);
    var n := SweepRow(s, before, row, inFlight, shown);
    assert DelayOf(n, ch) == DelayOf(s, ch);
  }

  /** An empty channel's wait after its row. */
  lemma WaitSwept(before: Record, t: Record, ch: Channel)
    requires ch !in t.waits && t.now == before.now && t.serial == before.serial
    ensures var s := SweepWait(t, before, ch);
            && s == t.(waits := s.waits, timers := s.timers, armed := s.armed)
            && (ch in s.waits <==> DelayOf(t, ch) > 0)
            && (ch in s.waits ==>
                  && s.waits[ch] == Wait(SweptFrom(before, ch), before.serial)
                  && Timer(ch, before.serial) in s.armed && Timer(ch, before.serial) in s.timers
                  && s.timers[Timer(ch, before.serial)] == SweptFrom(before, ch) + DelayOf(t, ch))
  {}

  lemma OwnRow(before: Record, s: Record, row: Row, inFlight: set<Channel>, shown: Shown)
    requires Swept(before, s, None, inFlight, shown, row.channel)
    requires s.hubs == before.hubs && s.now == before.now && s.serial == before.serial
    ensures Swept(before, SweepRow(s, before, row, inFlight, shown), Some(row), inFlight, shown, row.channel)
  {
    hide SweepWait, RestoreLock;
    var ch := row.channel;
    if ch !in inFlight && ch in shown {
      var u := s.(occupants := s.occupants[ch := shown[ch]], channelHub := s.channelHub[ch := row.hub]);
      var t := RestoreLock(u, before, row);
      LockRestored(u, before, row);
      assert ch !in t.waits && t.now == s.now && t.serial == s.serial;
      WaitSwept(before, t, ch);
      assert DelayOf(SweepWait(t, before, ch), ch) == DelayOf(t, ch);
    }
  }

  lemma {:induction false} RebuildSweeps(r: Record, rows: seq<Row>, n: nat, inFlight: set<Channel>, shown: Shown, ch: Channel)
    requires n <= |rows| && (forall i, j :: 0 <= i < j < |rows| ==> rows[i].channel != rows[j].channel)
    ensures Swept(r, Rebuild(r, rows, n, inFlight, shown), RowOf(rows, n, ch), inFlight, shown, ch)
  {
    if n > 0 {
      hide Swept, SweepRow;
      RebuildSweeps(r, rows, n - 1, inFlight, shown, ch);
      RebuildFrame(r, rows, n - 1, inFlight, shown);
      var s, row := Rebuild(r, rows, n - 1, inFlight, shown), rows[n - 1];
      if row.channel != ch {
        OtherRow(r, s, row, inFlight, shown, ch, RowOf(rows, n - 1, ch));
      } else {
        OneRowEach(rows, n - 1, n - 1);
        OwnRow(r, s, row, inFlight, shown);
      }
    }
  }

  lemma SweepHolds(w: World, rows: seq<Row>, inFlight: set<Channel>, shown: Shown, ch: Channel)
    requires ChannelHolds(w, ch) && NewSection(w.record)
    requires forall i, j :: 0 <= i < j < |rows| ==> rows[i].channel != rows[j].channel
    ensures var r := Rebuild(w.record, rows, |rows|, inFlight, shown);
            ChannelHolds(World(r, EmptySince(w.emptySince, r)), ch)
  {
    RebuildSweeps(w.record, rows, |rows|, inFlight, shown, ch);
    RebuildFrame(w.record, rows, |rows|, inFlight, shown);
    hide Rebuild, RowOf;
  }

  /**
   * A reconnect's sweep keeps a wait's start: a channel that waited before it,
   * is empty still and has a delay waits on from when it emptied.
   */
  lemma ReconnectKeepsTheStart(r: Record, rows: seq<Row>, inFlight: set<Channel>, shown: Shown, k: nat)
    requires forall i, j :: 0 <= i < j < |rows| ==> rows[i].channel != rows[j].channel
    requires k < |rows| && rows[k].channel !in inFlight && rows[k].channel in shown && shown[rows[k].channel] == {}
    requires rows[k].channel in r.waits && rows[k].hub in r.hubs && r.hubs[rows[k].hub] > 0
    ensures var s := Rebuild(r, rows, |rows|, inFlight, shown);
            rows[k].channel in s.waits && s.waits[rows[k].channel].emptiedAt == r.waits[rows[k].channel].emptiedAt
  {
    RebuildSweeps(r, rows, |rows|, inFlight, shown, rows[k].channel);
    RebuildFrame(r, rows, |rows|, inFlight, shown);
    RowFound(rows, |rows|, k);
    hide Rebuild, RowOf;
  }

  lemma {:induction false} RowFound(rows: seq<Row>, n: nat, k: nat)
    requires k < n <= |rows| && (forall i, j :: 0 <= i < j < |rows| ==> rows[i].channel != rows[j].channel)
    ensures RowOf(rows, n, rows[k].channel) == Some(rows[k])
    decreases n
  {
    if k < n - 1 {
      RowFound(rows, n - 1, k);
    }
  }

  /** A channel tracked before a sweep keeps the lock the record has, whatever its row says. */
  lemma ReconnectKeepsTheLock(r: Record, rows: seq<Row>, inFlight: set<Channel>, shown: Shown, k: nat)
    requires forall i, j :: 0 <= i < j < |rows| ==> rows[i].channel != rows[j].channel
    requires k < |rows| && rows[k].channel in shown && rows[k].channel in r.occupants
    ensures var s, ch := Rebuild(r, rows, |rows|, inFlight, shown), rows[k].channel;
            (ch in s.locks <==> ch in r.locks) && (ch in s.locks ==> s.locks[ch] == r.locks[ch])
  {
    RebuildSweeps(r, rows, |rows|, inFlight, shown, rows[k].channel);
    RowFound(rows, |rows|, k);
    hide Rebuild, RowOf;
  }

  // ---------------------------------------------------------------------------
  // Over any run
  // ---------------------------------------------------------------------------

  /** The timers of a record after a section are those before it and new ones. */
  ghost predicate TimersGrow(r: Record, s: Record) {
    s.serial == r.serial && forall timer :: timer in s.timers ==> timer in r.timers || timer.serial == r.serial
  }

  lemma RetimeGrows(r: Record, hub: int)
    ensures TimersGrow(r, Retime(r, hub))
  {}

  lemma MoveGrows(r: Record, u: User, from: Channel, to: Channel)
    ensures TimersGrow(r, Join(Leave(r, from, u), to, u))
  {
    assert TimersGrow(r, Leave(r, from, u));
    hide Leave;
  }

  lemma StepGrows(r: Record, e: Event)
    ensures TimersGrow(r, Step(r, e))
  {
    hide Join, Leave, Retime, Rebuild;
    match e
    case Moves(u, from, to) => MoveGrows(r, u, from, to);
    case SavesHub(hub, delay) => RetimeGrows(r.(hubs := r.hubs[hub := delay]), hub);
    case RemovesHub(hub) => RetimeGrows(r.(hubs := r.hubs - {hub}), hub);
    case Sweeps(rows, inFlight, shown) => RebuildFrame(r, rows, |rows|, inFlight, shown);
    case _ =>
  }

  lemma SerialsHold(w: World, e: Event)
    requires Holds(w) && Possible(w, e)
    ensures Next(w, e).record.serial == w.record.serial + 1
    ensures forall timer :: timer in Next(w, e).record.timers ==> timer.serial <= w.record.serial + 1
  {
    hide Step;
    StepGrows(w.record.(serial := w.record.serial + 1), e);
  }

  lemma StepHolds(w: World, e: Event, ch: Channel)
    requires Holds(w) && Possible(w, e)
    ensures ChannelHolds(Next(w, e), ch)
  {
    hide Join, Leave, Retime, Rebuild, WaitHolds;
    var v := w.(record := w.record.(serial := w.record.serial + 1));
    forall other
      ensures ChannelHolds(v, other)
    {
      BumpHolds(w, other);
    }
    assert ChannelHolds(v, ch);
    match e
    case Moves(u, from, to) => MoveHolds(v, u, from, to, ch);
    case SavesHub(hub, delay) => RetimeHolds(v, v.record.(hubs := v.record.hubs[hub := delay]), hub, ch);
    case RemovesHub(hub) =>
      if hub in v.record.hubs {
        RetimeHolds(v, v.record.(hubs := v.record.hubs - {hub}), hub, ch);
      } else {
        SmallStepHolds(v, e, ch);
      }
    case Sweeps(rows, inFlight, shown) => SweepHolds(v, rows, inFlight, shown, ch);
    case _ => SmallStepHolds(v, e, ch);
  }

  lemma BumpHolds(w: World, ch: Channel)
    requires WaitHolds(w.record, w.emptySince, ch) && SinceHolds(w, ch)
    ensures ChannelHolds(w.(record := w.record.(serial := w.record.serial + 1)), ch)
  {}

  lemma EvictHolds(v: World, other: Channel, u: User, ch: Channel)
    requires ChannelHolds(v, ch)
    ensures var r := Evict(v.record, other, u);
            ChannelHolds(World(r, EmptySince(v.emptySince, r)), ch)
  {}

  lemma CommitHolds(v: World, other: Channel, hub: int, u: User, ch: Channel)
    requires ChannelHolds(v, ch) && other !in v.record.occupants
    ensures var r := Commit(v.record, other, hub, u);
            ChannelHolds(World(r, EmptySince(v.emptySince, r)), ch)
  {}

  lemma UntrackHolds(v: World, other: Channel, ch: Channel)
    requires ChannelHolds(v, ch)
    ensures var r := Untrack(v.record, other);
            ChannelHolds(World(r, EmptySince(v.emptySince, r)), ch)
  {}

  lemma GoOffHolds(v: World, timer: Timer, ch: Channel)
    requires ChannelHolds(v, ch)
    ensures var r := GoOff(v.record, timer);
            ChannelHolds(World(r, EmptySince(v.emptySince, r)), ch)
  {}

  lemma SmallStepHolds(v: World, e: Event, ch: Channel)
    requires ChannelHolds(v, ch) && Possible(v, e)
    requires e.Ticks? || e.Evicts? || e.Commits? || e.Untracks? || e.GoesOff? || (e.RemovesHub? && e.hub !in v.record.hubs)
    ensures ChannelHolds(World(Step(v.record, e), EmptySince(v.emptySince, Step(v.record, e))), ch)
  {
    match e
    case Ticks(_) => hide DelayOf;
    case Evicts(other, u) => EvictHolds(v, other, u, ch);
    case Commits(other, hub, u) => CommitHolds(v, other, hub, u, ch);
    case Untracks(other) => UntrackHolds(v, other, ch);
    case GoesOff(timer) => GoOffHolds(v, timer, ch);
    case RemovesHub(_) => hide DelayOf;
  }

  lemma {:induction false} HoldsReached(events: seq<Event>)
    requires Feasible(events)
    ensures Holds(Run(events))
    decreases |events|
  {
    if events != [] {
      var w, e := Run(events[..|events| - 1]), events[|events| - 1];
      HoldsReached(events[..|events| - 1]);
      forall ch
        ensures ChannelHolds(Run(events), ch)
      {
        StepHolds(w, e, ch);
      }
      SerialsHold(w, e);
      assert forall ch :: WaitHolds(Run(events).record, Run(events).emptySince, ch) && SinceHolds(Run(events), ch) by {
        forall ch
          ensures WaitHolds(Run(events).record, Run(events).emptySince, ch) && SinceHolds(Run(events), ch)
        {
          assert ChannelHolds(Run(events), ch);
        }
      }
    }
  }

  /** A wait is of a tracked channel with nobody in it, under an armed timer due when the delay as it stands now is over. */
  lemma WaitsAreOfEmptyChannels(events: seq<Event>, ch: Channel)
    requires Feasible(events) && ch in Run(events).record.waits
    ensures var r := Run(events).record;
            var timer := Timer(ch, r.waits[ch].serial);
            && ch in r.occupants && r.occupants[ch] == {}
            && timer in r.armed && timer in r.timers && r.timers[timer] == r.waits[ch].emptiedAt + DelayOf(r, ch)
  {
    HoldsReached(events);
    assert WaitHolds(Run(events).record, Run(events).emptySince, ch);
  }

  /**
   * A timer that passes its check finds its channel empty in the record without
   * a break since the wait's start, and the hub's delay as it stands now over.
   */
  lemma PassingTimerIsDue(events: seq<Event>, timer: Timer)
    requires Feasible(events) && Possible(Run(events), GoesOff(timer)) && Passes(Run(events).record, timer)
    ensures var w := Run(events);
            var ch := timer.channel;
            && ch in w.record.occupants && w.record.occupants[ch] == {}
            && ch in w.emptySince && w.emptySince[ch] <= w.record.waits[ch].emptiedAt
            && w.record.now >= w.record.waits[ch].emptiedAt + DelayOf(w.record, ch)
  {
    HoldsReached(events);
    assert WaitHolds(Run(events).record, Run(events).emptySince, timer.channel);
  }

  /** A wait is as it was before a section, or set in it; timers set stay set. */
  ghost predicate WaitsAreOldOrNew(r: Record, s: Record, timer: Timer) {
    && (timer.channel in s.waits ==>
          s.waits[timer.channel].serial == r.serial || (timer.channel in r.waits && s.waits[timer.channel] == r.waits[timer.channel]))
    && (timer in r.timers && timer.serial != r.serial ==> timer in s.timers)
  }

  lemma OldOrNew(r: Record, e: Event, timer: Timer)
    requires e.Sweeps? ==> forall i, j :: 0 <= i < j < |e.rows| ==> e.rows[i].channel != e.rows[j].channel
    ensures WaitsAreOldOrNew(r, Step(r, e), timer)
  {
    match e
    case Sweeps(rows, inFlight, shown) =>
      RebuildSweeps(r, rows, |rows|, inFlight, shown, timer.channel);
      RebuildFrame(r, rows, |rows|, inFlight, shown);
      hide Rebuild, RowOf;
    case Moves(u, from, to) =>
      assert WaitsAreOldOrNew(r, Leave(r, from, u), timer);
      hide Leave;
    case _ =>
  }

  lemma StaleKept(w: World, e: Event, timer: Timer)
    requires Holds(w) && Possible(w, e) && Stale(w.record, timer)
    ensures Stale(Next(w, e).record, timer)
  {
    hide Step;
    OldOrNew(w.record.(serial := w.record.serial + 1), e, timer);
  }

  /** The timer was set, and the wait it was set for is not its channel's any more. */
  predicate Stale(r: Record, timer: Timer) {
    timer in r.timers && !Passes(r, timer)
  }

  /**
   * Over any run, a timer whose wait was cancelled or replaced, or that has gone
   * off, by the first k events is stale after all of them: no wait is ever its
   * own again, and it changes nothing but itself whenever it goes off.
   */
  lemma {:induction false} StaleTimerStaysStale(events: seq<Event>, k: nat, timer: Timer)
    requires Feasible(events) && k <= |events| && Stale(Run(events[..k]).record, timer)
    ensures Stale(Run(events).record, timer)
    ensures GoOff(Run(events).record, timer) == Run(events).record.(armed := Run(events).record.armed - {timer})
    decreases |events|
  {
    if k == |events| {
      assert events[..k] == events;
    } else {
      var rest := events[..|events| - 1];
      assert rest[..k] == events[..k];
      StaleTimerStaysStale(rest, k, timer);
      HoldsReached(rest);
      StaleKept(Run(rest), events[|events| - 1], timer);
    }
  }

  lemma NextRecord(w: World, e: Event)
    ensures Next(w, e).record == Step(w.record.(serial := w.record.serial + 1), e)
  {
    hide Step;
  }
}
