/**
 * Recorder allocation (commands/recording.go, recording_gap.go and
 * recording_stops.go): which recordings count, one a channel and one a
 * recorder, and the enders that race to take each: a member's stop, the cap and
 * disk timers, a gap's limit, the channel checks and the shutdown. Each section
 * under the runtime's lock is one step.
 */
module RecorderAllocations {
  import opened Wrappers

  type Recorder = string
  type Channel = string
  type User = string

  /** A start, and the recording it makes. */
  type Start = nat

  const GAP_LIMIT := 10_000
  const OWN_LEAVE_GRACE := 10_000

  /** A gap, its pointer in the source being the number: no two gaps have the same. */
  datatype Gap = Gap(number: nat, start: int)

  /** Where a recording is: counting from its reservation to its release, except after a cut short. */
  datatype Phase = Joining | Leaving | Receiving | Live | Finishing | ShutDown | CutShort | Over

  datatype Recording = Recording(
    recorder: Recorder, channel: Channel, starter: User, phase: Phase, stopping: bool, gap: Option<Gap>,
    recorderSeen: bool, ownLeaves: int, ownLeaveAt: Option<int>)

  datatype Ender = MemberStop | AutoStop | GapLimit | RecorderLeft | ChannelEmpty | AtShutdown

  /** running maps each busy recorder to its recording; gaps holds every gap that set a limit timer, and whose it is. */
  datatype Record = Record(running: map<Recorder, Start>, recordings: map<Start, Recording>, gaps: map<nat, (Start, int)>, now: int)

  // ---------------------------------------------------------------------------
  // The sections under the lock
  // ---------------------------------------------------------------------------

  function Put(r: Record, s: Start, rec: Recording): Record {
    r.(recordings := r.recordings[s := rec])
  }

  /** The recording counts, its join has returned and no stop has taken it. */
  predicate IsLive(r: Record, s: Start) {
    s in r.recordings && r.recordings[s].recorder in r.running && r.running[r.recordings[s].recorder] == s
    && r.recordings[s].phase.Live? && !r.recordings[s].stopping
  }

  predicate Recorded(r: Record, ch: Channel) {
    exists id :: id in r.running && r.running[id] in r.recordings && r.recordings[r.running[id]].channel == ch
  }

  function Reserve(r: Record, s: Start, id: Recorder, ch: Channel, starter: User): Record {
    Put(r.(running := r.running[id := s]), s, Recording(id, ch, starter, Joining, false, None, false, 0, None))
  }

  /** A recorder is freed, whoever has it. */
  function Release(r: Record, id: Recorder): Record {
    r.(running := r.running - {id})
  }

  /** A stop takes a live recording, which counts on until it is released. */
  function Take(r: Record, s: Start, to: Phase): Record
    requires s in r.recordings
  {
    Put(r, s, r.recordings[s].(stopping := true, phase := to))
  }

  function GapStarted(r: Record, s: Start, since: int, number: nat): Record
    requires s in r.recordings
  {
    var rec := r.recordings[s];
    if rec.stopping || rec.gap.Some? then r
    else Put(r, s, rec.(gap := Some(Gap(number, since)))).(gaps := r.gaps[number := (s, since)])
  }

  function GapEnded(r: Record, s: Start): Record
    requires s in r.recordings
  {
    if r.recordings[s].stopping then r else Put(r, s, r.recordings[s].(gap := None))
  }

  /** The gap has run to its limit unbroken in a recording that counts and that no stop has taken. */
  predicate CutsShort(r: Record, number: nat) {
    number in r.gaps && IsLive(r, r.gaps[number].0)
    && r.recordings[r.gaps[number].0].gap == Some(Gap(number, r.gaps[number].1))
  }

  function GapLimitReached(r: Record, number: nat): Record {
    if !CutsShort(r, number) then r
    else
      var s := r.gaps[number].0;
      Release(Put(r, s, r.recordings[s].(stopping := true, gap := None, phase := CutShort)), r.recordings[s].recorder)
  }

  /** What the state cache shows: who is in which channel, and which of them are bots. */
  datatype Snapshot = Snapshot(channelByUser: map<User, Channel>, bots: set<User>) {
    function ChannelOf(u: User): Channel {
      if u in channelByUser then channelByUser[u] else ""
    }
  }

  predicate HoldsHuman(snap: Snapshot, recorders: seq<Recorder>, ch: Channel) {
    exists u :: u in snap.channelByUser && snap.channelByUser[u] == ch && u !in recorders && u !in snap.bots
  }

  /** A recording after a check of its channel, and how the check ends it, if it does. */
  function Checked(rec: Recording, snap: Snapshot, recorders: seq<Recorder>, leaves: int, now: int): (Recording, Option<Ender>) {
    var recorderIn := snap.ChannelOf(rec.recorder) == rec.channel;
    var seen := rec.(recorderSeen := rec.recorderSeen || recorderIn);
    var told := if leaves > rec.ownLeaves then seen.(ownLeaves := leaves, ownLeaveAt := Some(now)) else seen;
    var leftOnItsOwn := told.ownLeaveAt.Some? && now - told.ownLeaveAt.value < OWN_LEAVE_GRACE;
    if told.recorderSeen && !recorderIn && !leftOnItsOwn then (told.(stopping := true, phase := Finishing), Some(RecorderLeft))
    else if !HoldsHuman(snap, recorders, rec.channel) then (told.(stopping := true, phase := Finishing), Some(ChannelEmpty))
    else (told, None)
  }

  /** Every live recording checked at one moment; the others are left alone. */
  function CheckAll(r: Record, snap: Snapshot, recorders: seq<Recorder>, leaves: map<Start, int>): Record {
    r.(recordings := map s | s in r.recordings ::
      if IsLive(r, s) then Checked(r.recordings[s], snap, recorders, LeavesOf(leaves, s), r.now).0 else r.recordings[s])
  }

  function LeavesOf(leaves: map<Start, int>, s: Start): int {
    if s in leaves then leaves[s] else 0
  }

  function ShutDownAll(r: Record): Record {
    r.(recordings := map s | s in r.recordings ::
      if IsLive(r, s) then r.recordings[s].(stopping := true, phase := ShutDown) else r.recordings[s])
  }

  // ---------------------------------------------------------------------------
  // Runs
  // ---------------------------------------------------------------------------

  /**
   * The record, how often each recording was taken and by which ender, and the
   * gaps whose limit timer has not run yet. A timer runs once; one stopped when its gap ended may
   * have gone off by then, and be waiting for the lock.
   */
  datatype World = World(record: Record, takes: multiset<Start>, ended: map<Start, Ender>, timers: set<nat>)

  const IDLE := World(Record(map[], map[], map[], 0), multiset{}, map[], {})

  datatype Event =
    | Reserves(start: Start, recorder: Recorder, channel: Channel, starter: User)
    | JoinFails(start: Start)
    | StartFails(start: Start)
    | LeftAfterFailing(start: Start)
    | StartsReceiving(start: Start)
    | GoesLive(start: Start)
    | TakenByMember(start: Start)
    | TimerStops(start: Start)
    | ChecksChannels(snap: Snapshot, recorders: seq<Recorder>, leaves: map<Start, int>)
    | HearsGapStart(start: Start, since: int, number: nat)
    | HearsGapEnd(start: Start)
    | LimitTimer(number: nat)
    | ShutsDown
    | LeftAfterStop(start: Start)
    | Ticks(elapsed: nat)

  predicate InPhase(r: Record, s: Start, p: Phase) {
    s in r.recordings && r.recordings[s].phase == p
  }

  /** The listener and the timers of a recording exist from when it starts to receive; a start that failed made none. */
  predicate Made(r: Record, s: Start) {
    && s in r.recordings && !r.recordings[s].phase.Joining? && !r.recordings[s].phase.Leaving?
    && (r.recordings[s].phase.Over? ==> r.recordings[s].stopping)
  }

  predicate Possible(w: World, e: Event) {
    PossibleOn(w.record, e) && (e.LimitTimer? ==> e.number in w.timers)
  }

  predicate PossibleOn(r: Record, e: Event) {
    match e
    case Reserves(s, id, ch, _) => s !in r.recordings && id !in r.running && !Recorded(r, ch)
    case JoinFails(s) => InPhase(r, s, Joining)
    case StartFails(s) => InPhase(r, s, Joining)
    case LeftAfterFailing(s) => InPhase(r, s, Leaving)
    case StartsReceiving(s) => InPhase(r, s, Joining)
    case GoesLive(s) => InPhase(r, s, Receiving)
    case TakenByMember(s) => IsLive(r, s)
    case TimerStops(s) => Made(r, s)
    case ChecksChannels(_, _, _) => true
    case HearsGapStart(s, since, number) => Made(r, s) && since <= r.now && number !in r.gaps
    case HearsGapEnd(s) => Made(r, s)
    case LimitTimer(number) => number in r.gaps && r.now >= r.gaps[number].1 + GAP_LIMIT
    case ShutsDown => true
    case LeftAfterStop(s) => InPhase(r, s, Finishing)
    case Ticks(_) => true
  }

  /** A recording's start fails or ends: its recorder is freed, and its thread is over. */
  function EndThread(r: Record, s: Start): Record
    requires s in r.recordings
  {
    Release(Put(r, s, r.recordings[s].(phase := Over)), r.recordings[s].recorder)
  }

  function StepOf(r: Record, e: Event): Record
    requires PossibleOn(r, e)
  {
    match e
    case Reserves(s, id, ch, starter) => Reserve(r, s, id, ch, starter)
    case JoinFails(s) => EndThread(r, s)
    case StartFails(s) => Put(r, s, r.recordings[s].(phase := Leaving))
    case LeftAfterFailing(s) => EndThread(r, s)
    case StartsReceiving(s) => Put(r, s, r.recordings[s].(phase := Receiving))
    case GoesLive(s) => Put(r.(running := r.running[r.recordings[s].recorder := s]), s, r.recordings[s].(phase := Live))
    case TakenByMember(s) => Take(r, s, Finishing)
    case TimerStops(s) => if IsLive(r, s) then Take(r, s, Finishing) else r
    case ChecksChannels(snap, recorders, leaves) => CheckAll(r, snap, recorders, leaves)
    case HearsGapStart(s, since, number) => GapStarted(r, s, since, number)
    case HearsGapEnd(s) => GapEnded(r, s)
    case LimitTimer(number) => GapLimitReached(r, number)
    case ShutsDown => ShutDownAll(r)
    case LeftAfterStop(s) => EndThread(r, s)
    case Ticks(elapsed) => r.(now := r.now + elapsed)
  }

  /** The ender of each recording a step takes. */
  function EndersOf(r: Record, e: Event): map<Start, Ender>
    requires PossibleOn(r, e)
  {
    match e
    case TakenByMember(s) => map[s := MemberStop]
    case TimerStops(s) => if IsLive(r, s) then map[s := AutoStop] else map[]
    case ChecksChannels(snap, recorders, leaves) =>
      map s | s in r.recordings && IsLive(r, s) && Checked(r.recordings[s], snap, recorders, LeavesOf(leaves, s), r.now).1.Some? ::
        Checked(r.recordings[s], snap, recorders, LeavesOf(leaves, s), r.now).1.value
    case LimitTimer(number) => if CutsShort(r, number) then map[r.gaps[number].0 := GapLimit] else map[]
    case ShutsDown => map s | s in r.recordings && IsLive(r, s) :: AtShutdown
    case _ => map[]
  }

  /** The recordings a step takes: those it sets stopping. */
  function TakenBy(r: Record, e: Event): set<Start>
    requires PossibleOn(r, e)
  {
    match e
    case TakenByMember(s) => {s}
    case TimerStops(s) => if IsLive(r, s) then {s} else {}
    case ChecksChannels(snap, recorders, leaves) =>
      set s | s in r.recordings && IsLive(r, s) && Checked(r.recordings[s], snap, recorders, LeavesOf(leaves, s), r.now).1.Some?
    case LimitTimer(number) => if CutsShort(r, number) then {r.gaps[number].0} else {}
    case ShutsDown => set s | s in r.recordings && IsLive(r, s)
    case _ => {}
  }

  lemma EachTakenByOne(r: Record, e: Event)
    requires PossibleOn(r, e)
    ensures EndersOf(r, e).Keys == TakenBy(r, e)
  {
    hide Checked, IsLive, CutsShort;
  }

  /** A gap that starts sets its timer, and a timer that runs is gone. */
  function TimersAfter(w: World, e: Event): set<nat>
    requires Possible(w, e)
  {
    match e
    case HearsGapStart(s, _, number) =>
      if w.record.recordings[s].stopping || w.record.recordings[s].gap.Some? then w.timers else w.timers + {number}
    case LimitTimer(number) => w.timers - {number}
    case _ => w.timers
  }

  function Next(w: World, e: Event): World
    requires Possible(w, e)
  {
    World(StepOf(w.record, e), w.takes + multiset(TakenBy(w.record, e)), w.ended + EndersOf(w.record, e), TimersAfter(w, e))
  }

  predicate Feasible(events: seq<Event>)
    decreases |events|, 0
  {
    events == [] || (Feasible(events[..|events| - 1]) && Possible(Run(events[..|events| - 1]), events[|events| - 1]))
  }

  function Run(events: seq<Event>): World
    requires Feasible(events)
    decreases |events|, 1
  {
    if events == [] then IDLE else Next(Run(events[..|events| - 1]), events[|events| - 1])
  }

  // ---------------------------------------------------------------------------
  // What holds of every recording
  // ---------------------------------------------------------------------------

  predicate Counts(p: Phase) {
    !p.CutShort? && !p.Over?
  }

  /** A recording counts just while its recorder is busy with it, and was taken once if at all. */
  ghost predicate RecordingHolds(w: World, s: Start) {
    && (s in w.record.recordings ==>
          var rec := w.record.recordings[s];
          && (Counts(rec.phase) <==> rec.recorder in w.record.running && w.record.running[rec.recorder] == s)
          && (rec.phase.Joining? || rec.phase.Leaving? || rec.phase.Receiving? || rec.phase.Live? ==> !rec.stopping)
          && (rec.phase.Finishing? || rec.phase.ShutDown? || rec.phase.CutShort? ==> rec.stopping)
          && (rec.gap.Some? && !rec.stopping ==> rec.phase.Receiving? || rec.phase.Live?)
          && (rec.gap.Some? ==> rec.gap.value.number in w.record.gaps && w.record.gaps[rec.gap.value.number] == (s, rec.gap.value.start)))
    && w.takes[s] == if s in w.record.recordings && w.record.recordings[s].stopping then 1 else 0
  }

  ghost predicate RecorderHolds(r: Record, id: Recorder) {
    id in r.running ==>
      && r.running[id] in r.recordings && r.recordings[r.running[id]].recorder == id
      && forall other :: other in r.running && other != id && r.running[other] in r.recordings ==>
           r.recordings[r.running[other]].channel != r.recordings[r.running[id]].channel
  }

  ghost predicate Holds(w: World) {
    && (forall s :: RecordingHolds(w, s))
    && (forall id :: RecorderHolds(w.record, id))
    && (forall number :: number in w.record.gaps ==> w.record.gaps[number].0 in w.record.recordings)
  }

  /** The recording an event is about, if it is about one. */
  function Subject(r: Record, e: Event): Option<Start>
    requires PossibleOn(r, e)
  {
    match e
    case ChecksChannels(_, _, _) => None
    case LimitTimer(number) => Some(r.gaps[number].0)
    case ShutsDown => None
    case Ticks(_) => None
    case _ => Some(e.start)
  }

  lemma RecordingOf(w: World, s: Start)
    requires Holds(w)
    ensures RecordingHolds(w, s)
  {}

  lemma OthersHold(w: World, e: Event, s: Start)
    requires Holds(w) && Possible(w, e) && !e.ChecksChannels? && !e.ShutsDown? && Subject(w.record, e) != Some(s)
    ensures RecordingHolds(Next(w, e), s)
  {
    hide EndersOf, Holds;
    RecordingOf(w, s);
    if Subject(w.record, e).Some? {
      RecordingOf(w, Subject(w.record, e).value);
    }
  }

  lemma SubjectHolds(w: World, e: Event, s: Start)
    requires Holds(w) && Possible(w, e) && !e.ChecksChannels? && !e.ShutsDown? && Subject(w.record, e) == Some(s)
    ensures RecordingHolds(Next(w, e), s)
  {
    hide EndersOf, Holds;
    RecordingOf(w, s);
  }

  /** A check keeps a recording's place and gap, and sets it stopping just when it takes it. */
  lemma CheckKeeps(rec: Recording, snap: Snapshot, recorders: seq<Recorder>, leaves: int, now: int)
    requires !rec.stopping && rec.phase.Live?
    ensures var (out, end) := Checked(rec, snap, recorders, leaves, now);
            && out.recorder == rec.recorder && out.channel == rec.channel && out.gap == rec.gap
            && (end.Some? <==> out.stopping) && out.phase == if end.Some? then Finishing else Live
  {}

  /** What a check of every channel leaves of a recording. */
  lemma CheckAllKeeps(r: Record, e: Event, s: Start)
    requires e.ChecksChannels? && s in r.recordings
    ensures var n := CheckAll(r, e.snap, e.recorders, e.leaves);
            && s in n.recordings && n.recordings[s].recorder == r.recordings[s].recorder && n.recordings[s].channel == r.recordings[s].channel
            && n.recordings[s].gap == r.recordings[s].gap
            && (s in TakenBy(r, e) ==> IsLive(r, s) && n.recordings[s].stopping && n.recordings[s].phase.Finishing?)
            && (s !in TakenBy(r, e) ==> n.recordings[s].stopping == r.recordings[s].stopping && n.recordings[s].phase == r.recordings[s].phase)
  {
    hide Checked;
    if IsLive(r, s) {
      CheckKeeps(r.recordings[s], e.snap, e.recorders, LeavesOf(e.leaves, s), r.now);
    }
  }

  lemma TakesMore(w: World, e: Event, s: Start)
    requires Possible(w, e)
    ensures Next(w, e).takes[s] == w.takes[s] + if s in TakenBy(w.record, e) then 1 else 0
  {
    hide StepOf, EndersOf, TakenBy, TimersAfter;
  }

  lemma CheckAllFrame(r: Record, e: Event)
    requires e.ChecksChannels?
    ensures var n := CheckAll(r, e.snap, e.recorders, e.leaves);
            n.running == r.running && n.gaps == r.gaps && n.now == r.now && n.recordings.Keys == r.recordings.Keys
    ensures TakenBy(r, e) <= r.recordings.Keys
  {
    hide Checked, IsLive;
  }

  lemma CheckHolds(w: World, e: Event, s: Start)
    requires Holds(w) && Possible(w, e) && e.ChecksChannels?
    ensures RecordingHolds(Next(w, e), s)
  {
    hide Checked, CheckAll, EndersOf, TakenBy, Holds;
    RecordingOf(w, s);
    TakesMore(w, e, s);
    CheckAllFrame(w.record, e);
    if s in w.record.recordings {
      CheckAllKeeps(w.record, e, s);
    }
  }

  lemma ShutdownHolds(w: World, e: Event, s: Start)
    requires Holds(w) && Possible(w, e) && e.ShutsDown?
    ensures RecordingHolds(Next(w, e), s)
  {
    hide EndersOf, Holds;
    RecordingOf(w, s);
    TakesMore(w, e, s);
  }

  /** A recording keeps its recorder and channel. */
  lemma RecordingsKept(w: World, e: Event)
    requires Possible(w, e)
    ensures var r, n := w.record, Next(w, e).record;
            && (forall s :: s in r.recordings ==>
                  s in n.recordings && n.recordings[s].recorder == r.recordings[s].recorder && n.recordings[s].channel == r.recordings[s].channel)
            && (e.Reserves? ==>
                  && e.start in n.recordings
                  && n.recordings[e.start].recorder == e.recorder && n.recordings[e.start].channel == e.channel)
  {
    hide EndersOf, TakenBy;
    if e.ChecksChannels? {
      hide CheckAll;
      CheckAllFrame(w.record, e);
      forall s | s in w.record.recordings {
        CheckAllKeeps(w.record, e, s);
      }
    }
  }

  /** A recorder keeps its recording until it is freed. */
  lemma RunningKept(w: World, e: Event)
    requires Holds(w) && Possible(w, e)
    ensures var r, n := w.record, Next(w, e).record;
            && (forall id :: id in n.running && !(e.Reserves? && id == e.recorder) ==> id in r.running && n.running[id] == r.running[id])
            && (e.Reserves? ==> e.recorder in n.running && n.running[e.recorder] == e.start)
  {
    if Subject(w.record, e).Some? {
      assert RecordingHolds(w, Subject(w.record, e).value);
    }
    hide Checked, Holds;
  }

  lemma RecordersHold(w: World, e: Event, id: Recorder)
    requires Holds(w) && Possible(w, e)
    ensures RecorderHolds(Next(w, e).record, id)
  {
    RecordingsKept(w, e);
    RunningKept(w, e);
    hide Next, Holds;
    forall other
      ensures RecorderHolds(w.record, other)
    {
      RecorderOf(w, other);
    }
    var r, n := w.record, Next(w, e).record;
    assert RecorderHolds(r, id);
    forall other | other in n.running && other != id && id in n.running
      ensures n.running[other] in n.recordings && n.running[id] in n.recordings
      ensures n.recordings[n.running[other]].channel != n.recordings[n.running[id]].channel
    {
      assert RecorderHolds(r, other);
    }
  }

  lemma RecorderOf(w: World, id: Recorder)
    requires Holds(w)
    ensures RecorderHolds(w.record, id)
  {}

  lemma HoldsKept(w: World, e: Event)
    requires Holds(w) && Possible(w, e)
    ensures Holds(Next(w, e))
  {
    forall s: Start
      ensures RecordingHolds(Next(w, e), s)
    {
      if e.ChecksChannels? {
        CheckHolds(w, e, s);
      } else if e.ShutsDown? {
        ShutdownHolds(w, e, s);
      } else if Subject(w.record, e) == Some(s) {
        SubjectHolds(w, e, s);
      } else {
        OthersHold(w, e, s);
      }
    }
    forall id
      ensures RecorderHolds(Next(w, e).record, id)
    {
      RecordersHold(w, e, id);
    }
  }

  lemma {:induction false} HoldsReached(events: seq<Event>)
    requires Feasible(events)
    ensures Holds(Run(events))
    decreases |events|
  {
    if events != [] {
      hide Holds, Next, Possible;
      HoldsReached(events[..|events| - 1]);
      HoldsKept(Run(events[..|events| - 1]), events[|events| - 1]);
    }
  }

  // ---------------------------------------------------------------------------
  // What the allocator promises
  // ---------------------------------------------------------------------------

  /** Over any run, two recordings that count share neither channel nor recorder. */
  lemma OneRecordingCounts(events: seq<Event>, a: Start, b: Start)
    requires Feasible(events)
    requires var recs := Run(events).record.recordings;
             a in recs && b in recs && Counts(recs[a].phase) && Counts(recs[b].phase)
             && (recs[a].channel == recs[b].channel || recs[a].recorder == recs[b].recorder)
    ensures a == b
  {
    HoldsReached(events);
    var w := Run(events);
    assert RecordingHolds(w, a) && RecordingHolds(w, b);
    assert RecorderHolds(w.record, w.record.recordings[a].recorder);
  }

  lemma {:induction false} EndedIsTaken(events: seq<Event>, s: Start)
    requires Feasible(events)
    ensures s in Run(events).ended <==> Run(events).takes[s] > 0
    decreases |events|
  {
    if events != [] {
      hide StepOf, TimersAfter, EndersOf, TakenBy;
      var rest, e := events[..|events| - 1], events[|events| - 1];
      EndedIsTaken(rest, s);
      EachTakenByOne(Run(rest).record, e);
    }
  }

  /** Over any run, a recording is taken by one ender at most, and its flag says whether it has been. */
  lemma TakenOnce(events: seq<Event>, s: Start)
    requires Feasible(events)
    ensures Run(events).takes[s] == if s in Run(events).record.recordings && Run(events).record.recordings[s].stopping then 1 else 0
    ensures s in Run(events).ended <==> Run(events).takes[s] == 1
  {
    HoldsReached(events);
    assert RecordingHolds(Run(events), s);
    EndedIsTaken(events, s);
  }

  lemma ReleasedIsItsOwn(w: World, e: Event)
    requires Holds(w) && Possible(w, e)
    requires e.JoinFails? || e.LeftAfterFailing? || e.LeftAfterStop? || (e.LimitTimer? && CutsShort(w.record, e.number))
    ensures var s := if e.LimitTimer? then w.record.gaps[e.number].0 else e.start;
            && w.record.recordings[s].recorder in w.record.running && w.record.running[w.record.recordings[s].recorder] == s
            && Next(w, e).record.running == w.record.running - {w.record.recordings[s].recorder}
  {
    assert RecordingHolds(w, if e.LimitTimer? then w.record.gaps[e.number].0 else e.start);
  }

  /** Freeing a recorder, after a failed start, a stop or a cut short, never frees it of another recording. */
  lemma ReleaseFreesItsOwn(events: seq<Event>, e: Event)
    requires Feasible(events) && Possible(Run(events), e)
    requires e.JoinFails? || e.LeftAfterFailing? || e.LeftAfterStop? || (e.LimitTimer? && CutsShort(Run(events).record, e.number))
    ensures var r := Run(events).record;
            var s := if e.LimitTimer? then r.gaps[e.number].0 else e.start;
            && r.recordings[s].recorder in r.running && r.running[r.recordings[s].recorder] == s
            && Next(Run(events), e).record.running == r.running - {r.recordings[s].recorder}
  {
    HoldsReached(events);
    hide Feasible, Run;
    ReleasedIsItsOwn(Run(events), e);
  }

  // ---------------------------------------------------------------------------
  // Gaps and their limit
  // ---------------------------------------------------------------------------

  /** The gap no longer runs in a recording that a stop could still be late for. */
  predicate GapOver(r: Record, number: nat) {
    && number in r.gaps && r.gaps[number].0 in r.recordings
    && var rec := r.recordings[r.gaps[number].0];
       rec.gap.None? || rec.gap.value.number != number || rec.stopping
  }

  lemma GapOverKept(w: World, e: Event, number: nat)
    requires Holds(w) && Possible(w, e) && GapOver(w.record, number)
    ensures GapOver(Next(w, e).record, number)
  {
    if e.ChecksChannels? {
      CheckAllKeeps(w.record, e, w.record.gaps[number].0);
    }
    hide Checked, Holds;
  }

  /**
   * Over any run, a gap that has ended, or whose recording a stop has taken,
   * after the first k events is so after all of them, and its timer changes
   * nothing whenever it goes off.
   */
  lemma {:induction false} EndedGapStaysEnded(events: seq<Event>, k: nat, number: nat)
    requires Feasible(events) && k <= |events|
    requires Feasible(events[..k]) && GapOver(Run(events[..k]).record, number)
    ensures GapOver(Run(events).record, number) && GapLimitReached(Run(events).record, number) == Run(events).record
    decreases |events|
  {
    if k == |events| {
      assert events[..k] == events;
    } else {
      var rest := events[..|events| - 1];
      assert rest[..k] == events[..k];
      EndedGapStaysEnded(rest, k, number);
      HoldsReached(rest);
      GapOverKept(Run(rest), events[|events| - 1], number);
    }
    hide Feasible, Run;
  }

  /** A start of the gap was heard, and no end of a gap in its recording since. */
  predicate Unbroken(events: seq<Event>, s: Start, since: int, number: nat) {
    exists j :: 0 <= j < |events| && events[j] == HearsGapStart(s, since, number) && NoGapEnd(events, s, j)
  }

  predicate NoGapEnd(events: seq<Event>, s: Start, j: nat) {
    forall i :: j < i < |events| ==> events[i] != HearsGapEnd(s)
  }

  lemma UnbrokenMore(rest: seq<Event>, e: Event, s: Start, since: int, number: nat)
    ensures Unbroken(rest + [e], s, since, number) <==>
            e == HearsGapStart(s, since, number) || (Unbroken(rest, s, since, number) && e != HearsGapEnd(s))
  {
    var events := rest + [e];
    if e == HearsGapStart(s, since, number) {
      assert events[|rest|] == e && NoGapEnd(events, s, |rest|);
    }
    if Unbroken(rest, s, since, number) && e != HearsGapEnd(s) {
      var j :| 0 <= j < |rest| && rest[j] == HearsGapStart(s, since, number) && NoGapEnd(rest, s, j);
      assert events[j] == rest[j] && NoGapEnd(events, s, j);
    }
    if Unbroken(events, s, since, number) && e != HearsGapStart(s, since, number) {
      var j :| 0 <= j < |events| && events[j] == HearsGapStart(s, since, number) && NoGapEnd(events, s, j);
      assert events[|rest|] == e;
      assert rest[j] == events[j];
      assert NoGapEnd(rest, s, j) by {
        assert forall i :: j < i < |rest| ==> events[i] == rest[i];
      }
    }
  }

  /** In a recording no stop has taken, a gap runs just while its start has been heard and no end since. */
  ghost predicate GapTraced(events: seq<Event>, r: Record, number: nat) {
    number in r.gaps && r.gaps[number].0 in r.recordings && !r.recordings[r.gaps[number].0].stopping ==>
      var (s, since) := r.gaps[number];
      r.recordings[s].gap == Some(Gap(number, since)) <==> Unbroken(events, s, since, number)
  }

  lemma GapTracedNext(rest: seq<Event>, w: World, e: Event, number: nat)
    requires Holds(w) && Possible(w, e) && GapTraced(rest, w.record, number)
    ensures GapTraced(rest + [e], Next(w, e).record, number)
  {
    var r, n := w.record, Next(w, e).record;
    if number in n.gaps {
      var (s, since) := n.gaps[number];
      UnbrokenMore(rest, e, s, since, number);
      RecordingOf(w, s);
      hide Unbroken, Checked, Holds, EndersOf, TakenBy;
      if e.ChecksChannels? && s in r.recordings {
        CheckAllKeeps(r, e, s);
      }
    }
  }

  lemma {:induction false} GapTracedReached(events: seq<Event>, number: nat)
    requires Feasible(events)
    ensures GapTraced(events, Run(events).record, number)
    decreases |events|
  {
    if events != [] {
      hide GapTraced, Next, Possible, Holds;
      var rest, e := events[..|events| - 1], events[|events| - 1];
      assert rest + [e] == events;
      GapTracedReached(rest, number);
      HoldsReached(rest);
      GapTracedNext(rest, Run(rest), e, number);
    }
  }

  /**
   * Over any run, a gap's timer cuts its recording short if and only if the
   * recording is live, so never taken before, and the gap has run unbroken since
   * its start, a full limit ago by then.
   */
  lemma CutShortAfterTheLimit(events: seq<Event>, number: nat)
    requires Feasible(events) && Possible(Run(events), LimitTimer(number))
    ensures var r := Run(events).record;
            var (s, since) := r.gaps[number];
            && (CutsShort(r, number) <==> IsLive(r, s) && Unbroken(events, s, since, number))
            && (CutsShort(r, number) ==> Run(events).takes[s] == 0 && r.now - since >= GAP_LIMIT)
  {
    HoldsReached(events);
    assert RecordingHolds(Run(events), Run(events).record.gaps[number].0);
    GapTracedReached(events, number);
    hide Unbroken;
  }

  // ---------------------------------------------------------------------------
  // Whether a running gap still has its timer
  // ---------------------------------------------------------------------------

  predicate WentOff(events: seq<Event>, number: nat) {
    exists i :: 0 <= i < |events| && events[i] == LimitTimer(number)
  }

  predicate WentLive(events: seq<Event>, s: Start, after: nat) {
    exists j :: after < j < |events| && events[j] == GoesLive(s)
  }

  /** The gap's timer ran before its recording counted. */
  predicate WentOffEarly(events: seq<Event>, number: nat, s: Start) {
    exists i :: 0 <= i < |events| && events[i] == LimitTimer(number) && WentLive(events, s, i)
  }

  lemma LogMore(rest: seq<Event>, e: Event, number: nat, s: Start)
    ensures WentOff(rest + [e], number) <==> WentOff(rest, number) || e == LimitTimer(number)
    ensures WentOffEarly(rest, number, s) ==> WentOffEarly(rest + [e], number, s)
    ensures e == GoesLive(s) && WentOff(rest, number) ==> WentOffEarly(rest + [e], number, s)
  {
    var events := rest + [e];
    assert forall i :: 0 <= i < |rest| ==> events[i] == rest[i];
    assert events[|rest|] == e;
    if WentOffEarly(rest, number, s) {
      var i :| 0 <= i < |rest| && rest[i] == LimitTimer(number) && WentLive(rest, s, i);
      assert events[i] == LimitTimer(number) && WentLive(events, s, i);
    }
    if e == GoesLive(s) && WentOff(rest, number) {
      var i :| 0 <= i < |rest| && rest[i] == LimitTimer(number);
      assert events[i] == LimitTimer(number) && WentLive(events, s, i);
    }
  }

  lemma EarlyWentOff(events: seq<Event>, number: nat, s: Start)
    ensures WentOffEarly(events, number, s) ==> WentOff(events, number)
  {}

  /** A gap's timer is pending until it runs; one that ran while its gap runs on in a live recording ran early. */
  ghost predicate Timed(events: seq<Event>, w: World, number: nat) {
    && (number in w.timers <==> number in w.record.gaps && !WentOff(events, number))
    && (WentOff(events, number) ==> number in w.record.gaps)
    && (CutsShort(w.record, number) && WentOff(events, number) ==> WentOffEarly(events, number, w.record.gaps[number].0))
  }

  lemma TimedNext(rest: seq<Event>, w: World, e: Event, number: nat)
    requires Holds(w) && Possible(w, e) && Timed(rest, w, number)
    ensures Timed(rest + [e], Next(w, e), number)
  {
    var n := Next(w, e).record;
    if number in n.gaps {
      var s := n.gaps[number].0;
      LogMore(rest, e, number, s);
      assert RecordingHolds(w, s);
      if e.ChecksChannels? && s in w.record.recordings {
        CheckAllKeeps(w.record, e, s);
      }
    } else {
      LogMore(rest, e, number, 0);
    }
    hide WentOff, WentOffEarly, Checked, Holds;
  }

  lemma NothingTimed(number: nat)
    ensures Timed([], IDLE, number)
  {}

  lemma {:induction false} TimedReached(events: seq<Event>, number: nat)
    requires Feasible(events)
    ensures Timed(events, Run(events), number)
    decreases |events|
  {
    if events == [] {
      NothingTimed(number);
    } else {
      hide Timed, Next, Possible, Holds;
      var rest, e := events[..|events| - 1], events[|events| - 1];
      assert rest + [e] == events;
      TimedReached(rest, number);
      HoldsReached(rest);
      TimedNext(rest, Run(rest), e, number);
    }
  }

  /** What the timer of a live recording's running gap can still do. */
  ghost predicate GapTimed(events: seq<Event>, w: World, s: Start, g: Gap) {
    && CutsShort(w.record, g.number)
    && (g.number in w.timers <==> !WentOffEarly(events, g.number, s))
    && (w.record.now - g.start >= GAP_LIMIT ==> (Possible(w, LimitTimer(g.number)) <==> !WentOffEarly(events, g.number, s)))
  }

  lemma TimedWhileLive(events: seq<Event>, w: World, s: Start)
    requires Holds(w) && IsLive(w.record, s) && w.record.recordings[s].gap.Some?
    requires Timed(events, w, w.record.recordings[s].gap.value.number)
    ensures GapTimed(events, w, s, w.record.recordings[s].gap.value)
  {
    assert RecordingHolds(w, s);
    EarlyWentOff(events, w.record.recordings[s].gap.value.number, s);
    hide WentOff, WentOffEarly, Holds, RecordingHolds;
  }

  /**
   * Over any run, the gap running in a live recording has its limit timer still
   * to run if and only if that timer did not run before the recording counted;
   * once the limit is over such a timer may run, and it cuts the recording short.
   */
  lemma RunningGapIsTimed(events: seq<Event>, s: Start)
    requires Feasible(events) && IsLive(Run(events).record, s) && Run(events).record.recordings[s].gap.Some?
    ensures GapTimed(events, Run(events), s, Run(events).record.recordings[s].gap.value)
  {
    hide Feasible, Run, Timed, GapTimed, Holds;
    HoldsReached(events);
    TimedReached(events, Run(events).record.recordings[s].gap.value.number);
    TimedWhileLive(events, Run(events), s);
  }

  /** Over any run, a timer that has run never runs again. */
  lemma TimerRunsOnce(events: seq<Event>, k: nat, number: nat)
    requires Feasible(events) && k < |events| && events[k] == LimitTimer(number)
    ensures !Possible(Run(events), LimitTimer(number))
  {
    TimedReached(events, number);
  }

  lemma RunNext(events: seq<Event>, k: nat)
    requires k < |events| && Feasible(events[..k]) && Possible(Run(events[..k]), events[k])
    ensures Feasible(events[..k + 1]) && Run(events[..k + 1]) == Next(Run(events[..k]), events[k])
  {
    assert events[..k + 1][..k] == events[..k];
  }

  const TOLD_LATE := [Reserves(0, "recorder", "channel", "starter"), StartsReceiving(0), Ticks(GAP_LIMIT), HearsGapStart(0, 0, 0),
                      LimitTimer(0), GoesLive(0)]

  predicate Started(w: World, phase: Phase, gap: Option<Gap>) {
    && 0 in w.record.recordings
    && w.record.recordings[0] == Recording("recorder", "channel", "starter", phase, false, gap, false, 0, None)
  }

  lemma ToldLateReceives()
    ensures Feasible(TOLD_LATE[..2])
    ensures var w := Run(TOLD_LATE[..2]);
            Started(w, Receiving, None) && w.record.now == 0 && w.record.gaps == map[] && w.timers == {}
  {
    assert TOLD_LATE[..0] == [] && Feasible([]) && Run([]) == IDLE;
    hide Feasible, Run;
    RunNext(TOLD_LATE, 0);
    RunNext(TOLD_LATE, 1);
  }

  lemma GapToldLate()
    ensures Feasible(TOLD_LATE[..4])
    ensures var w := Run(TOLD_LATE[..4]);
            && Started(w, Receiving, Some(Gap(0, 0))) && w.record.now == GAP_LIMIT
            && 0 in w.record.gaps && w.record.gaps[0] == (0, 0) && w.timers == {0}
  {
    ToldLateReceives();
    hide Feasible, Run;
    RunNext(TOLD_LATE, 2);
    RunNext(TOLD_LATE, 3);
  }

  /** A gap told of once its limit is over, before the recording counts, runs on in the live recording with no timer left. */
  lemma ToldLateRunsOn()
    ensures Feasible(TOLD_LATE)
    ensures var r := Run(TOLD_LATE).record;
            IsLive(r, 0) && r.recordings[0].gap == Some(Gap(0, 0)) && r.now >= GAP_LIMIT && 0 !in Run(TOLD_LATE).timers
  {
    GapToldLate();
    hide Feasible, Run;
    RunNext(TOLD_LATE, 4);
    RunNext(TOLD_LATE, 5);
    assert TOLD_LATE[..6] == TOLD_LATE;
  }
}
