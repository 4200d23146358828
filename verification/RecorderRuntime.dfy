/**
 * The recording runtime (commands/recording.go, recording_gap.go and
 * recording_stops.go): which recorder a start takes, whom a stop takes, and the
 * check of every channel, each a section under its lock, proved against the
 * steps of RecorderAllocations.
 */
module RecorderRuntimes {
  import opened RecorderAllocations
  import opened Wrappers

  datatype RecorderState = Online | Offline | Out

  /** Why a start gets no recorder; busy are the channels recorded, in the recorders' order. */
  datatype Refusal = AlreadyRecorded | RecordingOff | NoFreeRecorder(busy: seq<Channel>)

  datatype Reservation = Reserved(recorder: Recorder) | Refused(refusal: Refusal)

  /** The first of the recorders that is free and in the state, if one is. */
  function FirstFree(recorders: seq<Recorder>, running: map<Recorder, Start>, states: Recorder -> RecorderState,
                     wanted: RecorderState): Option<Recorder> {
    if recorders == [] then None
    else if recorders[0] !in running && states(recorders[0]) == wanted then Some(recorders[0])
    else FirstFree(recorders[1..], running, states, wanted)
  }

  /** The channels the busy ones of the recorders record. */
  function BusyChannels(recorders: seq<Recorder>, r: Record): seq<Channel>
    requires forall id :: id in r.running ==> r.running[id] in r.recordings
  {
    if recorders == [] then []
    else
      var rest := BusyChannels(recorders[1..], r);
      if recorders[0] in r.running then [r.recordings[r.running[recorders[0]]].channel] + rest else rest
  }

  /** A free online recorder before a free offline one, each first in the configured order. */
  function Choose(recorders: seq<Recorder>, r: Record, states: Recorder -> RecorderState, ch: Channel): Reservation
    requires forall id :: id in r.running ==> r.running[id] in r.recordings
  {
    var online, offline := FirstFree(recorders, r.running, states, Online), FirstFree(recorders, r.running, states, Offline);
    if Recorded(r, ch) then Refused(AlreadyRecorded)
    else if online.Some? then Reserved(online.value)
    else if offline.Some? then Reserved(offline.value)
    else if BusyChannels(recorders, r) == [] then Refused(RecordingOff)
    else Refused(NoFreeRecorder(BusyChannels(recorders, r)))
  }

  /** A recorder chosen is one a start may reserve. */
  lemma {:induction false} FirstFreeIsFree(recorders: seq<Recorder>, running: map<Recorder, Start>,
                                           states: Recorder -> RecorderState, wanted: RecorderState)
    ensures var id := FirstFree(recorders, running, states, wanted);
            && (id.Some? ==> id.value in recorders && id.value !in running && states(id.value) == wanted)
            && (id.None? ==> forall other :: other in recorders && other !in running ==> states(other) != wanted)
    decreases |recorders|
  {
    if recorders != [] {
      FirstFreeIsFree(recorders[1..], running, states, wanted);
      assert forall other :: other in recorders <==> other == recorders[0] || other in recorders[1..];
    }
  }

  /** What a start is told fits the recorders: a reservation is of a free one, out ones are never taken, and a refusal says none was to be had. */
  lemma ChoiceFits(recorders: seq<Recorder>, r: Record, states: Recorder -> RecorderState, ch: Channel)
    requires forall id :: id in r.running ==> r.running[id] in r.recordings
    ensures var c := Choose(recorders, r, states, ch);
            && (c.Reserved? ==> c.recorder in recorders && c.recorder !in r.running && !states(c.recorder).Out? && !Recorded(r, ch))
            && (c.Reserved? && states(c.recorder).Offline? ==> forall id :: id in recorders && id !in r.running ==> !states(id).Online?)
            && (c.Refused? && !c.refusal.AlreadyRecorded? ==> forall id :: id in recorders ==> id in r.running || states(id).Out?)
            && (c == Refused(AlreadyRecorded) <==> Recorded(r, ch))
            && (c == Refused(RecordingOff) ==> forall id :: id in recorders ==> id !in r.running && states(id).Out?)
            && (c.Refused? && c.refusal.NoFreeRecorder? ==>
                  && (exists id :: id in recorders && id in r.running)
                  && forall other :: other in c.refusal.busy <==> exists id :: id in recorders && id in r.running && r.recordings[r.running[id]].channel == other)
  {
    FirstFreeIsFree(recorders, r.running, states, Online);
    FirstFreeIsFree(recorders, r.running, states, Offline);
    BusyAreRecorded(recorders, r);
    hide FirstFree, BusyChannels, Recorded;
    var busy := BusyChannels(recorders, r);
    if busy != [] {
      assert busy[0] in busy;
    }
  }

  lemma {:induction false} BusyAreRecorded(recorders: seq<Recorder>, r: Record)
    requires forall id :: id in r.running ==> r.running[id] in r.recordings
    ensures forall other :: other in BusyChannels(recorders, r) <==>
              exists id :: id in recorders && id in r.running && r.recordings[r.running[id]].channel == other
    ensures BusyChannels(recorders, r) == [] ==> forall id :: id in recorders ==> id !in r.running
    decreases |recorders|
  {
    if recorders != [] {
      BusyAreRecorded(recorders[1..], r);
      assert forall id :: id in recorders <==> id == recorders[0] || id in recorders[1..];
      var rest := BusyChannels(recorders[1..], r);
      assert forall other :: other in BusyChannels(recorders, r) <==>
          other in rest || (recorders[0] in r.running && other == r.recordings[r.running[recorders[0]]].channel);
    }
  }

  datatype StopResult = Stopping(recording: Start) | NotAllowedToStop | NothingToStop

  /** The live recording of a channel. */
  ghost predicate RunsIn(r: Record, s: Start, ch: Channel) {
    IsLive(r, s) && r.recordings[s].channel == ch
  }

  /** /record stop's rule: the recording of the invoker's channel first, if they may stop it, then one of their own. */
  ghost predicate StopFits(r: Record, invoker: User, here: Channel, holds: bool, result: StopResult) {
    match result
    case Stopping(s) =>
      && IsLive(r, s)
      && (r.recordings[s].starter == invoker || (holds && here != "" && r.recordings[s].channel == here))
      && (forall other :: here != "" && RunsIn(r, other, here) && (holds || r.recordings[other].starter == invoker) ==>
            r.recordings[s].channel == here)
    case NotAllowedToStop =>
      && here != "" && !holds && (exists s :: RunsIn(r, s, here))
      && (forall s :: IsLive(r, s) ==> r.recordings[s].starter != invoker)
    case NothingToStop =>
      && (forall s :: IsLive(r, s) ==> r.recordings[s].starter != invoker)
      && (here != "" ==> forall s :: !RunsIn(r, s, here))
  }

  class RecordingRuntime {
    const recorders: seq<Recorder>
    var running: map<Recorder, Start>
    var recordings: map<Start, Recording>
    var gaps: map<nat, (Start, int)>
    var now: int

    ghost predicate Valid()
      reads this
    {
      forall id :: id in running ==> running[id] in recordings && recordings[running[id]].recorder == id
    }

    ghost function State(): Record
      reads this
    {
      Record(running, recordings, gaps, now)
    }

    constructor (recorders: seq<Recorder>)
      ensures Valid() && State() == Record(map[], map[], map[], 0)
    {
      this.recorders, running, recordings, gaps, now := recorders, map[], map[], map[], 0;
    }

    /** live: its join has returned, and nothing is stopping it. */
    predicate LiveOf(id: Recorder)
      requires Valid() && id in running
      reads this
    {
      recordings[running[id]].phase.Live? && !recordings[running[id]].stopping
    }

    method ReserveRecorder(s: Start, ch: Channel, starter: User, states: Recorder -> RecorderState) returns (result: Reservation)
      requires Valid() && s !in recordings
      modifies `running, `recordings
      ensures Valid() && result == Choose(recorders, old(State()), states, ch)
      ensures State() == if result.Reserved? then Reserve(old(State()), s, result.recorder, ch, starter) else old(State())
    {
      var left := running.Keys;
      while left != {}
        invariant left <= running.Keys
        invariant forall id :: id in running && id !in left ==> recordings[running[id]].channel != ch
        invariant unchanged(this)
        decreases |left|
      {
        var id :| id in left;
        left := left - {id};
        if recordings[running[id]].channel == ch {
          return Refused(AlreadyRecorded);
        }
      }
      assert !Recorded(State(), ch);
      var busy: seq<Channel> := [];
      var offline: Option<Recorder> := None;
      for i := 0 to |recorders|
        invariant unchanged(this)
        invariant BusyChannels(recorders, State()) == busy + BusyChannels(recorders[i..], State())
        invariant FirstFree(recorders, running, states, Online) == FirstFree(recorders[i..], running, states, Online)
        invariant FirstFree(recorders, running, states, Offline) ==
                  if offline.Some? then offline else FirstFree(recorders[i..], running, states, Offline)
      {
        var id := recorders[i];
        assert recorders[i..][0] == id && recorders[i..][1..] == recorders[i + 1..];
        if id in running {
          busy := busy + [recordings[running[id]].channel];
        } else if states(id).Online? {
          ReserveLocked(s, id, ch, starter);
          return Reserved(id);
        } else if states(id).Offline? && offline.None? {
          offline := Some(id);
        }
      }
      assert recorders[|recorders|..] == [] && busy + [] == busy;
      if offline.Some? {
        ReserveLocked(s, offline.value, ch, starter);
        return Reserved(offline.value);
      }
      if |busy| == 0 {
        return Refused(RecordingOff);
      }
      return Refused(NoFreeRecorder(busy));
    }

    method ReserveLocked(s: Start, id: Recorder, ch: Channel, starter: User)
      requires Valid() && s !in recordings
      modifies `running, `recordings
      ensures Valid() && State() == Reserve(old(State()), s, id, ch, starter)
    {
      running := running[id := s];
      recordings := recordings[s := Recording(id, ch, starter, Joining, false, None, false, 0, None)];
    }

    /** Which recording a member's stop takes; here is the channel they are in, empty for none. */
    method Stop(invoker: User, here: Channel, holds: bool) returns (result: StopResult)
      requires Valid()
      requires forall a, b :: a in running && b in running && a != b ==> recordings[running[a]].channel != recordings[running[b]].channel
      modifies `recordings
      ensures StopFits(old(State()), invoker, here, holds, result)
      ensures State() == if result.Stopping? then Take(old(State()), result.recording, Finishing) else old(State())
    {
      var hereRec: Option<Start> := None;
      var ownRec: Option<Start> := None;
      var left := running.Keys;
      while left != {}
        invariant left <= running.Keys && unchanged(this)
        invariant hereRec.Some? ==> here != "" && RunsIn(State(), hereRec.value, here)
        invariant hereRec.None? && here != "" ==> forall id :: id in running && id !in left && LiveOf(id) ==> recordings[running[id]].channel != here
        invariant ownRec.Some? ==> IsLive(State(), ownRec.value) && recordings[ownRec.value].starter == invoker
        invariant ownRec.None? ==> forall id :: id in running && id !in left && LiveOf(id) ==> recordings[running[id]].starter != invoker
        decreases |left|
      {
        var id :| id in left;
        left := left - {id};
        if LiveOf(id) {
          if here != "" && recordings[running[id]].channel == here {
            hereRec := Some(running[id]);
          }
          if recordings[running[id]].starter == invoker {
            ownRec := Some(running[id]);
          }
        }
      }
      if hereRec.Some? && (recordings[hereRec.value].starter == invoker || holds) {
        result := Stopping(hereRec.value);
      } else if ownRec.Some? {
        result := Stopping(ownRec.value);
      } else if hereRec.Some? {
        return NotAllowedToStop;
      } else {
        return NothingToStop;
      }
      recordings := recordings[result.recording := recordings[result.recording].(stopping := true, phase := Finishing)];
    }

    /** A timer's stop, or a channel delete's: it takes the recording unless it counts no more or a stop has it. */
    method AutoStop(s: Start) returns (took: bool)
      requires Valid() && s in recordings && (s in running.Values ==> recordings[s].recorder in running)
      modifies `recordings
      ensures took <==> IsLive(old(State()), s)
      ensures State() == if took then Take(old(State()), s, Finishing) else old(State())
    {
      var rec := recordings[s];
      if rec.stopping || rec.recorder !in running || running[rec.recorder] != s || !rec.phase.Live? {
        return false;
      }
      recordings := recordings[s := rec.(stopping := true, phase := Finishing)];
      return true;
    }

    /** The voice adapter tells of a gap since a moment, maybe long past; timed says whether its limit timer is set. */
    method GapStarted(s: Start, since: int, number: nat) returns (timed: bool)
      requires s in recordings
      modifies `recordings, `gaps
      ensures State() == RecorderAllocations.GapStarted(old(State()), s, since, number)
      ensures timed <==> !old(recordings)[s].stopping && old(recordings)[s].gap.None?
    {
      var rec := recordings[s];
      if rec.stopping || rec.gap.Some? {
        return false;
      }
      recordings := recordings[s := rec.(gap := Some(Gap(number, since)))];
      gaps := gaps[number := (s, since)];
      return true;
    }

    method GapEnded(s: Start)
      requires s in recordings
      modifies `recordings
      ensures State() == RecorderAllocations.GapEnded(old(State()), s)
    {
      var rec := recordings[s];
      if rec.stopping {
        return;
      }
      recordings := recordings[s := rec.(gap := None)];
    }

    method GapLimitReached(number: nat) returns (cut: bool)
      requires Valid() && number in gaps && gaps[number].0 in recordings
      modifies `running, `recordings
      ensures State() == RecorderAllocations.GapLimitReached(old(State()), number) && (cut <==> CutsShort(old(State()), number))
    {
      var s := gaps[number].0;
      var rec := recordings[s];
      if rec.stopping || rec.gap != Some(Gap(number, gaps[number].1)) || rec.recorder !in running || running[rec.recorder] != s || !rec.phase.Live? {
        return false;
      }
      recordings := recordings[s := rec.(stopping := true, gap := None, phase := CutShort)];
      running := running - {rec.recorder};
      return true;
    }

    /** A recording checked, the ender that takes it, if one does, and whether a leave of its own has it checked again later. */
    method CheckOne(rec: Recording, snap: Snapshot, leaves: int) returns (out: Recording, end: Option<Ender>, recheck: bool)
      ensures (out, end) == Checked(rec, snap, recorders, leaves, now) && out.recorder == rec.recorder
      ensures recheck <==> leaves > rec.ownLeaves
    {
      out := rec;
      recheck := false;
      var recorderIn := snap.ChannelOf(rec.recorder) == rec.channel;
      if recorderIn {
        out := out.(recorderSeen := true);
      }
      if leaves > rec.ownLeaves {
        out := out.(ownLeaves := leaves, ownLeaveAt := Some(now));
        recheck := true;
      }
      var leftOnItsOwn := out.ownLeaveAt.Some? && now - out.ownLeaveAt.value < OWN_LEAVE_GRACE;
      if out.recorderSeen && !recorderIn && !leftOnItsOwn {
        return out.(stopping := true, phase := Finishing), Some(RecorderLeft), recheck;
      }
      var human := HoldsHuman(snap, recorders, rec.channel);
      if !human {
        return out.(stopping := true, phase := Finishing), Some(ChannelEmpty), recheck;
      }
      return out, None, recheck;
    }

    /**
     * Every live recording checked at one moment, those the check takes, each
     * with why, and those whose recorder left on its own since, each checked
     * again once its grace is over.
     */
    method CheckChannels(snap: Snapshot, leaves: map<Start, int>) returns (stops: map<Start, Ender>, rechecks: set<Start>)
      requires Valid()
      modifies `recordings
      ensures State() == CheckAll(old(State()), snap, recorders, leaves)
      ensures forall s :: StopsAt(old(State()), snap, recorders, leaves, {}, stops, s)
      ensures forall s :: s in rechecks <==> RechecksAt(old(State()), leaves, {}, s)
    {
      hide Checked, StopsAt, ChecksAt;
      rechecks := {};
      ghost var before := State();
      stops := map[];
      var left := running.Keys;
      NothingChecked(before, snap, recorders, leaves);
      while left != {}
        invariant left <= running.Keys && Valid()
        invariant forall s :: ChecksAt(before, snap, recorders, leaves, left, recordings, s)
        invariant forall s :: StopsAt(before, snap, recorders, leaves, left, stops, s)
        invariant forall s :: s in rechecks <==> RechecksAt(before, leaves, left, s)
        decreases |left|
      {
        var id :| id in left;
        var s := running[id];
        ghost var recordingsWas, stopsWas := recordings, stops;
        assert ChecksAt(before, snap, recorders, leaves, left, recordings, s);
        NotYet(before, snap, recorders, leaves, left, recordings, s);
        if recordings[s].phase.Live? && !recordings[s].stopping {
          var rec, end, recheck := CheckOne(recordings[s], snap, LeavesOf(leaves, s));
          rechecks := if recheck then rechecks + {s} else rechecks;
          recordings := recordings[s := rec];
          if end.Some? {
            stops := stops[s := end.value];
          }
        }
        forall other: Start
          ensures ChecksAt(before, snap, recorders, leaves, left - {id}, recordings, other)
          ensures StopsAt(before, snap, recorders, leaves, left - {id}, stops, other)
        {
          assert ChecksAt(before, snap, recorders, leaves, left, recordingsWas, other);
          assert StopsAt(before, snap, recorders, leaves, left, stopsWas, other);
          OneChecked(before, snap, recorders, leaves, left, id, recordingsWas, stopsWas, recordings, stops, other);
        }
        left := left - {id};
      }
      AllChecked(before, snap, recorders, leaves, left, recordings);
    }
  }

  // ---------------------------------------------------------------------------
  // The check, recorder by recorder
  // ---------------------------------------------------------------------------

  /** The check has come to the recording, those in left being still to come. */
  predicate Due(r: Record, left: set<Recorder>, s: Start) {
    IsLive(r, s) && r.recordings[s].recorder !in left
  }

  ghost predicate ChecksAt(r: Record, snap: Snapshot, recorders: seq<Recorder>, leaves: map<Start, int>, left: set<Recorder>,
                           recordings: map<Start, Recording>, s: Start) {
    && (s in recordings <==> s in r.recordings)
    && (s in recordings ==>
          recordings[s] == if Due(r, left, s) then Checked(r.recordings[s], snap, recorders, LeavesOf(leaves, s), r.now).0 else r.recordings[s])
  }

  /** The check stops just the recordings its rule takes, each for its reason. */
  ghost predicate StopsAt(r: Record, snap: Snapshot, recorders: seq<Recorder>, leaves: map<Start, int>, left: set<Recorder>,
                          stops: map<Start, Ender>, s: Start) {
    if Due(r, left, s) then
      var end := Checked(r.recordings[s], snap, recorders, LeavesOf(leaves, s), r.now).1;
      (s in stops <==> end.Some?) && (s in stops ==> Some(stops[s]) == end)
    else s !in stops
  }

  predicate RechecksAt(r: Record, leaves: map<Start, int>, left: set<Recorder>, s: Start) {
    Due(r, left, s) && LeavesOf(leaves, s) > r.recordings[s].ownLeaves
  }

  lemma NothingChecked(r: Record, snap: Snapshot, recorders: seq<Recorder>, leaves: map<Start, int>)
    ensures forall s :: ChecksAt(r, snap, recorders, leaves, r.running.Keys, r.recordings, s)
    ensures forall s :: StopsAt(r, snap, recorders, leaves, r.running.Keys, map[], s)
  {}

  lemma NotYet(r: Record, snap: Snapshot, recorders: seq<Recorder>, leaves: map<Start, int>, left: set<Recorder>,
               recordings: map<Start, Recording>, s: Start)
    requires s in r.recordings && r.recordings[s].recorder in left && ChecksAt(r, snap, recorders, leaves, left, recordings, s)
    ensures s in recordings && recordings[s] == r.recordings[s]
  {}

  lemma OneChecked(r: Record, snap: Snapshot, recorders: seq<Recorder>, leaves: map<Start, int>, left: set<Recorder>, id: Recorder,
                   recordings: map<Start, Recording>, stops: map<Start, Ender>,
                   recordingsNow: map<Start, Recording>, stopsNow: map<Start, Ender>, s: Start)
    requires id in left && id in r.running && r.running[id] in r.recordings && r.recordings[r.running[id]].recorder == id
    requires ChecksAt(r, snap, recorders, leaves, left, recordings, s) && StopsAt(r, snap, recorders, leaves, left, stops, s)
    requires var t := r.running[id];
             var (rec, end) := Checked(r.recordings[t], snap, recorders, LeavesOf(leaves, t), r.now);
             if IsLive(r, t)
             then recordingsNow == recordings[t := rec] && stopsNow == if end.Some? then stops[t := end.value] else stops
             else recordingsNow == recordings && stopsNow == stops
    ensures ChecksAt(r, snap, recorders, leaves, left - {id}, recordingsNow, s)
    ensures StopsAt(r, snap, recorders, leaves, left - {id}, stopsNow, s)
  {
    hide Checked;
  }

  lemma AllChecked(r: Record, snap: Snapshot, recorders: seq<Recorder>, leaves: map<Start, int>, left: set<Recorder>,
                   recordings: map<Start, Recording>)
    requires left == {} && forall s :: ChecksAt(r, snap, recorders, leaves, left, recordings, s)
    ensures recordings == CheckAll(r, snap, recorders, leaves).recordings
  {
    forall s: Start
      ensures s in recordings <==> s in r.recordings
      ensures s in recordings ==>
                recordings[s] == if IsLive(r, s) then Checked(r.recordings[s], snap, recorders, LeavesOf(leaves, s), r.now).0 else r.recordings[s]
    {
      assert ChecksAt(r, snap, recorders, leaves, left, recordings, s);
    }
    hide Checked;
  }
}
