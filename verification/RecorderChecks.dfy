/**
 * The channel checks (commands/recording_stops.go) over a run: which recordings a
 * check ends, and why, by what the checks so far were shown and told.
 */
module RecorderChecks {
  import opened RecorderAllocations
  import opened Wrappers

  // ---------------------------------------------------------------------------
  // What the checks were shown and told
  // ---------------------------------------------------------------------------

  /** The run's last event checks the recording, which is live. */
  predicate ChecksLast(events: seq<Event>, s: Start)
    requires Feasible(events) && events != []
  {
    events[|events| - 1].ChecksChannels? && IsLive(Run(events[..|events| - 1]).record, s)
  }

  /** Some check of the recording was shown the recorder in the channel. */
  predicate SeenInside(events: seq<Event>, s: Start, recorder: Recorder, channel: Channel)
    requires Feasible(events)
    decreases |events|
  {
    events != [] &&
    ((ChecksLast(events, s) && events[|events| - 1].snap.ChannelOf(recorder) == channel)
     || SeenInside(events[..|events| - 1], s, recorder, channel))
  }

  /** The most leaves of its recorder's own any check of the recording was told of. */
  function MostLeavesTold(events: seq<Event>, s: Start): (most: int)
    requires Feasible(events)
    ensures most >= 0
    decreases |events|
  {
    if events == [] then 0
    else
      var before := MostLeavesTold(events[..|events| - 1], s);
      if ChecksLast(events, s) && LeavesOf(events[|events| - 1].leaves, s) > before
      then LeavesOf(events[|events| - 1].leaves, s)
      else before
  }

  /** When a check of the recording was last told of more leaves than any before it. */
  function LastNewLeave(events: seq<Event>, s: Start): Option<int>
    requires Feasible(events)
    decreases |events|
  {
    if events == [] then None
    else
      var rest, e := events[..|events| - 1], events[|events| - 1];
      if ChecksLast(events, s) && LeavesOf(e.leaves, s) > MostLeavesTold(rest, s) then Some(Run(rest).record.now)
      else LastNewLeave(rest, s)
  }

  // ---------------------------------------------------------------------------
  // A recording remembers just that
  // ---------------------------------------------------------------------------

  ghost predicate Remembers(events: seq<Event>, s: Start)
    requires Feasible(events)
  {
    if s in Run(events).record.recordings then
      var rec := Run(events).record.recordings[s];
      && (rec.recorderSeen <==> SeenInside(events, s, rec.recorder, rec.channel))
      && rec.ownLeaves == MostLeavesTold(events, s) && rec.ownLeaveAt == LastNewLeave(events, s)
    else (forall id, ch :: !SeenInside(events, s, id, ch)) && MostLeavesTold(events, s) == 0 && LastNewLeave(events, s) == None
  }

  /** What an event that is no check of the recording leaves of its memory. */
  lemma MemoryKept(w: World, e: Event, s: Start)
    requires Possible(w, e) && !(e.ChecksChannels? && IsLive(w.record, s))
    ensures var r, n := w.record.recordings, Next(w, e).record.recordings;
            && (s in r ==>
                  && s in n && n[s].recorder == r[s].recorder && n[s].channel == r[s].channel
                  && n[s].recorderSeen == r[s].recorderSeen && n[s].ownLeaves == r[s].ownLeaves && n[s].ownLeaveAt == r[s].ownLeaveAt)
            && (s !in r && s in n ==> !n[s].recorderSeen && n[s].ownLeaves == 0 && n[s].ownLeaveAt == None)
  {
    hide EndersOf, TakenBy, Checked;
  }

  /** What a check leaves of a live recording's memory. */
  lemma MemoryChecked(w: World, e: Event, s: Start)
    requires Possible(w, e) && e.ChecksChannels? && IsLive(w.record, s)
    ensures var rec := w.record.recordings[s];
            && s in Next(w, e).record.recordings
            && var now := Next(w, e).record.recordings[s];
               var leaves := LeavesOf(e.leaves, s);
               && now.recorder == rec.recorder && now.channel == rec.channel
               && (now.recorderSeen <==> rec.recorderSeen || e.snap.ChannelOf(rec.recorder) == rec.channel)
               && now.ownLeaves == (if leaves > rec.ownLeaves then leaves else rec.ownLeaves)
               && now.ownLeaveAt == (if leaves > rec.ownLeaves then Some(w.record.now) else rec.ownLeaveAt)
  {
    hide EndersOf, TakenBy, HoldsHuman;
  }

  lemma {:induction false} RemembersReached(events: seq<Event>, s: Start)
    requires Feasible(events)
    ensures Remembers(events, s)
    decreases |events|
  {
    if events != [] {
      hide Next, Possible, IsLive;
      var rest, e := events[..|events| - 1], events[|events| - 1];
      RemembersReached(rest, s);
      if ChecksLast(events, s) {
        LiveIsMade(Run(rest), s);
        MemoryChecked(Run(rest), e, s);
      } else {
        MemoryKept(Run(rest), e, s);
        assert forall id, ch :: SeenInside(events, s, id, ch) <==> SeenInside(rest, s, id, ch);
      }
    }
  }

  lemma LiveIsMade(w: World, s: Start)
    ensures IsLive(w.record, s) ==> s in w.record.recordings
  {}

  // ---------------------------------------------------------------------------
  // Which recordings a check ends
  // ---------------------------------------------------------------------------

  /** Somebody in the channel is neither a recorder nor a bot. */
  ghost predicate HumanIn(snap: Snapshot, recorders: seq<Recorder>, channel: Channel) {
    exists u :: u in snap.channelByUser && snap.channelByUser[u] == channel && u !in recorders && u !in snap.bots
  }

  /** The recorder, seen inside before or now, is not inside, and no check was told of a new leave of its own within the grace. */
  ghost predicate RecorderGone(events: seq<Event>, s: Start, recorder: Recorder, channel: Channel)
    requires Feasible(events) && events != [] && events[|events| - 1].ChecksChannels?
  {
    && SeenInside(events, s, recorder, channel)
    && events[|events| - 1].snap.ChannelOf(recorder) != channel
    && (LastNewLeave(events, s).Some? ==> Run(events[..|events| - 1]).record.now - LastNewLeave(events, s).value >= OWN_LEAVE_GRACE)
  }

  /** What a check makes of a live recording. */
  ghost predicate Judged(w: World, n: World, s: Start, gone: bool, human: bool) {
    && (IsLive(n.record, s) <==> !gone && human)
    && (!IsLive(n.record, s) ==> s in n.ended && n.ended[s] == if gone then RecorderLeft else ChannelEmpty)
  }

  lemma CheckJudges(w: World, e: Event, s: Start)
    requires Holds(w) && Possible(w, e) && e.ChecksChannels? && IsLive(w.record, s)
    ensures var n := Next(w, e);
            && s in n.record.recordings
            && var rec := n.record.recordings[s];
               Judged(w, n, s,
                      rec.recorderSeen && e.snap.ChannelOf(rec.recorder) != rec.channel
                      && (rec.ownLeaveAt.Some? ==> w.record.now - rec.ownLeaveAt.value >= OWN_LEAVE_GRACE),
                      HumanIn(e.snap, e.recorders, rec.channel))
  {
    hide TakenBy, Holds;
  }

  /**
   * Over any run, a check of a live recording ends it for its recorder if and
   * only if the recorder, seen inside by some check of it, is not inside and no
   * check of it was told of a new leave of its own within the grace; else for its
   * channel if and only if nobody there is human. It lives on otherwise.
   */
  lemma ChecksEndTheRightOnes(events: seq<Event>, s: Start)
    requires Feasible(events) && events != [] && ChecksLast(events, s)
    ensures var w, n, e := Run(events[..|events| - 1]), Run(events), events[|events| - 1];
            && s in n.record.recordings
            && var rec := n.record.recordings[s];
               Judged(w, n, s, RecorderGone(events, s, rec.recorder, rec.channel), HumanIn(e.snap, e.recorders, rec.channel))
  {
    hide Next, Possible, Judged, HumanIn, IsLive, Holds;
    var rest := events[..|events| - 1];
    HoldsReached(rest);
    RemembersReached(events, s);
    CheckJudges(Run(rest), events[|events| - 1], s);
  }

  /** After a check, every live recording has somebody human in its channel. */
  lemma LiveHaveHumans(events: seq<Event>, s: Start)
    requires Feasible(events) && events != [] && events[|events| - 1].ChecksChannels? && IsLive(Run(events).record, s)
    ensures var e := events[|events| - 1];
            HumanIn(e.snap, e.recorders, Run(events).record.recordings[s].channel)
  {
    var rest := events[..|events| - 1];
    HoldsReached(rest);
    WasLive(Run(rest), events[|events| - 1], s);
    hide Next, Possible, HumanIn, IsLive, Holds;
    ChecksEndTheRightOnes(events, s);
  }

  lemma WasLive(w: World, e: Event, s: Start)
    requires Possible(w, e) && e.ChecksChannels? && IsLive(Next(w, e).record, s)
    ensures IsLive(w.record, s)
  {
    hide Checked, EndersOf, TakenBy;
  }

  // ---------------------------------------------------------------------------
  // What else ends a recording
  // ---------------------------------------------------------------------------

  /** A live recording lives on through an event unless the event takes it, and a stop, a timer and the shutdown each do. */
  lemma LiveUntilTaken(events: seq<Event>, e: Event, s: Start)
    requires Feasible(events) && Possible(Run(events), e) && IsLive(Run(events).record, s)
    ensures var n := Next(Run(events), e);
            && (IsLive(n.record, s) <==> s !in n.ended)
            && (e == TakenByMember(s) ==> s in n.ended && n.ended[s] == MemberStop)
            && (e == TimerStops(s) ==> s in n.ended && n.ended[s] == AutoStop)
            && (e.ShutsDown? ==> s in n.ended && n.ended[s] == AtShutdown)
            && (s in n.ended ==> e == TakenByMember(s) || e == TimerStops(s) || e.ShutsDown? || e.ChecksChannels? || e.LimitTimer?)
  {
    HoldsReached(events);
    TakenOnce(events, s);
    hide Feasible, Run;
    TakenEnds(Run(events), e, s);
  }

  lemma TakenEnds(w: World, e: Event, s: Start)
    requires Holds(w) && Possible(w, e) && IsLive(w.record, s) && s !in w.ended
    ensures var n := Next(w, e);
            && (IsLive(n.record, s) <==> s !in n.ended)
            && (e == TakenByMember(s) ==> s in n.ended && n.ended[s] == MemberStop)
            && (e == TimerStops(s) ==> s in n.ended && n.ended[s] == AutoStop)
            && (e.ShutsDown? ==> s in n.ended && n.ended[s] == AtShutdown)
            && (s in n.ended ==> e == TakenByMember(s) || e == TimerStops(s) || e.ShutsDown? || e.ChecksChannels? || e.LimitTimer?)
  {
    RecordingOf(w, s);
    if e.ChecksChannels? {
      CheckJudges(w, e, s);
      CheckedIsEnded(w, e, s);
    } else {
      if Subject(w.record, e).Some? {
        RecordingOf(w, Subject(w.record, e).value);
      }
      RecorderOf(w, w.record.recordings[s].recorder);
    }
    hide Holds, TakenBy, Checked;
  }

  lemma CheckedIsEnded(w: World, e: Event, s: Start)
    requires Possible(w, e) && e.ChecksChannels? && IsLive(w.record, s) && s !in w.ended
    ensures s in Next(w, e).ended ==> !IsLive(Next(w, e).record, s)
  {
    hide TakenBy;
  }

  // ---------------------------------------------------------------------------
  // What an end frees
  // ---------------------------------------------------------------------------

  /** A new start may reserve the recorder for the channel. */
  predicate FreeFor(r: Record, id: Recorder, ch: Channel) {
    id !in r.running && !Recorded(r, ch)
  }

  /** Freeing a recording's recorder frees its channel too: no other counts there. */
  lemma FreedForBoth(w: World, s: Start, n: Record)
    requires Holds(w) && s in w.record.recordings
    requires var id := w.record.recordings[s].recorder;
             && id in w.record.running && w.record.running[id] == s && n.running == w.record.running - {id}
    requires n.recordings.Keys == w.record.recordings.Keys
    requires forall other :: other in n.recordings ==> n.recordings[other].channel == w.record.recordings[other].channel
    ensures FreeFor(n, w.record.recordings[s].recorder, w.record.recordings[s].channel)
  {
    RecorderOf(w, w.record.recordings[s].recorder);
    hide Holds;
  }

  lemma FreedByLeaving(w: World, e: Event)
    requires Holds(w) && Possible(w, e) && (e.JoinFails? || e.LeftAfterFailing? || e.LeftAfterStop?)
    ensures var rec := w.record.recordings[e.start]; FreeFor(Next(w, e).record, rec.recorder, rec.channel)
  {
    RecordingOf(w, e.start);
    hide Holds, EndersOf, TakenBy;
    FreedForBoth(w, e.start, Next(w, e).record);
  }

  /** A start that fails after its join leaves, and then its recorder and its channel are free. */
  lemma FailedStartsFree(events: seq<Event>, s: Start)
    requires Feasible(events) && Possible(Run(events), StartFails(s))
    ensures var w := Next(Run(events), StartFails(s));
            && Possible(w, LeftAfterFailing(s))
            && FreeFor(Next(w, LeftAfterFailing(s)).record, w.record.recordings[s].recorder, w.record.recordings[s].channel)
  {
    HoldsReached(events);
    HoldsKept(Run(events), StartFails(s));
    var w := Next(Run(events), StartFails(s));
    assert w.record.recordings[s].phase.Leaving?;
    hide Feasible, Run, Holds;
    FreedByLeaving(w, LeftAfterFailing(s));
  }

  /** A recording a member, a timer or a check takes leaves, and then its recorder and its channel are free. */
  lemma StoppedRecordingsFree(events: seq<Event>, e: Event, s: Start)
    requires Feasible(events) && Possible(Run(events), e) && IsLive(Run(events).record, s)
    requires !IsLive(Next(Run(events), e).record, s) && (e.TakenByMember? || e.TimerStops? || e.ChecksChannels?)
    ensures var w := Next(Run(events), e);
            && Possible(w, LeftAfterStop(s))
            && FreeFor(Next(w, LeftAfterStop(s)).record, w.record.recordings[s].recorder, w.record.recordings[s].channel)
  {
    HoldsReached(events);
    HoldsKept(Run(events), e);
    TakenFinishes(Run(events), e, s);
    hide Feasible, Run, Holds, Next;
    FreedByLeaving(Next(Run(events), e), LeftAfterStop(s));
  }

  lemma TakenFinishes(w: World, e: Event, s: Start)
    requires Holds(w) && Possible(w, e) && IsLive(w.record, s) && !IsLive(Next(w, e).record, s)
    requires e.TakenByMember? || e.TimerStops? || e.ChecksChannels?
    ensures Possible(Next(w, e), LeftAfterStop(s))
  {
    if e.ChecksChannels? {
      CheckAllFrame(w.record, e);
      CheckAllKeeps(w.record, e, s);
      hide Checked, EndersOf, TakenBy, CheckAll;
    }
  }

  /** A recording a gap cuts short is done with at once: its gap is over, and its recorder and its channel are free. */
  lemma CutShortsFree(events: seq<Event>, number: nat)
    requires Feasible(events) && Possible(Run(events), LimitTimer(number)) && CutsShort(Run(events).record, number)
    ensures var w, n := Run(events), Next(Run(events), LimitTimer(number));
            var s := w.record.gaps[number].0;
            && s in n.record.recordings && n.record.recordings[s].gap == None && n.record.recordings[s].stopping
            && s in n.ended && n.ended[s] == GapLimit
            && FreeFor(n.record, w.record.recordings[s].recorder, w.record.recordings[s].channel)
  {
    HoldsReached(events);
    hide Feasible, Run, Holds, TakenBy;
    FreedForBoth(Run(events), Run(events).record.gaps[number].0, Next(Run(events), LimitTimer(number)).record);
  }
}
