/**
 * A recording's tracks together, and what startup recovery makes of the files
 * they leave (commands/recording_tracks.go, commands/recording_recovery.go).
 */
module RecordingRecoveries {
  import opened Bytes
  import opened OggPages
  import opened OggStreams
  import opened OpusTracks
  import opened Wrappers

  /** The longest a recording runs: 6 hours. */
  const RECORDING_CAP := 21_600_000_000_000

  type UserID = string

  // ---------------------------------------------------------------------------
  // Time and samples
  // ---------------------------------------------------------------------------

  /** Integer division as Go does it, toward zero. */
  function Quotient(a: int, b: int): int
    requires b > 0
  {
    if a >= 0 then a / b else -(-a / b)
  }

  /** samplesAt: how many samples into the recording a time in nanoseconds from its start is. */
  function SamplesAt(ns: int): int {
    Quotient(ns * 48000, 1_000_000_000)
  }

  /** How long after its start recovery says a recording stopped, in nanoseconds held in 64 bits. */
  function RecoveredAfter(longest: nat): int {
    Quotient(Int64(Int64(longest) * 1_000_000_000), 48000)
  }

  /** A time in nanoseconds and the one recovered for it, which is no later and less than a sample earlier. */
  ghost predicate WithinOneSample(ns: int, recovered: int) {
    recovered <= ns && 48000 * (ns - recovered) < 1_000_000_000
  }

  /** A time read back from its sample is less than a sample early, and the 64 bits hold it. */
  lemma SampleTimeRoundTrip(ns: int)
    requires 0 <= ns <= RECORDING_CAP
    ensures 0 <= SamplesAt(ns) < UINT64 / 8
    ensures WithinOneSample(ns, RecoveredAfter(SamplesAt(ns)))
  {
    var s := SamplesAt(ns);
    NoWrap(s);
    NoWrap(s * 1_000_000_000);
    assert s * 1_000_000_000 / 48000 == s * 62500 / 3;
    assert s == ns * 3 / 62500;
  }

  // ---------------------------------------------------------------------------
  // The tracks of one recording
  // ---------------------------------------------------------------------------

  datatype Tracks = Tracks(bySpeaker: map<UserID, Track>, closed: bool)

  const XOR_PRIME: bv32 := 16777619

  /** The 32-bit FNV-1a hash of a user ID, which is their stream's serial. */
  function Fnv32a(s: string): bv32
    decreases |s|
  {
    if s == [] then 2166136261 else (Fnv32a(s[..|s| - 1]) ^ ((s[|s| - 1] as int % 256) as bv32)) * XOR_PRIME
  }

  function SerialOf(user: UserID): (n: nat)
    ensures n < UINT32
  {
    Fnv32a(user) as int
  }

  /** write: a frame that arrived, at a time from the recording's start, goes to its speaker's track. */
  function WriteFrame(ts: Tracks, user: UserID, f: Frame, arrival: int): Tracks {
    if ts.closed then ts
    else
      var t := if user in ts.bySpeaker then ts.bySpeaker[user] else NewTrack(SerialOf(user));
      ts.(bySpeaker := ts.bySpeaker[user := Place(t, f, SamplesAt(arrival))])
  }

  /** flush: every track's pages go out. */
  function FlushTracks(ts: Tracks): Tracks {
    if ts.closed then ts
    else ts.(bySpeaker := map user | user in ts.bySpeaker :: FlushTrack(ts.bySpeaker[user]))
  }

  datatype Heard = Hear(user: UserID, f: Frame, arrival: int) | FlushAll

  function Record(events: seq<Heard>): Tracks
    decreases |events|
  {
    if events == [] then Tracks(map[], false)
    else
      var before := Record(events[..|events| - 1]);
      match events[|events| - 1]
      case Hear(user, f, arrival) => WriteFrame(before, user, f, arrival)
      case FlushAll => FlushTracks(before)
  }

  ghost predicate Plausible(events: seq<Heard>) {
    && |events| <= MOST_EVENTS
    && forall i :: 0 <= i < |events| ==> PlausibleEvent(events[i])
  }

  ghost predicate PlausibleEvent(e: Heard) {
    e.Hear? ==> OrdinaryFrame(e.f, SamplesAt(e.arrival)) && |e.f.opus| <= MAX_PACKET
  }

  /** A track the recording keeps: within reach of its last arrival, every packet small enough for a page. */
  ghost predicate Kept(t: Track, limit: nat) {
    && Within(t, limit)
    && t.serial < UINT32
    && forall i :: 0 <= i < |t.ops| ==> FitsAPage(t.ops[i])
  }

  lemma {:induction false} RecordKeeps(events: seq<Heard>)
    requires Plausible(events)
    ensures !Record(events).closed
    ensures forall u :: u in Record(events).bySpeaker ==> Kept(Record(events).bySpeaker[u], Reach(|events|))
    decreases |events|
  {
    if events != [] {
      var n := |events| - 1;
      var e := events[n];
      var before := Record(events[..n]);
      var after := Record(events);
      RecordKeeps(events[..n]);
      ReachGrows(n);
      forall u | u in after.bySpeaker ensures Kept(after.bySpeaker[u], Reach(|events|)) {
        match e {
          case Hear(user, f, arrival) =>
            assert PlausibleEvent(e);
            if u == user {
              var t := if user in before.bySpeaker then before.bySpeaker[user] else NewTrack(SerialOf(user));
              KeptPlaced(t, f, SamplesAt(arrival), Reach(n));
            }
          case FlushAll => KeptFlushed(before.bySpeaker[u], Reach(n));
        }
      }
    }
  }

  /** What a speaker's track hears of the recording: their own frames, and the flushes from their first one on. */
  function HeardBy(events: seq<Heard>, user: UserID): seq<Event>
    decreases |events|
  {
    if events == [] then []
    else
      var before := HeardBy(events[..|events| - 1], user);
      match events[|events| - 1]
      case Hear(u, f, arrival) => if u == user then before + [Arrive(f, SamplesAt(arrival))] else before
      case FlushAll => if before == [] then [] else before + [FlushTick]
  }

  /** Each speaker has a track once they are heard, and it is the run of their own frames and the flushes. */
  lemma {:induction false} TracksAreTheirOwn(events: seq<Heard>, user: UserID)
    ensures !Record(events).closed
    ensures user in Record(events).bySpeaker <==> HeardBy(events, user) != []
    ensures user in Record(events).bySpeaker ==>
              Record(events).bySpeaker[user] == Live(NewTrack(SerialOf(user)), HeardBy(events, user))
    decreases |events|
  {
    if events != [] {
      hide Place, FlushTrack, SerialOf, SamplesAt;
      var rest := events[..|events| - 1];
      TracksAreTheirOwn(rest, user);
      var before, now := HeardBy(rest, user), HeardBy(events, user);
      if now != before {
        assert now[..|before|] == before;
      }
    }
  }

  lemma KeptPlaced(t: Track, f: Frame, wallClock: int, limit: nat)
    requires Kept(t, limit) && HORIZON + MAX_RTP_DRIFT <= limit
    requires limit + HORIZON + MAX_SAMPLES + MAX_RTP_DRIFT < UINT64 / 8
    requires OrdinaryFrame(f, wallClock) && |f.opus| <= MAX_PACKET
    ensures Kept(Place(t, f, wallClock), limit + MAX_SAMPLES)
  {
    PlaceStep(t, f, wallClock, limit);
    hide GapBefore, OpusPacketSamples, Within;
  }

  lemma KeptFlushed(t: Track, limit: nat)
    requires Kept(t, limit)
    ensures Kept(FlushTrack(t), limit + MAX_SAMPLES)
  {
    SamplesSplit(t.ops, [FlushPage]);
    assert [FlushPage][1..] == [];
    assert Samples([FlushPage]) == 0;
  }

  /** The file a track closed at a stop leaves. */
  function FileOf(t: Track, stop: int): seq<byte> {
    EncodeAll(EndedStream(t, SamplesAt(stop)).pages)
  }

  // ---------------------------------------------------------------------------
  // Recovery
  // ---------------------------------------------------------------------------

  /** A directory entry, with its content, or None for a file that cannot be read. */
  datatype Entry = Entry(name: string, isDir: bool, content: Option<seq<byte>>)

  datatype Speaker = Speaker(id: UserID, trackLost: bool)

  const SUFFIX := ".ogg"

  predicate IsTrack(e: Entry) {
    !e.isDir && |e.name| >= 4 && e.name[|e.name| - 4..] == SUFFIX
  }

  function SpeakerID(e: Entry): UserID
    requires IsTrack(e)
  {
    e.name[..|e.name| - 4]
  }

  predicate Readable(e: Entry) {
    IsTrack(e) && e.content.Some?
  }

  /** How far a readable track runs. */
  function TrackEnd(e: Entry): nat
    requires Readable(e)
  {
    StreamEndFrom(e.content.value, 0)
  }

  /** Everyone with a readable track, in the directory's order, their track lost when it holds no audio. */
  function Speakers(entries: seq<Entry>): seq<Speaker>
    decreases |entries|
  {
    if entries == [] then []
    else
      var n := |entries| - 1;
      Speakers(entries[..n])
      + (if Readable(entries[n]) then [Speaker(SpeakerID(entries[n]), TrackEnd(entries[n]) == 0)] else [])
  }

  /** The length of the longest readable track, 0 for none. */
  ghost predicate IsLongest(entries: seq<Entry>, longest: nat) {
    && (forall i :: 0 <= i < |entries| && Readable(entries[i]) ==> TrackEnd(entries[i]) <= longest)
    && (longest == 0 || exists i :: 0 <= i < |entries| && Readable(entries[i]) && TrackEnd(entries[i]) == longest)
  }

  predicate IsSilent(e: Entry) {
    Readable(e) && TrackEnd(e) == 0
  }

  /**
   * Of a stream cut after any of its bytes, a file is silent if and only if every
   * page wholly in it ends at 0: with no page of audio whole, or none that lasts.
   */
  lemma SilentHoldsNoAudio(e: Entry, serial: nat, ops: seq<Op>, closedAt: Option<nat>, k: nat)
    requires serial < UINT32 && (closedAt.Some? ==> closedAt.value < UINT64)
    requires Samples(ops) < UINT64 && forall i :: 0 <= i < |ops| ==> FitsAPage(ops[i])
    requires k <= |EncodeAll(Left(serial, ops, closedAt).pages)|
    requires IsTrack(e) && e.content == Some(EncodeAll(Left(serial, ops, closedAt).pages)[..k])
    ensures var pages := Left(serial, ops, closedAt).pages;
            var whole := WholePages(pages, k);
            && whole <= |pages|
            && (IsSilent(e) <==> forall i :: 0 <= i < whole ==> pages[i].granule == 0)
            && (whole <= 2 ==> IsSilent(e))
  {
    CrashTruncation(serial, ops, closedAt, k);
    LeftRises(serial, ops, closedAt);
    hide Left, EncodeAll, StreamEndFrom;
    LastIsLargest(Left(serial, ops, closedAt).pages, WholePages(Left(serial, ops, closedAt).pages, k));
  }

  lemma LeftRises(serial: nat, ops: seq<Op>, closedAt: Option<nat>)
    requires Samples(ops) < UINT64
    ensures Rising(Left(serial, ops, closedAt).pages)
  {
    StartsInStep(serial);
    RunInStep(NewWriter(serial), ops);
    if closedAt.Some? {
      CloseEnds(Run(NewWriter(serial), ops), closedAt.value);
    }
    hide NewWriter, Run;
  }

  /** Of rising pages the last of the first n is 0 just when they all are. */
  lemma LastIsLargest(pages: seq<Page>, n: nat)
    requires Rising(pages) && n <= |pages|
    ensures LastGranule(pages[..n], 0) == 0 <==> forall i :: 0 <= i < n ==> pages[i].granule == 0
  {
    if n > 0 {
      assert LastGranule(pages[..n], 0) == pages[n - 1].granule;
    }
  }

  /** The names of the readable tracks that hold no audio, but those whose removal fails. */
  function Removed(entries: seq<Entry>, stuck: set<string>): seq<string>
    decreases |entries|
  {
    if entries == [] then []
    else
      var n := |entries| - 1;
      Removed(entries[..n], stuck) + (if IsSilent(entries[n]) && entries[n].name !in stuck then [entries[n].name] else [])
  }

  /** The tracks that could not be read, and the silent ones that could not be removed. */
  function Failures(entries: seq<Entry>, stuck: set<string>): nat
    decreases |entries|
  {
    if entries == [] then 0
    else
      var n := |entries| - 1;
      var e := entries[n];
      Failures(entries[..n], stuck) + (if IsTrack(e) && (e.content.None? || (IsSilent(e) && e.name in stuck)) then 1 else 0)
  }

  /** A recording's directory as it lists; a missing one had no track opened in it. */
  datatype Directory = Missing | Unlisted | Listed(entries: seq<Entry>)

  /** stuck are the files whose removal fails, removed those it takes away, and errors counts what went wrong. */
  method KeepAudioTracks(dir: Directory, stuck: set<string>)
    returns (heard: seq<Speaker>, longest: nat, removed: seq<string>, errors: nat)
    ensures !dir.Listed? ==> heard == [] && longest == 0 && removed == [] && errors == if dir.Missing? then 0 else 1
    ensures dir.Listed? ==> heard == Speakers(dir.entries) && IsLongest(dir.entries, longest)
    ensures dir.Listed? ==> removed == Removed(dir.entries, stuck) && errors == Failures(dir.entries, stuck)
  {
    hide StreamEndFrom, IsLongest;
    heard, longest, removed, errors := [], 0, [], 0;
    if dir.Missing? {
      return;
    }
    if dir.Unlisted? {
      return heard, longest, removed, 1;
    }
    var entries := dir.entries;
    NoneLongest();
    for k := 0 to |entries|
      invariant heard == Speakers(entries[..k])
      invariant IsLongest(entries[..k], longest)
      invariant removed == Removed(entries[..k], stuck)
      invariant errors == Failures(entries[..k], stuck)
    {
      var e := entries[k];
      assert entries[..k + 1] == entries[..k] + [e];
      assert entries[..k + 1][..k] == entries[..k];
      ghost var before := longest;
      if IsTrack(e) {
        if e.content.None? {
          errors := errors + 1;
        } else {
          var end := OggStreamEnd(e.content.value);
          if end == 0 {
            heard := heard + [Speaker(SpeakerID(e), true)];
            if e.name in stuck {
              errors := errors + 1;
            } else {
              removed := removed + [e.name];
            }
          } else {
            heard := heard + [Speaker(SpeakerID(e), false)];
            longest := Max(longest, end);
          }
        }
      }
      LongestGrows(entries[..k], e, before, longest);
    }
    assert entries[..|entries|] == entries;
  }

  lemma NoneLongest()
    ensures IsLongest([], 0)
  {
  }

  lemma LongestGrows(entries: seq<Entry>, e: Entry, before: nat, longest: nat)
    requires IsLongest(entries, before)
    requires longest == if Readable(e) then Max(before, TrackEnd(e)) else before
    ensures IsLongest(entries + [e], longest)
  {
    hide StreamEndFrom;
    var all := entries + [e];
    assert all[|entries|] == e;
    if longest != 0 {
      if longest == before {
        var i :| 0 <= i < |entries| && Readable(entries[i]) && TrackEnd(entries[i]) == before;
        assert all[i] == entries[i];
      }
    }
  }

  ghost predicate HasFile(entries: seq<Entry>, u: UserID, content: seq<byte>) {
    exists i :: 0 <= i < |entries| && entries[i] == Entry(u + SUFFIX, false, Some(content))
  }

  ghost predicate IsFileOf(e: Entry, ts: Tracks, stop: int) {
    IsTrack(e) && SpeakerID(e) in ts.bySpeaker && e.content == Some(FileOf(ts.bySpeaker[SpeakerID(e)], stop))
  }

  /** The directory holds the file of each track, and no other track file. */
  ghost predicate Holds(entries: seq<Entry>, ts: Tracks, stop: int) {
    && (forall u :: u in ts.bySpeaker ==> HasFile(entries, u, FileOf(ts.bySpeaker[u], stop)))
    && (forall i :: 0 <= i < |entries| && IsTrack(entries[i]) ==> IsFileOf(entries[i], ts, stop))
  }

  function Flushed(t: Track): nat {
    LastGranule(WriterOf(t).pages, 0)
  }

  /** What a track file reads as after a close at the stop: the stop's sample, or the last page flushed past it. */
  lemma FileRuns(t: Track, stop: int, limit: nat)
    requires Kept(t, limit) && limit < UINT64 / 8 && 0 <= stop <= RECORDING_CAP
    ensures 0 <= SamplesAt(stop)
    ensures StreamEndFrom(FileOf(t, stop), 0) == Max(SamplesAt(stop), Flushed(t))
  {
    EndedFileReads(t, SamplesAt(stop));
  }

  /** Each track of the recording has a file that reads as it ends, and each track file is one. */
  ghost predicate Reads(entries: seq<Entry>, ts: Tracks, at: nat) {
    && (forall u :: u in ts.bySpeaker ==> IsRead(entries, u, ts, at))
    && (forall i :: 0 <= i < |entries| && Readable(entries[i]) ==> ReadsAs(entries[i], SpeakerID(entries[i]), ts, at))
  }

  ghost predicate IsRead(entries: seq<Entry>, u: UserID, ts: Tracks, at: nat) {
    exists i :: 0 <= i < |entries| && ReadsAs(entries[i], u, ts, at)
  }

  ghost predicate ReadsAs(e: Entry, u: UserID, ts: Tracks, at: nat) {
    Readable(e) && SpeakerID(e) == u && u in ts.bySpeaker && TrackEnd(e) == Max(at, Flushed(ts.bySpeaker[u]))
  }

  lemma NamedTrack(u: UserID, content: seq<byte>)
    ensures var e := Entry(u + SUFFIX, false, Some(content)); IsTrack(e) && SpeakerID(e) == u
  {
    assert (u + SUFFIX)[|u|..] == SUFFIX && (u + SUFFIX)[..|u|] == u;
  }

  lemma EntryRead(e: Entry, u: UserID, ts: Tracks, stop: int, limit: nat)
    requires 0 <= stop <= RECORDING_CAP && limit < UINT64 / 8
    requires u in ts.bySpeaker && Kept(ts.bySpeaker[u], limit)
    requires IsTrack(e) && SpeakerID(e) == u && e.content == Some(FileOf(ts.bySpeaker[u], stop))
    ensures 0 <= SamplesAt(stop) && ReadsAs(e, u, ts, SamplesAt(stop))
  {
    FileRuns(ts.bySpeaker[u], stop, limit);
    hide StreamEndFrom, FileOf, SamplesAt, Flushed, Kept, IsTrack, SpeakerID;
  }

  lemma SpeakerRead(entries: seq<Entry>, u: UserID, ts: Tracks, stop: int, limit: nat)
    requires 0 <= stop <= RECORDING_CAP && limit < UINT64 / 8
    requires u in ts.bySpeaker && Kept(ts.bySpeaker[u], limit)
    requires HasFile(entries, u, FileOf(ts.bySpeaker[u], stop))
    ensures 0 <= SamplesAt(stop) && IsRead(entries, u, ts, SamplesAt(stop))
  {
    hide StreamEndFrom, FileOf, SamplesAt, Flushed, Kept, IsTrack, SpeakerID;
    var i :| 0 <= i < |entries| && entries[i] == Entry(u + SUFFIX, false, Some(FileOf(ts.bySpeaker[u], stop)));
    NamedTrack(u, FileOf(ts.bySpeaker[u], stop));
    EntryRead(entries[i], u, ts, stop, limit);
  }

  lemma FilesRead(entries: seq<Entry>, ts: Tracks, stop: int, limit: nat)
    requires Holds(entries, ts, stop) && 0 <= stop <= RECORDING_CAP && limit < UINT64 / 8
    requires forall u :: u in ts.bySpeaker ==> Kept(ts.bySpeaker[u], limit)
    ensures 0 <= SamplesAt(stop) && Reads(entries, ts, SamplesAt(stop))
  {
    SampleTimeRoundTrip(stop);
    hide StreamEndFrom, FileOf, SamplesAt, Flushed, Kept, WithinOneSample, IsTrack, SpeakerID, HasFile, IsRead, ReadsAs;
    forall u | u in ts.bySpeaker ensures IsRead(entries, u, ts, SamplesAt(stop)) {
      SpeakerRead(entries, u, ts, stop, limit);
    }
    forall i | 0 <= i < |entries| && Readable(entries[i])
      ensures ReadsAs(entries[i], SpeakerID(entries[i]), ts, SamplesAt(stop))
    {
      assert IsFileOf(entries[i], ts, stop);
      EntryRead(entries[i], SpeakerID(entries[i]), ts, stop, limit);
    }
  }

  lemma LongestOfAll(entries: seq<Entry>, ts: Tracks, at: nat, longest: nat)
    requires Reads(entries, ts, at) && IsLongest(entries, longest) && ts.bySpeaker != map[]
    ensures at <= longest
    ensures longest == at <==> forall u :: u in ts.bySpeaker ==> Flushed(ts.bySpeaker[u]) <= at
  {
    hide StreamEndFrom, Flushed;
    var u :| u in ts.bySpeaker;
    assert IsRead(entries, u, ts, at);
    var i :| 0 <= i < |entries| && ReadsAs(entries[i], u, ts, at);
    assert TrackEnd(entries[i]) <= longest;
    if longest == at {
      forall v | v in ts.bySpeaker ensures Flushed(ts.bySpeaker[v]) <= at {
        assert IsRead(entries, v, ts, at);
        var j :| 0 <= j < |entries| && ReadsAs(entries[j], v, ts, at);
        assert TrackEnd(entries[j]) <= longest;
      }
    } else {
      var j :| 0 <= j < |entries| && Readable(entries[j]) && TrackEnd(entries[j]) == longest;
      assert ReadsAs(entries[j], SpeakerID(entries[j]), ts, at);
    }
  }

  /** Past this many samples, some 53 hours, the recovered time would not fit 64 bits. */
  const LONGEST_RECOVERED := 9_223_372_036

  /** Each shortest frame is 2.5 ms of the recovered time. */
  lemma WholeFramesLast(frames: nat)
    requires SHORTEST_FRAME * frames <= LONGEST_RECOVERED
    ensures RecoveredAfter(SHORTEST_FRAME * frames) == frames * 2_500_000
  {
    NoWrap(SHORTEST_FRAME * frames);
    NoWrap(SHORTEST_FRAME * frames * 1_000_000_000);
    assert SHORTEST_FRAME * frames * 1_000_000_000 == 48000 * (frames * 2_500_000);
  }

  /** A length past the stop's sample, on a multiple of the shortest frame, is a time past the stop. */
  lemma PastTheStop(stop: int, longest: nat)
    requires 0 <= stop <= RECORDING_CAP && 0 <= SamplesAt(stop) < longest <= LONGEST_RECOVERED
    requires longest % SHORTEST_FRAME == 0
    ensures RecoveredAfter(longest) > stop
  {
    var frames := longest / SHORTEST_FRAME;
    WholeFramesLast(frames);
    assert longest == SHORTEST_FRAME * frames;
    hide RecoveredAfter;
    assert stop * 48000 < longest * 1_000_000_000;
  }

  /** The longest track is as long as the stop's sample, or as a flushed page says. */
  lemma LongestOnAFrame(entries: seq<Entry>, ts: Tracks, at: nat, longest: nat, limit: nat)
    requires Reads(entries, ts, at) && IsLongest(entries, longest) && at < longest && limit < UINT64
    requires forall u :: u in ts.bySpeaker ==> Kept(ts.bySpeaker[u], limit)
    ensures longest % SHORTEST_FRAME == 0
  {
    hide StreamEndFrom;
    var j :| 0 <= j < |entries| && Readable(entries[j]) && TrackEnd(entries[j]) == longest;
    var u := SpeakerID(entries[j]);
    assert ReadsAs(entries[j], u, ts, at);
    FlushedOnAFrame(ts.bySpeaker[u]);
  }

  /**
   * Shutdown, then recovery: whatever frames and flushes came before, the files
   * a shutdown at stop closed give recovery back the stop to within one sample
   * if and only if no page flushed before had run past it, of any recording
   * whose length recovery's 64 bits hold.
   */
  lemma ShutdownThenRecovery(events: seq<Heard>, stop: int, entries: seq<Entry>, longest: nat)
    requires Plausible(events) && 0 <= stop <= RECORDING_CAP
    requires Record(events).bySpeaker != map[]
    requires Holds(entries, Record(events), stop) && IsLongest(entries, longest)
    ensures 0 <= SamplesAt(stop) <= longest
    ensures longest == SamplesAt(stop)
       <==> forall u :: u in Record(events).bySpeaker ==> Flushed(Record(events).bySpeaker[u]) <= SamplesAt(stop)
    ensures longest == SamplesAt(stop) ==> WithinOneSample(stop, RecoveredAfter(longest))
    ensures longest <= LONGEST_RECOVERED ==>
              (WithinOneSample(stop, RecoveredAfter(longest)) <==>
               forall u :: u in Record(events).bySpeaker ==> Flushed(Record(events).bySpeaker[u]) <= SamplesAt(stop))
  {
    var ts := Record(events);
    RecordKeeps(events);
    SampleTimeRoundTrip(stop);
    hide SamplesAt, Record, Flushed, RecoveredAfter, Kept, Holds, Reads, IsLongest;
    ReachIsFar(|events|);
    FilesRead(entries, ts, stop, Reach(|events|));
    LongestOfAll(entries, ts, SamplesAt(stop), longest);
    if SamplesAt(stop) < longest <= LONGEST_RECOVERED {
      LongestOnAFrame(entries, ts, SamplesAt(stop), longest, Reach(|events|));
      PastTheStop(stop, longest);
    }
  }

  lemma ReachIsFar(n: nat)
    requires n <= MOST_EVENTS
    ensures Reach(n) < UINT64 / 8
  {
  }

  const FLUSHED_PAST := [Hear("1", Frame(0, 0, SILENCE), 0), FlushAll]

  function FirstFrame(serial: nat): Track {
    Place(NewTrack(serial), Frame(0, 0, SILENCE), 0)
  }

  lemma FirstFramePlaced(serial: nat)
    ensures FirstFrame(serial).ops == [Write(SILENCE, SILENCE_SAMPLES)] && FirstFrame(serial).serial == serial
  {
    StartsInStep(serial);
    SilenceLasts();
    hide NewWriter, OpusPacketSamples;
    assert WriterOf(NewTrack(serial)) == NewWriter(serial);
    NoWrap(0);
    assert GapBefore(NewTrack(serial), Frame(0, 0, SILENCE), 0) == Some(0);
  }

  lemma FirstFrameFlushed(serial: nat)
    ensures Flushed(FlushTrack(FirstFrame(serial))) == SILENCE_SAMPLES
  {
    FirstFramePlaced(serial);
    StartsInStep(serial);
    var t := FlushTrack(FirstFrame(serial));
    var w := NewWriter(serial);
    hide NewWriter, Place, WritePacket, Flush;
    assert t.ops == [Write(SILENCE, SILENCE_SAMPLES), FlushPage];
    assert t.ops[1..] == [FlushPage] && [FlushPage][1..] == [];
    var full := Apply(w, t.ops[0]);
    assert WriterOf(t) == Run(full, [FlushPage]) == Run(Apply(full, FlushPage), []);
    FlushedSilence(w);
  }

  lemma FlushedSilence(w: Writer)
    requires w.granule == 0
    ensures LastGranule(Flush(WritePacket(w, SILENCE, SILENCE_SAMPLES)).pages, 0) == SILENCE_SAMPLES
  {
    assert |LacingOf(3)| == 1;
    var full := WritePacket(w, SILENCE, SILENCE_SAMPLES);
    assert full.lacing != [] && full.granule == SILENCE_SAMPLES;
  }

  lemma FlushedPastTrack()
    ensures Plausible(FLUSHED_PAST)
    ensures Record(FLUSHED_PAST).bySpeaker.Keys == {"1"}
    ensures Flushed(Record(FLUSHED_PAST).bySpeaker["1"]) == SILENCE_SAMPLES
  {
    FirstFrameFlushed(SerialOf("1"));
    hide Place, Flushed, SerialOf;
    var heard := [FLUSHED_PAST[0]];
    assert FLUSHED_PAST[..1] == heard && heard[..0] == [] && SamplesAt(0) == 0;
    assert Record(heard) == WriteFrame(Tracks(map[], false), "1", Frame(0, 0, SILENCE), 0);
    assert Record(heard).bySpeaker["1"] == FirstFrame(SerialOf("1"));
  }

  /**
   * A packet of 20 ms heard at the start and flushed at once, then a shutdown:
   * the page runs past the stop, and recovery gives 20 ms for a stop at 0.
   */
  lemma FlushedPastStop(entries: seq<Entry>, longest: nat)
    requires Holds(entries, Record(FLUSHED_PAST), 0) && IsLongest(entries, longest)
    ensures Plausible(FLUSHED_PAST) && longest == SILENCE_SAMPLES && RecoveredAfter(longest) == 20_000_000
    ensures !WithinOneSample(0, RecoveredAfter(longest))
  {
    FlushedPastTrack();
    StopAtStart();
    hide Record, Flushed, StreamEndFrom, Holds, Kept, Plausible, SamplesAt, FileOf, RecoveredAfter, IsLongest, Reads;
    RecordKeeps(FLUSHED_PAST);
    ReachIsFar(2);
    FilesRead(entries, Record(FLUSHED_PAST), 0, Reach(2));
    OnlyLongest(entries, Record(FLUSHED_PAST), SILENCE_SAMPLES, longest);
  }

  lemma StopAtStart()
    ensures SamplesAt(0) == 0 && RecoveredAfter(SILENCE_SAMPLES) == 20_000_000
  {
    NoWrap(SILENCE_SAMPLES);
    NoWrap(SILENCE_SAMPLES * 1_000_000_000);
  }

  lemma OnlyLongest(entries: seq<Entry>, ts: Tracks, end: nat, longest: nat)
    requires Reads(entries, ts, 0) && IsLongest(entries, longest) && ts.bySpeaker.Keys == {"1"}
    requires Flushed(ts.bySpeaker["1"]) == end > 0
    ensures longest == end
  {
    hide Flushed, StreamEndFrom;
    assert IsRead(entries, "1", ts, 0);
    var i :| 0 <= i < |entries| && ReadsAs(entries[i], "1", ts, 0);
    assert TrackEnd(entries[i]) == end;
    var j :| 0 <= j < |entries| && Readable(entries[j]) && TrackEnd(entries[j]) == longest;
    assert ReadsAs(entries[j], SpeakerID(entries[j]), ts, 0);
  }
}
