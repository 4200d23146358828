/**
 * A speaker's track (commands/recording_tracks.go): where each packet goes
 * by a wrapping 32-bit RTP clock against the wall clock, the silence that
 * fills the gaps, and the end. A track is the run of writes and flushes it
 * has put to its Ogg stream, so what OggStreams proves of runs is its.
 */
module OpusTracks {
  import opened Bytes
  import opened OggPages
  import opened OggStreams
  import opened Wrappers

  const INT64_MAX := 0x7fff_ffff_ffff_ffff
  /** How far a packet's RTP timestamp may disagree with the clock: 2 s of samples. */
  const MAX_RTP_DRIFT := 96000
  /** Discord's silence frame, 20 ms of nothing. */
  const SILENCE: Packet := [0xF8, 0xFF, 0xFE]
  const SILENCE_SAMPLES := 960
  /** The most samples a packet's TOC and frame count can name: 63 frames of 60 ms. */
  const MAX_SAMPLES := 63 * 2880

  /** A packet's length in 48 kHz samples, read from its TOC byte (section 3.1 of RFC 6716). */
  function OpusPacketSamples(pkt: Packet): (samples: nat)
    ensures samples <= MAX_SAMPLES
  {
    if |pkt| == 0 then 0
    else
      var config := pkt[0] / 8;
      var frame :=
        if config < 12 then [480, 960, 1920, 2880][config % 4]
        else if config < 16 then [480, 960][config % 2]
        else [120, 240, 480, 960][config % 4];
      match pkt[0] % 4
      case 0 => frame
      case 1 => 2 * frame
      case 2 => 2 * frame
      case _ => if |pkt| < 2 then 0 else FrameCount(pkt[1]) * frame
  }

  function FrameCount(b: byte): (n: nat)
    ensures n <= 63
  {
    b % 64
  }

  /** How long a frame of each of the 32 configurations lasts: SILK's, hybrid's and CELT's (table 2 of RFC 6716). */
  function FrameSamples(config: nat): nat {
    if config in {16, 20, 24, 28} then 120
    else if config in {17, 21, 25, 29} then 240
    else if config in {0, 4, 8, 12, 14, 18, 22, 26, 30} then 480
    else if config in {1, 5, 9, 13, 15, 19, 23, 27, 31} then 960
    else if config in {2, 6, 10} then 1920
    else 2880
  }

  /** How many frames a packet has, by its code (section 3.2 of RFC 6716); a code 3 packet cut before its count has none. */
  function FramesIn(pkt: Packet): nat {
    if |pkt| == 0 then 0
    else if pkt[0] % 4 < 3 then [1, 2, 2][pkt[0] % 4]
    else if |pkt| == 1 then 0
    else (pkt[1] % 64) as nat
  }

  /** A packet lasts as long as its frames, each as long as its configuration says. */
  lemma PacketLasts(pkt: Packet)
    requires |pkt| > 0
    ensures OpusPacketSamples(pkt) == FramesIn(pkt) * FrameSamples(pkt[0] / 8)
  {}

  lemma SilenceLasts()
    ensures OpusPacketSamples(SILENCE) == SILENCE_SAMPLES
  {
  }

  /** A value as a 64-bit signed integer holds it. */
  function Int64(x: int): int {
    (x + UINT64 / 2) % UINT64 - UINT64 / 2
  }

  function Int32(x: int): int {
    (x + UINT32 / 2) % UINT32 - UINT32 / 2
  }

  datatype Frame = Frame(ssrc: nat, timestamp: nat, opus: Packet)

  /**
   * ops are what the track has put to its stream. ssrc is the RTP stream the
   * last packet came on, and nextTS the RTP timestamp the packet after it
   * would carry if none were missing.
   */
  datatype Track = Track(serial: nat, ops: seq<Op>, started: bool, ssrc: nat, nextTS: nat)

  function NewTrack(serial: nat): Track {
    Track(serial, [], false, 0, 0)
  }

  function WriterOf(t: Track): Writer {
    Run(NewWriter(t.serial), t.ops)
  }

  function Silences(n: nat): (ops: seq<Op>)
    ensures |ops| == n
  {
    seq(n, _ => Write(SILENCE, SILENCE_SAMPLES))
  }

  /** The gap in front of a frame in samples, or None for a frame that is dropped. */
  function GapBefore(t: Track, f: Frame, wallClock: int): Option<int> {
    var wallGap := Int64(wallClock - Int64(WriterOf(t).granule));
    if t.started && f.ssrc == t.ssrc then
      var gap := Int32(f.timestamp - t.nextTS);
      if gap < 0 then None
      else if Int64(gap - wallGap) > MAX_RTP_DRIFT || Int64(wallGap - gap) > MAX_RTP_DRIFT then Some(wallGap)
      else Some(gap)
    else Some(wallGap)
  }

  function WholeSilences(gap: int): nat {
    if gap < 960 then 0 else gap / 960
  }

  function Place(t: Track, f: Frame, wallClock: int): Track {
    match GapBefore(t, f, wallClock)
    case None => t
    case Some(gap) =>
      var samples := OpusPacketSamples(f.opus);
      Track(t.serial, t.ops + Silences(WholeSilences(gap)) + [Write(f.opus, samples)],
            true, f.ssrc, (f.timestamp + samples) % UINT32)
  }

  function FlushTrack(t: Track): Track {
    t.(ops := t.ops + [FlushPage])
  }

  /** How many silence frames the end takes: enough to reach it, and one at least in the last page. */
  function FillCount(w: Writer, end: int): nat {
    if w.granule < end then (end - w.granule + 959) / 960
    else if w.lacing == [] then 1 else 0
  }

  function Filled(t: Track, end: int): Track {
    t.(ops := t.ops + Silences(FillCount(WriterOf(t), end)))
  }

  function NotBefore0(end: int): nat {
    if end < 0 then 0 else end
  }

  /** The closed track's stream. */
  function EndedStream(t: Track, end: int): Writer {
    CloseAt(WriterOf(Filled(t, end)), NotBefore0(end))
  }

  // ---------------------------------------------------------------------------
  // A track's clock is its packets' total length
  // ---------------------------------------------------------------------------

  /** Every packet put to the stream was given its own length. */
  ghost predicate Timed(ops: seq<Op>) {
    forall i :: 0 <= i < |ops| && ops[i].Write? ==> ops[i].samples == OpusPacketSamples(ops[i].pkt)
  }

  lemma {:induction false} RunSplit(w: Writer, a: seq<Op>, b: seq<Op>)
    ensures Run(w, a + b) == Run(Run(w, a), b)
    decreases |a|
  {
    hide Apply;
    if a == [] {
      assert a + b == b;
    } else {
      assert (a + b)[1..] == a[1..] + b;
      RunSplit(Apply(w, a[0]), a[1..], b);
    }
  }

  lemma {:induction false} SamplesSplit(a: seq<Op>, b: seq<Op>)
    ensures Samples(a + b) == Samples(a) + Samples(b)
    decreases |a|
  {
    if a == [] {
      assert a + b == b;
    } else {
      assert (a + b)[1..] == a[1..] + b;
      SamplesSplit(a[1..], b);
    }
  }

  lemma {:induction false} SamplesOfSilences(n: nat)
    ensures Samples(Silences(n)) == 960 * n
    decreases n
  {
    if n > 0 {
      assert Silences(n)[1..] == Silences(n - 1);
      SamplesOfSilences(n - 1);
    }
  }

  /** Below the width of its count, the stream's length is the sum of its packets' lengths. */
  lemma ClockIsTotal(t: Track)
    requires Samples(t.ops) < UINT64
    ensures WriterOf(t).granule == Samples(t.ops) && InStep(WriterOf(t))
  {
    StartsInStep(t.serial);
    RunInStep(NewWriter(t.serial), t.ops);
  }

  lemma StartsInStep(serial: nat)
    ensures InStep(NewWriter(serial)) && NewWriter(serial).granule == 0
  {
    var w := NewWriter(serial);
    assert w.pages[0].granule == 0 && w.pages[1].granule == 0 && |w.pages| == 2;
  }

  // ---------------------------------------------------------------------------
  // Pages end on a multiple of the shortest frame
  // ---------------------------------------------------------------------------

  /** The shortest Opus frame, 2.5 ms, which every frame's length is a multiple of. */
  const SHORTEST_FRAME := 120

  lemma WholeFrames(n: nat, frame: nat)
    requires frame % SHORTEST_FRAME == 0
    ensures (n * frame) % SHORTEST_FRAME == 0
  {
    var k := frame / SHORTEST_FRAME;
    assert n * frame == SHORTEST_FRAME * (n * k);
  }

  lemma PacketIsWholeFrames(pkt: Packet)
    ensures OpusPacketSamples(pkt) % SHORTEST_FRAME == 0
  {
    if |pkt| > 0 {
      var config := pkt[0] / 8;
      var frame :=
        if config < 12 then [480, 960, 1920, 2880][config % 4]
        else if config < 16 then [480, 960][config % 2]
        else [120, 240, 480, 960][config % 4];
      if |pkt| > 1 {
        WholeFrames(FrameCount(pkt[1]), frame);
      }
    }
  }

  predicate OnAFrame(w: Writer) {
    w.granule % SHORTEST_FRAME == 0 && w.pageGranule % SHORTEST_FRAME == 0
  }

  lemma FlushOnAFrame(w: Writer)
    requires OnAFrame(w)
    ensures OnAFrame(Flush(w)) && Flush(w).granule == w.granule
  {}

  lemma MultiplesAdd(a: nat, b: nat)
    requires a % SHORTEST_FRAME == 0 && b % SHORTEST_FRAME == 0
    ensures (a + b) % SHORTEST_FRAME == 0
  {
    assert a + b == SHORTEST_FRAME * (a / SHORTEST_FRAME + b / SHORTEST_FRAME);
  }

  lemma WriteOnAFrame(w: Writer, pkt: Packet, samples: nat)
    requires OnAFrame(w) && samples % SHORTEST_FRAME == 0 && w.granule + samples < UINT64
    ensures OnAFrame(WritePacket(w, pkt, samples)) && WritePacket(w, pkt, samples).granule == w.granule + samples
  {
    FlushOnAFrame(w);
    MultiplesAdd(w.granule, samples);
    hide LacingOf, Flush;
    assert (w.granule + samples) % UINT64 == w.granule + samples;
  }

  lemma {:induction false} RunOnAFrame(w: Writer, ops: seq<Op>)
    requires OnAFrame(w) && Timed(ops) && w.granule + Samples(ops) < UINT64
    ensures OnAFrame(Run(w, ops))
    decreases |ops|
  {
    if ops != [] {
      match ops[0] {
        case Write(pkt, samples) =>
          PacketIsWholeFrames(pkt);
          WriteOnAFrame(w, pkt, samples);
        case FlushPage =>
      }
      hide OpusPacketSamples, WritePacket, OnAFrame;
      RunOnAFrame(Apply(w, ops[0]), ops[1..]);
    }
  }

  /** While its clock does not wrap, a track's last page out ends on a multiple of the shortest frame. */
  lemma FlushedOnAFrame(t: Track)
    requires Timed(t.ops) && Samples(t.ops) < UINT64
    ensures LastGranule(WriterOf(t).pages, 0) % SHORTEST_FRAME == 0
  {
    ClockIsTotal(t);
    RunOnAFrame(NewWriter(t.serial), t.ops);
    InStepPage(WriterOf(t));
  }

  // ---------------------------------------------------------------------------
  // Runs of frames
  // ---------------------------------------------------------------------------

  datatype Event = Arrive(f: Frame, wallClock: int) | FlushTick

  function Step(t: Track, e: Event): Track {
    match e
    case Arrive(f, wallClock) => Place(t, f, wallClock)
    case FlushTick => FlushTrack(t)
  }

  function Live(t: Track, events: seq<Event>): Track
    decreases |events|
  {
    if events == [] then t else Step(Live(t, events[..|events| - 1]), events[|events| - 1])
  }

  /** Any recording's limits: arrivals within some 180 years of its start, and about a billion frames. */
  const HORIZON: nat := 0x1_0000_0000_0000
  const MOST_EVENTS: nat := 0x4000_0000

  ghost predicate Ordinary(events: seq<Event>) {
    && |events| <= MOST_EVENTS
    && forall i :: 0 <= i < |events| && events[i].Arrive? ==> OrdinaryFrame(events[i].f, events[i].wallClock)
  }

  ghost predicate OrdinaryFrame(f: Frame, wallClock: int) {
    && -(HORIZON as int) <= wallClock <= HORIZON
    && f.timestamp < UINT32 && f.ssrc < UINT32
  }

  ghost predicate Within(t: Track, limit: nat) {
    && Samples(t.ops) <= limit
    && t.nextTS < UINT32
    && Timed(t.ops)
  }

  lemma NoWrap(x: int)
    requires -(UINT64 / 2) <= x < UINT64 / 2
    ensures Int64(x) == x
  {
  }

  lemma Int32Range(x: int)
    ensures -(UINT32 / 2) <= Int32(x) < UINT32 / 2
    ensures exists k: int :: Int32(x) == x + k * UINT32
  {
    assert Int32(x) == x + (-((x + UINT32 / 2) / UINT32)) * UINT32;
  }

  /** Where a frame kept goes: how much of the track comes before it. */
  function StartOf(t: Track, gap: int): nat {
    Samples(t.ops) + 960 * WholeSilences(gap)
  }

  /** The gap in front of a frame kept is the wall clock's, or one ahead of the track within the drift of it. */
  lemma GapBounds(t: Track, f: Frame, wallClock: int, limit: nat)
    requires Within(t, limit) && limit + HORIZON < UINT64 / 8
    requires OrdinaryFrame(f, wallClock)
    ensures var gap := GapBefore(t, f, wallClock);
            var wallGap := wallClock - Samples(t.ops);
            gap.Some? ==>
              gap.value == wallGap || (0 <= gap.value && wallGap - MAX_RTP_DRIFT <= gap.value <= wallGap + MAX_RTP_DRIFT)
  {
    ClockIsTotal(t);
    hide WriterOf, Samples, Timed;
    var at := Samples(t.ops);
    NoWrap(at);
    NoWrap(wallClock - at);
    var wallGap := wallClock - at;
    Int32Range(f.timestamp - t.nextTS);
    var rtp := Int32(f.timestamp - t.nextTS);
    NoWrap(rtp - wallGap);
    NoWrap(wallGap - rtp);
  }

  lemma SilenceBounds(gap: int)
    ensures gap - 959 <= 960 * WholeSilences(gap)
    ensures WholeSilences(gap) > 0 ==> 960 * WholeSilences(gap) <= gap
  {
  }

  lemma PlacedSamples(t: Track, f: Frame, n: nat)
    requires Timed(t.ops)
    ensures var ops := t.ops + Silences(n) + [Write(f.opus, OpusPacketSamples(f.opus))];
            Timed(ops) && Samples(ops) == Samples(t.ops) + 960 * n + OpusPacketSamples(f.opus)
  {
    var write := [Write(f.opus, OpusPacketSamples(f.opus))];
    SilenceLasts();
    hide OpusPacketSamples;
    SamplesOfSilences(n);
    SamplesSplit(t.ops, Silences(n));
    SamplesSplit(t.ops + Silences(n), write);
    assert write[1..] == [];
  }

  /** What one frame does, while the clock is far from the width of its count. */
  lemma PlaceStep(t: Track, f: Frame, wallClock: int, limit: nat)
    requires Within(t, limit) && limit + HORIZON + MAX_SAMPLES + MAX_RTP_DRIFT < UINT64 / 8
    requires OrdinaryFrame(f, wallClock)
    ensures var gap := GapBefore(t, f, wallClock);
            && Within(Place(t, f, wallClock), Larger(limit, HORIZON + MAX_RTP_DRIFT) + MAX_SAMPLES)
            && (gap.Some? ==>
                  && wallClock - 96959 <= StartOf(t, gap.value)
                  && (WholeSilences(gap.value) > 0 ==> StartOf(t, gap.value) <= wallClock + 96000)
                  && Samples(Place(t, f, wallClock).ops) == StartOf(t, gap.value) + OpusPacketSamples(f.opus))
  {
    GapBounds(t, f, wallClock, limit);
    var gap := GapBefore(t, f, wallClock);
    if gap.Some? {
      SilenceBounds(gap.value);
      PlacedSamples(t, f, WholeSilences(gap.value));
    }
    hide GapBefore, WholeSilences, Samples, Timed, OpusPacketSamples, Silences;
  }

  function Larger(a: nat, b: nat): nat {
    if a < b then b else a
  }

  function Reach(n: nat): nat {
    HORIZON + MAX_RTP_DRIFT + n * 181440
  }

  /** However a run of frames goes, its track stays within reach of its last arrival. */
  lemma {:induction false} LiveStaysWithin(serial: nat, events: seq<Event>)
    requires Ordinary(events)
    ensures Within(Live(NewTrack(serial), events), Reach(|events|))
    decreases |events|
  {
    if events != [] {
      var n := |events| - 1;
      var before := events[..n];
      LiveStaysWithin(serial, before);
      var t := Live(NewTrack(serial), before);
      ReachGrows(n);
      match events[n] {
        case Arrive(f, wallClock) =>
          assert events[n].Arrive?;
          PlaceStep(t, f, wallClock, Reach(n));
        case FlushTick =>
          SamplesSplit(t.ops, [FlushPage]);
          assert [FlushPage][1..] == [];
          assert Samples([FlushPage]) == 0;
      }
    }
  }

  lemma ReachGrows(n: nat)
    requires n < MOST_EVENTS
    ensures Reach(n) + MAX_SAMPLES == Reach(n + 1) && HORIZON + MAX_RTP_DRIFT <= Reach(n)
    ensures Reach(n) + HORIZON + MAX_SAMPLES + MAX_RTP_DRIFT < UINT64 / 8
  {
  }

  /**
   * Placement: after any run of frames and flushes, with wrapping timestamps
   * and SSRC changes, the next frame kept starts at most 96,959 samples before
   * its arrival, and one with silence put in front at most 96,000 after.
   */
  lemma PlacementBound(serial: nat, events: seq<Event>, f: Frame, wallClock: int)
    requires Ordinary(events) && |events| < MOST_EVENTS && OrdinaryFrame(f, wallClock)
    ensures var t := Live(NewTrack(serial), events);
            var gap := GapBefore(t, f, wallClock);
            gap.Some? ==>
              && wallClock - 96959 <= StartOf(t, gap.value)
              && (WholeSilences(gap.value) > 0 ==> StartOf(t, gap.value) <= wallClock + 96000)
  {
    LiveStaysWithin(serial, events);
    ReachGrows(|events|);
    PlaceStep(Live(NewTrack(serial), events), f, wallClock, Reach(|events|));
  }

  /**
   * The RTP clock places frames to the sample, across its wrap. A frame d
   * samples after the one the track expects next goes d samples on while that
   * is within 2 s of its arrival, and one behind the track is dropped.
   */
  lemma RtpPlaces(t: Track, f: Frame, wallClock: int, d: int, limit: nat)
    requires Within(t, limit) && limit < UINT64 / 8
    requires OrdinaryFrame(f, wallClock)
    requires t.started && f.ssrc == t.ssrc
    requires -(UINT32 / 2) <= d < UINT32 / 2 && f.timestamp == (t.nextTS + d) % UINT32
    ensures d < 0 ==> GapBefore(t, f, wallClock) == None
    ensures 0 <= d && -MAX_RTP_DRIFT <= Samples(t.ops) + d - wallClock <= MAX_RTP_DRIFT ==> GapBefore(t, f, wallClock) == Some(d)
  {
    ClockIsTotal(t);
    hide WriterOf;
    var at := Samples(t.ops);
    NoWrap(at);
    NoWrap(wallClock - at);
    assert Int32(f.timestamp - t.nextTS) == d;
    NoWrap(d - (wallClock - at));
    NoWrap((wallClock - at) - d);
  }

  // ---------------------------------------------------------------------------
  // Which frames are dropped, and where the others go
  // ---------------------------------------------------------------------------

  /** The 32-bit timestamp is in the half of its circle behind the one expected. */
  predicate Behind(timestamp: nat, expected: nat) {
    (timestamp - expected) % UINT32 >= UINT32 / 2
  }

  /** What the frames heard so far lead to expect: the SSRC heard last, and the timestamp after the last frame not behind its own. */
  datatype Expected = Expected(ssrc: nat, timestamp: nat)

  function ExpectedAfter(events: seq<Event>): Option<Expected>
    decreases |events|
  {
    if events == [] then None
    else
      var before, e := ExpectedAfter(events[..|events| - 1]), events[|events| - 1];
      if e.FlushTick? || (before.Some? && e.f.ssrc == before.value.ssrc && Behind(e.f.timestamp, before.value.timestamp)) then before
      else Some(Expected(e.f.ssrc, (e.f.timestamp + OpusPacketSamples(e.f.opus)) % UINT32))
  }

  lemma BehindIsNegative(timestamp: nat, expected: nat)
    requires timestamp < UINT32 && expected < UINT32
    ensures Int32(timestamp - expected) < 0 <==> Behind(timestamp, expected)
    ensures !Behind(timestamp, expected) ==> Int32(timestamp - expected) == (timestamp - expected) % UINT32
  {}

  predicate Expects(t: Track, expected: Option<Expected>) {
    && (t.started <==> expected.Some?)
    && (expected.Some? ==> t.ssrc == expected.value.ssrc && t.nextTS == expected.value.timestamp)
  }

  predicate Drops(expected: Option<Expected>, f: Frame) {
    expected.Some? && f.ssrc == expected.value.ssrc && Behind(f.timestamp, expected.value.timestamp)
  }

  /** How far ahead of the clock the RTP timestamp puts a frame, and whether that is within 2 s. */
  predicate InTime(at: nat, ahead: nat, wallClock: int) {
    -MAX_RTP_DRIFT <= at + ahead - wallClock <= MAX_RTP_DRIFT
  }

  /** Where a frame belongs, from the packets' total length and what is expected; none for one that is dropped. */
  ghost predicate PlacedAt(gap: Option<int>, expected: Option<Expected>, f: Frame, at: nat, wallClock: int) {
    if Drops(expected, f) then gap == None
    else if expected.Some? && f.ssrc == expected.value.ssrc && InTime(at, (f.timestamp - expected.value.timestamp) % UINT32, wallClock)
    then gap == Some((f.timestamp - expected.value.timestamp) % UINT32)
    else gap == Some(wallClock - at)
  }

  lemma GapIsPlaced(t: Track, f: Frame, wallClock: int, limit: nat, expected: Option<Expected>)
    requires Within(t, limit) && limit + HORIZON < UINT64 / 8
    requires OrdinaryFrame(f, wallClock) && Expects(t, expected)
    ensures PlacedAt(GapBefore(t, f, wallClock), expected, f, Samples(t.ops), wallClock)
  {
    ClockIsTotal(t);
    hide WriterOf, Samples, Timed;
    var at := Samples(t.ops);
    NoWrap(at);
    NoWrap(wallClock - at);
    if t.started && f.ssrc == t.ssrc {
      BehindIsNegative(f.timestamp, t.nextTS);
      var rtp := Int32(f.timestamp - t.nextTS);
      NoWrap(rtp - (wallClock - at));
      NoWrap((wallClock - at) - rtp);
      hide Int32, Behind, Int64;
    }
  }

  lemma ExpectsNext(t: Track, e: Event, limit: nat, expected: Option<Expected>)
    requires Within(t, limit) && limit + HORIZON < UINT64 / 8 && Expects(t, expected)
    requires e.Arrive? ==> OrdinaryFrame(e.f, e.wallClock)
    ensures e.FlushTick? || Drops(expected, e.f) ==> Expects(Step(t, e), expected)
    ensures e.Arrive? && !Drops(expected, e.f) ==>
              Expects(Step(t, e), Some(Expected(e.f.ssrc, (e.f.timestamp + OpusPacketSamples(e.f.opus)) % UINT32)))
  {
    hide OpusPacketSamples;
    if e.Arrive? {
      GapIsPlaced(t, e.f, e.wallClock, limit, expected);
      hide GapBefore;
    }
  }

  lemma {:induction false} ExpectsReached(serial: nat, events: seq<Event>)
    requires Ordinary(events)
    ensures Expects(Live(NewTrack(serial), events), ExpectedAfter(events))
    decreases |events|
  {
    if events != [] {
      var n := |events| - 1;
      ExpectsReached(serial, events[..n]);
      LiveStaysWithin(serial, events[..n]);
      ReachGrows(n);
      assert events[n].Arrive? ==> OrdinaryFrame(events[n].f, events[n].wallClock);
      ExpectsNext(Live(NewTrack(serial), events[..n]), events[n], Reach(n), ExpectedAfter(events[..n]));
      hide Step, OpusPacketSamples, Behind;
    }
  }

  /**
   * The frame goes into the track behind silence for the gap. By the wall clock it
   * starts less than 20 ms before its arrival, or at the track's end past that.
   */
  ghost predicate WrittenAfter(t: Track, gap: int, f: Frame, wallClock: int) {
    && Place(t, f, wallClock).ops == t.ops + Silences(WholeSilences(gap)) + [Write(f.opus, OpusPacketSamples(f.opus))]
    && (gap == wallClock - Samples(t.ops) ==>
          if wallClock < Samples(t.ops) then StartOf(t, gap) == Samples(t.ops)
          else wallClock - SILENCE_SAMPLES < StartOf(t, gap) <= wallClock)
  }

  lemma PlaceWrites(t: Track, f: Frame, wallClock: int)
    ensures var gap := GapBefore(t, f, wallClock);
            if gap == None then Place(t, f, wallClock) == t else WrittenAfter(t, gap.value, f, wallClock)
  {
    hide GapBefore, OpusPacketSamples, Samples;
  }

  lemma FrameIsPlaced(t: Track, f: Frame, wallClock: int, limit: nat, expected: Option<Expected>)
    requires Within(t, limit) && limit + HORIZON < UINT64 / 8
    requires OrdinaryFrame(f, wallClock) && Expects(t, expected)
    ensures var gap := GapBefore(t, f, wallClock);
            && PlacedAt(gap, expected, f, Samples(t.ops), wallClock)
            && if Drops(expected, f) then Place(t, f, wallClock) == t
               else gap.Some? && WrittenAfter(t, gap.value, f, wallClock)
  {
    GapIsPlaced(t, f, wallClock, limit, expected);
    PlaceWrites(t, f, wallClock);
    hide Place, GapBefore, Within, OpusPacketSamples, Samples, WrittenAfter, Behind, InTime;
  }

  /**
   * After any run, a frame is dropped if and only if it is on the SSRC heard
   * last with its timestamp behind the one expected. Any other is written: as far
   * on as its timestamp says while that is within 2 s of its arrival, and else,
   * or on a new SSRC, by the wall clock.
   */
  lemma FramesArePlaced(serial: nat, events: seq<Event>, f: Frame, wallClock: int)
    requires Ordinary(events) && |events| < MOST_EVENTS && OrdinaryFrame(f, wallClock)
    ensures var t := Live(NewTrack(serial), events);
            var gap := GapBefore(t, f, wallClock);
            && PlacedAt(gap, ExpectedAfter(events), f, Samples(t.ops), wallClock)
            && if Drops(ExpectedAfter(events), f) then Place(t, f, wallClock) == t
               else gap.Some? && WrittenAfter(t, gap.value, f, wallClock)
  {
    hide Live, ExpectedAfter, Ordinary, OrdinaryFrame, Expects, Within, Reach, PlacedAt, WrittenAfter, Drops, Place, GapBefore, Samples;
    ExpectsReached(serial, events);
    LiveStaysWithin(serial, events);
    ReachGrows(|events|);
    FrameIsPlaced(Live(NewTrack(serial), events), f, wallClock, Reach(|events|), ExpectedAfter(events));
  }

  /** The frame that follows another without a loss, by its timestamp, is written right behind it. */
  lemma InOrderFramesAbut(t: Track, f: Frame, wallClock: int, next: Frame, nextWallClock: int, limit: nat)
    requires Within(t, limit) && limit + HORIZON + MAX_SAMPLES + MAX_RTP_DRIFT < UINT64 / 16
    requires OrdinaryFrame(f, wallClock) && OrdinaryFrame(next, nextWallClock)
    requires GapBefore(t, f, wallClock).Some?
    requires next.ssrc == f.ssrc && next.timestamp == (f.timestamp + OpusPacketSamples(f.opus)) % UINT32
    requires var at := Samples(Place(t, f, wallClock).ops); -MAX_RTP_DRIFT <= at - nextWallClock <= MAX_RTP_DRIFT
    ensures var placed := Place(t, f, wallClock);
            Place(placed, next, nextWallClock).ops == placed.ops + [Write(next.opus, OpusPacketSamples(next.opus))]
  {
    PlaceStep(t, f, wallClock, limit);
    var placed := Place(t, f, wallClock);
    hide OpusPacketSamples;
    RtpPlaces(placed, next, nextWallClock, 0, Larger(limit, HORIZON + MAX_RTP_DRIFT) + MAX_SAMPLES);
    assert Silences(0) == [];
    assert placed.ops + [] == placed.ops;
  }

  // ---------------------------------------------------------------------------
  // The end of a track
  // ---------------------------------------------------------------------------

  lemma WriteSilenceInStep(w: Writer, end: nat)
    requires InStep(w) && w.granule + SILENCE_SAMPLES < UINT64
    requires w.lacing == [] || w.granule < end
    ensures var r := WritePacket(w, SILENCE, SILENCE_SAMPLES);
            && InStep(r) && r.lacing != [] && r.granule == w.granule + SILENCE_SAMPLES
            && w.pageGranule <= r.pageGranule <= Max(w.pageGranule, end)
  {
    WriteInStep(w, SILENCE, SILENCE_SAMPLES);
    assert |LacingOf(3)| == 1;
  }

  /** Filling never writes a page out past the end it fills to. */
  lemma {:induction false} FillInStep(w: Writer, n: nat, end: nat)
    requires InStep(w) && w.granule + 960 * n < UINT64
    requires n > 0 ==> w.granule + 960 * (n - 1) < end || (n == 1 && w.lacing == [])
    ensures var r := Run(w, Silences(n));
            && InStep(r) && r.granule == w.granule + 960 * n
            && (n > 0 || w.lacing != [] ==> r.lacing != [])
            && w.pageGranule <= r.pageGranule <= Max(w.pageGranule, end)
    decreases n
  {
    hide InStep, WritePacket;
    if n > 0 {
      WriteSilenceInStep(w, end);
      assert Silences(n)[1..] == Silences(n - 1);
      FillInStep(WritePacket(w, SILENCE, SILENCE_SAMPLES), n - 1, end);
    }
  }

  lemma FillCountReaches(w: Writer, end: int)
    ensures var n := FillCount(w, end);
            && end <= w.granule + 960 * n
            && (n > 0 ==> w.granule + 960 * (n - 1) < end || (n == 1 && w.lacing == []))
            && (n == 0 ==> w.lacing != [])
            && 960 * n <= NotBefore0(end) + SILENCE_SAMPLES
  {
  }

  /**
   * The end of a track: page granules never fall, the last page is marked as
   * the end and ends at the stop, or where the last page flushed before the
   * close ended when that is later. It claims no more samples than were
   * written, so what is trimmed comes off the last page alone (section 4.4 of
   * RFC 7845).
   */
  lemma TrackEnds(t: Track, end: int)
    requires Samples(t.ops) < UINT64 / 4 && end < UINT64 / 4
    ensures var flushed := LastGranule(WriterOf(t).pages, 0);
            var s := EndedStream(t, end);
            && Rising(s.pages)
            && LastGranule(s.pages, 0) == Max(NotBefore0(end), flushed)
            && LastGranule(s.pages, 0) <= Samples(Filled(t, end).ops)
            && (LastGranule(s.pages, 0) == NotBefore0(end) <==> flushed <= NotBefore0(end))
            && |s.pages| > 0 && s.pages[|s.pages| - 1].flags == EOS && s.pages[|s.pages| - 1].lacing != []
  {
    ClockIsTotal(t);
    var w := WriterOf(t);
    hide InStep, Run;
    var n := FillCount(w, end);
    FillCountReaches(w, end);
    FillInStep(w, n, NotBefore0(end));
    RunSplit(NewWriter(t.serial), t.ops, Silences(n));
    var filled := WriterOf(Filled(t, end));
    CloseEnds(filled, NotBefore0(end));
    SamplesSplit(t.ops, Silences(n));
    SamplesOfSilences(n);
    InStepPage(w);
    InStepPage(filled);
  }

  lemma InStepPage(w: Writer)
    requires InStep(w)
    ensures w.pageGranule == LastGranule(w.pages, 0) <= w.granule
  {
  }

  /** The closed track's file, read back, runs to the stop or to the last page flushed before it. */
  lemma EndedFileReads(t: Track, end: int)
    requires t.serial < UINT32
    requires Samples(t.ops) < UINT64 / 4 && end < UINT64 / 4
    requires forall i :: 0 <= i < |t.ops| ==> FitsAPage(t.ops[i])
    ensures StreamEndFrom(EncodeAll(EndedStream(t, end).pages), 0)
         == Max(NotBefore0(end), LastGranule(WriterOf(t).pages, 0))
  {
    TrackEnds(t, end);
    var s := EndedStream(t, end);
    var ops := Filled(t, end).ops;
    var bytes := EncodeAll(s.pages);
    hide Run, NewWriter, EncodeAll, StreamEndFrom, WholePages, CloseAt;
    assert forall i :: 0 <= i < |ops| ==> FitsAPage(ops[i]);
    CrashTruncation(t.serial, ops, Some(NotBefore0(end)), |bytes|);
    assert bytes[..|bytes|] == bytes;
    WholePagesOfAll(s.pages);
    assert s.pages[..|s.pages|] == s.pages;
  }

  lemma {:induction false} WholePagesOfAll(pages: seq<Page>)
    ensures WholePages(pages, |EncodeAll(pages)|) == |pages|
    decreases |pages|
  {
    hide Encode;
    if pages != [] {
      WholePagesOfAll(pages[1..]);
    }
  }
}
