/**
 * What a crash leaves of a recording (commands/recording_recovery.go,
 * commands/recording_tracks.go): however many bytes a flush had written and
 * whatever reached the disk after it, every speaker's track reads at least as
 * long as it was at that flush.
 */
module CrashRecoveries {
  import opened Bytes
  import opened OggPages
  import opened OggStreams
  import opened OpusTracks
  import opened RecordingRecoveries
  import opened Wrappers

  // ---------------------------------------------------------------------------
  // A flush leaves nothing behind
  // ---------------------------------------------------------------------------

  /** A flushed track's pages hold every packet placed, and the last ends where the track does. */
  lemma FlushLeavesNothing(t: Track)
    requires Samples(t.ops) < UINT64
    ensures var w := WriterOf(FlushTrack(t));
            && w.lacing == [] && w.granule == Samples(t.ops) == LastGranule(w.pages, 0) && Rising(w.pages)
  {
    RunSplit(NewWriter(t.serial), t.ops, [FlushPage]);
    assert [FlushPage][1..] == [];
    ClockIsTotal(t);
    assert WriterOf(FlushTrack(t)) == Flush(WriterOf(t));
    hide Run, NewWriter, Samples;
    FlushInStep(WriterOf(t));
  }

  // ---------------------------------------------------------------------------
  // Tracks only grow
  // ---------------------------------------------------------------------------

  ghost predicate GrownFrom(t: Track, u: Track) {
    t.serial == u.serial && t.ops <= u.ops
  }

  lemma PlaceGrows(t: Track, f: Frame, wallClock: int)
    ensures GrownFrom(t, Place(t, f, wallClock)) && GrownFrom(t, FlushTrack(t))
  {
    hide GapBefore, OpusPacketSamples, Silences;
  }

  lemma {:induction false} TracksGrow(events: seq<Heard>, k: nat, user: UserID)
    requires k <= |events| && user in Record(events[..k]).bySpeaker
    ensures user in Record(events).bySpeaker && GrownFrom(Record(events[..k]).bySpeaker[user], Record(events).bySpeaker[user])
    decreases |events|
  {
    if k == |events| {
      assert events[..k] == events;
    } else {
      var rest, e := events[..|events| - 1], events[|events| - 1];
      assert rest[..k] == events[..k];
      TracksGrow(rest, k, user);
      TracksAreTheirOwn(rest, user);
      var t := Record(rest).bySpeaker[user];
      match e {
        case Hear(u, f, arrival) => PlaceGrows(t, f, SamplesAt(arrival));
        case FlushAll => PlaceGrows(t, Frame(0, 0, []), 0);
      }
      hide Place, FlushTrack, SamplesAt, SerialOf;
    }
  }

  lemma PagesGrow(t: Track, u: Track)
    requires GrownFrom(t, u)
    ensures WriterOf(t).pages <= WriterOf(u).pages
  {
    var more := u.ops[|t.ops|..];
    assert u.ops == t.ops + more;
    RunSplit(NewWriter(t.serial), t.ops, more);
    RunKeepsHeaders(WriterOf(t), more);
    hide Run, NewWriter;
  }

  // ---------------------------------------------------------------------------
  // What a crash leaves
  // ---------------------------------------------------------------------------

  lemma {:induction false} EncodedNoShorter(pages: seq<Page>, n: nat, m: nat)
    requires n <= m <= |pages|
    ensures |EncodeAll(pages[..n])| <= |EncodeAll(pages[..m])|
  {
    hide EncodeAll, Encode;
    EncodeAllSplit(pages[..n], pages[n..m]);
    assert pages[..m] == pages[..n] + pages[n..m];
  }

  /** Once a prefix of the pages is wholly on disk, no fewer count as whole. */
  lemma PrefixIsWhole(pages: seq<Page>, n: nat, k: nat)
    requires n <= |pages| && |EncodeAll(pages[..n])| <= k
    ensures WholePages(pages, k) >= n
  {
    WholePagesIsMost(pages, k);
    var whole := WholePages(pages, k);
    hide WholePages, EncodeAll;
    if whole < n {
      EncodedNoShorter(pages, whole + 1, n);
    }
  }

  lemma LaterEndsLater(pages: seq<Page>, n: nat, m: nat)
    requires Rising(pages) && n <= m <= |pages|
    ensures LastGranule(pages[..n], 0) <= LastGranule(pages[..m], 0)
  {}

  lemma OnePage(p: Page)
    ensures EncodeAll([p]) == Encode(p) && |Encode(p)| > 0
  {
    assert [p][1..] == [];
    hide EncodeAll, LittleEndian, Sum;
  }

  lemma NextPageIsMore(pages: seq<Page>, n: nat)
    requires n < |pages|
    ensures |EncodeAll(pages[..n])| < |EncodeAll(pages[..n + 1])|
  {
    hide Encode, EncodeAll;
    OnePage(pages[n]);
    EncodeAllSplit(pages[..n], [pages[n]]);
    assert pages[..n + 1] == pages[..n] + [pages[n]];
  }

  lemma WholeAtAPage(pages: seq<Page>, n: nat)
    requires n <= |pages|
    ensures WholePages(pages, |EncodeAll(pages[..n])|) == n
  {
    hide WholePages, EncodeAll;
    var k := |EncodeAll(pages[..n])|;
    PrefixIsWhole(pages, n, k);
    WholePagesIsMost(pages, k);
    if n < |pages| {
      NextPageIsMore(pages, n);
      if n < WholePages(pages, k) {
        EncodedNoShorter(pages, n + 1, WholePages(pages, k));
      }
    }
  }

  lemma FlushedTrackReads(t: Track, u: Track, limit: nat, bytes: nat)
    requires Samples(t.ops) < UINT64 && GrownFrom(FlushTrack(t), u) && Kept(u, limit) && limit < UINT64 / 8
    requires |EncodeAll(WriterOf(FlushTrack(t)).pages)| <= bytes <= |EncodeAll(WriterOf(u).pages)|
    ensures var end := StreamEndFrom(EncodeAll(WriterOf(u).pages)[..bytes], 0);
            && EncodeAll(WriterOf(FlushTrack(t)).pages) <= EncodeAll(WriterOf(u).pages)
            && end >= Samples(t.ops)
            && (bytes == |EncodeAll(WriterOf(FlushTrack(t)).pages)| ==> end == Samples(t.ops))
  {
    FlushLeavesNothing(t);
    PagesGrow(FlushTrack(t), u);
    CrashTruncation(u.serial, u.ops, None, bytes);
    LeftRises(u.serial, u.ops, None);
    var before, pages := WriterOf(FlushTrack(t)).pages, WriterOf(u).pages;
    assert pages == Left(u.serial, u.ops, None).pages;
    hide WriterOf, FlushTrack, Left, StreamEndFrom, EncodeAll, Kept;
    assert pages[..|before|] == before && pages == before + pages[|before|..];
    EncodeAllSplit(before, pages[|before|..]);
    PrefixIsWhole(pages, |before|, bytes);
    LaterEndsLater(pages, |before|, WholePages(pages, bytes));
    if bytes == |EncodeAll(before)| {
      WholeAtAPage(pages, |before|);
    }
  }

  /**
   * A track flushed after the first k events of a recording and read back after
   * a crash, with every byte that flush had written on disk and any number of
   * those written since, runs at least as long as it was when it was flushed; and
   * with no byte since, just as long.
   */
  lemma CrashKeepsWhatWasFlushed(events: seq<Heard>, k: nat, user: UserID, bytes: nat)
    requires Plausible(events) && k < |events| && events[k] == FlushAll && user in Record(events[..k]).bySpeaker
    requires user in Record(events).bySpeaker && bytes <= |EncodeAll(WriterOf(Record(events).bySpeaker[user]).pages)|
    requires |EncodeAll(WriterOf(FlushTrack(Record(events[..k]).bySpeaker[user])).pages)| <= bytes
    ensures var t, now := Record(events[..k]).bySpeaker[user], WriterOf(Record(events).bySpeaker[user]);
            var flushed := EncodeAll(WriterOf(FlushTrack(t)).pages);
            var end := StreamEndFrom(EncodeAll(now.pages)[..bytes], 0);
            && flushed <= EncodeAll(now.pages)
            && end >= Samples(t.ops) && (bytes == |flushed| ==> end == Samples(t.ops))
  {
    hide Plausible, WriterOf, FlushTrack, EncodeAll, StreamEndFrom, Record;
    EarlierIsPlausible(events, k);
    RecordKeeps(events);
    RecordKeeps(events[..k]);
    ReachIsFar(|events|);
    ReachIsFar(k);
    FlushedIsRecorded(events, k, user);
    TracksGrow(events, k + 1, user);
    FlushedTrackReads(Record(events[..k]).bySpeaker[user], Record(events).bySpeaker[user], Reach(|events|), bytes);
  }

  lemma EarlierIsPlausible(events: seq<Heard>, k: nat)
    requires Plausible(events) && k <= |events|
    ensures Plausible(events[..k]) && |events| <= MOST_EVENTS
  {}

  lemma FlushedIsRecorded(events: seq<Heard>, k: nat, user: UserID)
    requires k < |events| && events[k] == FlushAll && user in Record(events[..k]).bySpeaker
    ensures var r := Record(events[..k + 1]).bySpeaker;
            user in r && r[user] == FlushTrack(Record(events[..k]).bySpeaker[user])
  {
    assert events[..k + 1][..k] == events[..k];
    TracksAreTheirOwn(events[..k], user);
    hide FlushTrack, Live;
  }

  // ---------------------------------------------------------------------------
  // Who recovery lists
  // ---------------------------------------------------------------------------

  /**
   * Recovery lists exactly the speakers of the readable tracks, their track lost
   * if and only if it is silent, and removes exactly the silent tracks it can.
   */
  lemma {:induction false} ListedAsRead(entries: seq<Entry>, stuck: set<string>, s: Speaker, name: string)
    ensures s in Speakers(entries) <==>
            exists i :: 0 <= i < |entries| && Readable(entries[i]) && s == Speaker(SpeakerID(entries[i]), IsSilent(entries[i]))
    ensures name in Removed(entries, stuck) <==>
            name !in stuck && exists i :: 0 <= i < |entries| && IsSilent(entries[i]) && entries[i].name == name
    decreases |entries|
  {
    hide StreamEndFrom, TrackEnd;
    if entries != [] {
      var rest := entries[..|entries| - 1];
      ListedAsRead(rest, stuck, s, name);
      assert forall i :: 0 <= i < |rest| ==> rest[i] == entries[i];
    }
  }

  /** The entries something went wrong with: tracks that cannot be read, and silent ones that cannot be removed. */
  function Wrong(entries: seq<Entry>, stuck: set<string>): set<nat> {
    set i: nat | i < |entries| && IsTrack(entries[i]) && (entries[i].content.None? || (TrackEnd(entries[i]) == 0 && entries[i].name in stuck))
  }

  /** Recovery counts an error for each of them and for no other entry. */
  lemma {:induction false} EachErrorCounts(entries: seq<Entry>, stuck: set<string>)
    ensures Failures(entries, stuck) == |Wrong(entries, stuck)|
    decreases |entries|
  {
    hide StreamEndFrom, TrackEnd;
    if entries != [] {
      var n := |entries| - 1;
      EachErrorCounts(entries[..n], stuck);
      var before, now := Wrong(entries[..n], stuck), Wrong(entries, stuck);
      assert now == if n in now then before + {n} else before;
    }
  }
}
