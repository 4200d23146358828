/**
 * The track itself (commands/recording_tracks.go): one speaker's file, over
 * the Ogg writer its packets go to. Each method is proved against its
 * function in OpusTracks.
 */
module OpusTrackFiles {
  import opened Bytes
  import opened OggCrc
  import opened OggPages
  import opened OggStreams
  import opened OggWriters
  import opened OpusTracks
  import opened Wrappers

  class TrackFile {
    const ogg: OggWriter
    var started: bool
    var ssrc: nat
    var nextTS: nat
    /** What has been put to the stream. */
    ghost var ops: seq<Op>

    ghost predicate Valid()
      reads this, ogg
    {
      && ogg.Valid()
      && ogg.State() == Run(NewWriter(ogg.serial), ops)
    }

    ghost function State(): Track
      reads this
    {
      Track(ogg.serial, ops, started, ssrc, nextTS)
    }

    constructor (serial: nat, table: seq<bv32>)
      requires serial < UINT32
      requires |table| == 256 && forall i: byte :: table[i] == OggCrcTable(i)
      ensures Valid() && fresh(ogg) && State() == NewTrack(serial)
    {
      ogg := new OggWriter(serial, table);
      started, ssrc, nextTS, ops := false, 0, 0, [];
    }

    method Write(pkt: Packet, samples: nat)
      requires Valid()
      modifies this`ops, ogg
      ensures Valid() && ops == old(ops) + [Op.Write(pkt, samples)]
    {
      hide NewWriter, WritePacket;
      ogg.WritePacket(pkt, samples);
      ghost var op := Op.Write(pkt, samples);
      RunSplit(NewWriter(ogg.serial), ops, [op]);
      assert [op][1..] == [];
      ops := ops + [op];
    }

    /** place: a packet where it belongs, with the gap before it filled with silence. */
    method Place(f: Frame, wallClock: int)
      requires Valid()
      modifies this, ogg
      ensures Valid() && State() == OpusTracks.Place(old(State()), f, wallClock)
    {
      hide NewWriter, Run, OpusPacketSamples, Int64, Int32, Samples, OggWriter.Valid;
      var wallGap := Int64(wallClock - Int64(ogg.granule));
      var gap := wallGap;
      if started && f.ssrc == ssrc {
        gap := Int32(f.timestamp - nextTS);
        if gap < 0 {
          return;
        }
        if Int64(gap - wallGap) > MAX_RTP_DRIFT || Int64(wallGap - gap) > MAX_RTP_DRIFT {
          gap := wallGap;
        }
      }
      assert GapBefore(old(State()), f, wallClock) == Some(gap);
      hide GapBefore, WriterOf;
      started, ssrc := true, f.ssrc;
      var samples := OpusPacketSamples(f.opus);
      nextTS := (f.timestamp + samples) % UINT32;
      ghost var n := WholeSilences(gap);
      ghost var k := 0;
      while gap >= SILENCE_SAMPLES
        invariant Valid()
        invariant k <= n && WholeSilences(gap) == n - k
        invariant ops == old(ops) + Silences(k)
        invariant started && ssrc == f.ssrc && nextTS == (f.timestamp + samples) % UINT32
      {
        Write(SILENCE, SILENCE_SAMPLES);
        assert Silences(k) + [Op.Write(SILENCE, SILENCE_SAMPLES)] == Silences(k + 1);
        gap := gap - SILENCE_SAMPLES;
        k := k + 1;
      }
      Write(f.opus, samples);
    }

    /** flush: the page being filled goes out to disk. */
    method Flush()
      requires Valid()
      modifies this`ops, ogg
      ensures Valid() && State() == FlushTrack(old(State()))
    {
      hide NewWriter, OggStreams.Flush;
      ogg.Flush();
      RunSplit(NewWriter(ogg.serial), ops, [FlushPage]);
      assert [FlushPage][1..] == [];
      ops := ops + [FlushPage];
    }

    /** end: silence to the recording's end, and the last page. */
    method End(end: int)
      requires Valid() && Samples(ops) < UINT64 / 8 && end < UINT64 / 8
      modifies this, ogg
      ensures ogg.Valid() && ogg.State() == EndedStream(old(State()), end)
    {
      ghost var t := State();
      ghost var w := ogg.State();
      ghost var n := FillCount(w, end);
      ClockIsTotal(t);
      FillCountReaches(w, end);
      hide NewWriter, Run, InStep;
      ghost var k := 0;
      assert Silences(0) == [] && ops + [] == ops;
      while Int64(ogg.granule) < end || !ogg.Pending()
        invariant Valid()
        invariant k <= n && ops == t.ops + Silences(k)
        invariant ogg.serial == t.serial
        invariant ogg.granule == w.granule + 960 * k && w.granule == Samples(t.ops)
        invariant k > 0 || w.lacing != [] <==> ogg.Pending()
        decreases n - k
      {
        NoWrap(ogg.granule);
        FillOne(t, k);
        Write(SILENCE, SILENCE_SAMPLES);
        assert Silences(k) + [Op.Write(SILENCE, SILENCE_SAMPLES)] == Silences(k + 1);
        assert ops == t.ops + Silences(k + 1);
        k := k + 1;
      }
      NoWrap(ogg.granule);
      assert k == n;
      ogg.CloseAt(if end < 0 then 0 else end);
    }
  }

  /** How the clock and the page being filled stand after k + 1 silence frames. */
  lemma FillOne(t: Track, k: nat)
    requires Samples(t.ops) + 960 * (k + 1) < UINT64
    ensures var r := Run(NewWriter(t.serial), t.ops + Silences(k + 1));
            r.granule == Samples(t.ops) + 960 * (k + 1) && r.lacing != []
  {
    var write := Op.Write(SILENCE, SILENCE_SAMPLES);
    assert t.ops + Silences(k + 1) == t.ops + Silences(k) + [write];
    SamplesSplit(t.ops, Silences(k + 1));
    SamplesOfSilences(k + 1);
    ClockIsTotal(t.(ops := t.ops + Silences(k + 1)));
    RunSplit(NewWriter(t.serial), t.ops + Silences(k), [write]);
    assert [write][1..] == [];
  }
}
