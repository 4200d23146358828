/**
 * The streams the Ogg Opus writer of commands/recording_ogg.go makes: packets
 * gather into a page until it is full, is flushed, or is closed as the
 * stream's last. Writer is the writer's state as a value, with the functions
 * the writer's methods are proved against.
 */
module OggStreams {
  import opened Bytes
  import opened OggCrc
  import opened OggPages
  import opened Wrappers

  const UINT32 := 0x1_0000_0000
  const UINT64 := 0x1_0000_0000_0000_0000

  /** The largest packet a page's 255 lacing values can hold. */
  const MAX_PACKET := 254 * 255 + 254

  /** The identification header: two channels, no pre-skip, 48 kHz input, no gain (section 5.1 of RFC 7845). */
  const OPUS_HEAD: Packet :=
    [79, 112, 117, 115, 72, 101, 97, 100, 1, 2, 0, 0] + LittleEndian(48000, 4) + [0, 0, 0]
  /** The comment header: the vendor "cavbot2" and no comments (section 5.2 of RFC 7845). */
  const OPUS_TAGS: Packet :=
    [79, 112, 117, 115, 84, 97, 103, 115] + LittleEndian(7, 4) + [99, 97, 118, 98, 111, 116, 50] + LittleEndian(0, 4)

  // ---------------------------------------------------------------------------
  // Lacing values
  // ---------------------------------------------------------------------------

  function LacingOf(size: nat): (lacing: seq<byte>)
    ensures |lacing| == size / 255 + 1
    ensures Sum(lacing) == size
  {
    if size < 255 then [size]
    else
      var rest := LacingOf(size - 255);
      assert ([255] + rest)[1..] == rest;
      [255] + rest
  }

  /** A packet's lacing values end it: whatever was open before is closed with it. */
  lemma {:induction false} LacingEndsPacket(pkt: Packet, open: Packet)
    ensures Unlace(LacingOf(|pkt|), pkt, open) == ([open + pkt], [])
    decreases |pkt|
  {
    var lacing := LacingOf(|pkt|);
    if |pkt| < 255 {
      assert pkt[..|pkt|] == pkt;
      assert Unlace(lacing[1..], pkt[|pkt|..], []) == ([], []);
      assert [open + pkt] + [] == [open + pkt];
    } else {
      assert lacing[1..] == LacingOf(|pkt[255..]|);
      LacingEndsPacket(pkt[255..], open + pkt[..255]);
      assert open + pkt[..255] + pkt[255..] == open + pkt;
    }
  }

  // ---------------------------------------------------------------------------
  // The writer's state
  // ---------------------------------------------------------------------------

  /**
   * pages are the pages written out. granule is the stream's length so far in
   * samples, pageGranule the granule position of the last page written, and
   * lacing and body the page being filled.
   */
  datatype Writer = Writer(
    serial: nat, pages: seq<Page>, pageSeq: nat, granule: nat, pageGranule: nat, lacing: seq<byte>, body: seq<byte>)

  function PageOut(w: Writer, flags: byte, granule: nat, lacing: seq<byte>, body: seq<byte>): Writer {
    w.(pages := w.pages + [Page(flags, granule, w.serial, w.pageSeq, lacing, body)], pageSeq := (w.pageSeq + 1) % UINT32)
  }

  function NewWriter(serial: nat): Writer {
    var w := Writer(serial, [], 0, 0, 0, [], []);
    PageOut(PageOut(w, BOS, 0, [19], OPUS_HEAD), 0, 0, LacingOf(|OPUS_TAGS|), OPUS_TAGS)
  }

  function Emit(w: Writer, flags: byte): Writer {
    PageOut(w, flags, w.granule, w.lacing, w.body).(lacing := [], body := [], pageGranule := w.granule)
  }

  function Flush(w: Writer): Writer {
    if w.lacing == [] then w else Emit(w, 0)
  }

  function WritePacket(w: Writer, pkt: Packet, samples: nat): Writer {
    var lacing := LacingOf(|pkt|);
    var room := if |w.lacing| + |lacing| > MAX_SEGMENTS then Flush(w) else w;
    room.(lacing := room.lacing + lacing, body := room.body + pkt, granule := (room.granule + samples) % UINT64)
  }

  function Max(a: nat, b: nat): nat {
    if a < b then b else a
  }

  function CloseAt(w: Writer, end: nat): Writer {
    Emit(w.(granule := Max(end, w.pageGranule)), EOS)
  }

  datatype Op = Write(pkt: Packet, samples: nat) | FlushPage

  function Apply(w: Writer, op: Op): Writer {
    match op
    case Write(pkt, samples) => WritePacket(w, pkt, samples)
    case FlushPage => Flush(w)
  }

  function Run(w: Writer, ops: seq<Op>): Writer
    decreases |ops|
  {
    if ops == [] then w else Run(Apply(w, ops[0]), ops[1..])
  }

  function PacketsOf(ops: seq<Op>): seq<Packet>
    decreases |ops|
  {
    if ops == [] then []
    else PacketOf(ops[0]) + PacketsOf(ops[1..])
  }

  predicate FitsAPage(op: Op) {
    op.Write? ==> |op.pkt| <= MAX_PACKET
  }

  // ---------------------------------------------------------------------------
  // What every run keeps
  // ---------------------------------------------------------------------------

  /** A page that cuts its body into whole packets and leaves none open. */
  ghost predicate Whole(p: Page) {
    Sized(p) && UnlacePage(p, []).1 == []
  }

  /** The i-th page of a stream: numbered in order, and marked as the first only when it is. */
  ghost predicate PageSound(p: Page, serial: nat, i: nat) {
    && p.serial == serial && p.number == i % UINT32
    && (p.flags == BOS <==> i == 0)
    && p.granule < UINT64
  }

  ghost predicate Sound(w: Writer) {
    && w.serial < UINT32
    && |w.pages| >= 2
    && w.pageSeq == |w.pages| % UINT32
    && Sum(w.lacing) == |w.body|
    && Unlace(w.lacing, w.body, []).1 == []
    && (forall i :: 0 <= i < |w.pages| ==> Sized(w.pages[i]) && Whole(w.pages[i]) && PageSound(w.pages[i], w.serial, i))
    && w.granule < UINT64 && w.pageGranule < UINT64
    && w.pageGranule == LastGranule(w.pages, 0)
  }

  ghost function PagePackets(pages: seq<Page>): seq<Packet>
    requires forall i :: 0 <= i < |pages| ==> Sized(pages[i])
  {
    UnlacePages(pages, []).0
  }

  /** The packets in the pages written out, then those in the page being filled. */
  ghost function Packets(w: Writer): seq<Packet>
    requires Sound(w)
  {
    PagePackets(w.pages) + Unlace(w.lacing, w.body, []).0
  }

  lemma {:induction false} WholePagesLeaveNoneOpen(pages: seq<Page>)
    requires forall i :: 0 <= i < |pages| ==> Sized(pages[i]) && Whole(pages[i])
    ensures UnlacePages(pages, []).1 == []
    decreases |pages|
  {
    if pages != [] {
      WholePagesLeaveNoneOpen(pages[1..]);
    }
  }

  lemma PageAdded(pages: seq<Page>, p: Page)
    requires forall i :: 0 <= i < |pages| ==> Sized(pages[i]) && Whole(pages[i])
    requires Sized(p) && Whole(p)
    ensures PagePackets(pages + [p]) == PagePackets(pages) + UnlacePage(p, []).0
  {
    WholePagesLeaveNoneOpen(pages);
    UnlacePagesSplit(pages, [p], []);
    var (inPage, left) := UnlacePage(p, []);
    assert [p][1..] == [];
    assert UnlacePages([p], []) == (inPage + [], left);
    assert inPage + [] == inPage;
  }

  lemma Widths()
    ensures Pow256(4) == UINT32 && Pow256(8) == UINT64
  {
    assert Pow256(2) == 65536;
    assert Pow256(4) == 256 * (256 * Pow256(2));
    assert Pow256(6) == 256 * (256 * Pow256(4));
    assert Pow256(8) == 256 * (256 * Pow256(6));
  }

  lemma NewWriterSound(serial: nat)
    requires serial < UINT32
    ensures Sound(NewWriter(serial))
    ensures Packets(NewWriter(serial)) == [OPUS_HEAD, OPUS_TAGS]
    ensures Segmented(NewWriter(serial)) && NewWriter(serial).lacing == []
    ensures forall i :: 0 <= i < 2 ==> NewWriter(serial).pages[i].granule == 0 && NewWriter(serial).pages[i].flags != EOS
  {
    var w := NewWriter(serial);
    assert |OPUS_HEAD| == 19 && |OPUS_TAGS| == 23;
    assert LacingOf(19) == [19] && LacingOf(23) == [23];
    LacingEndsPacket(OPUS_HEAD, []);
    LacingEndsPacket(OPUS_TAGS, []);
    assert [] + OPUS_HEAD == OPUS_HEAD && [] + OPUS_TAGS == OPUS_TAGS;
    var head, tags := w.pages[0], w.pages[1];
    assert w.pages == [] + [head] + [tags];
    PageAdded([], head);
    PageAdded([head], tags);
    assert PagePackets([]) == [];
    assert [] + [head] == [head] && [head] + [tags] == w.pages;
    assert PagePackets([head]) == [] + [OPUS_HEAD] == [OPUS_HEAD];
  }

  /** Writing a page out moves its packets across and loses none, whatever granule position it carries. */
  lemma EmitKeeps(w: Writer, flags: byte)
    requires Sound(w) && flags != BOS
    ensures var e := Emit(w, flags);
            && Sound(e)
            && Packets(e) == Packets(w)
            && e.lacing == [] && e.pageGranule == e.granule == w.granule
  {
    var e := Emit(w, flags);
    var p := Page(flags, w.granule, w.serial, w.pageSeq, w.lacing, w.body);
    assert e.pages == w.pages + [p];
    PageAdded(w.pages, p);
    assert PageSound(p, w.serial, |w.pages|);
    SuccessorModulo(|w.pages|);
    assert PagePackets(e.pages) + [] == PagePackets(e.pages);
  }

  lemma SuccessorModulo(n: nat)
    ensures (n % UINT32 + 1) % UINT32 == (n + 1) % UINT32
  {
  }

  lemma FlushKeeps(w: Writer)
    requires Sound(w)
    ensures Sound(Flush(w)) && Packets(Flush(w)) == Packets(w) && (Flush(w).lacing == [])
  {
    hide Packets, PageSound;
    if w.lacing != [] {
      EmitKeeps(w, 0);
    }
  }

  lemma WriteAppends(w: Writer, pkt: Packet, samples: nat)
    requires Sound(w)
    ensures Sound(WritePacket(w, pkt, samples))
    ensures Packets(WritePacket(w, pkt, samples)) == Packets(w) + [pkt]
  {
    hide PageSound, PagePackets, Flush;
    var lacing := LacingOf(|pkt|);
    FlushKeeps(w);
    var room := if |w.lacing| + |lacing| > MAX_SEGMENTS then Flush(w) else w;
    UnlaceSplit(room.lacing, room.body, lacing, pkt, []);
    LacingEndsPacket(pkt, []);
    assert [] + pkt == pkt;
    var r := WritePacket(w, pkt, samples);
    assert Unlace(r.lacing, r.body, []) == (Unlace(room.lacing, room.body, []).0 + [pkt], []);
    assert PagePackets(r.pages) + (Unlace(room.lacing, room.body, []).0 + [pkt]) == Packets(room) + [pkt];
  }

  function PacketOf(op: Op): seq<Packet> {
    match op
    case Write(pkt, _) => [pkt]
    case FlushPage => []
  }

  lemma ApplyAppends(w: Writer, op: Op)
    requires Sound(w)
    ensures Sound(Apply(w, op)) && Packets(Apply(w, op)) == Packets(w) + PacketOf(op)
  {
    hide Packets, Sound, Flush, WritePacket;
    match op {
      case Write(pkt, samples) => WriteAppends(w, pkt, samples);
      case FlushPage =>
        FlushKeeps(w);
        assert Packets(w) + [] == Packets(w);
    }
  }

  lemma {:induction false} RunAppends(w: Writer, ops: seq<Op>)
    requires Sound(w)
    ensures Sound(Run(w, ops))
    ensures Packets(Run(w, ops)) == Packets(w) + PacketsOf(ops)
    decreases |ops|
  {
    hide Packets, Sound, Apply, PacketOf;
    if ops == [] {
      assert Packets(w) + [] == Packets(w);
    } else {
      ApplyAppends(w, ops[0]);
      RunAppends(Apply(w, ops[0]), ops[1..]);
      assert Packets(w) + PacketOf(ops[0]) + PacketsOf(ops[1..]) == Packets(w) + (PacketOf(ops[0]) + PacketsOf(ops[1..]));
    }
  }

  lemma CloseKeeps(w: Writer, end: nat)
    requires Sound(w) && end < UINT64
    ensures Sound(CloseAt(w, end)) && Packets(CloseAt(w, end)) == Packets(w)
    ensures CloseAt(w, end).lacing == []
  {
    EmitKeeps(w.(granule := Max(end, w.pageGranule)), EOS);
  }

  // ---------------------------------------------------------------------------
  // Which streams a strict reader reads back
  // ---------------------------------------------------------------------------

  /** At most 255 lacing values a page, in the pages out and the page being filled. */
  ghost predicate Segmented(w: Writer) {
    && |w.lacing| <= MAX_SEGMENTS
    && forall i :: 0 <= i < |w.pages| ==> |w.pages[i].lacing| <= MAX_SEGMENTS
  }

  lemma FlushSegments(w: Writer)
    ensures Segmented(Flush(w)) <==> Segmented(w)
  {
    if w.lacing != [] {
      var p := Page(0, w.granule, w.serial, w.pageSeq, w.lacing, w.body);
      assert Flush(w).pages == w.pages + [p];
      assert Flush(w).pages[|w.pages|] == p;
      assert forall i :: 0 <= i < |w.pages| ==> Flush(w).pages[i] == w.pages[i];
    }
  }

  /** A packet over the limit fills a page past what its header can count, and nothing mends that. */
  lemma WriteSegments(w: Writer, pkt: Packet, samples: nat)
    ensures Segmented(WritePacket(w, pkt, samples)) <==> Segmented(w) && |pkt| <= MAX_PACKET
  {
    hide Flush;
    FlushSegments(w);
    if w.lacing != [] {
      FlushedPage(w);
    }
  }

  lemma FlushedPage(w: Writer)
    requires w.lacing != []
    ensures Flush(w).pages == w.pages + [Page(0, w.granule, w.serial, w.pageSeq, w.lacing, w.body)]
    ensures Flush(w).lacing == []
  {
  }

  lemma ApplySegments(w: Writer, op: Op)
    ensures Segmented(Apply(w, op)) <==> Segmented(w) && FitsAPage(op)
  {
    match op {
      case Write(pkt, samples) => WriteSegments(w, pkt, samples);
      case FlushPage => FlushSegments(w);
    }
  }

  lemma {:induction false} RunSegments(w: Writer, ops: seq<Op>)
    ensures Segmented(Run(w, ops)) <==> Segmented(w) && forall i :: 0 <= i < |ops| ==> FitsAPage(ops[i])
    decreases |ops|
  {
    hide Segmented, FitsAPage, Apply;
    if ops != [] {
      ApplySegments(w, ops[0]);
      RunSegments(Apply(w, ops[0]), ops[1..]);
      assert forall i :: 0 < i < |ops| ==> ops[i] == ops[1..][i - 1];
    }
  }

  lemma CloseSegments(w: Writer, end: nat)
    ensures Segmented(CloseAt(w, end)) <==> Segmented(w)
  {
    var p := Page(EOS, Max(end, w.pageGranule), w.serial, w.pageSeq, w.lacing, w.body);
    var c := CloseAt(w, end);
    assert c.pages == w.pages + [p];
    assert c.pages[|w.pages|] == p;
    assert forall i :: 0 <= i < |w.pages| ==> c.pages[i] == w.pages[i];
  }

  lemma PagesFit(w: Writer)
    requires Sound(w) && Segmented(w)
    ensures forall i :: 0 <= i < |w.pages| ==> Fits(w.pages[i])
  {
    Widths();
  }

  /** No page out is marked as the stream's end, and only the first as its start. */
  ghost predicate Open(w: Writer) {
    forall i :: 0 <= i < |w.pages| ==> w.pages[i].flags == if i == 0 then BOS else 0
  }

  lemma {:induction false} RunStaysOpen(w: Writer, ops: seq<Op>)
    requires Open(w) && w.pages != []
    ensures Open(Run(w, ops))
    decreases |ops|
  {
    if ops != [] {
      RunStaysOpen(Apply(w, ops[0]), ops[1..]);
    }
  }

  /** A whole stream's first page is marked as its start and its last as its end, and no other is marked at all. */
  lemma StreamMarks(serial: nat, ops: seq<Op>, end: nat)
    ensures var pages := Stream(serial, ops, end).pages;
            forall i :: 0 <= i < |pages| ==> pages[i].flags == if i == 0 then BOS else if i == |pages| - 1 then EOS else 0
  {
    RunStaysOpen(NewWriter(serial), ops);
    RunKeepsHeaders(NewWriter(serial), ops);
  }

  /** A whole stream: its two header pages, a run of packets and flushes, and its last page. */
  function Stream(serial: nat, ops: seq<Op>, end: nat): Writer {
    CloseAt(Run(NewWriter(serial), ops), end)
  }

  /**
   * The stream the writer makes holds exactly the packets written, in order
   * and byte for byte, and no packet runs across two pages.
   */
  lemma StreamHoldsPackets(serial: nat, ops: seq<Op>, end: nat)
    requires serial < UINT32 && end < UINT64
    ensures var w := Stream(serial, ops, end);
            && Sound(w)
            && UnlacePages(w.pages, []) == ([OPUS_HEAD, OPUS_TAGS] + PacketsOf(ops), [])
            && (forall i :: 0 <= i < |w.pages| ==> Sized(w.pages[i]) && UnlacePage(w.pages[i], []).1 == [])
            && (forall i :: 0 <= i < |w.pages| ==> w.pages[i].number == i % UINT32)
  {
    hide Run, NewWriter, CloseAt;
    NewWriterSound(serial);
    RunAppends(NewWriter(serial), ops);
    CloseKeeps(Run(NewWriter(serial), ops), end);
    var w := Stream(serial, ops, end);
    WholePagesLeaveNoneOpen(w.pages);
    assert Unlace([], [], []).0 == [];
    assert PagePackets(w.pages) + [] == PagePackets(w.pages);
  }

  /**
   * The round trip: a strict reader of the format reads the bytes back as the
   * pages written, exactly when every packet fits a page. A longer packet
   * gives its page more lacing values than the header's one byte counts.
   */
  lemma RoundTrip(serial: nat, ops: seq<Op>, end: nat)
    requires serial < UINT32 && end < UINT64
    ensures var w := Stream(serial, ops, end);
            ParsePages(EncodeAll(w.pages)) == Some(w.pages) <==> forall i :: 0 <= i < |ops| ==> FitsAPage(ops[i])
  {
    hide Run, NewWriter, CloseAt, ParsePages, EncodeAll;
    var w := Stream(serial, ops, end);
    NewWriterSound(serial);
    RunSegments(NewWriter(serial), ops);
    CloseSegments(Run(NewWriter(serial), ops), end);
    StreamHoldsPackets(serial, ops, end);
    if forall i :: 0 <= i < |ops| ==> FitsAPage(ops[i]) {
      PagesFit(w);
      ParseAllEncoded(w.pages);
    } else {
      CloseAtLacing(Run(NewWriter(serial), ops), end);
      assert !Segmented(w);
    }
  }

  const ONE_TOO_LONG: Packet := seq(MAX_PACKET + 1, _ => 0)

  /** A stream of one packet of 65,025 bytes is not read back. */
  lemma LongPacketIsLost()
    ensures |ONE_TOO_LONG| == 65025
    ensures var w := Stream(0, [Write(ONE_TOO_LONG, 960)], 960);
            ParsePages(EncodeAll(w.pages)) != Some(w.pages)
  {
    var ops := [Write(ONE_TOO_LONG, 960)];
    assert !FitsAPage(ops[0]);
    RoundTrip(0, ops, 960);
  }

  lemma CloseAtLacing(w: Writer, end: nat)
    ensures CloseAt(w, end).lacing == []
  {
  }

  // ---------------------------------------------------------------------------
  // Pages go out full
  // ---------------------------------------------------------------------------

  /** How many of the lacing values are the first packet's. */
  function FirstSegments(lacing: seq<byte>): nat {
    if lacing == [] then 0 else if lacing[0] < 255 then 1 else 1 + FirstSegments(lacing[1..])
  }

  /** The lacing values close their last packet. */
  predicate Closed(lacing: seq<byte>) {
    lacing == [] || lacing[|lacing| - 1] < 255
  }

  lemma {:induction false} FirstOfMore(lacing: seq<byte>, more: seq<byte>)
    requires lacing != [] && Closed(lacing)
    ensures FirstSegments(lacing + more) == FirstSegments(lacing)
    decreases |lacing|
  {
    if lacing[0] == 255 {
      assert (lacing + more)[1..] == lacing[1..] + more;
      FirstOfMore(lacing[1..], more);
    }
  }

  lemma {:induction false} LacingIsOnePacket(size: nat)
    ensures Closed(LacingOf(size)) && FirstSegments(LacingOf(size)) == |LacingOf(size)|
    decreases size
  {
    if size >= 255 {
      assert LacingOf(size)[1..] == LacingOf(size - 255);
      LacingIsOnePacket(size - 255);
    }
  }

  /** The second page's first packet had no room on the first. */
  predicate NoRoom(lacing: seq<byte>, next: seq<byte>) {
    |lacing| + FirstSegments(next) > MAX_SEGMENTS
  }

  /** From the base on, each page was full for the packet that opens the next, the page being filled included. */
  ghost predicate PagesFull(w: Writer, base: nat) {
    && Closed(w.lacing)
    && (forall i :: base <= i < |w.pages| - 1 ==> NoRoom(w.pages[i].lacing, w.pages[i + 1].lacing))
    && (base < |w.pages| ==> w.lacing != [] && NoRoom(w.pages[|w.pages| - 1].lacing, w.lacing))
  }

  lemma JoinsThePage(w: Writer, pkt: Packet, samples: nat, base: nat)
    requires PagesFull(w, base) && base <= |w.pages| && |w.lacing| + |LacingOf(|pkt|)| <= MAX_SEGMENTS
    ensures PagesFull(WritePacket(w, pkt, samples), base)
  {
    LacingIsOnePacket(|pkt|);
    if w.lacing == [] {
      assert w.lacing + LacingOf(|pkt|) == LacingOf(|pkt|);
    } else {
      FirstOfMore(w.lacing, LacingOf(|pkt|));
    }
    hide LacingOf, FirstSegments;
  }

  lemma OpensAPage(w: Writer, pkt: Packet, samples: nat, base: nat)
    requires PagesFull(w, base) && base <= |w.pages| && |w.lacing| + |LacingOf(|pkt|)| > MAX_SEGMENTS
    ensures PagesFull(WritePacket(w, pkt, samples), base)
  {
    LacingIsOnePacket(|pkt|);
    hide LacingOf, FirstSegments;
    var room, out := Flush(w), WritePacket(w, pkt, samples);
    assert out.lacing == LacingOf(|pkt|) by {
      assert [] + LacingOf(|pkt|) == LacingOf(|pkt|);
    }
    if w.lacing != [] {
      assert room.pages == w.pages + [room.pages[|w.pages|]] && room.pages[|w.pages|].lacing == w.lacing;
    }
  }

  lemma WriteKeepsFull(w: Writer, pkt: Packet, samples: nat, base: nat)
    requires PagesFull(w, base) && base <= |w.pages|
    ensures PagesFull(WritePacket(w, pkt, samples), base)
  {
    if |w.lacing| + |LacingOf(|pkt|)| > MAX_SEGMENTS {
      OpensAPage(w, pkt, samples, base);
    } else {
      JoinsThePage(w, pkt, samples, base);
    }
    hide PagesFull, WritePacket;
  }

  /**
   * With no flush between them, packets share pages as far as they fit: each page
   * that went out had no room for the packet that opens the next one.
   */
  lemma {:induction false} PagesGoOutFull(w: Writer, ops: seq<Op>, base: nat)
    requires PagesFull(w, base) && base <= |w.pages| && forall i :: 0 <= i < |ops| ==> ops[i].Write?
    ensures PagesFull(Run(w, ops), base)
    decreases |ops|
  {
    if ops != [] {
      hide PagesFull, WritePacket;
      WriteKeepsFull(w, ops[0].pkt, ops[0].samples, base);
      PagesGrow(w, ops[0].pkt, ops[0].samples);
      PagesGoOutFull(Apply(w, ops[0]), ops[1..], base);
    }
  }

  lemma PagesGrow(w: Writer, pkt: Packet, samples: nat)
    ensures |w.pages| <= |WritePacket(w, pkt, samples).pages|
  {
    hide LacingOf;
  }

  // ---------------------------------------------------------------------------
  // Granule positions
  // ---------------------------------------------------------------------------

  ghost predicate Rising(pages: seq<Page>) {
    forall i, j :: 0 <= i < j < |pages| ==> pages[i].granule <= pages[j].granule
  }

  /** How the writer's clock stands while its 64-bit count has not wrapped. */
  ghost predicate InStep(w: Writer) {
    && Rising(w.pages)
    && w.pageGranule == LastGranule(w.pages, 0)
    && w.pageGranule <= w.granule
    && (w.lacing == [] ==> w.pageGranule == w.granule)
  }

  function Samples(ops: seq<Op>): nat
    decreases |ops|
  {
    if ops == [] then 0 else (if ops[0].Write? then ops[0].samples else 0) + Samples(ops[1..])
  }

  lemma FlushInStep(w: Writer)
    requires InStep(w)
    ensures InStep(Flush(w)) && Flush(w).granule == w.granule
  {
  }

  lemma WriteInStep(w: Writer, pkt: Packet, samples: nat)
    requires InStep(w) && w.granule + samples < UINT64
    ensures InStep(WritePacket(w, pkt, samples))
    ensures WritePacket(w, pkt, samples).granule == w.granule + samples
    ensures w.pageGranule <= WritePacket(w, pkt, samples).pageGranule <= w.granule
    ensures WritePacket(w, pkt, samples).pageGranule in {w.pageGranule, w.granule}
  {
    hide Flush, InStep;
    FlushInStep(w);
    InStepFlushed(w);
    var room := if |w.lacing| + |LacingOf(|pkt|)| > MAX_SEGMENTS then Flush(w) else w;
    InStepFilled(room, pkt, samples);
  }

  lemma InStepFlushed(w: Writer)
    requires InStep(w)
    ensures w.pageGranule <= w.granule && Flush(w).pageGranule == Flush(w).granule == w.granule
  {
  }

  lemma InStepFilled(w: Writer, pkt: Packet, samples: nat)
    requires InStep(w) && w.granule + samples < UINT64
    ensures InStep(w.(lacing := w.lacing + LacingOf(|pkt|), body := w.body + pkt, granule := (w.granule + samples) % UINT64))
    ensures (w.granule + samples) % UINT64 == w.granule + samples
  {
  }

  lemma {:induction false} RunInStep(w: Writer, ops: seq<Op>)
    requires InStep(w) && w.granule + Samples(ops) < UINT64
    ensures InStep(Run(w, ops)) && Run(w, ops).granule == w.granule + Samples(ops)
    decreases |ops|
  {
    hide InStep, WritePacket, Flush;
    if ops != [] {
      match ops[0] {
        case Write(pkt, samples) => WriteInStep(w, pkt, samples);
        case FlushPage => FlushInStep(w);
      }
      RunInStep(Apply(w, ops[0]), ops[1..]);
    }
  }

  /**
   * Closing: page granules never fall, only the last page is marked as the
   * end, and the last page ends at the end asked for, or where the page before
   * it ended when that is later.
   */
  lemma CloseEnds(w: Writer, end: nat)
    requires InStep(w)
    ensures var c := CloseAt(w, end);
            && Rising(c.pages)
            && LastGranule(c.pages, 0) == Max(end, LastGranule(w.pages, 0))
            && (forall i :: 0 <= i < |w.pages| ==> c.pages[i] == w.pages[i])
            && |c.pages| == |w.pages| + 1 && c.pages[|w.pages|].flags == EOS
  {
  }

  // ---------------------------------------------------------------------------
  // A file a crash cut short
  // ---------------------------------------------------------------------------

  /**
   * However many of the stream's bytes reached the disk, the file reads as
   * long as the last page wholly there says, and as 0 while no audio page is.
   */
  lemma CrashTruncation(serial: nat, ops: seq<Op>, closedAt: Option<nat>, k: nat)
    requires serial < UINT32 && (closedAt.Some? ==> closedAt.value < UINT64)
    requires forall i :: 0 <= i < |ops| ==> FitsAPage(ops[i])
    ensures var w := Left(serial, ops, closedAt);
            var whole := WholePages(w.pages, k);
            k <= |EncodeAll(w.pages)| ==>
              && StreamEndFrom(EncodeAll(w.pages)[..k], 0) == LastGranule(w.pages[..whole], 0)
              && (whole <= 2 ==> StreamEndFrom(EncodeAll(w.pages)[..k], 0) == 0)
  {
    hide Run, NewWriter, CloseAt, StreamEndFrom, EncodeAll, Sound, Segmented, Apply;
    var start := NewWriter(serial);
    NewWriterSound(serial);
    RunAppends(start, ops);
    RunSegments(start, ops);
    RunKeepsHeaders(start, ops);
    var w := Left(serial, ops, closedAt);
    if closedAt.Some? {
      CloseKeeps(Run(start, ops), closedAt.value);
      CloseSegments(Run(start, ops), closedAt.value);
      CloseAdds(Run(start, ops), closedAt.value);
    }
    PagesFit(w);
    if k <= |EncodeAll(w.pages)| {
      CutShortEndsAtLastWholePage(w.pages, k, 0);
    }
    assert |start.pages| == 2 by { StartPages(serial); }
  }

  function Left(serial: nat, ops: seq<Op>, closedAt: Option<nat>): Writer {
    if closedAt.Some? then Stream(serial, ops, closedAt.value) else Run(NewWriter(serial), ops)
  }

  lemma StartPages(serial: nat)
    ensures |NewWriter(serial).pages| == 2
  {
  }

  lemma CloseAdds(w: Writer, end: nat)
    ensures w.pages <= CloseAt(w, end).pages
  {
  }

  lemma {:induction false} RunKeepsHeaders(w: Writer, ops: seq<Op>)
    ensures w.pages <= Run(w, ops).pages
    decreases |ops|
  {
    if ops != [] {
      RunKeepsHeaders(Apply(w, ops[0]), ops[1..]);
    }
  }
}
