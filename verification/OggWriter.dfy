/**
 * The Ogg Opus writer of commands/recording_ogg.go, over the bytes it hands
 * to the file. Each method is proved against its function in OggStreams.
 */
module OggWriters {
  import opened Bytes
  import opened OggCrc
  import opened OggPages
  import opened OggStreams

  method ComputeLacing(size: nat) returns (lacing: seq<byte>)
    ensures lacing == LacingOf(size)
  {
    lacing := [];
    var left := size;
    while left >= 255
      invariant lacing + LacingOf(left) == LacingOf(size)
    {
      assert lacing + LacingOf(left) == (lacing + [255]) + LacingOf(left - 255);
      lacing := lacing + [255];
      left := left - 255;
    }
    lacing := lacing + [left];
  }

  /** Copies s into a buffer, as copy and the PutUint calls do. */
  method Put(a: array<byte>, at: nat, s: seq<byte>)
    requires at + |s| <= a.Length
    modifies a
    ensures a[..] == old(a[..at]) + s + old(a[at + |s|..])
  {
    for k := 0 to |s|
      invariant a[..at] == old(a[..at])
      invariant a[at..at + k] == s[..k]
      invariant a[at + k..] == old(a[at + k..])
    {
      a[at + k] := s[k];
      assert a[at..at + k + 1] == a[at..at + k] + [s[k]];
      assert old(a[at + k..])[1..] == old(a[at + k + 1..]);
    }
    assert a[..] == a[..at] + a[at..at + |s|] + a[at + |s|..];
  }

  class OggWriter {
    /** The bytes handed to the underlying writer. */
    var out: seq<byte>
    const serial: nat
    var pageSeq: nat
    var granule: nat
    var pageGranule: nat
    var lacing: seq<byte>
    var body: seq<byte>
    const table: seq<bv32>
    ghost var pages: seq<Page>

    ghost predicate Valid()
      reads this
    {
      && out == EncodeAll(pages)
      && |table| == 256 && (forall i: byte :: table[i] == OggCrcTable(i))
      && serial < UINT32 && pageSeq < UINT32 && granule < UINT64 && pageGranule < UINT64
    }

    ghost function State(): Writer
      reads this
    {
      Writer(serial, pages, pageSeq, granule, pageGranule, lacing, body)
    }

    constructor (serial: nat, table: seq<bv32>)
      requires serial < UINT32
      requires |table| == 256 && forall i: byte :: table[i] == OggCrcTable(i)
      ensures Valid() && State() == NewWriter(serial)
    {
      this.serial := serial;
      this.table := table;
      out, pageSeq, granule, pageGranule, lacing, body, pages := [], 0, 0, 0, [], [], [];
      new;
      WritePage([19], OPUS_HEAD, 0, BOS);
      var tags := ComputeLacing(|OPUS_TAGS|);
      WritePage(tags, OPUS_TAGS, 0, 0);
    }

    /** page: one page handed on. */
    method WritePage(lacing: seq<byte>, body: seq<byte>, granule: nat, flags: byte)
      requires Valid() && granule < UINT64
      modifies this`out, this`pages, this`pageSeq
      ensures Valid() && State() == PageOut(old(State()), flags, granule, lacing, body)
    {
      hide Encode, EncodeAll, Header, OggCrcTable;
      ghost var p := Page(flags, granule, serial, pageSeq, lacing, body);
      var header := SealedHeader(lacing, body, granule, flags);
      EncodeOneMore(pages, p);
      assert EncodeAll(pages) + (header + body) == out + header + body;
      pages := pages + [p];
      pageSeq := (pageSeq + 1) % UINT32;
      out := out + header;
      out := out + body;
    }

    /** A page's header, with the checksum of the header and the body put in once it is built. */
    method SealedHeader(lacing: seq<byte>, body: seq<byte>, granule: nat, flags: byte) returns (header: seq<byte>)
      requires Valid() && granule < UINT64
      ensures header + body == Encode(Page(flags, granule, serial, pageSeq, lacing, body))
    {
      ghost var p := Page(flags, granule, serial, pageSeq, lacing, body);
      var buffer := new byte[HEADER_SIZE + |lacing|](_ => 0);
      FillHeader(buffer, lacing, granule, flags);
      HeaderIgnoresBody(p, [0, 0, 0, 0]);
      var checksum := PageChecksum(buffer[..], body, table);
      Put(buffer, 22, LittleEndian(checksum as int, 4));
      HeaderRewritten(p, Checksum(p));
      header := buffer[..];
    }

    /** Every field of the header but its checksum, which stays zero. */
    method FillHeader(header: array<byte>, lacing: seq<byte>, granule: nat, flags: byte)
      requires header.Length == HEADER_SIZE + |lacing| && header[..] == Blank(header.Length)
      requires serial < UINT32 && pageSeq < UINT32 && granule < UINT64
      modifies header
      ensures header[..] == Header(Page(flags, granule, serial, pageSeq, lacing, []), [0, 0, 0, 0])
    {
      hide LittleEndian, Header;
      var n := |lacing|;
      ghost var g, s, q := LittleEndian(granule, 8), LittleEndian(serial, 4), LittleEndian(pageSeq, 4);
      Put(header, 0, CAPTURE);
      assert header[..] == CAPTURE + Blank(n + 23);
      header[5] := flags;
      ghost var front := CAPTURE + [0, flags];
      assert header[..] == front + Blank(n + 21);
      Put(header, 6, LittleEndian(granule, 8));
      assert header[..] == front + g + Blank(n + 13);
      Put(header, 14, LittleEndian(serial, 4));
      assert header[..] == front + g + s + Blank(n + 9);
      Put(header, 18, LittleEndian(pageSeq, 4));
      ghost var most := front + g + s + q;
      assert header[..] == most + Blank(n + 5);
      header[HEADER_SIZE - 1] := n % 256;
      assert header[..] == most + Blank(4) + [n % 256] + Blank(n);
      Put(header, HEADER_SIZE, lacing);
      assert header[..] == most + Blank(4) + [n % 256] + lacing;
      HeaderParts(Page(flags, granule, serial, pageSeq, lacing, []), most);
    }

    method WritePacket(pkt: Packet, samples: nat)
      requires Valid()
      modifies this
      ensures Valid() && State() == OggStreams.WritePacket(old(State()), pkt, samples)
    {
      hide LacingOf, EncodeAll, OggStreams.Emit;
      var lacing := ComputeLacing(|pkt|);
      if |this.lacing| + |lacing| > MAX_SEGMENTS {
        Flush();
      }
      this.lacing := this.lacing + lacing;
      body := body + pkt;
      granule := (granule + samples) % UINT64;
    }

    method Flush()
      requires Valid()
      modifies this
      ensures Valid() && State() == OggStreams.Flush(old(State()))
    {
      if |lacing| == 0 {
        return;
      }
      Emit(0);
    }

    predicate Pending()
      reads this
    {
      |lacing| > 0
    }

    method CloseAt(end: nat)
      requires Valid() && end < UINT64
      modifies this
      ensures Valid() && State() == OggStreams.CloseAt(old(State()), end)
    {
      granule := if end < pageGranule then pageGranule else end;
      Emit(EOS);
    }

    method Emit(flags: byte)
      requires Valid()
      modifies this
      ensures Valid() && State() == OggStreams.Emit(old(State()), flags)
    {
      WritePage(lacing, body, granule, flags);
      lacing, body := [], [];
      pageGranule := granule;
    }
  }

  function Blank(n: nat): (s: seq<byte>)
    ensures |s| == n
  {
    seq(n, _ => 0)
  }

  lemma EncodeOneMore(pages: seq<Page>, p: Page)
    ensures EncodeAll(pages + [p]) == EncodeAll(pages) + Encode(p)
  {
    hide Encode;
    EncodeAllSplit(pages, [p]);
    assert EncodeAll([p]) == Encode(p) + [] == Encode(p);
  }

  lemma HeaderIgnoresBody(p: Page, checksum: seq<byte>)
    requires |checksum| == 4
    ensures Header(p.(body := []), checksum) == Header(p, checksum)
  {
  }

  lemma HeaderParts(p: Page, front: seq<byte>)
    requires front == CAPTURE + [0, p.flags] + LittleEndian(p.granule, 8) + LittleEndian(p.serial, 4) + LittleEndian(p.number, 4)
    ensures Header(p, [0, 0, 0, 0]) == front + Blank(4) + [|p.lacing| % 256] + p.lacing
  {
    hide LittleEndian;
    assert Blank(4) == [0, 0, 0, 0];
  }

  lemma HeaderRewritten(p: Page, checksum: seq<byte>)
    requires |checksum| == 4
    ensures var h := Header(p, [0, 0, 0, 0]); h[..22] + checksum + h[26..] == Header(p, checksum)
  {
    hide LittleEndian;
    var before := CAPTURE + [0, p.flags] + LittleEndian(p.granule, 8) + LittleEndian(p.serial, 4) + LittleEndian(p.number, 4);
    var after := [|p.lacing| % 256] + p.lacing;
    var zero: seq<byte> := [0, 0, 0, 0];
    assert Header(p, zero) == before + zero + after;
    assert Header(p, checksum) == before + checksum + after;
    assert (before + zero + after)[..22] == before && (before + zero + after)[26..] == after;
  }
}
