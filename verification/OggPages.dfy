/**
 * Ogg pages (RFC 3533, sections 5 and 6): how a page is laid out, and two
 * readers of a stream of them. ParsePages is a strict reader, taken from the
 * format's definition. StreamEnd is the one commands/recording_ogg.go uses to
 * find how far a file a crash cut short runs.
 */
module OggPages {
  import opened Bytes
  import opened OggCrc
  import opened Wrappers

  const MAX_SEGMENTS := 255
  const HEADER_SIZE := 27
  /** "OggS" */
  const CAPTURE: seq<byte> := [79, 103, 103, 83]
  const BOS: byte := 0x02
  const EOS: byte := 0x04

  type Packet = seq<byte>

  datatype Page = Page(flags: byte, granule: nat, serial: nat, number: nat, lacing: seq<byte>, body: seq<byte>)

  function Sum(s: seq<byte>): nat {
    if s == [] then 0 else s[0] + Sum(s[1..])
  }

  lemma {:induction false} SumSplit(a: seq<byte>, b: seq<byte>)
    ensures Sum(a + b) == Sum(a) + Sum(b)
    decreases |a|
  {
    if a == [] {
      assert a + b == b;
    } else {
      assert (a + b)[1..] == a[1..] + b;
      SumSplit(a[1..], b);
    }
  }

  /** A page whose lacing values add up to its body. */
  ghost predicate Sized(p: Page) {
    |p.body| == Sum(p.lacing)
  }

  /** What a page needs for its fields to fit the format's. */
  ghost predicate Fits(p: Page) {
    && p.granule < Pow256(8)
    && p.serial < Pow256(4)
    && p.number < Pow256(4)
    && |p.lacing| <= MAX_SEGMENTS
    && Sized(p)
  }

  function Checksum(p: Page): (s: seq<byte>)
    ensures |s| == 4
  {
    LittleEndian(Remainder(Header(p, [0, 0, 0, 0]) + p.body) as int, 4)
  }

  /** A page's header with the checksum field given. */
  function Header(p: Page, checksum: seq<byte>): (s: seq<byte>)
    requires |checksum| == 4
    ensures |s| == HEADER_SIZE + |p.lacing|
  {
    CAPTURE + [0, p.flags] + LittleEndian(p.granule, 8) + LittleEndian(p.serial, 4)
    + LittleEndian(p.number, 4) + checksum + [|p.lacing| % 256] + p.lacing
  }

  function Encode(p: Page): (s: seq<byte>)
    ensures |s| == HEADER_SIZE + |p.lacing| + |p.body|
  {
    Header(p, Checksum(p)) + p.body
  }

  function EncodeAll(pages: seq<Page>): seq<byte> {
    if pages == [] then [] else Encode(pages[0]) + EncodeAll(pages[1..])
  }

  lemma {:induction false} EncodeAllSplit(a: seq<Page>, b: seq<Page>)
    ensures EncodeAll(a + b) == EncodeAll(a) + EncodeAll(b)
    decreases |a|
  {
    if a == [] {
      assert a + b == b;
    } else {
      assert (a + b)[1..] == a[1..] + b;
      EncodeAllSplit(a[1..], b);
    }
  }

  // ---------------------------------------------------------------------------
  // The strict reader
  // ---------------------------------------------------------------------------

  /** The first page of a stream and what follows it, or None for anything that is no page. */
  function ParsePage(s: seq<byte>): (r: Option<(Page, seq<byte>)>)
    ensures r.Some? ==> |r.value.1| < |s| && |r.value.0.lacing| <= MAX_SEGMENTS
  {
    if |s| < HEADER_SIZE || s[..4] != CAPTURE || s[4] != 0 then None
    else
      var n := s[26];
      if |s| < HEADER_SIZE + n then None
      else
        var lacing := s[HEADER_SIZE..HEADER_SIZE + n];
        var size := HEADER_SIZE + n + Sum(lacing);
        if |s| < size || s[22..26] != LittleEndian(Remainder(s[..22] + [0, 0, 0, 0] + s[26..size]) as int, 4) then None
        else
          Some((Page(s[5], FromLittleEndian(s[6..14]), FromLittleEndian(s[14..18]), FromLittleEndian(s[18..22]),
                     lacing, s[HEADER_SIZE + n..size]),
                s[size..]))
  }

  function ParsePages(s: seq<byte>): (r: Option<seq<Page>>)
    ensures r.Some? ==> forall i :: 0 <= i < |r.value| ==> |r.value[i].lacing| <= MAX_SEGMENTS
    decreases |s|
  {
    if s == [] then Some([])
    else
      match ParsePage(s)
      case None => None
      case Some((p, rest)) =>
        match ParsePages(rest)
        case None => None
        case Some(ps) => Some([p] + ps)
  }

  /** Where each field of a page lies in its encoding, whatever follows. */
  lemma HeaderFields(p: Page, checksum: seq<byte>, rest: seq<byte>)
    requires |checksum| == 4 && |p.lacing| <= MAX_SEGMENTS
    ensures var s := Header(p, checksum) + rest;
            var n := |p.lacing|;
            && s[..4] == CAPTURE && s[4] == 0 && s[5] == p.flags
            && s[6..14] == LittleEndian(p.granule, 8)
            && s[14..18] == LittleEndian(p.serial, 4)
            && s[18..22] == LittleEndian(p.number, 4)
            && s[22..26] == checksum
            && s[26] == n
            && s[HEADER_SIZE..HEADER_SIZE + n] == p.lacing
            && s[HEADER_SIZE + n..] == rest
            && s[..22] == CAPTURE + [0, p.flags] + LittleEndian(p.granule, 8) + LittleEndian(p.serial, 4) + LittleEndian(p.number, 4)
            && s[26..] == [n] + p.lacing + rest
  {
  }

  /** The bytes the reader checks the checksum over are the ones it was computed over. */
  lemma ChecksumCovers(p: Page, rest: seq<byte>)
    requires |p.lacing| <= MAX_SEGMENTS
    ensures var s := Encode(p) + rest;
            s[..22] + [0, 0, 0, 0] + s[26..HEADER_SIZE + |p.lacing| + |p.body|] == Header(p, [0, 0, 0, 0]) + p.body
  {
    hide LittleEndian, Remainder;
    var s := Encode(p) + rest;
    assert s == Header(p, Checksum(p)) + (p.body + rest);
    HeaderFields(p, Checksum(p), p.body + rest);
    assert s[26..HEADER_SIZE + |p.lacing| + |p.body|] == [|p.lacing|] + p.lacing + p.body;
    var checked := s[..22] + [0, 0, 0, 0] + ([|p.lacing|] + p.lacing + p.body);
    assert checked == Header(p, [0, 0, 0, 0]) + p.body;
  }

  lemma ParseEncoded(p: Page, rest: seq<byte>)
    requires Fits(p)
    ensures ParsePage(Encode(p) + rest) == Some((p, rest))
  {
    hide LittleEndian, Remainder, FromLittleEndian, Header, Pow256, Sum;
    var s := Encode(p) + rest;
    var n := |p.lacing|;
    assert s == Header(p, Checksum(p)) + (p.body + rest);
    HeaderFields(p, Checksum(p), p.body + rest);
    ChecksumCovers(p, rest);
    assert s[HEADER_SIZE + n..] == p.body + rest;
    assert s[HEADER_SIZE + n..HEADER_SIZE + n + |p.body|] == p.body;
    assert s[HEADER_SIZE + n + |p.body|..] == rest;
    LittleEndianRoundTrip(p.granule, 8);
    LittleEndianRoundTrip(p.serial, 4);
    LittleEndianRoundTrip(p.number, 4);
    SmallRemainder(p.granule, Pow256(8));
    SmallRemainder(p.serial, Pow256(4));
    SmallRemainder(p.number, Pow256(4));
  }

  lemma {:induction false} ParseAllEncoded(pages: seq<Page>)
    requires forall i :: 0 <= i < |pages| ==> Fits(pages[i])
    ensures ParsePages(EncodeAll(pages)) == Some(pages)
    decreases |pages|
  {
    if pages != [] {
      hide Encode, ParsePage;
      ParseEncoded(pages[0], EncodeAll(pages[1..]));
      ParseAllEncoded(pages[1..]);
      assert pages == [pages[0]] + pages[1..];
    }
  }

  // ---------------------------------------------------------------------------
  // Packets out of pages
  // ---------------------------------------------------------------------------

  /**
   * The packets a page's lacing values cut its body into, given the packet a
   * page before it left open, and the packet it leaves open itself.
   */
  function Unlace(lacing: seq<byte>, body: seq<byte>, open: Packet): (seq<Packet>, Packet)
    requires Sum(lacing) == |body|
    decreases |lacing|
  {
    if lacing == [] then ([], open)
    else
      var n := lacing[0];
      if n == 255 then Unlace(lacing[1..], body[n..], open + body[..n])
      else
        var (packets, left) := Unlace(lacing[1..], body[n..], []);
        ([open + body[..n]] + packets, left)
  }

  ghost function UnlacePage(p: Page, open: Packet): (seq<Packet>, Packet)
    requires Sized(p)
  {
    Unlace(p.lacing, p.body, open)
  }

  ghost function UnlacePages(pages: seq<Page>, open: Packet): (seq<Packet>, Packet)
    requires forall i :: 0 <= i < |pages| ==> Sized(pages[i])
    decreases |pages|
  {
    if pages == [] then ([], open)
    else
      var (first, left) := UnlacePage(pages[0], open);
      var (others, last) := UnlacePages(pages[1..], left);
      (first + others, last)
  }

  lemma {:induction false} UnlaceSplit(l1: seq<byte>, b1: seq<byte>, l2: seq<byte>, b2: seq<byte>, open: Packet)
    requires Sum(l1) == |b1| && Sum(l2) == |b2|
    ensures Sum(l1 + l2) == |b1 + b2|
    ensures var (p1, left) := Unlace(l1, b1, open);
            var (p2, last) := Unlace(l2, b2, left);
            Unlace(l1 + l2, b1 + b2, open) == (p1 + p2, last)
    decreases |l1|
  {
    SumSplit(l1, l2);
    if l1 == [] {
      assert l1 + l2 == l2 && b1 + b2 == b2;
      assert [] + Unlace(l2, b2, open).0 == Unlace(l2, b2, open).0;
    } else {
      var n := l1[0];
      assert (l1 + l2)[1..] == l1[1..] + l2;
      assert (b1 + b2)[n..] == b1[n..] + b2;
      assert (b1 + b2)[..n] == b1[..n];
      var next := if n == 255 then open + b1[..n] else [];
      UnlaceSplit(l1[1..], b1[n..], l2, b2, next);
      var (p1, left) := Unlace(l1[1..], b1[n..], next);
      var (p2, last) := Unlace(l2, b2, left);
      assert [open + b1[..n]] + p1 + p2 == [open + b1[..n]] + (p1 + p2);
    }
  }

  lemma {:induction false} UnlacePagesSplit(a: seq<Page>, b: seq<Page>, open: Packet)
    requires forall i :: 0 <= i < |a| ==> Sized(a[i])
    requires forall i :: 0 <= i < |b| ==> Sized(b[i])
    ensures var (p1, left) := UnlacePages(a, open);
            var (p2, last) := UnlacePages(b, left);
            UnlacePages(a + b, open) == (p1 + p2, last)
    decreases |a|
  {
    if a == [] {
      assert a + b == b;
      assert [] + UnlacePages(b, open).0 == UnlacePages(b, open).0;
    } else {
      assert (a + b)[1..] == a[1..] + b;
      var (first, left) := UnlacePage(a[0], open);
      UnlacePagesSplit(a[1..], b, left);
      var (p1, middle) := UnlacePages(a[1..], left);
      var (p2, last) := UnlacePages(b, middle);
      assert first + p1 + p2 == first + (p1 + p2);
    }
  }

  // ---------------------------------------------------------------------------
  // How far a stream runs
  // ---------------------------------------------------------------------------

  /** oggStreamEnd over the bytes of a file, with the granule position read so far. */
  function StreamEndFrom(s: seq<byte>, end: nat): nat
    decreases |s|
  {
    if |s| < HEADER_SIZE || s[..4] != CAPTURE then end
    else
      var n := s[26];
      if |s| < HEADER_SIZE + n then end
      else
        var size := HEADER_SIZE + n + Sum(s[HEADER_SIZE..HEADER_SIZE + n]);
        if |s| < size then end else StreamEndFrom(s[size..], FromLittleEndian(s[6..14]))
  }

  method OggStreamEnd(s: seq<byte>) returns (end: nat)
    ensures end == StreamEndFrom(s, 0)
  {
    end := 0;
    var rest := s;
    while true
      invariant StreamEndFrom(s, 0) == StreamEndFrom(rest, end)
      decreases |rest|
    {
      if |rest| < HEADER_SIZE {
        return;
      }
      var header := rest[..HEADER_SIZE];
      assert rest[..4] == header[..4] && rest[6..14] == header[6..14];
      if header[..4] != CAPTURE {
        return;
      }
      var n := header[26];
      if |rest| - HEADER_SIZE < n {
        return;
      }
      var lacing := rest[HEADER_SIZE..HEADER_SIZE + n];
      var size: nat := 0;
      for k := 0 to n
        invariant size == Sum(lacing[..k])
      {
        assert lacing[..k + 1] == lacing[..k] + [lacing[k]];
        SumSplit(lacing[..k], [lacing[k]]);
        size := size + lacing[k];
      }
      assert lacing[..n] == lacing;
      if |rest| - HEADER_SIZE - n < size {
        return;
      }
      end := FromLittleEndian(header[6..14]);
      rest := rest[HEADER_SIZE + n + size..];
    }
  }

  /** How many of the pages lie wholly within the first k bytes of their stream. */
  function WholePages(pages: seq<Page>, k: int): (n: nat)
    ensures n <= |pages|
    decreases |pages|
  {
    if pages == [] || |Encode(pages[0])| > k then 0 else 1 + WholePages(pages[1..], k - |Encode(pages[0])|)
  }

  /** WholePages is the longest run of pages that fits: no fewer would do, and the next does not fit. */
  lemma {:induction false} WholePagesIsMost(pages: seq<Page>, k: nat)
    ensures var n := WholePages(pages, k);
            && |EncodeAll(pages[..n])| <= k
            && (n < |pages| ==> k < |EncodeAll(pages[..n + 1])|)
    decreases |pages|
  {
    hide Encode;
    var n := WholePages(pages, k);
    if n > 0 {
      var rest := k - |Encode(pages[0])|;
      WholePagesIsMost(pages[1..], rest);
      FirstEncoded(pages, n);
      if n < |pages| {
        FirstEncoded(pages, n + 1);
      }
    } else if pages != [] {
      FirstEncoded(pages, 1);
    }
  }

  lemma FirstEncoded(pages: seq<Page>, n: nat)
    requires 0 < n <= |pages|
    ensures EncodeAll(pages[..n]) == Encode(pages[0]) + EncodeAll(pages[1..][..n - 1])
  {
    assert pages[..n][1..] == pages[1..][..n - 1];
  }

  function LastGranule(pages: seq<Page>, none: nat): nat {
    if pages == [] then none else pages[|pages| - 1].granule
  }

  /**
   * A stream cut off anywhere reads as long as its last whole page says, and
   * as long as before it when it holds none.
   */
  lemma {:induction false} CutShortEndsAtLastWholePage(pages: seq<Page>, k: nat, before: nat)
    requires forall i :: 0 <= i < |pages| ==> Fits(pages[i])
    requires k <= |EncodeAll(pages)|
    ensures StreamEndFrom(EncodeAll(pages)[..k], before) == LastGranule(pages[..WholePages(pages, k)], before)
    decreases |pages|
  {
    hide Encode, Header, LittleEndian, FromLittleEndian, Sum, Pow256;
    if pages != [] {
      var p := pages[0];
      var rest := EncodeAll(pages[1..]);
      var s := EncodeAll(pages)[..k];
      CutPage(p, rest, k);
      if |Encode(p)| <= k {
        var left := k - |Encode(p)|;
        assert s[|Encode(p)|..] == rest[..left];
        CutShortEndsAtLastWholePage(pages[1..], left, p.granule);
        var w := WholePages(pages[1..], left);
        assert pages[..1 + w] == [p] + pages[1..][..w];
      }
    }
  }

  /** What a cut leaves the reader to see of the page it may fall in. */
  lemma CutPage(p: Page, rest: seq<byte>, k: nat)
    requires Fits(p) && k <= |Encode(p) + rest|
    ensures var s := (Encode(p) + rest)[..k];
            var n := |p.lacing|;
            && |Encode(p)| == HEADER_SIZE + n + Sum(p.lacing)
            && (k >= HEADER_SIZE ==> s[..4] == CAPTURE && s[26] == n && FromLittleEndian(s[6..14]) == p.granule)
            && (k >= HEADER_SIZE + n ==> s[HEADER_SIZE..HEADER_SIZE + n] == p.lacing)
  {
    hide LittleEndian, FromLittleEndian, Remainder, Pow256;
    var whole := Encode(p) + rest;
    var s := whole[..k];
    var n := |p.lacing|;
    assert whole == Header(p, Checksum(p)) + (p.body + rest);
    HeaderFields(p, Checksum(p), p.body + rest);
    LittleEndianRoundTrip(p.granule, 8);
    SmallRemainder(p.granule, Pow256(8));
    if k >= HEADER_SIZE {
      assert s[..4] == whole[..4] && s[26] == whole[26] && s[6..14] == whole[6..14];
      if k >= HEADER_SIZE + n {
        assert s[HEADER_SIZE..HEADER_SIZE + n] == whole[HEADER_SIZE..HEADER_SIZE + n];
      }
    }
  }
}
