/**
 * Ogg's CRC-32 (section 6 of RFC 3533): the byte-at-a-time table method of
 * commands/recording_ogg.go against the polynomial division it stands for.
 *
 * Words are 32-bit vectors. What is said of runs of steps is said of an
 * arbitrary step function, so no proof mixes bit-vectors with sequences.
 */
module OggCrc {
  import opened Bytes

  const POLYNOMIAL: bv32 := 0x04c11db7

  // ---------------------------------------------------------------------------
  // Runs of steps
  // ---------------------------------------------------------------------------

  function Fold<S>(step: (S, bool) -> S, s: S, bits: seq<bool>): S
    decreases |bits|
  {
    if bits == [] then s else Fold(step, step(s, bits[0]), bits[1..])
  }

  function Iterate<S>(step: S -> S, s: S, n: nat): S
    decreases n
  {
    if n == 0 then s else Iterate(step, step(s), n - 1)
  }

  lemma {:induction false} FoldSplit<S>(step: (S, bool) -> S, s: S, a: seq<bool>, b: seq<bool>)
    ensures Fold(step, s, a + b) == Fold(step, Fold(step, s, a), b)
    decreases |a|
  {
    if a == [] {
      assert a + b == b;
    } else {
      assert (a + b)[1..] == a[1..] + b;
      FoldSplit(step, step(s, a[0]), a[1..], b);
    }
  }

  lemma {:induction false} IterateSplit<S>(step: S -> S, s: S, m: nat, n: nat)
    ensures Iterate(step, s, m + n) == Iterate(step, Iterate(step, s, m), n)
    decreases m
  {
    if m > 0 {
      IterateSplit(step, step(s), m - 1, n);
    }
  }

  /** A fold another fold simulates through h, step by step, it simulates over any run. */
  lemma {:induction false} FoldSimulates<S(!new), T>(f: (S, bool) -> S, g: (T, bool) -> T, h: S -> T, s: S, bits: seq<bool>)
    requires forall x, b :: g(h(x), b) == h(f(x, b))
    ensures Fold(g, h(s), bits) == h(Fold(f, s, bits))
    decreases |bits|
  {
    if bits != [] {
      var b := bits[0];
      assert g(h(s), b) == h(f(s, b));
      FoldSimulates(f, g, h, f(s, bits[0]), bits[1..]);
    }
  }

  lemma {:induction false} IterateAdditive<S(!new)>(step: S -> S, op: (S, S) -> S, a: S, b: S, n: nat)
    requires forall x, y :: step(op(x, y)) == op(step(x), step(y))
    ensures Iterate(step, op(a, b), n) == op(Iterate(step, a, n), Iterate(step, b, n))
    decreases n
  {
    if n > 0 {
      assert step(op(a, b)) == op(step(a), step(b));
      IterateAdditive(step, op, step(a), step(b), n - 1);
    }
  }

  // ---------------------------------------------------------------------------
  // The definition: long division over GF(2)
  // ---------------------------------------------------------------------------

  function Octet(b: byte): bv32 {
    b as bv32
  }

  /** A byte's bits, most significant first, the order the format divides them in. */
  function BitsOfByte(b: byte): (bits: seq<bool>)
    ensures |bits| == 8
  {
    var c := Octet(b);
    [c & 0x80 != 0, c & 0x40 != 0, c & 0x20 != 0, c & 0x10 != 0,
     c & 0x08 != 0, c & 0x04 != 0, c & 0x02 != 0, c & 0x01 != 0]
  }

  function BitsOf(s: seq<byte>): seq<bool> {
    if s == [] then [] else BitsOfByte(s[0]) + BitsOf(s[1..])
  }

  function Xor(a: bv32, b: bv32): bv32 {
    a ^ b
  }

  /** A byte moved to the top of a word. */
  function AtTop(c: bv32): bv32 {
    c << 24
  }

  function TopByte(r: bv32): bv32 {
    r >> 24
  }

  function LowBytes(r: bv32): bv32 {
    r & 0xffffff
  }

  function UpByte(r: bv32): bv32 {
    r << 8
  }

  function Double(r: bv32): bv32 {
    r << 1
  }

  predicate Top(r: bv32) {
    r & 0x80000000 != 0
  }

  function TopIf(bit: bool): bv32 {
    if bit then 0x80000000 else 0
  }

  /** Multiplies a remainder by x and reduces it by the polynomial. */
  function Shift(r: bv32): bv32 {
    if Top(r) then Xor(Double(r), POLYNOMIAL) else Double(r)
  }

  /** One step of the division: the next bit of the dividend is brought down. */
  function BringDown(r: bv32, bit: bool): bv32 {
    Xor(Shift(r), if bit then 1 else 0)
  }

  function Zeros(n: nat): (z: seq<bool>)
    ensures |z| == n
  {
    seq(n, _ => false)
  }

  /** The CRC of a message: what is left of message * x^32 divided by the polynomial. */
  function Remainder(message: seq<byte>): bv32 {
    Fold(BringDown, 0, BitsOf(message) + Zeros(32))
  }

  // ---------------------------------------------------------------------------
  // The shift register, which needs no 32 trailing zeros
  // ---------------------------------------------------------------------------

  function FeedBit(r: bv32, bit: bool): bv32 {
    Shift(Xor(r, TopIf(bit)))
  }

  function Feed(r: bv32, bits: seq<bool>): bv32 {
    Fold(FeedBit, r, bits)
  }

  function ShiftBy(r: bv32, n: nat): bv32 {
    Iterate(Shift, r, n)
  }

  lemma XorDouble(a: bv32, b: bv32)
    ensures Double(Xor(a, b)) == Xor(Double(a), Double(b))
  {
  }

  lemma XorTop(a: bv32, b: bv32)
    ensures Top(Xor(a, b)) == (Top(a) != Top(b))
  {
  }

  lemma XorAssociative(a: bv32, b: bv32, c: bv32)
    ensures Xor(Xor(a, b), c) == Xor(a, Xor(b, c))
  {
  }

  lemma XorCommutes(a: bv32, b: bv32)
    ensures Xor(a, b) == Xor(b, a)
  {
  }

  lemma XorCancels(a: bv32)
    ensures Xor(a, a) == 0 && Xor(a, 0) == a
  {
  }

  lemma XorShuffle(a: bv32, b: bv32, p: bv32)
    ensures Xor(Xor(a, p), b) == Xor(Xor(a, b), p)
    ensures Xor(a, Xor(b, p)) == Xor(Xor(a, b), p)
    ensures Xor(Xor(a, p), Xor(b, p)) == Xor(a, b)
  {
    hide Xor;
    XorAssociative(a, p, b);
    XorAssociative(a, b, p);
    XorCommutes(b, p);
    XorAssociative(Xor(a, b), p, p);
    XorAssociative(Xor(a, p), b, p);
    XorCancels(p);
    XorCancels(Xor(a, b));
  }

  /** The register's step is linear, which is what makes the table work. */
  lemma ShiftLinear(a: bv32, b: bv32)
    ensures Shift(Xor(a, b)) == Xor(Shift(a), Shift(b))
  {
    hide Xor, Double, Top;
    XorDouble(a, b);
    XorTop(a, b);
    XorShuffle(Double(a), Double(b), POLYNOMIAL);
  }

  lemma ShiftByLinear(a: bv32, b: bv32, n: nat)
    ensures ShiftBy(Xor(a, b), n) == Xor(ShiftBy(a, n), ShiftBy(b, n))
  {
    forall x, y ensures Shift(Xor(x, y)) == Xor(Shift(x), Shift(y)) {
      ShiftLinear(x, y);
    }
    IterateAdditive(Shift, Xor, a, b, n);
  }

  lemma Unroll8(r: bv32)
    ensures ShiftBy(r, 8) == Shift(Shift(Shift(Shift(Shift(Shift(Shift(Shift(r))))))))
  {
    Unroll8Any(Shift, r);
  }

  lemma Unroll8Any<S>(f: S -> S, r: S)
    ensures Iterate(f, r, 8) == f(f(f(f(f(f(f(f(r))))))))
  {
    var a := f(f(f(f(r))));
    assert Iterate(f, r, 8) == Iterate(f, f(r), 7) == Iterate(f, f(f(r)), 6) == Iterate(f, f(f(f(r))), 5) == Iterate(f, a, 4);
    assert Iterate(f, a, 4) == Iterate(f, f(a), 3) == Iterate(f, f(f(a)), 2) == Iterate(f, f(f(f(a))), 1) == f(f(f(f(a))));
  }

  /** A register with its top byte clear has nothing to feed back for eight steps. */
  lemma ShiftClear(r: bv32)
    requires r < 0x1000000
    ensures ShiftBy(r, 8) == UpByte(r)
  {
    Unroll8(r);
  }

  lemma UnitShifted()
    ensures ShiftBy(1, 32) == POLYNOMIAL
    ensures ShiftBy(0, 32) == 0
  {
    ShiftClear(1);
    ShiftClear(0x100);
    ShiftClear(0x10000);
    ShiftClear(0);
    assert ShiftBy(0x1000000, 8) == POLYNOMIAL by {
      Unroll8(0x1000000);
    }
    IterateSplit(Shift, 1, 8, 24);
    IterateSplit(Shift, 0x100, 8, 16);
    IterateSplit(Shift, 0x10000, 8, 8);
    IterateSplit(Shift, 0, 8, 24);
    IterateSplit(Shift, 0, 8, 16);
    IterateSplit(Shift, 0, 8, 8);
  }

  /** The register holds the running remainder already multiplied by x^32. */
  lemma FeedOneBit(r: bv32, bit: bool)
    ensures FeedBit(ShiftBy(r, 32), bit) == ShiftBy(BringDown(r, bit), 32)
  {
    UnitShifted();
    IterateSplit(Shift, r, 32, 1);
    IterateSplit(Shift, r, 1, 32);
    assert ShiftBy(Shift(r), 32) == Shift(ShiftBy(r, 32)) by {
      assert Iterate(Shift, r, 1) == Shift(r);
      assert Iterate(Shift, ShiftBy(r, 32), 1) == Shift(ShiftBy(r, 32));
    }
    ShiftByLinear(Shift(r), if bit then 1 else 0, 32);
    ShiftLinear(ShiftBy(r, 32), TopIf(bit));
    assert Shift(TopIf(true)) == POLYNOMIAL && Shift(TopIf(false)) == 0;
  }

  lemma {:induction false} DivideZeros(r: bv32, n: nat)
    ensures Fold(BringDown, r, Zeros(n)) == ShiftBy(r, n)
    decreases n
  {
    if n > 0 {
      assert Zeros(n)[1..] == Zeros(n - 1);
      assert BringDown(r, false) == Shift(r) by { XorCancels(Shift(r)); }
      DivideZeros(Shift(r), n - 1);
    }
  }

  /** Feeding a message through the register gives its CRC. */
  lemma FeedIsRemainder(message: seq<byte>)
    ensures Feed(0, BitsOf(message)) == Remainder(message)
  {
    UnitShifted();
    forall r, bit ensures FeedBit(ShiftBy(r, 32), bit) == ShiftBy(BringDown(r, bit), 32) {
      FeedOneBit(r, bit);
    }
    var bits := BitsOf(message);
    FoldSimulates(BringDown, FeedBit, r => ShiftBy(r, 32), 0, bits);
    FoldSplit(BringDown, 0, bits, Zeros(32));
    DivideZeros(Fold(BringDown, 0, bits), 32);
  }

  lemma {:induction false} BitsOfSplit(a: seq<byte>, b: seq<byte>)
    ensures BitsOf(a + b) == BitsOf(a) + BitsOf(b)
    decreases |a|
  {
    if a == [] {
      assert a + b == b;
    } else {
      assert (a + b)[1..] == a[1..] + b;
      BitsOfSplit(a[1..], b);
    }
  }

  // ---------------------------------------------------------------------------
  // A byte at a time: eight register steps are one table look-up
  // ---------------------------------------------------------------------------

  /** The low k bits of a byte, moved to the top of a word. */
  function Rest(c: bv32, mask: bv32, up: nat): bv32
    requires up <= 32
  {
    (c & mask) << up
  }

  lemma DoubleTop(c: bv32)
    requires c < 0x100
    ensures AtTop(c) == Xor(TopIf(c & 0x80 != 0), Rest(c, 0x7f, 24))
  {
    assert c == (c & 0x80) ^ (c & 0x7f);
    assert c & 0x80 == if c & 0x80 != 0 then 0x80 else 0;
  }

  lemma DoubleSeventh(c: bv32)
    requires c < 0x100
    ensures Double(Rest(c, 0x7f, 24)) == Xor(TopIf(c & 0x40 != 0), Rest(c, 0x3f, 25))
  {}

  lemma DoubleSixth(c: bv32)
    requires c < 0x100
    ensures Double(Rest(c, 0x3f, 25)) == Xor(TopIf(c & 0x20 != 0), Rest(c, 0x1f, 26))
  {}

  lemma DoubleFifth(c: bv32)
    requires c < 0x100
    ensures Double(Rest(c, 0x1f, 26)) == Xor(TopIf(c & 0x10 != 0), Rest(c, 0x0f, 27))
  {}

  lemma DoubleFourth(c: bv32)
    requires c < 0x100
    ensures Double(Rest(c, 0x0f, 27)) == Xor(TopIf(c & 0x08 != 0), Rest(c, 0x07, 28))
  {}

  lemma DoubleThird(c: bv32)
    requires c < 0x100
    ensures Double(Rest(c, 0x07, 28)) == Xor(TopIf(c & 0x04 != 0), Rest(c, 0x03, 29))
  {}

  lemma DoubleSecond(c: bv32)
    requires c < 0x100
    ensures Double(Rest(c, 0x03, 29)) == Xor(TopIf(c & 0x02 != 0), Rest(c, 0x01, 30))
  {}

  lemma DoubleFirst(c: bv32)
    requires c < 0x100
    ensures Double(Rest(c, 0x01, 30)) == TopIf(c & 0x01 != 0)
  {}

  /** Doubling what is left of a byte brings its next bit to the top. */
  lemma DoubleRest(c: bv32)
    requires c < 0x100
    ensures AtTop(c) == Xor(TopIf(c & 0x80 != 0), Rest(c, 0x7f, 24))
    ensures Double(Rest(c, 0x7f, 24)) == Xor(TopIf(c & 0x40 != 0), Rest(c, 0x3f, 25))
    ensures Double(Rest(c, 0x3f, 25)) == Xor(TopIf(c & 0x20 != 0), Rest(c, 0x1f, 26))
    ensures Double(Rest(c, 0x1f, 26)) == Xor(TopIf(c & 0x10 != 0), Rest(c, 0x0f, 27))
    ensures Double(Rest(c, 0x0f, 27)) == Xor(TopIf(c & 0x08 != 0), Rest(c, 0x07, 28))
    ensures Double(Rest(c, 0x07, 28)) == Xor(TopIf(c & 0x04 != 0), Rest(c, 0x03, 29))
    ensures Double(Rest(c, 0x03, 29)) == Xor(TopIf(c & 0x02 != 0), Rest(c, 0x01, 30))
    ensures Double(Rest(c, 0x01, 30)) == TopIf(c & 0x01 != 0)
  {
    hide Xor, TopIf, Rest, Double, AtTop;
    DoubleTop(c);
    DoubleSeventh(c);
    DoubleSixth(c);
    DoubleFifth(c);
    DoubleFourth(c);
    DoubleThird(c);
    DoubleSecond(c);
    DoubleFirst(c);
  }

  /** The rest of a byte never reaches the top bit, so it only doubles. */
  lemma ShiftRest(c: bv32)
    requires c < 0x100
    ensures Shift(Rest(c, 0x7f, 24)) == Double(Rest(c, 0x7f, 24))
    ensures Shift(Rest(c, 0x3f, 25)) == Double(Rest(c, 0x3f, 25))
    ensures Shift(Rest(c, 0x1f, 26)) == Double(Rest(c, 0x1f, 26))
    ensures Shift(Rest(c, 0x0f, 27)) == Double(Rest(c, 0x0f, 27))
    ensures Shift(Rest(c, 0x07, 28)) == Double(Rest(c, 0x07, 28))
    ensures Shift(Rest(c, 0x03, 29)) == Double(Rest(c, 0x03, 29))
    ensures Shift(Rest(c, 0x01, 30)) == Double(Rest(c, 0x01, 30))
  {
  }

  /** One step: the bit at the top is fed, and the rest moves up behind it. */
  lemma FeedStep(r: bv32, bit: bool, rest: bv32, bit2: bool, rest2: bv32)
    requires Shift(rest) == Xor(TopIf(bit2), rest2)
    ensures Shift(Xor(r, Xor(TopIf(bit), rest))) == Xor(FeedBit(r, bit), Xor(TopIf(bit2), rest2))
  {
    hide Xor, Shift, TopIf;
    XorAssociative(r, TopIf(bit), rest);
    ShiftLinear(Xor(r, TopIf(bit)), rest);
  }

  /** Eight bits fed in turn are the whole byte put at the register's top and shifted through. */
  lemma FeedByteIsShift(r: bv32, b: byte)
    ensures Feed(r, BitsOfByte(b)) == ShiftBy(Xor(r, AtTop(Octet(b))), 8)
  {
    var c := Octet(b);
    var bits := BitsOfByte(b);
    var end := FeedBits(r, bits);
    ByteFeedsThrough(r, b);
    Unroll8(Xor(r, AtTop(c)));
    Unfold8(FeedBit, r, bits);
  }

  function FeedBits(r: bv32, bits: seq<bool>): bv32
    requires |bits| == 8
  {
    FeedBit(FeedBit(FeedBit(FeedBit(FeedBit(FeedBit(FeedBit(FeedBit(r, bits[0]), bits[1]), bits[2]), bits[3]), bits[4]), bits[5]), bits[6]), bits[7])
  }

  lemma Unfold8<S>(f: (S, bool) -> S, r: S, b: seq<bool>)
    requires |b| == 8
    ensures Fold(f, r, b) == f(f(f(f(f(f(f(f(r, b[0]), b[1]), b[2]), b[3]), b[4]), b[5]), b[6]), b[7])
  {
    var s := f(f(f(f(r, b[0]), b[1]), b[2]), b[3]);
    assert Fold(f, r, b) == Fold(f, f(r, b[0]), b[1..]) == Fold(f, f(f(r, b[0]), b[1]), b[2..])
        == Fold(f, f(f(f(r, b[0]), b[1]), b[2]), b[3..]) == Fold(f, s, b[4..]);
    assert Fold(f, s, b[4..]) == Fold(f, f(s, b[4]), b[5..]) == Fold(f, f(f(s, b[4]), b[5]), b[6..])
        == Fold(f, f(f(f(s, b[4]), b[5]), b[6]), b[7..]) == Fold(f, f(f(f(f(s, b[4]), b[5]), b[6]), b[7]), b[8..]);
  }

  lemma ByteFeedsThrough(r: bv32, b: byte)
    ensures FeedBits(r, BitsOfByte(b)) == Shift(Shift(Shift(Shift(Shift(Shift(Shift(Shift(Xor(r, AtTop(Octet(b)))))))))))
  {
    hide Xor, Shift, TopIf, Rest, FeedBit, Double, Octet, AtTop;
    var c := Octet(b);
    var t := BitsOfByte(b);
    OctetSmall(b);
    DoubleRest(c);
    ShiftRest(c);
    var r1 := FeedBit(r, t[0]);
    var r2 := FeedBit(r1, t[1]);
    var r3 := FeedBit(r2, t[2]);
    var r4 := FeedBit(r3, t[3]);
    var r5 := FeedBit(r4, t[4]);
    var r6 := FeedBit(r5, t[5]);
    var r7 := FeedBit(r6, t[6]);
    FeedStep(r, t[0], Rest(c, 0x7f, 24), t[1], Rest(c, 0x3f, 25));
    FeedStep(r1, t[1], Rest(c, 0x3f, 25), t[2], Rest(c, 0x1f, 26));
    FeedStep(r2, t[2], Rest(c, 0x1f, 26), t[3], Rest(c, 0x0f, 27));
    FeedStep(r3, t[3], Rest(c, 0x0f, 27), t[4], Rest(c, 0x07, 28));
    FeedStep(r4, t[4], Rest(c, 0x07, 28), t[5], Rest(c, 0x03, 29));
    FeedStep(r5, t[5], Rest(c, 0x03, 29), t[6], Rest(c, 0x01, 30));
    XorCancels(TopIf(t[7]));
    FeedStep(r6, t[6], Rest(c, 0x01, 30), t[7], 0);
    LastBit(r7, t[7]);
  }

  lemma LastBit(r: bv32, bit: bool)
    ensures Shift(Xor(r, Xor(TopIf(bit), 0))) == FeedBit(r, bit)
  {
    XorCancels(TopIf(bit));
  }

  lemma OctetSmall(b: byte)
    ensures Octet(b) < 0x100
  {
  }

  function OggCrcTable(i: byte): bv32 {
    ShiftBy(AtTop(Octet(i)), 8)
  }

  method BuildTable() returns (t: seq<bv32>)
    ensures |t| == 256
    ensures forall i: byte :: t[i] == OggCrcTable(i)
  {
    hide Top, Xor, Double, AtTop, Octet;
    t := [];
    for i := 0 to 256
      invariant |t| == i
      invariant forall j: byte :: j < i ==> t[j] == OggCrcTable(j)
    {
      var r := AtTop(Octet(i));
      for k := 0 to 8
        invariant ShiftBy(r, 8 - k) == OggCrcTable(i)
      {
        if Top(r) {
          r := Xor(Double(r), POLYNOMIAL);
        } else {
          r := Double(r);
        }
      }
      t := t + [r];
    }
  }

  function TableIndex(crc: bv32, c: byte): (i: byte)
    ensures Octet(i) == Xor(TopByte(crc), Octet(c))
  {
    OctetSmall(c);
    IndexSmall(crc, Octet(c));
    Xor(TopByte(crc), Octet(c)) as int
  }

  lemma IndexSmall(crc: bv32, c: bv32)
    requires c < 0x100
    ensures Xor(TopByte(crc), c) < 0x100
  {
  }

  /** A word is its low three bytes and its top byte. */
  lemma WordParts(crc: bv32)
    ensures crc == Xor(LowBytes(crc), AtTop(TopByte(crc)))
    ensures LowBytes(crc) < 0x1000000
    ensures UpByte(LowBytes(crc)) == UpByte(crc)
  {
  }

  lemma XorMoveUp(a: bv32, b: bv32)
    ensures AtTop(Xor(a, b)) == Xor(AtTop(a), AtTop(b))
  {
  }

  /** The table method's step on a byte whose table entry is given. */
  function TableUpdate(crc: bv32, entry: bv32): bv32 {
    Xor(UpByte(crc), entry)
  }

  /** One byte of the table method is eight bits of the register. */
  lemma TableStep(crc: bv32, c: byte)
    ensures Feed(crc, BitsOfByte(c)) == TableUpdate(crc, OggCrcTable(TableIndex(crc, c)))
  {
    hide Xor, Shift, Octet, AtTop, TopByte, LowBytes, UpByte;
    var top := TopByte(crc);
    FeedByteIsShift(crc, c);
    WordParts(crc);
    XorAssociative(LowBytes(crc), AtTop(top), AtTop(Octet(c)));
    XorMoveUp(top, Octet(c));
    ShiftByLinear(LowBytes(crc), AtTop(Xor(top, Octet(c))), 8);
    ShiftClear(LowBytes(crc));
  }

  lemma FeedNextByte(crc: bv32, b: seq<byte>, k: nat)
    requires k < |b|
    ensures Feed(crc, BitsOf(b[..k + 1])) == Feed(Feed(crc, BitsOf(b[..k])), BitsOfByte(b[k]))
  {
    hide FeedBit, BitsOfByte;
    assert b[..k + 1] == b[..k] + [b[k]];
    BitsOfSplit(b[..k], [b[k]]);
    assert BitsOf([b[k]]) == BitsOfByte(b[k]) + [] == BitsOfByte(b[k]);
    FoldSplit(FeedBit, crc, BitsOf(b[..k]), BitsOfByte(b[k]));
  }

  /** oggCRC: the table method, continuing from crc over more of the message. */
  method OggCrc(crc: bv32, b: seq<byte>, table: seq<bv32>) returns (r: bv32)
    requires |table| == 256 && forall i: byte :: table[i] == OggCrcTable(i)
    ensures r == Feed(crc, BitsOf(b))
  {
    hide Xor, Octet, Shift, FeedBit, BitsOfByte, TableUpdate;
    r := crc;
    for k := 0 to |b|
      invariant r == Feed(crc, BitsOf(b[..k]))
    {
      TableStep(r, b[k]);
      FeedNextByte(crc, b, k);
      r := TableUpdate(r, table[TableIndex(r, b[k])]);
    }
    assert b[..|b|] == b;
  }

  /** A page's checksum, header then body, is the CRC of the page as one message. */
  method PageChecksum(header: seq<byte>, body: seq<byte>, table: seq<bv32>) returns (r: bv32)
    requires |table| == 256 && forall i: byte :: table[i] == OggCrcTable(i)
    ensures r == Remainder(header + body)
  {
    r := OggCrc(0, header, table);
    r := OggCrc(r, body, table);
    BitsOfSplit(header, body);
    FoldSplit(FeedBit, 0, BitsOf(header), BitsOf(body));
    FeedIsRemainder(header + body);
  }
}
