/** Bytes and the little-endian integers the recording's files are made of. */
module Bytes {

  type byte = b: int | 0 <= b < 256

  /** 256 to the power k: how many values k bytes can hold. */
  function Pow256(k: nat): (p: nat)
    ensures p > 0
  {
    if k == 0 then 1 else 256 * Pow256(k - 1)
  }

  /** The k low bytes of n, least significant first, as encoding/binary's LittleEndian lays them out. */
  function LittleEndian(n: nat, k: nat): (s: seq<byte>)
    ensures |s| == k
  {
    if k == 0 then [] else [n % 256] + LittleEndian(n / 256, k - 1)
  }

  /** The integer a little-endian byte string holds. */
  function FromLittleEndian(s: seq<byte>): (n: nat)
  {
    if s == [] then 0 else s[0] + 256 * FromLittleEndian(s[1..])
  }

  /** Reading back what was laid out gives the integer, cut to the width it was laid out in. */
  lemma {:induction false} LittleEndianRoundTrip(n: nat, k: nat)
    ensures FromLittleEndian(LittleEndian(n, k)) == n % Pow256(k)
  {
    if k > 0 {
      var rest := LittleEndian(n / 256, k - 1);
      assert LittleEndian(n, k)[1..] == rest;
      LittleEndianRoundTrip(n / 256, k - 1);
      DivideThenScale(n, Pow256(k - 1));
    }
  }

  lemma DivideThenScale(n: nat, m: nat)
    requires m > 0
    ensures n % 256 + 256 * ((n / 256) % m) == n % (256 * m)
  {
    var q, r := n / 256, n % 256;
    var a, b := q / m, q % m;
    assert n == 256 * (a * m + b) + r;
    assert n == a * (256 * m) + (256 * b + r) by {
      assert 256 * (a * m) == a * (256 * m);
    }
    assert 256 * b + r < 256 * m;
    RemainderUnique(n, 256 * m, a, 256 * b + r);
  }

  lemma RemainderUnique(n: int, d: int, q: int, r: int)
    requires d > 0 && 0 <= r < d && n == q * d + r
    ensures n % d == r && n / d == q
  {
    var q2, r2 := n / d, n % d;
    var k := q - q2;
    assert n == q2 * d + r2;
    assert k * d == q * d - q2 * d == r2 - r;
    if k > 0 {
      MultipleAtLeast(k, d);
    } else if k < 0 {
      MultipleAtLeast(-k, d);
    }
  }

  lemma {:induction false} MultipleAtLeast(k: int, d: int)
    requires k > 0 && d > 0
    ensures k * d >= d
    ensures (-k) * d == -(k * d)
  {
    if k > 1 {
      MultipleAtLeast(k - 1, d);
    }
  }

  lemma SmallRemainder(n: nat, d: nat)
    requires n < d
    ensures n % d == n
  {
    RemainderUnique(n, d, 0, n);
  }
}
