/**
 * Network byte order (big-endian) two's complement integers, as written by the
 * `put_i16`, `put_i32` and `put_i64` calls of the announce request builder.
 * `Encode(x, n)` is the n-byte image of x; `Decode` reads one back.
 */
module BigEndian {
  import opened Ints

  /** 256^n, the number of distinct n-byte strings. */
  function Pow256(n: nat): (r: nat)
    ensures r >= 1
  {
    if n == 0 then 1 else 256 * Pow256(n - 1)
  }

  /** x fits an n-byte two's complement integer. */
  predicate InSignedRange(x: int, n: nat) {
    n > 0 && -(Pow256(n) / 2) <= x < Pow256(n) / 2
  }

  lemma SignedRanges(x: int)
    ensures InSignedRange(x, 2) <==> -0x8000 <= x < 0x8000
    ensures InSignedRange(x, 4) <==> -0x8000_0000 <= x < 0x8000_0000
    ensures InSignedRange(x, 8) <==> -0x8000_0000_0000_0000 <= x < 0x8000_0000_0000_0000
  {
  }

  /** Big-endian digits of u in base 256, most significant first, exactly n of them. */
  function UnsignedBytes(u: nat, n: nat): (b: seq<byte>)
    requires u < Pow256(n)
    ensures |b| == n
  {
    if n == 0 then []
    else
      assert u / 256 < Pow256(n - 1);
      UnsignedBytes(u / 256, n - 1) + [u % 256]
  }

  /** The unsigned number a byte string denotes when read most significant byte first. */
  function UnsignedValue(b: seq<byte>): (u: nat)
    ensures u < Pow256(|b|)
  {
    if b == [] then 0
    else
      var high := UnsignedValue(b[..|b| - 1]);
      assert high * 256 + b[|b| - 1] <= (Pow256(|b| - 1) - 1) * 256 + 255;
      high * 256 + b[|b| - 1]
  }

  /** The n-byte big-endian two's complement image of x. */
  function Encode(x: int, n: nat): (b: seq<byte>)
    requires InSignedRange(x, n)
    ensures |b| == n
  {
    UnsignedBytes(if x < 0 then x + Pow256(n) else x, n)
  }

  /** The integer a non-empty big-endian two's complement byte string denotes. */
  function Decode(b: seq<byte>): (x: int)
    requires |b| > 0
    ensures InSignedRange(x, |b|)
  {
    var u := UnsignedValue(b);
    if u < Pow256(|b|) / 2 then u else u - Pow256(|b|)
  }

  lemma {:induction false} UnsignedRoundTrip(u: nat, n: nat)
    requires u < Pow256(n)
    ensures UnsignedValue(UnsignedBytes(u, n)) == u
  {
    if n > 0 {
      var b := UnsignedBytes(u, n);
      assert b[..n - 1] == UnsignedBytes(u / 256, n - 1);
      UnsignedRoundTrip(u / 256, n - 1);
    }
  }

  lemma {:induction false} UnsignedBytesOfValue(b: seq<byte>)
    ensures UnsignedBytes(UnsignedValue(b), |b|) == b
  {
    if b != [] {
      var n := |b|;
      var high := UnsignedValue(b[..n - 1]);
      assert UnsignedValue(b) / 256 == high;
      assert UnsignedValue(b) % 256 == b[n - 1];
      UnsignedBytesOfValue(b[..n - 1]);
      assert b == b[..n - 1] + [b[n - 1]];
    }
  }

  /** Reading back an encoded integer gives the integer. */
  lemma DecodeEncode(x: int, n: nat)
    requires InSignedRange(x, n)
    ensures Decode(Encode(x, n)) == x
  {
    UnsignedRoundTrip(if x < 0 then x + Pow256(n) else x, n);
  }

  /** Every byte string is the encoding of the integer it decodes to. */
  lemma EncodeDecode(b: seq<byte>)
    requires |b| > 0
    ensures Encode(Decode(b), |b|) == b
  {
    UnsignedBytesOfValue(b);
  }

  /** The first byte carries the sign: it is 0x80 or more exactly for negative integers. */
  lemma {:induction false} SignInFirstByte(x: int, n: nat)
    requires InSignedRange(x, n)
    ensures Encode(x, n)[0] >= 0x80 <==> x < 0
  {
    var u := if x < 0 then x + Pow256(n) else x;
    HighByte(u, n);
  }

  lemma {:induction false} HighByte(u: nat, n: nat)
    requires n > 0 && u < Pow256(n)
    ensures UnsignedBytes(u, n)[0] >= 0x80 <==> u >= Pow256(n) / 2
  {
    if n > 1 {
      HighByte(u / 256, n - 1);
      assert Pow256(n) / 2 == 256 * (Pow256(n - 1) / 2) by {
        assert Pow256(n - 1) == 256 * Pow256(n - 2);
      }
    }
  }
}
