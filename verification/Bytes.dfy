/** Bytes, little-endian integers and small sequence facts shared by the byte-level formats. */
module Bytes {

  type byte = b: int | 0 <= b < 256

  type Bytes32 = s: seq<byte> | |s| == 32 witness seq(32, _ => 0)
  type Bytes64 = s: seq<byte> | |s| == 64 witness seq(64, _ => 0)

  const MAX_U8 := 0xFF
  const MAX_U16 := 0xFFFF
  const MAX_U32 := 0xFFFF_FFFF
  const MAX_U64 := 0xFFFF_FFFF_FFFF_FFFF
  const MIN_I64 := -0x8000_0000_0000_0000
  const MAX_I64 := 0x7FFF_FFFF_FFFF_FFFF

  type i64 = i: int | MIN_I64 <= i <= MAX_I64

  function Pow256(n: nat): (p: nat)
    ensures p > 0
  {
    if n == 0 then 1 else 256 * Pow256(n - 1)
  }

  /** The first n little-endian bytes of v; what does not fit is dropped. */
  function ToLE(n: nat, v: nat): (s: seq<byte>)
    ensures |s| == n
  {
    if n == 0 then [] else [v % 256] + ToLE(n - 1, v / 256)
  }

  function FromLE(s: seq<byte>): nat {
    if s == [] then 0 else s[0] + 256 * FromLE(s[1..])
  }

  lemma {:induction false} FromLEBound(s: seq<byte>)
    ensures FromLE(s) < Pow256(|s|)
  {
    if s == [] {
    } else {
      FromLEBound(s[1..]);
    }
  }

  /** Writing then reading keeps the value modulo 256^n. */
  lemma {:induction false} LERoundTrip(n: nat, v: nat)
    requires v < Pow256(n)
    ensures FromLE(ToLE(n, v)) == v
  {
    if n == 0 {
    } else {
      LERoundTrip(n - 1, v / 256);
      assert ToLE(n, v)[1..] == ToLE(n - 1, v / 256);
    }
  }

  /** Reading then writing gives the bytes back. */
  lemma {:induction false} LEBytesRoundTrip(s: seq<byte>)
    ensures ToLE(|s|, FromLE(s)) == s
  {
    if s == [] {
    } else {
      LEBytesRoundTrip(s[1..]);
      assert FromLE(s) % 256 == s[0] && FromLE(s) / 256 == FromLE(s[1..]);
      assert s == [s[0]] + s[1..];
    }
  }

  lemma {:induction false} Pow256Values()
    ensures Pow256(1) == 0x100
    ensures Pow256(2) == 0x1_0000
    ensures Pow256(4) == 0x1_0000_0000
    ensures Pow256(8) == 0x1_0000_0000_0000_0000
  {
    assert Pow256(1) == 256 * Pow256(0);
    assert Pow256(2) == 256 * Pow256(1);
    assert Pow256(3) == 256 * Pow256(2);
    assert Pow256(4) == 256 * Pow256(3);
    assert Pow256(5) == 256 * Pow256(4);
    assert Pow256(6) == 256 * Pow256(5);
    assert Pow256(7) == 256 * Pow256(6);
    assert Pow256(8) == 256 * Pow256(7);
  }

  /** A number of a wire format is read back. */
  lemma NumberRead(n: nat, v: nat)
    requires (n == 8 && v <= MAX_U64) || (n == 4 && v <= MAX_U32)
    ensures FromLE(ToLE(n, v)) == v
  {
    Pow256Values();
    LERoundTrip(n, v);
  }

  /** Two values that fit and have the same bytes are equal. */
  lemma LEInjective(n: nat, v: nat, w: nat)
    requires v < Pow256(n) && w < Pow256(n)
    requires ToLE(n, v) == ToLE(n, w)
    ensures v == w
  {
    LERoundTrip(n, v);
    LERoundTrip(n, w);
  }

  /** The highest byte of a number with n + 1 bytes is the last one written. */
  lemma {:induction false} LETop(n: nat, low: nat, high: byte)
    requires low < Pow256(n)
    ensures ToLE(n + 1, low + Pow256(n) * high) == ToLE(n, low) + [high]
  {
    if n == 0 {
    } else {
      var p := Pow256(n - 1) * high;
      assert Pow256(n) * high == 256 * p;
      assert (low + 256 * p) % 256 == low % 256 && (low + 256 * p) / 256 == low / 256 + p;
      LETop(n - 1, low / 256, high);
    }
  }

  /** Signed 64-bit integers as the unsigned number with the same two's complement bytes. */
  function I64ToU64(i: int): (u: nat)
    requires MIN_I64 <= i <= MAX_I64
    ensures u <= MAX_U64
  {
    if i >= 0 then i else i + 0x1_0000_0000_0000_0000
  }

  function U64ToI64(u: nat): (i: int)
    requires u <= MAX_U64
    ensures MIN_I64 <= i <= MAX_I64
  {
    if u <= MAX_I64 then u else u - 0x1_0000_0000_0000_0000
  }

  /** Copied into a zeroed buffer of n bytes: padded with zeros, or cut off. */
  function Fit(n: nat, s: seq<byte>): (t: seq<byte>)
    ensures |t| == n
    ensures |s| == n ==> t == s
  {
    if |s| >= n then s[..n] else s + Zeros(n - |s|)
  }

  /** Equal concatenations whose right parts have equal lengths agree part by part. */
  lemma SplitRight(a: seq<byte>, x: seq<byte>, b: seq<byte>, y: seq<byte>)
    requires a + x == b + y && |x| == |y|
    ensures a == b && x == y
  {
    assert a == (a + x)[..|a|] && b == (b + y)[..|b|];
    assert x == (a + x)[|a|..] && y == (b + y)[|b|..];
  }

  /** SHA-256 is idealised as a function without collisions. */
  ghost predicate Injective(hash: seq<byte> -> seq<byte>) {
    forall a, b :: hash(a) == hash(b) ==> a == b
  }

  function U16(s: seq<byte>, at: nat): (v: nat)
    requires at + 2 <= |s|
    ensures v <= MAX_U16
  {
    var low: int, high: int := s[at], s[at + 1];
    low + 256 * high
  }

  function Zeros(n: nat): (s: seq<byte>)
    ensures |s| == n
  {
    seq(n, _ => 0)
  }
}
