/** UTF-8 (RFC 3629, section 3): text as bytes, without ambiguity. */
module Utf8 {
  import opened Bytes

  function CharBytes(c: char): (s: seq<byte>)
    ensures 1 <= |s| <= 4
  {
    var v := c as int;
    if v < 0x80 then [v]
    else if v < 0x800 then [0xC0 + v / 0x40, 0x80 + v % 0x40]
    else if v < 0x1_0000 then [0xE0 + v / 0x1000, 0x80 + v / 0x40 % 0x40, 0x80 + v % 0x40]
    else [0xF0 + v / 0x4_0000, 0x80 + v / 0x1000 % 0x40, 0x80 + v / 0x40 % 0x40, 0x80 + v % 0x40]
  }

  function Encode(s: string): seq<byte> {
    if s == "" then [] else CharBytes(s[0]) + Encode(s[1..])
  }

  /** How many bytes a character takes, from the first of them. */
  function LengthFrom(b: byte): nat {
    if b < 0x80 then 1 else if b < 0xE0 then 2 else if b < 0xF0 then 3 else 4
  }

  lemma CharLength(c: char)
    ensures |CharBytes(c)| == LengthFrom(CharBytes(c)[0])
  {
  }

  function CharValue(s: seq<byte>): int
    requires 1 <= |s| <= 4
  {
    var lead: int := s[0];
    if |s| == 1 then lead
    else if |s| == 2 then (lead - 0xC0) * 0x40 + Tail(s[1])
    else if |s| == 3 then ((lead - 0xE0) * 0x40 + Tail(s[1])) * 0x40 + Tail(s[2])
    else (((lead - 0xF0) * 0x40 + Tail(s[1])) * 0x40 + Tail(s[2])) * 0x40 + Tail(s[3])
  }

  function Tail(b: byte): int {
    var v: int := b;
    v - 0x80
  }

  lemma SixBits(v: nat)
    ensures v == v / 0x40 * 0x40 + v % 0x40 && v / 0x40 / 0x40 == v / 0x1000 && v / 0x1000 / 0x40 == v / 0x4_0000
  {
  }

  lemma CharRoundTrip(c: char)
    ensures CharValue(CharBytes(c)) == c as int
  {
    var v := c as int;
    SixBits(v);
    SixBits(v / 0x40);
    SixBits(v / 0x1000);
  }

  /** Text is determined by its bytes. */
  lemma {:induction false} EncodeInjective(s: string, t: string)
    requires Encode(s) == Encode(t)
    ensures s == t
  {
    hide CharBytes;
    if s != "" && t != "" {
      var a, b := CharBytes(s[0]), CharBytes(t[0]);
      CharLength(s[0]);
      CharLength(t[0]);
      assert Encode(s)[0] == a[0] && Encode(t)[0] == b[0];
      assert a == Encode(s)[..|a|] == Encode(t)[..|b|] == b;
      CharRoundTrip(s[0]);
      CharRoundTrip(t[0]);
      assert Encode(s[1..]) == Encode(s)[|a|..] == Encode(t)[|b|..] == Encode(t[1..]);
      EncodeInjective(s[1..], t[1..]);
    }
  }

  /** Leading ASCII characters are their own bytes. */
  lemma {:induction false} EncodeAscii(s: string, n: nat)
    requires n <= |s| && forall i :: 0 <= i < n ==> s[i] < 128 as char
    ensures |Encode(s)| >= n && forall i :: 0 <= i < n ==> Encode(s)[i] == s[i] as int
  {
    if n > 0 {
      EncodeAscii(s[1..], n - 1);
      assert CharBytes(s[0]) == [s[0] as int];
      forall i | 0 <= i < n ensures Encode(s)[i] == s[i] as int {
        if i > 0 {
          assert Encode(s)[i] == Encode(s[1..])[i - 1];
        }
      }
    }
  }

  lemma {:induction false} EncodeAppend(s: string, t: string)
    ensures Encode(s + t) == Encode(s) + Encode(t)
  {
    hide CharBytes;
    if s == "" {
      assert s + t == t;
    } else {
      EncodeAppend(s[1..], t);
      assert (s + t)[1..] == s[1..] + t;
    }
  }
}
