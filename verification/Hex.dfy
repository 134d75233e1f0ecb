/** Lower-case hexadecimal, the form in which Solana transfer ids travel to the other chain. */
module Hex {
  import opened Bytes

  function HexDigit(n: nat): (c: char)
    requires n < 16
    ensures '0' <= c <= '9' || 'a' <= c <= 'f'
  {
    if n < 10 then ('0' as int + n) as char else ('a' as int + n - 10) as char
  }

  function ToHex(s: seq<byte>): (t: string)
    ensures |t| == 2 * |s|
    ensures forall c :: c in t ==> '0' <= c <= '9' || 'a' <= c <= 'f'
  {
    if s == [] then "" else [HexDigit(s[0] / 16), HexDigit(s[0] % 16)] + ToHex(s[1..])
  }

  lemma HexDigitInjective(m: nat, n: nat)
    requires m < 16 && n < 16 && HexDigit(m) == HexDigit(n)
    ensures m == n
  {
  }

  lemma {:induction false} ToHexInjective(s: seq<byte>, t: seq<byte>)
    requires ToHex(s) == ToHex(t)
    ensures s == t
  {
    if s == [] || t == [] {
    } else {
      var x, y := ToHex(s), ToHex(t);
      assert x[0] == HexDigit(s[0] / 16) && y[0] == HexDigit(t[0] / 16);
      assert x[1] == HexDigit(s[0] % 16) && y[1] == HexDigit(t[0] % 16);
      HexDigitInjective(s[0] / 16, t[0] / 16);
      HexDigitInjective(s[0] % 16, t[0] % 16);
      assert x[2..] == ToHex(s[1..]) && y[2..] == ToHex(t[1..]);
      ToHexInjective(s[1..], t[1..]);
      assert s == [s[0]] + s[1..] && t == [t[0]] + t[1..];
    }
  }

  function HexValue(c: char): (n: int)
    ensures -1 <= n < 16
  {
    if '0' <= c <= '9' then c as int - '0' as int
    else if 'a' <= c <= 'f' then c as int - 'a' as int + 10
    else if 'A' <= c <= 'F' then c as int - 'A' as int + 10
    else -1
  }

  /** Buffer.from(s, 'hex'): pairs of digits up to the first that is not one. */
  function FromHex(s: string): seq<byte> {
    if |s| < 2 || HexValue(s[0]) < 0 || HexValue(s[1]) < 0 then []
    else [HexValue(s[0]) * 16 + HexValue(s[1])] + FromHex(s[2..])
  }

  predicate IsLowerHex(s: string) {
    |s| % 2 == 0 && forall c :: c in s ==> '0' <= c <= '9' || 'a' <= c <= 'f'
  }

  lemma ValueDigit(c: char)
    requires '0' <= c <= '9' || 'a' <= c <= 'f'
    ensures HexValue(c) >= 0 && HexDigit(HexValue(c)) == c
  {
  }

  lemma PairRoundTrip(c: char, d: char)
    requires '0' <= c <= '9' || 'a' <= c <= 'f'
    requires '0' <= d <= '9' || 'a' <= d <= 'f'
    ensures HexValue(c) >= 0 && HexValue(d) >= 0
    ensures var b := HexValue(c) * 16 + HexValue(d); HexDigit(b / 16) == c && HexDigit(b % 16) == d
  {
    ValueDigit(c);
    ValueDigit(d);
    assert (HexValue(c) * 16 + HexValue(d)) / 16 == HexValue(c);
  }

  lemma TailIsLowerHex(s: string)
    requires IsLowerHex(s) && s != ""
    ensures |s| >= 2 && IsLowerHex(s[2..])
    ensures forall i :: 0 <= i < 2 ==> '0' <= s[i] <= '9' || 'a' <= s[i] <= 'f'
  {
    assert s[0] in s && s[1] in s;
    assert forall c :: c in s[2..] ==> c in s;
  }

  lemma {:induction false} TextRoundTrip(s: string)
    requires IsLowerHex(s)
    ensures ToHex(FromHex(s)) == s && |FromHex(s)| == |s| / 2
  {
    hide HexValue, HexDigit, IsLowerHex;
    if s != "" {
      TailIsLowerHex(s);
      PairRoundTrip(s[0], s[1]);
      TextRoundTrip(s[2..]);
      assert FromHex(s)[1..] == FromHex(s[2..]);
      assert s == [s[0]] + [s[1]] + s[2..];
    }
  }
}
