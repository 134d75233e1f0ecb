/**
 * Base58 as the key generator writes it (and as the RIDE runtime prints addresses, asset ids
 * and burn ids), with the decoder of the base58 draft as its partner.
 */
module Base58 {
  import opened Bytes
  import opened Options

  const ALPHABET := "123456789" + "ABCDEFGH" + "JKLMN" + "PQRSTUVWXYZ" + "abcdefghijk" + "mnopqrstuvwxyz"

  /** The two bases at play: bytes and base58 digits. */
  type Base = b: nat | b == 58 || b == 256 witness 58

  function Value(b: Base, ds: seq<nat>): nat {
    if ds == [] then 0 else Value(b, ds[..|ds| - 1]) * b + ds[|ds| - 1]
  }

  /** The digits of n, most significant first, none for zero. */
  function Digits(b: Base, n: nat): (ds: seq<nat>)
    ensures forall d :: d in ds ==> d < b
    ensures ds != [] ==> ds[0] != 0
  {
    if n == 0 then [] else Digits(b, n / b) + [n % b]
  }

  lemma {:induction false} ValueOfDigits(b: Base, n: nat)
    ensures Value(b, Digits(b, n)) == n
  {
    if n == 0 {
    } else {
      ValueOfDigits(b, n / b);
      var ds := Digits(b, n);
      assert ds[..|ds| - 1] == Digits(b, n / b);
    }
  }

  lemma DivModStep(b: Base, q: nat, r: nat)
    requires r < b
    ensures (q * b + r) / b == q && (q * b + r) % b == r
  {
    if b == 58 {
      assert (q * 58 + r) / 58 == q;
    } else {
      assert (q * 256 + r) / 256 == q;
    }
  }

  /** One more digit, unless it would be a leading zero. */
  lemma DigitsStep(b: Base, q: nat, r: nat)
    requires r < b && (q != 0 || r != 0)
    ensures Digits(b, q * b + r) == Digits(b, q) + [r]
  {
    DivModStep(b, q, r);
  }

  lemma NoDigits(b: Base)
    ensures Digits(b, 0) == [] && Value(b, []) == 0
  {
  }

  lemma ValueLast(b: Base, ds: seq<nat>)
    requires ds != []
    ensures Value(b, ds) == Value(b, ds[..|ds| - 1]) * b + ds[|ds| - 1]
  {
  }

  lemma {:induction false} DigitsOfValue(b: Base, ds: seq<nat>)
    requires forall i :: 0 <= i < |ds| ==> ds[i] < b
    requires ds != [] ==> ds[0] != 0
    ensures Digits(b, Value(b, ds)) == ds
  {
    hide Digits, Value;
    NoDigits(b);
    if ds == [] {
    } else {
      var front, last := ds[..|ds| - 1], ds[|ds| - 1];
      DigitsOfValue(b, front);
      ValueLast(b, ds);
      assert ds == front + [last];
      DigitsStep(b, Value(b, front), last);
    }
  }

  function LeadingZeros(ds: seq<nat>): (z: nat)
    ensures z <= |ds|
    ensures forall i :: 0 <= i < z ==> ds[i] == 0
    ensures z < |ds| ==> ds[z] != 0
  {
    if ds == [] || ds[0] != 0 then 0 else 1 + LeadingZeros(ds[1..])
  }

  function ZeroDigits(n: nat): seq<nat> { seq(n, _ => 0) }

  /** Change of base that keeps one zero digit for each leading zero digit. */
  function Convert(from: Base, to: Base, ds: seq<nat>): (es: seq<nat>)
    ensures forall e :: e in es ==> e < to
  {
    ZeroDigits(LeadingZeros(ds)) + Digits(to, Value(from, ds))
  }

  lemma {:induction false} ValueIgnoresLeadingZeros(b: Base, z: nat, ds: seq<nat>)
    ensures Value(b, ZeroDigits(z) + ds) == Value(b, ds)
  {
    if ds == [] {
      assert ZeroDigits(z) + ds == ZeroDigits(z);
      ValueOfZeros(b, z);
    } else {
      var all := ZeroDigits(z) + ds;
      assert all[..|all| - 1] == ZeroDigits(z) + ds[..|ds| - 1];
      ValueIgnoresLeadingZeros(b, z, ds[..|ds| - 1]);
    }
  }

  lemma {:induction false} ValueOfZeros(b: Base, z: nat)
    ensures Value(b, ZeroDigits(z)) == 0
  {
    if z == 0 {
    } else {
      assert ZeroDigits(z)[..z - 1] == ZeroDigits(z - 1);
      ValueOfZeros(b, z - 1);
    }
  }

  lemma LeadingZerosUnique(z: nat, ds: seq<nat>)
    requires ds != [] ==> ds[0] != 0
    ensures LeadingZeros(ZeroDigits(z) + ds) == z
  {
    var all := ZeroDigits(z) + ds;
    assert forall i :: 0 <= i < z ==> all[i] == 0;
    assert ds != [] ==> all[z] == ds[0];
  }

  /** Converting there and back is the identity, whichever of the two bases one starts from. */
  lemma ConvertRoundTrip(from: Base, to: Base, ds: seq<nat>)
    requires forall d :: d in ds ==> d < from
    ensures Convert(to, from, Convert(from, to, ds)) == ds
  {
    hide Digits, Value;
    var z := LeadingZeros(ds);
    var rest := ds[z..];
    assert ds == ZeroDigits(z) + rest;
    forall i | 0 <= i < |rest| ensures rest[i] < from { assert rest[i] in ds; }
    ValueIgnoresLeadingZeros(from, z, rest);
    var v := Value(from, ds);
    ValueIgnoresLeadingZeros(to, z, Digits(to, v));
    ValueOfDigits(to, v);
    LeadingZerosUnique(z, Digits(to, v));
    DigitsOfValue(from, rest);
  }

  // ---------------------------------------------------------------------------------------------
  // Characters
  // ---------------------------------------------------------------------------------------------

  predicate IsBase58Char(c: char) {
    '1' <= c <= '9' || 'A' <= c <= 'H' || 'J' <= c <= 'N' || 'P' <= c <= 'Z' || 'a' <= c <= 'k' || 'm' <= c <= 'z'
  }

  predicate IsBase58(s: string) {
    forall c :: c in s ==> IsBase58Char(c)
  }

  function CharOf(d: nat): (c: char)
    requires d < 58
    ensures IsBase58Char(c)
  {
    if d < 9 then ('1' as int + d) as char
    else if d < 17 then ('A' as int + d - 9) as char
    else if d < 22 then ('J' as int + d - 17) as char
    else if d < 33 then ('P' as int + d - 22) as char
    else if d < 44 then ('a' as int + d - 33) as char
    else ('m' as int + d - 44) as char
  }

  function DigitOf(c: char): (d: nat)
    requires IsBase58Char(c)
    ensures d < 58 && CharOf(d) == c
  {
    if c <= '9' then c as int - '1' as int
    else if c <= 'H' then c as int - 'A' as int + 9
    else if c <= 'N' then c as int - 'J' as int + 17
    else if c <= 'Z' then c as int - 'P' as int + 22
    else if c <= 'k' then c as int - 'a' as int + 33
    else c as int - 'm' as int + 44
  }

  /** The alphabet string of the source, character by character. */
  lemma AlphabetChars(d: nat)
    requires d < 58
    ensures ALPHABET[d] == CharOf(d)
  {
    if d < 9 {
      assert ALPHABET[d] == "123456789"[d];
    } else if d < 17 {
      assert ALPHABET[d] == "ABCDEFGH"[d - 9];
    } else if d < 22 {
      assert ALPHABET[d] == "JKLMN"[d - 17];
    } else if d < 33 {
      assert ALPHABET[d] == "PQRSTUVWXYZ"[d - 22];
    } else if d < 44 {
      assert ALPHABET[d] == "abcdefghijk"[d - 33];
    } else {
      assert ALPHABET[d] == "mnopqrstuvwxyz"[d - 44];
    }
  }

  function Chars(ds: seq<nat>): (s: string)
    requires forall d :: d in ds ==> d < 58
    ensures |s| == |ds| && IsBase58(s)
  {
    seq(|ds|, i requires 0 <= i < |ds| => assert ds[i] in ds; CharOf(ds[i]))
  }

  function CharDigits(s: string): (ds: seq<nat>)
    requires IsBase58(s)
    ensures |ds| == |s| && forall d :: d in ds ==> d < 58
  {
    seq(|s|, i requires 0 <= i < |s| => DigitOf(s[i]))
  }

  function AsBytes(ds: seq<nat>): (bs: seq<byte>)
    requires forall d :: d in ds ==> d < 256
    ensures |bs| == |ds| && forall i :: 0 <= i < |ds| ==> bs[i] == ds[i]
  {
    if ds == [] then [] else
      assert ds[0] in ds && forall d :: d in ds[1..] ==> d in ds;
      [ds[0]] + AsBytes(ds[1..])
  }

  lemma CharDigitsOfChars(ds: seq<nat>)
    requires forall d :: d in ds ==> d < 58
    ensures CharDigits(Chars(ds)) == ds
  {
    forall i | 0 <= i < |ds| ensures CharDigits(Chars(ds))[i] == ds[i] {
      assert ds[i] in ds;
    }
  }

  /** What encodeBase58 computes on a non-empty input. */
  function Encode(bytes: seq<byte>): (s: string)
    ensures IsBase58(s)
  {
    Chars(Convert(256, 58, bytes))
  }

  /** The decoder: '1's become zero bytes, the rest is one big-endian number. */
  function Decode(s: string): Option<seq<byte>> {
    if IsBase58(s) then Some(AsBytes(Convert(58, 256, CharDigits(s)))) else None
  }

  /** Every byte string is read back from its encoding. */
  lemma RoundTrip(bytes: seq<byte>)
    ensures Decode(Encode(bytes)) == Some(bytes)
  {
    ConvertRoundTrip(256, 58, bytes);
    CharDigitsOfChars(Convert(256, 58, bytes));
    var back := AsBytes(Convert(58, 256, CharDigits(Encode(bytes))));
    assert back == bytes;
  }

  /** Every base58 string is the encoding of exactly one byte string. */
  lemma DecodeRoundTrip(s: string)
    requires IsBase58(s)
    ensures Decode(s).Some? && Encode(Decode(s).value) == s
  {
    var ds := CharDigits(s);
    var bytes := AsBytes(Convert(58, 256, ds));
    assert bytes == Convert(58, 256, ds);
    ConvertRoundTrip(58, 256, ds);
    assert Convert(256, 58, bytes) == ds;
    assert Chars(ds) == s;
  }

  lemma EncodeInjective(a: seq<byte>, b: seq<byte>)
    requires Encode(a) == Encode(b)
    ensures a == b
  {
    RoundTrip(a);
    RoundTrip(b);
  }

  predicate StartsWithOnes(s: string, z: nat) {
    && z <= |s|
    && (forall i :: 0 <= i < z ==> s[i] == '1')
    && (z < |s| ==> s[z] != '1')
  }

  /** Each leading zero byte gives one leading '1', and no other '1' follows them directly. */
  lemma LeadingOnes(bytes: seq<byte>)
    ensures StartsWithOnes(Encode(bytes), LeadingZeros(bytes))
  {
    var z := LeadingZeros(bytes);
    var digits := Digits(58, Value(256, bytes));
    if digits != [] {
      assert digits[0] in digits && digits[0] != 0;
      assert Convert(256, 58, bytes)[z] == digits[0];
    }
  }

  // ---------------------------------------------------------------------------------------------
  // The source's loops
  // ---------------------------------------------------------------------------------------------

  lemma ValueStep(b: Base, ds: seq<nat>, i: nat)
    requires i < |ds|
    ensures Value(b, ds[..i + 1]) == Value(b, ds[..i]) * b + ds[i]
  {
    assert ds[..i + 1][..i] == ds[..i];
  }

  /** `BigInt("0x" + hex)`: a syntax error on no bytes at all, the big-endian value otherwise. */
  method BigEndianNumber(bytes: seq<byte>) returns (num: nat)
    ensures num == Value(256, bytes)
  {
    num := 0;
    for i := 0 to |bytes|
      invariant num == Value(256, bytes[..i])
    {
      ValueStep(256, bytes, i);
      num := num * 256 + bytes[i];
    }
    assert bytes[..|bytes|] == bytes;
  }

  lemma CharsPrepend(d: nat, ds: seq<nat>)
    requires d < 58 && forall e :: e in ds ==> e < 58
    ensures Chars([d] + ds) == [CharOf(d)] + Chars(ds)
  {
    var all := [d] + ds;
    forall i | 0 <= i < |all| ensures Chars(all)[i] == ([CharOf(d)] + Chars(ds))[i] {
      assert all[i] in all;
    }
  }

  /** The division loop: it stops because the quotient by 58 of a positive number is smaller. */
  method DivideOut(number: nat) returns (chars: string)
    ensures chars == Chars(Digits(58, number))
  {
    var num := number;
    ghost var digits: seq<nat> := [];
    chars := "";
    while num > 0
      invariant Digits(58, number) == Digits(58, num) + digits
      invariant forall d :: d in digits ==> d < 58
      invariant chars == Chars(digits)
      decreases num
    {
      var mod := num % 58;
      AlphabetChars(mod);
      CharsPrepend(mod, digits);
      assert Digits(58, num) + digits == Digits(58, num / 58) + ([mod] + digits);
      digits := [mod] + digits;
      chars := [ALPHABET[mod]] + chars;
      num := num / 58;
    }
    assert Digits(58, number) == digits;
  }

  lemma CharsWithZeros(z: nat, ds: seq<nat>)
    requires forall d :: d in ds ==> d < 58
    ensures forall d :: d in ZeroDigits(z) + ds ==> d < 58
    ensures Chars(ZeroDigits(z) + ds) == seq(z, _ => '1') + Chars(ds)
  {
    var all := ZeroDigits(z) + ds;
    forall i | 0 <= i < |all| ensures Chars(all)[i] == (seq(z, _ => '1') + Chars(ds))[i] {
      assert all[i] in all;
    }
  }

  lemma LeadingZerosAre(bytes: seq<byte>, i: nat)
    requires i <= |bytes| && (forall j :: 0 <= j < i ==> bytes[j] == 0) && (i < |bytes| ==> bytes[i] != 0)
    ensures i == LeadingZeros(bytes)
  {
  }

  /** encodeBase58: repeated division by 58, then one '1' for each leading zero byte. */
  method EncodeBase58(bytes: seq<byte>) returns (result: Option<string>)
    ensures result == if bytes == [] then None else Some(Encode(bytes))
  {
    hide Digits, Chars, Value, LeadingZeros;
    if bytes == [] {
      return None;
    }
    var num := BigEndianNumber(bytes);
    var tail := DivideOut(num);
    var chars := tail;
    var i := 0;
    while i < |bytes| && bytes[i] == 0
      invariant i <= |bytes|
      invariant forall j :: 0 <= j < i ==> bytes[j] == 0
      invariant chars == seq(i, _ => '1') + tail
    {
      chars := ['1'] + chars;
      i := i + 1;
    }
    LeadingZerosAre(bytes, i);
    CharsWithZeros(i, Digits(58, num));
    return Some(chars);
  }
}
