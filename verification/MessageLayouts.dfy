/**
 * Where each field of a signed message stands: reading a message at fixed places gives back the fields it was
 * made of, whoever reads it.
 */
module MessageLayouts {
  import opened Bytes
  import opened ControllerState
  import opened Hex
  import opened Messages
  import opened Text
  import opened UnlockMessages
  import Base58
  import Utf8

  lemma SignedRead(i: i64)
    ensures FromLE(ToLE(8, I64ToU64(i))) <= MAX_U64 && U64ToI64(FromLE(ToLE(8, I64ToU64(i)))) == i
  {
    NumberRead(8, I64ToU64(i));
  }

  /** The first n bytes after `at`. */
  function Field(m: seq<byte>, at: nat, n: nat): seq<byte>
    requires at + n <= |m|
  {
    m[at..at + n]
  }

  /**
   * The unlock message: 24 bytes of domain, the id, the recipient, the amount, the burn's hash, the chain id
   * and the expiration, numbers lowest byte first.
   */
  lemma UnlockLayout(id: Bytes32, recipient: Bytes32, amount: nat, burnTxHash: Bytes32, chainId: nat, expiration: i64)
    requires amount <= MAX_U64 && chainId <= MAX_U32
    ensures var m := UnlockMessage(id, recipient, amount, burnTxHash, chainId, expiration);
      && |m| == 140 && StartsWith(m, "SOL_DCC_BRIDGE_UNLOCK_V1")
      && Field(m, 24, 32) == id && Field(m, 56, 32) == recipient && FromLE(Field(m, 88, 8)) == amount
      && Field(m, 96, 32) == burnTxHash && FromLE(Field(m, 128, 4)) == chainId
      && FromLE(Field(m, 132, 8)) <= MAX_U64 && U64ToI64(FromLE(Field(m, 132, 8))) == expiration
  {
    hide ToLE, FromLE, Ascii, I64ToU64, U64ToI64;
    NumberRead(8, amount);
    NumberRead(4, chainId);
    SignedRead(expiration);
    var m := UnlockMessage(id, recipient, amount, burnTxHash, chainId, expiration);
    assert |UNLOCK_DOMAIN| == 24;
    assert Field(m, 88, 8) == ToLE(8, amount) && Field(m, 128, 4) == ToLE(4, chainId);
    assert Field(m, 132, 8) == ToLE(8, I64ToU64(expiration));
  }

  /** The bytes of a text at a place. */
  predicate TextAt(m: seq<byte>, at: nat, s: string) {
    at + |Utf8.Encode(s)| <= |m| && Field(m, at, |Utf8.Encode(s)|) == Utf8.Encode(s)
  }

  /** The last part of what a message starts with stands right before its end. */
  lemma PartStands(m: seq<byte>, front: seq<byte>, part: seq<byte>)
    requires front + part <= m
    ensures |front| + |part| <= |m| && Field(m, |front|, |part|) == part && front <= m
  {
    assert Field(m, |front|, |part|) == (front + part)[|front|..];
    assert front == (front + part)[..|front|];
  }

  /**
   * The engine's mint message: domain and tag, the id's bytes, the sender's text, the recipient's bytes, then
   * amount, nonce, slot, chain id and time.
   */
  lemma EngineMintLayout(r: Request)
    requires Writable(r) && r.payload.DepositEvent?
    ensures var m, p, id, to := CanonicalMessage(r), r.payload, FromHex(r.transferId), FromHex(r.payload.recipientDcc);
      var end := 21 + |id| + |Utf8.Encode(p.sender)| + |to|;
      && |m| == end + 36 && StartsWith(m, "SOL_DCC_BRIDGE_V1MINT")
      && Field(m, 21, |id|) == id && TextAt(m, 21 + |id|, p.sender) && Field(m, end - |to|, |to|) == to
      && FromLE(Field(m, end, 8)) == p.amount && FromLE(Field(m, end + 8, 8)) == p.nonce
      && FromLE(Field(m, end + 16, 8)) == p.slot && FromLE(Field(m, end + 24, 4)) == p.chainId
      && FromLE(Field(m, end + 28, 8)) == r.timestamp
  {
    hide ToLE, FromLE, Ascii, FromHex, Utf8.Encode, Field, StartsWith;
    var p := r.payload;
    NumberRead(8, p.amount);
    NumberRead(8, p.nonce);
    NumberRead(8, p.slot);
    NumberRead(4, p.chainId);
    NumberRead(8, r.timestamp);
    var m, domain := CanonicalMessage(r), ENGINE_DOMAIN + MINT_TAG;
    var a := domain + FromHex(r.transferId);
    var b := a + Utf8.Encode(p.sender);
    var c := b + FromHex(p.recipientDcc);
    var d := c + ToLE(8, p.amount);
    var e := d + ToLE(8, p.nonce);
    var f := e + ToLE(8, p.slot);
    var g := f + ToLE(4, p.chainId);
    assert m == g + ToLE(8, r.timestamp);
    PartStands(m, g, ToLE(8, r.timestamp));
    PartStands(m, f, ToLE(4, p.chainId));
    PartStands(m, e, ToLE(8, p.slot));
    PartStands(m, d, ToLE(8, p.nonce));
    PartStands(m, c, ToLE(8, p.amount));
    PartStands(m, b, FromHex(p.recipientDcc));
    PartStands(m, a, Utf8.Encode(p.sender));
    PartStands(m, domain, FromHex(r.transferId));
    EngineDomains();
    StartsExtended(m, domain, "SOL_DCC_BRIDGE_V1MINT");
  }

  lemma EngineDomains()
    ensures |ENGINE_DOMAIN + MINT_TAG| == 21 && StartsWith(ENGINE_DOMAIN + MINT_TAG, "SOL_DCC_BRIDGE_V1MINT")
    ensures |ENGINE_DOMAIN + UNLOCK_TAG| == 23 && StartsWith(ENGINE_DOMAIN + UNLOCK_TAG, "SOL_DCC_BRIDGE_V1UNLOCK")
  {
    hide Ascii;
  }

  /** The engine's unlock message: domain and tag, the id's bytes, two texts, amount and height, a text and the time. */
  lemma EngineUnlockLayout(r: Request)
    requires Writable(r) && r.payload.BurnEvent?
    ensures var m, p, id := CanonicalMessage(r), r.payload, FromHex(r.transferId);
      var sender := 23 + |id|;
      var recipient := sender + |Utf8.Encode(p.sender)|;
      var end := recipient + |Utf8.Encode(p.solRecipient)|;
      var time := end + 16 + |Utf8.Encode(p.txId)|;
      && |m| == time + 8 && StartsWith(m, "SOL_DCC_BRIDGE_V1UNLOCK")
      && Field(m, 23, |id|) == id && TextAt(m, sender, p.sender) && TextAt(m, recipient, p.solRecipient)
      && FromLE(Field(m, end, 8)) == p.amount && FromLE(Field(m, end + 8, 8)) == p.height
      && TextAt(m, end + 16, p.txId) && FromLE(Field(m, time, 8)) == r.timestamp
  {
    hide ToLE, FromLE, Ascii, FromHex, Utf8.Encode, Field, StartsWith;
    var p := r.payload;
    NumberRead(8, p.amount);
    NumberRead(8, p.height);
    NumberRead(8, r.timestamp);
    var m, domain := CanonicalMessage(r), ENGINE_DOMAIN + UNLOCK_TAG;
    var a := domain + FromHex(r.transferId);
    var b := a + Utf8.Encode(p.sender);
    var c := b + Utf8.Encode(p.solRecipient);
    var d := c + ToLE(8, p.amount);
    var e := d + ToLE(8, p.height);
    var f := e + Utf8.Encode(p.txId);
    assert m == f + ToLE(8, r.timestamp);
    PartStands(m, f, ToLE(8, r.timestamp));
    PartStands(m, e, Utf8.Encode(p.txId));
    PartStands(m, d, ToLE(8, p.height));
    PartStands(m, c, ToLE(8, p.amount));
    PartStands(m, b, Utf8.Encode(p.solRecipient));
    PartStands(m, a, Utf8.Encode(p.sender));
    PartStands(m, domain, FromHex(r.transferId));
    EngineDomains();
    StartsExtended(m, domain, "SOL_DCC_BRIDGE_V1UNLOCK");
  }

  // ---------------------------------------------------------------------------------------------
  // The controller's texts
  // ---------------------------------------------------------------------------------------------

  /** The text mintToken verifies, word by word. */
  lemma MintText(id: string, recipient: string, amount: int, slot: int, mint: string, chainId: int)
    ensures MintMessage(id, recipient, amount, slot, mint, chainId)
         == "SOL_DCC_BRIDGE_V2" + "|" + "MINT" + "|" + id + "|" + recipient + "|" + IntText(amount) + "|" + IntText(slot)
            + "|" + mint + "|" + IntText(chainId)
  {
    hide IntText, Join;
    var a := ["SOL_DCC_BRIDGE_V2"];
    var b := a + ["MINT"];
    var c := b + [id];
    var d := c + [recipient];
    var e := d + [IntText(amount)];
    var f := e + [IntText(slot)];
    var g := f + [mint];
    var h := g + [IntText(chainId)];
    assert h == ["SOL_DCC_BRIDGE_V2", "MINT", id, recipient, IntText(amount), IntText(slot), mint, IntText(chainId)];
    JoinSingle("SOL_DCC_BRIDGE_V2");
    JoinMore(a, "MINT");
    JoinMore(b, id);
    JoinMore(c, recipient);
    JoinMore(d, IntText(amount));
    JoinMore(e, IntText(slot));
    JoinMore(f, mint);
    JoinMore(g, IntText(chainId));
  }

  /** The text the legacy mint verifies, word by word. */
  lemma LegacyMintText(id: string, recipient: string, amount: int, slot: int, chainId: int)
    ensures LegacyMintMessage(id, recipient, amount, slot, chainId)
         == "SOL_DCC_BRIDGE_V1" + "|" + "MINT" + "|" + id + "|" + recipient + "|" + IntText(amount) + "|" + IntText(slot)
            + "|" + IntText(chainId)
  {
    hide IntText, Join;
    var a := ["SOL_DCC_BRIDGE_V1"];
    var b := a + ["MINT"];
    var c := b + [id];
    var d := c + [recipient];
    var e := d + [IntText(amount)];
    var f := e + [IntText(slot)];
    var g := f + [IntText(chainId)];
    assert g == ["SOL_DCC_BRIDGE_V1", "MINT", id, recipient, IntText(amount), IntText(slot), IntText(chainId)];
    JoinSingle("SOL_DCC_BRIDGE_V1");
    JoinMore(a, "MINT");
    JoinMore(b, id);
    JoinMore(c, recipient);
    JoinMore(d, IntText(amount));
    JoinMore(e, IntText(slot));
    JoinMore(f, IntText(chainId));
  }

  lemma JoinSingle(word: string)
    ensures Join([word], '|') == word
  {
  }

  lemma JoinMore(words: seq<string>, last: string)
    requires |words| >= 1
    ensures Join(words + [last], '|') == Join(words, '|') + "|" + last
  {
    JoinConcat(words, [last], '|');
  }

  // ---------------------------------------------------------------------------------------------
  // The burn id
  // ---------------------------------------------------------------------------------------------

  /** A number, highest byte first. */
  function FromBE(s: seq<byte>): nat { if s == [] then 0 else 256 * FromBE(s[..|s| - 1]) + s[|s| - 1] }

  lemma {:induction false} Mirrored(s: seq<byte>, t: seq<byte>)
    requires |s| == |t| && forall i :: 0 <= i < |s| ==> s[i] == t[|t| - 1 - i]
    ensures FromBE(s) == FromLE(t)
  {
    if s != [] {
      Mirrored(s[..|s| - 1], t[1..]);
    }
  }

  lemma LongRead(i: i64)
    ensures FromBE(LongBytes(i)) <= MAX_U64 && U64ToI64(FromBE(LongBytes(i))) == i
  {
    hide ToLE, FromLE, FromBE;
    var le := ToLE(8, I64ToU64(i));
    Mirrored(LongBytes(i), le);
    SignedRead(i);
  }

  /** A burn id is the hash of 50 bytes that hold caller, nonce, height and amount, numbers highest byte first. */
  lemma BurnIdLayout(rt: Runtime, caller: Address, nonce: i64, height: i64, amount: i64) returns (x: seq<byte>)
    ensures |x| == 50 && BurnId(rt, caller, nonce, height, amount) == Base58.Encode((rt.hash)(x))
    ensures x[..26] == caller
    ensures FromBE(x[26..34]) <= MAX_U64 && U64ToI64(FromBE(x[26..34])) == nonce
    ensures FromBE(x[34..42]) <= MAX_U64 && U64ToI64(FromBE(x[34..42])) == height
    ensures FromBE(x[42..]) <= MAX_U64 && U64ToI64(FromBE(x[42..])) == amount
  {
    hide LongBytes, FromBE, Base58.Encode, U64ToI64;
    x := caller + LongBytes(nonce) + LongBytes(height) + LongBytes(amount);
    assert x[26..34] == LongBytes(nonce) && x[34..42] == LongBytes(height) && x[42..] == LongBytes(amount);
    LongRead(nonce);
    LongRead(height);
    LongRead(amount);
  }

  /** The text a burn is stored as, word by word. */
  lemma BurnWords(b: BurnEntry)
    ensures BurnText(b)
         == b.sender + "|" + b.solRecipient + "|" + b.splMint + "|" + IntText(b.amount) + "|" + IntText(b.height) + "|"
            + IntText(b.timestamp)
  {
    hide IntText, Join;
    var w := [b.sender];
    var x := w + [b.solRecipient];
    var y := x + [b.splMint];
    var z := y + [IntText(b.amount)];
    var v := z + [IntText(b.height)];
    assert v + [IntText(b.timestamp)]
        == [b.sender, b.solRecipient, b.splMint, IntText(b.amount), IntText(b.height), IntText(b.timestamp)];
    JoinSingle(b.sender);
    JoinMore(w, b.solRecipient);
    JoinMore(x, b.splMint);
    JoinMore(y, IntText(b.amount));
    JoinMore(z, IntText(b.height));
    JoinMore(v, IntText(b.timestamp));
  }
}
