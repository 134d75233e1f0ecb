/**
 * The messages validators sign, in all their formats: the unlock message of the lock program, the
 * consensus engine's own, and the two the controller verifies. None can be taken for another, and each
 * determines its fields, the engine's unlock message only once the lengths of two of its texts are known.
 */
module Messages {
  import opened Bytes
  import opened Hex
  import opened Options
  import opened Text
  import opened ControllerState
  import opened UnlockMessages
  import Utf8

  // ---------------------------------------------------------------------------------------------
  // The consensus engine's message
  // ---------------------------------------------------------------------------------------------

  /** The event behind a request: a deposit to be minted or a burn to be unlocked. */
  datatype Payload =
    | DepositEvent(sender: string, recipientDcc: string, amount: int, nonce: int, slot: int, chainId: int)
    | BurnEvent(sender: string, solRecipient: string, amount: int, height: int, txId: string)

  datatype Request = Request(transferId: string, payload: Payload, timestamp: int)

  predicate IsU64(i: int) { 0 <= i <= MAX_U64 }

  /** The integer writers throw outside their range. */
  predicate Writable(r: Request) {
    && IsU64(r.timestamp)
    && match r.payload
       case DepositEvent(_, _, amount, nonce, slot, chainId) =>
         IsU64(amount) && IsU64(nonce) && IsU64(slot) && 0 <= chainId <= MAX_U32
       case BurnEvent(_, _, amount, height, _) => IsU64(amount) && IsU64(height)
  }

  const ENGINE_DOMAIN: seq<byte> := Ascii("SOL_DCC_BRIDGE_V1")
  const MINT_TAG: seq<byte> := Ascii("MINT")
  const UNLOCK_TAG: seq<byte> := Ascii("UNLOCK")

  function CanonicalMessage(r: Request): seq<byte>
    requires Writable(r)
  {
    match r.payload
    case DepositEvent(sender, recipient, amount, nonce, slot, chainId) =>
      ENGINE_DOMAIN + MINT_TAG + FromHex(r.transferId) + Utf8.Encode(sender) + FromHex(recipient) + ToLE(8, amount)
      + ToLE(8, nonce) + ToLE(8, slot) + ToLE(4, chainId) + ToLE(8, r.timestamp)
    case BurnEvent(sender, recipient, amount, height, txId) =>
      ENGINE_DOMAIN + UNLOCK_TAG + FromHex(r.transferId) + Utf8.Encode(sender) + Utf8.Encode(recipient) + ToLE(8, amount)
      + ToLE(8, height) + Utf8.Encode(txId) + ToLE(8, r.timestamp)
  }

  /** Buffer.concat. */
  function Concat(parts: seq<seq<byte>>): seq<byte> {
    if parts == [] then [] else Concat(parts[..|parts| - 1]) + parts[|parts| - 1]
  }

  lemma ConcatAppend(parts: seq<seq<byte>>, last: seq<byte>)
    ensures Concat(parts + [last]) == Concat(parts) + last
  {
    assert (parts + [last])[..|parts|] == parts;
  }

  lemma ConcatOne(part: seq<byte>)
    ensures Concat([part]) == part
  {
    assert [part][..0] == [];
  }

  /** parts.push. */
  method Push(parts: seq<seq<byte>>, part: seq<byte>) returns (more: seq<seq<byte>>)
    ensures more == parts + [part] && Concat(more) == Concat(parts) + part
  {
    more := parts + [part];
    ConcatAppend(parts, part);
  }

  /** constructCanonicalMessage: the parts pushed one after the other, or a RangeError. */
  method ConstructCanonicalMessage(r: Request) returns (message: Option<seq<byte>>)
    ensures message == if Writable(r) then Some(CanonicalMessage(r)) else None
  {
    hide Concat, ToLE, Ascii, FromHex, Utf8.Encode;
    if !Writable(r) {
      return None;
    }
    var parts := [ENGINE_DOMAIN];
    ConcatOne(ENGINE_DOMAIN);
    parts := Push(parts, if r.payload.DepositEvent? then MINT_TAG else UNLOCK_TAG);
    parts := Push(parts, FromHex(r.transferId));
    match r.payload {
      case DepositEvent(sender, recipient, amount, nonce, slot, chainId) =>
        parts := Push(parts, Utf8.Encode(sender));
        parts := Push(parts, FromHex(recipient));
        parts := Push(parts, ToLE(8, amount));
        parts := Push(parts, ToLE(8, nonce));
        parts := Push(parts, ToLE(8, slot));
        parts := Push(parts, ToLE(4, chainId));
      case BurnEvent(sender, recipient, amount, height, txId) =>
        parts := Push(parts, Utf8.Encode(sender));
        parts := Push(parts, Utf8.Encode(recipient));
        parts := Push(parts, ToLE(8, amount));
        parts := Push(parts, ToLE(8, height));
        parts := Push(parts, Utf8.Encode(txId));
    }
    parts := Push(parts, ToLE(8, r.timestamp));
    message := Some(Concat(parts));
  }

  // ---------------------------------------------------------------------------------------------
  // All formats
  // ---------------------------------------------------------------------------------------------

  datatype Signed =
    | ChainUnlock(transferId: Bytes32, recipient: Bytes32, amount: nat, burnTxHash: Bytes32, dccChainId: nat, expiration: i64)
    | EngineMessage(request: Request)
    | RideMint(id: string, dccRecipient: string, raw: int, solSlot: int, splMint: string, chainId: int)
    | RideLegacyMint(id: string, dccRecipient: string, raw: int, solSlot: int, chainId: int)

  datatype Format = OnChainUnlock | EngineMint | EngineUnlock | ControllerMint | ControllerLegacyMint

  function FormatOf(m: Signed): Format {
    match m
    case ChainUnlock(_, _, _, _, _, _) => OnChainUnlock
    case EngineMessage(r) => if r.payload.DepositEvent? then EngineMint else EngineUnlock
    case RideMint(_, _, _, _, _, _) => ControllerMint
    case RideLegacyMint(_, _, _, _, _) => ControllerLegacyMint
  }

  /** Within the integer types of the format; the controller's texts hold no separator. */
  predicate Proper(m: Signed) {
    match m
    case ChainUnlock(_, _, amount, _, chainId, _) => amount <= MAX_U64 && chainId <= MAX_U32
    case EngineMessage(r) => Writable(r)
    case RideMint(id, recipient, _, _, mint, _) => '|' !in id && '|' !in recipient && '|' !in mint
    case RideLegacyMint(id, recipient, _, _, _) => '|' !in id && '|' !in recipient
  }

  function BytesOf(m: Signed): seq<byte>
    requires Proper(m)
  {
    match m
    case ChainUnlock(id, recipient, amount, burn, chainId, expiration) =>
      UnlockMessage(id, recipient, amount, burn, chainId, expiration)
    case EngineMessage(r) => CanonicalMessage(r)
    case RideMint(id, recipient, raw, slot, mint, chainId) => Utf8.Encode(MintMessage(id, recipient, raw, slot, mint, chainId))
    case RideLegacyMint(id, recipient, raw, slot, chainId) => Utf8.Encode(LegacyMintMessage(id, recipient, raw, slot, chainId))
  }

  // ---------------------------------------------------------------------------------------------
  // Each format determines its fields
  // ---------------------------------------------------------------------------------------------

  /** The on-chain unlock message is 140 bytes long and determines its six fields. */
  lemma UnlockInjective(a: Signed, b: Signed)
    requires a.ChainUnlock? && b.ChainUnlock? && Proper(a) && Proper(b)
    ensures |BytesOf(a)| == 140
    ensures BytesOf(a) == BytesOf(b) ==> a == b
  {
    hide ToLE, Ascii, I64ToU64;
    if BytesOf(a) == BytesOf(b) {
      var a1, b1 := UNLOCK_DOMAIN + a.transferId, UNLOCK_DOMAIN + b.transferId;
      var a2, b2 := a1 + a.recipient, b1 + b.recipient;
      var a3, b3 := a2 + ToLE(8, a.amount), b2 + ToLE(8, b.amount);
      var a4, b4 := a3 + a.burnTxHash, b3 + b.burnTxHash;
      var a5, b5 := a4 + ToLE(4, a.dccChainId), b4 + ToLE(4, b.dccChainId);
      SplitRight(a5, ToLE(8, I64ToU64(a.expiration)), b5, ToLE(8, I64ToU64(b.expiration)));
      SplitRight(a4, ToLE(4, a.dccChainId), b4, ToLE(4, b.dccChainId));
      SplitRight(a3, a.burnTxHash, b3, b.burnTxHash);
      SplitRight(a2, ToLE(8, a.amount), b2, ToLE(8, b.amount));
      SplitRight(a1, a.recipient, b1, b.recipient);
      SplitRight(UNLOCK_DOMAIN, a.transferId, UNLOCK_DOMAIN, b.transferId);
      NumbersDetermined(8, a.amount, b.amount);
      NumbersDetermined(4, a.dccChainId, b.dccChainId);
      NumbersDetermined(8, I64ToU64(a.expiration), I64ToU64(b.expiration));
      SignedDetermined(a.expiration, b.expiration);
    }
  }

  lemma NumbersDetermined(n: nat, v: nat, w: nat)
    requires (n == 8 && v <= MAX_U64 && w <= MAX_U64) || (n == 4 && v <= MAX_U32 && w <= MAX_U32)
    requires ToLE(n, v) == ToLE(n, w)
    ensures v == w
  {
    Pow256Values();
    LEInjective(n, v, w);
  }

  lemma SignedDetermined(i: i64, j: i64)
    requires I64ToU64(i) == I64ToU64(j)
    ensures i == j
  {
  }

  /** Ids and recipients as 64 lower-case hexadecimal digits. */
  predicate ThirtyTwoBytes(s: string) { IsLowerHex(s) && |s| == 64 }

  predicate ProperMint(r: Request) {
    Writable(r) && r.payload.DepositEvent? && ThirtyTwoBytes(r.transferId) && ThirtyTwoBytes(r.payload.recipientDcc)
  }

  /**
   * The engine's mint message determines its request, although the sender's text has no length before
   * it: all the other fields have fixed lengths.
   */
  lemma EngineMintInjective(r: Request, q: Request)
    requires ProperMint(r) && ProperMint(q) && CanonicalMessage(r) == CanonicalMessage(q)
    ensures r == q
  {
    hide ToLE, Ascii, FromHex, Utf8.Encode, IsLowerHex;
    var p, o := r.payload, q.payload;
    TextRoundTrip(r.transferId);
    TextRoundTrip(q.transferId);
    TextRoundTrip(p.recipientDcc);
    TextRoundTrip(o.recipientDcc);
    var r1, q1 := ENGINE_DOMAIN + MINT_TAG + FromHex(r.transferId), ENGINE_DOMAIN + MINT_TAG + FromHex(q.transferId);
    var r2, q2 := r1 + Utf8.Encode(p.sender), q1 + Utf8.Encode(o.sender);
    MintNumbers(r2, p, r.timestamp, q2, o, q.timestamp);
    SplitRight(r1, Utf8.Encode(p.sender), q1, Utf8.Encode(o.sender));
    SplitRight(ENGINE_DOMAIN + MINT_TAG, FromHex(r.transferId), ENGINE_DOMAIN + MINT_TAG, FromHex(q.transferId));
    Utf8.EncodeInjective(p.sender, o.sender);
  }

  /** Everything after the sender. */
  lemma MintNumbers(r2: seq<byte>, p: Payload, t: int, q2: seq<byte>, o: Payload, u: int)
    requires p.DepositEvent? && o.DepositEvent? && ThirtyTwoBytes(p.recipientDcc) && ThirtyTwoBytes(o.recipientDcc)
    requires Writable(Request("", p, t)) && Writable(Request("", o, u))
    requires r2 + FromHex(p.recipientDcc) + ToLE(8, p.amount) + ToLE(8, p.nonce) + ToLE(8, p.slot) + ToLE(4, p.chainId) + ToLE(8, t)
          == q2 + FromHex(o.recipientDcc) + ToLE(8, o.amount) + ToLE(8, o.nonce) + ToLE(8, o.slot) + ToLE(4, o.chainId) + ToLE(8, u)
    ensures r2 == q2 && t == u && p.recipientDcc == o.recipientDcc
    ensures p.amount == o.amount && p.nonce == o.nonce && p.slot == o.slot && p.chainId == o.chainId
  {
    hide ToLE, FromHex, IsLowerHex;
    var r3, q3 := r2 + FromHex(p.recipientDcc), q2 + FromHex(o.recipientDcc);
    var r4, q4 := r3 + ToLE(8, p.amount), q3 + ToLE(8, o.amount);
    var r5, q5 := r4 + ToLE(8, p.nonce), q4 + ToLE(8, o.nonce);
    var r6, q6 := r5 + ToLE(8, p.slot), q5 + ToLE(8, o.slot);
    var r7, q7 := r6 + ToLE(4, p.chainId), q6 + ToLE(4, o.chainId);
    SplitRight(r7, ToLE(8, t), q7, ToLE(8, u));
    SplitRight(r6, ToLE(4, p.chainId), q6, ToLE(4, o.chainId));
    SplitRight(r5, ToLE(8, p.slot), q5, ToLE(8, o.slot));
    SplitRight(r4, ToLE(8, p.nonce), q4, ToLE(8, o.nonce));
    SplitRight(r3, ToLE(8, p.amount), q3, ToLE(8, o.amount));
    TextRoundTrip(p.recipientDcc);
    TextRoundTrip(o.recipientDcc);
    SplitRight(r2, FromHex(p.recipientDcc), q2, FromHex(o.recipientDcc));
    NumbersDetermined(8, p.amount, o.amount);
    NumbersDetermined(8, p.nonce, o.nonce);
    NumbersDetermined(8, p.slot, o.slot);
    NumbersDetermined(4, p.chainId, o.chainId);
    NumbersDetermined(8, t, u);
  }

  lemma RideMintInjective(a: Signed, b: Signed)
    requires a.RideMint? && b.RideMint? && Proper(a) && Proper(b) && BytesOf(a) == BytesOf(b)
    ensures a == b
  {
    hide Utf8.Encode, IntText;
    Utf8.EncodeInjective(MintMessage(a.id, a.dccRecipient, a.raw, a.solSlot, a.splMint, a.chainId),
                         MintMessage(b.id, b.dccRecipient, b.raw, b.solSlot, b.splMint, b.chainId));
    var x := [MINT_DOMAIN, "MINT", a.id, a.dccRecipient, IntText(a.raw), IntText(a.solSlot), a.splMint, IntText(a.chainId)];
    var y := [MINT_DOMAIN, "MINT", b.id, b.dccRecipient, IntText(b.raw), IntText(b.solSlot), b.splMint, IntText(b.chainId)];
    NumberPipeFree(a.raw); NumberPipeFree(a.solSlot); NumberPipeFree(a.chainId);
    NumberPipeFree(b.raw); NumberPipeFree(b.solSlot); NumberPipeFree(b.chainId);
    JoinInjective(x, y, '|');
    assert x[2] == y[2] && x[3] == y[3] && x[4] == y[4] && x[5] == y[5] && x[6] == y[6] && x[7] == y[7];
    IntTextInjective(a.raw, b.raw);
    IntTextInjective(a.solSlot, b.solSlot);
    IntTextInjective(a.chainId, b.chainId);
  }

  lemma NumberPipeFree(i: int)
    ensures '|' !in IntText(i)
  {
  }

  lemma RideLegacyMintInjective(a: Signed, b: Signed)
    requires a.RideLegacyMint? && b.RideLegacyMint? && Proper(a) && Proper(b) && BytesOf(a) == BytesOf(b)
    ensures a == b
  {
    hide Utf8.Encode, IntText;
    Utf8.EncodeInjective(LegacyMintMessage(a.id, a.dccRecipient, a.raw, a.solSlot, a.chainId),
                         LegacyMintMessage(b.id, b.dccRecipient, b.raw, b.solSlot, b.chainId));
    var x := [LEGACY_MINT_DOMAIN, "MINT", a.id, a.dccRecipient, IntText(a.raw), IntText(a.solSlot), IntText(a.chainId)];
    var y := [LEGACY_MINT_DOMAIN, "MINT", b.id, b.dccRecipient, IntText(b.raw), IntText(b.solSlot), IntText(b.chainId)];
    NumberPipeFree(a.raw); NumberPipeFree(a.solSlot); NumberPipeFree(a.chainId);
    NumberPipeFree(b.raw); NumberPipeFree(b.solSlot); NumberPipeFree(b.chainId);
    JoinInjective(x, y, '|');
    assert x[2] == y[2] && x[3] == y[3] && x[4] == y[4] && x[5] == y[5] && x[6] == y[6];
    IntTextInjective(a.raw, b.raw);
    IntTextInjective(a.solSlot, b.solSlot);
    IntTextInjective(a.chainId, b.chainId);
  }

  /** The engine's unlock message of a burn, with an id of 64 lower-case hexadecimal digits. */
  predicate ProperUnlock(r: Request) {
    Writable(r) && r.payload.BurnEvent? && ThirtyTwoBytes(r.transferId)
  }

  /** The two texts whose ends the engine's unlock message does not mark by itself. */
  predicate SameTextLengths(p: Payload, o: Payload)
    requires p.BurnEvent? && o.BurnEvent?
  {
    |Utf8.Encode(p.sender)| == |Utf8.Encode(o.sender)| && |Utf8.Encode(p.txId)| == |Utf8.Encode(o.txId)|
  }

  /**
   * The engine's unlock message puts three texts side by side with no length before any. Two requests
   * with one message are the same exactly when their senders and their transaction ids take as many
   * bytes in both; then the recipients do too.
   */
  lemma EngineUnlockDetermined(r: Request, q: Request)
    requires ProperUnlock(r) && ProperUnlock(q) && CanonicalMessage(r) == CanonicalMessage(q)
    ensures r == q <==> SameTextLengths(r.payload, q.payload)
  {
    hide ToLE, Ascii, FromHex, Utf8.Encode, IsLowerHex;
    var p, o := r.payload, q.payload;
    if SameTextLengths(p, o) {
      TextRoundTrip(r.transferId);
      TextRoundTrip(q.transferId);
      var front := ENGINE_DOMAIN + UNLOCK_TAG;
      var r1, q1 := front + FromHex(r.transferId), front + FromHex(q.transferId);
      UnlockTail(r1 + Utf8.Encode(p.sender) + Utf8.Encode(p.solRecipient), p, r.timestamp,
                 q1 + Utf8.Encode(o.sender) + Utf8.Encode(o.solRecipient), o, q.timestamp);
      UnlockTexts(r1, p, q1, o);
      SplitRight(front, FromHex(r.transferId), front, FromHex(q.transferId));
    }
  }

  /** Everything after the recipient. */
  lemma UnlockTail(r2: seq<byte>, p: Payload, t: int, q2: seq<byte>, o: Payload, u: int)
    requires p.BurnEvent? && o.BurnEvent? && |Utf8.Encode(p.txId)| == |Utf8.Encode(o.txId)|
    requires Writable(Request("", p, t)) && Writable(Request("", o, u))
    requires r2 + ToLE(8, p.amount) + ToLE(8, p.height) + Utf8.Encode(p.txId) + ToLE(8, t)
          == q2 + ToLE(8, o.amount) + ToLE(8, o.height) + Utf8.Encode(o.txId) + ToLE(8, u)
    ensures r2 == q2 && p.amount == o.amount && p.height == o.height && p.txId == o.txId && t == u
  {
    hide ToLE, Utf8.Encode;
    var r3, q3 := r2 + ToLE(8, p.amount), q2 + ToLE(8, o.amount);
    var r4, q4 := r3 + ToLE(8, p.height), q3 + ToLE(8, o.height);
    SplitRight(r4 + Utf8.Encode(p.txId), ToLE(8, t), q4 + Utf8.Encode(o.txId), ToLE(8, u));
    SplitRight(r4, Utf8.Encode(p.txId), q4, Utf8.Encode(o.txId));
    SplitRight(r3, ToLE(8, p.height), q3, ToLE(8, o.height));
    SplitRight(r2, ToLE(8, p.amount), q2, ToLE(8, o.amount));
    NumbersDetermined(8, p.amount, o.amount);
    NumbersDetermined(8, p.height, o.height);
    NumbersDetermined(8, t, u);
    Utf8.EncodeInjective(p.txId, o.txId);
  }

  /** Sender and recipient, after ids of one length. */
  lemma UnlockTexts(r1: seq<byte>, p: Payload, q1: seq<byte>, o: Payload)
    requires p.BurnEvent? && o.BurnEvent? && |r1| == |q1| && |Utf8.Encode(p.sender)| == |Utf8.Encode(o.sender)|
    requires r1 + Utf8.Encode(p.sender) + Utf8.Encode(p.solRecipient) == q1 + Utf8.Encode(o.sender) + Utf8.Encode(o.solRecipient)
    ensures r1 == q1 && p.sender == o.sender && p.solRecipient == o.solRecipient
  {
    hide Utf8.Encode;
    var r2, q2 := r1 + Utf8.Encode(p.sender), q1 + Utf8.Encode(o.sender);
    assert |r2 + Utf8.Encode(p.solRecipient)| == |q2 + Utf8.Encode(o.solRecipient)|;
    SplitRight(r2, Utf8.Encode(p.solRecipient), q2, Utf8.Encode(o.solRecipient));
    SplitRight(r1, Utf8.Encode(p.sender), q1, Utf8.Encode(o.sender));
    Utf8.EncodeInjective(p.sender, o.sender);
    Utf8.EncodeInjective(p.solRecipient, o.solRecipient);
  }

  /** So the message is injective where all senders take one number of bytes and all transaction ids another. */
  lemma EngineUnlockInjective(r: Request, q: Request, senderBytes: nat, txIdBytes: nat)
    requires ProperUnlock(r) && |Utf8.Encode(r.payload.sender)| == senderBytes && |Utf8.Encode(r.payload.txId)| == txIdBytes
    requires ProperUnlock(q) && |Utf8.Encode(q.payload.sender)| == senderBytes && |Utf8.Encode(q.payload.txId)| == txIdBytes
    requires CanonicalMessage(r) == CanonicalMessage(q)
    ensures r == q
  {
    hide CanonicalMessage, Utf8.Encode;
    EngineUnlockDetermined(r, q);
  }

  /**
   * It is not injective beyond that: whatever ends the sender may as well begin the recipient, so every
   * burn with a sender shares its message with another.
   */
  lemma EngineUnlockAmbiguous(id: string, s: string, c: string, t: string, amount: int, height: int, txId: string, time: int)
    requires c != ""
    requires Writable(Request(id, BurnEvent(s + c, t, amount, height, txId), time))
    ensures var r, q := Request(id, BurnEvent(s + c, t, amount, height, txId), time),
                        Request(id, BurnEvent(s, c + t, amount, height, txId), time);
      r != q && CanonicalMessage(r) == CanonicalMessage(q)
  {
    hide Utf8.Encode, FromHex, ToLE, Ascii;
    assert |s + c| > |s|;
    Utf8.EncodeAppend(s, c);
    Utf8.EncodeAppend(c, t);
    var front := ENGINE_DOMAIN + UNLOCK_TAG + FromHex(id);
    assert front + (Utf8.Encode(s) + Utf8.Encode(c)) + Utf8.Encode(t) == front + Utf8.Encode(s) + (Utf8.Encode(c) + Utf8.Encode(t));
  }

  const TOP_BYTE: nat := 0x100_0000_0000_0000

  /** The burn whose numbers start one byte earlier: inside the recipient, and end inside the transaction id. */
  function Shifted(sender: string, t: string, c: char, amount: nat, height: nat, txId: string): Payload
    requires height <= MAX_U64
  {
    BurnEvent(sender, t, c as int + 256 * (amount % TOP_BYTE), amount / TOP_BYTE + 256 * (height % TOP_BYTE),
              [(height / TOP_BYTE) as char] + txId)
  }

  /**
   * Nor are the two numbers a boundary between recipient and transaction id: every burn whose recipient
   * ends in an ASCII character, at a height below 2^63, shares its message with one whose amount starts
   * with that character.
   */
  lemma EngineUnlockShifts(id: string, sender: string, t: string, c: char, amount: nat, height: nat, txId: string, time: int)
    requires c as int < 128 && height < 0x8000_0000_0000_0000
    requires Writable(Request(id, BurnEvent(sender, t + [c], amount, height, txId), time))
    ensures var r, q := Request(id, BurnEvent(sender, t + [c], amount, height, txId), time),
                        Request(id, Shifted(sender, t, c, amount, height, txId), time);
      r != q && Writable(q) && CanonicalMessage(r) == CanonicalMessage(q)
  {
    hide Utf8.Encode, FromHex, ToLE, Ascii;
    var top := [(height / TOP_BYTE) as char];
    assert |t + [c]| > |t|;
    Utf8.EncodeAppend(t, [c]);
    Utf8.EncodeAppend(top, txId);
    AsciiByte(c);
    AsciiByte(top[0]);
    NumberParts(amount);
    NumberParts(height);
    NumberStarts(c as int, amount % TOP_BYTE);
    NumberStarts(amount / TOP_BYTE, height % TOP_BYTE);
    var front, x, y := ENGINE_DOMAIN + UNLOCK_TAG + FromHex(id) + Utf8.Encode(sender),
                       ToLE(7, amount % TOP_BYTE), ToLE(7, height % TOP_BYTE);
    var a, b, d := [c as int], [amount / TOP_BYTE], [height / TOP_BYTE];
    var text, last := Utf8.Encode(txId), ToLE(8, time);
    assert front + (Utf8.Encode(t) + a) + (x + b) + (y + d) + text + last
        == front + Utf8.Encode(t) + (a + x) + (b + y) + (d + text) + last;
  }

  lemma AsciiByte(c: char)
    requires c as int < 128
    ensures Utf8.Encode([c]) == [c as int]
  {
  }

  lemma NumberParts(v: nat)
    requires v <= MAX_U64
    ensures ToLE(8, v) == ToLE(7, v % TOP_BYTE) + [v / TOP_BYTE]
  {
    hide ToLE;
    TopByteIsPower();
    LETop(7, v % TOP_BYTE, v / TOP_BYTE);
  }

  lemma TopByteIsPower()
    ensures Pow256(7) == TOP_BYTE
  {
    Pow256Values();
    assert Pow256(8) == 256 * Pow256(7);
  }

  lemma NumberStarts(first: byte, rest: nat)
    ensures ToLE(8, first + 256 * rest) == [first] + ToLE(7, rest)
  {
    assert (first + 256 * rest) % 256 == first && (first + 256 * rest) / 256 == rest;
  }

  // ---------------------------------------------------------------------------------------------
  // No two formats share a message
  // ---------------------------------------------------------------------------------------------

  /** The first eighteen bytes of each format. */
  function Prefix(f: Format): string {
    match f
    case OnChainUnlock => "SOL_DCC_BRIDGE_UNL"
    case EngineMint => "SOL_DCC_BRIDGE_V1M"
    case EngineUnlock => "SOL_DCC_BRIDGE_V1U"
    case ControllerMint => "SOL_DCC_BRIDGE_V2|"
    case ControllerLegacyMint => "SOL_DCC_BRIDGE_V1|"
  }

  predicate StartsWith(m: seq<byte>, s: string) {
    |m| >= |s| && forall i :: 0 <= i < |s| ==> m[i] == s[i] as int
  }

  lemma {:induction false} JoinStarts(first: string, rest: seq<string>, c: char)
    requires |rest| >= 1
    ensures var t := Join([first] + rest, c); |t| > |first| && t[..|first|] == first && t[|first|] == c
  {
    assert ([first] + rest)[1..] == rest;
  }

  /** A text that begins with a domain of the controller and a separator. */
  lemma DomainText(text: string, domain: string)
    requires |domain| == 17 && (forall i :: 0 <= i < 17 ==> domain[i] < 128 as char)
    requires |text| > 17 && text[..17] == domain && text[17] == '|'
    ensures StartsWith(Utf8.Encode(text), domain + "|")
  {
    hide Utf8.Encode;
    assert forall i :: 0 <= i < 17 ==> text[i] == text[..17][i];
    Utf8.EncodeAscii(text, 18);
  }

  lemma MintStarts(m: Signed)
    requires m.RideMint? && Proper(m)
    ensures StartsWith(BytesOf(m), MINT_DOMAIN + "|")
  {
    hide Utf8.Encode, IntText, Join, StartsWith;
    var rest := ["MINT", m.id, m.dccRecipient, IntText(m.raw), IntText(m.solSlot), m.splMint, IntText(m.chainId)];
    assert [MINT_DOMAIN] + rest
        == [MINT_DOMAIN, "MINT", m.id, m.dccRecipient, IntText(m.raw), IntText(m.solSlot), m.splMint, IntText(m.chainId)];
    JoinStarts(MINT_DOMAIN, rest, '|');
    DomainText(MintMessage(m.id, m.dccRecipient, m.raw, m.solSlot, m.splMint, m.chainId), MINT_DOMAIN);
  }

  lemma LegacyMintStarts(m: Signed)
    requires m.RideLegacyMint? && Proper(m)
    ensures StartsWith(BytesOf(m), LEGACY_MINT_DOMAIN + "|")
  {
    hide Utf8.Encode, IntText, Join, StartsWith;
    var rest := ["MINT", m.id, m.dccRecipient, IntText(m.raw), IntText(m.solSlot), IntText(m.chainId)];
    assert [LEGACY_MINT_DOMAIN] + rest
        == [LEGACY_MINT_DOMAIN, "MINT", m.id, m.dccRecipient, IntText(m.raw), IntText(m.solSlot), IntText(m.chainId)];
    JoinStarts(LEGACY_MINT_DOMAIN, rest, '|');
    DomainText(LegacyMintMessage(m.id, m.dccRecipient, m.raw, m.solSlot, m.chainId), LEGACY_MINT_DOMAIN);
  }

  lemma RideStarts(m: Signed)
    requires (m.RideMint? || m.RideLegacyMint?) && Proper(m)
    ensures StartsWith(BytesOf(m), Prefix(FormatOf(m)))
  {
    hide Utf8.Encode, IntText, Join, StartsWith, BytesOf;
    assert Prefix(ControllerMint) == MINT_DOMAIN + "|" && Prefix(ControllerLegacyMint) == LEGACY_MINT_DOMAIN + "|";
    if m.RideMint? {
      MintStarts(m);
    } else {
      LegacyMintStarts(m);
    }
  }

  lemma DomainsStart()
    ensures StartsWith(UNLOCK_DOMAIN, Prefix(OnChainUnlock))
    ensures StartsWith(ENGINE_DOMAIN + MINT_TAG, Prefix(EngineMint))
    ensures StartsWith(ENGINE_DOMAIN + UNLOCK_TAG, Prefix(EngineUnlock))
  {
    hide Ascii;
  }

  lemma StartsExtended(m: seq<byte>, front: seq<byte>, s: string)
    requires front <= m && StartsWith(front, s)
    ensures StartsWith(m, s)
  {
  }

  lemma EngineStarts(r: Request)
    requires Writable(r)
    ensures StartsWith(CanonicalMessage(r), Prefix(FormatOf(EngineMessage(r))))
  {
    hide Utf8.Encode, FromHex, ToLE, Ascii, StartsWith, ENGINE_DOMAIN, MINT_TAG, UNLOCK_TAG, Prefix;
    DomainsStart();
    StartsExtended(CanonicalMessage(r), ENGINE_DOMAIN + if r.payload.DepositEvent? then MINT_TAG else UNLOCK_TAG,
                   Prefix(FormatOf(EngineMessage(r))));
  }

  lemma UnlockStarts(m: Signed)
    requires m.ChainUnlock? && Proper(m)
    ensures StartsWith(BytesOf(m), Prefix(OnChainUnlock))
  {
    hide ToLE, Ascii, StartsWith, UNLOCK_DOMAIN, Prefix;
    DomainsStart();
    StartsExtended(BytesOf(m), UNLOCK_DOMAIN, Prefix(OnChainUnlock));
  }

  /** A message in one format is never one in another, so a signature given for one is none for another. */
  lemma FormatsDisjoint(a: Signed, b: Signed)
    requires Proper(a) && Proper(b) && BytesOf(a) == BytesOf(b)
    ensures FormatOf(a) == FormatOf(b)
  {
    hide BytesOf, Proper;
    Starts(a);
    Starts(b);
    PrefixesDiffer(FormatOf(a), FormatOf(b), BytesOf(a));
  }

  lemma Starts(m: Signed)
    requires Proper(m)
    ensures StartsWith(BytesOf(m), Prefix(FormatOf(m)))
  {
    hide StartsWith, Utf8.Encode, CanonicalMessage, UnlockMessage, MintMessage, LegacyMintMessage;
    match m
    case ChainUnlock(_, _, _, _, _, _) => UnlockStarts(m);
    case EngineMessage(r) => EngineStarts(r);
    case RideMint(_, _, _, _, _, _) => RideStarts(m);
    case RideLegacyMint(_, _, _, _, _) => RideStarts(m);
  }

  lemma PrefixesDiffer(f: Format, g: Format, m: seq<byte>)
    requires StartsWith(m, Prefix(f)) && StartsWith(m, Prefix(g))
    ensures f == g
  {
    assert m[15] == Prefix(f)[15] as int == Prefix(g)[15] as int;
    assert m[16] == Prefix(f)[16] as int == Prefix(g)[16] as int;
    assert m[17] == Prefix(f)[17] as int == Prefix(g)[17] as int;
  }

  /** Within its integers, free of separators, and with 32-byte ids where the engine writes hexadecimal ones. */
  predicate Determinate(m: Signed) {
    Proper(m) && (m.EngineMessage? ==> ProperMint(m.request) || ProperUnlock(m.request))
  }

  /**
   * Across all five formats at once a message determines format and fields, but for the engine's unlock
   * message, and that one does too exactly when the lengths of its sender and its transaction id are known.
   */
  lemma MessagesDetermined(a: Signed, b: Signed)
    requires Determinate(a) && Determinate(b) && BytesOf(a) == BytesOf(b)
    ensures FormatOf(a) == FormatOf(b)
    ensures a == b <==> (FormatOf(a) == EngineUnlock ==> SameTextLengths(a.request.payload, b.request.payload))
  {
    hide CanonicalMessage, UnlockMessage, MintMessage, LegacyMintMessage, Utf8.Encode, ThirtyTwoBytes;
    FormatsDisjoint(a, b);
    match a
    case ChainUnlock(_, _, _, _, _, _) => UnlockInjective(a, b);
    case EngineMessage(r) =>
      if r.payload.DepositEvent? {
        EngineMintInjective(r, b.request);
      } else {
        EngineUnlockDetermined(r, b.request);
      }
    case RideMint(_, _, _, _, _, _) => RideMintInjective(a, b);
    case RideLegacyMint(_, _, _, _, _) => RideLegacyMintInjective(a, b);
  }

  // ---------------------------------------------------------------------------------------------
  // The validator's unlock message
  // ---------------------------------------------------------------------------------------------

  /** What submitUnlockToSolana signs over: an id that is not 32 bytes long is replaced by zeros. */
  function ValidatorUnlockMessage(transferId: seq<byte>, recipient: Bytes32, amount: nat, burnTxHash: seq<byte>,
                                  dccChainId: nat, expiration: i64): seq<byte>
  {
    UNLOCK_DOMAIN + (if |transferId| == 32 then transferId else Zeros(32)) + recipient + ToLE(8, amount)
    + (if |burnTxHash| == 32 then burnTxHash else Zeros(32)) + ToLE(4, dccChainId) + ToLE(8, I64ToU64(expiration))
  }

  /** The message the lock program builds from the parameters the same validator sends it, ids padded or cut to 32 bytes. */
  function ProgramUnlockMessage(transferId: seq<byte>, recipient: Bytes32, amount: nat, burnTxHash: seq<byte>,
                                dccChainId: nat, expiration: i64): seq<byte>
  {
    UnlockMessage(Fit(32, transferId), recipient, amount, Fit(32, burnTxHash), dccChainId, expiration)
  }

  predicate SameIdBytes(id: seq<byte>) { |id| == 32 || Fit(32, id) == Zeros(32) }

  /**
   * The validator's bytes are the program's exactly when each id has 32 bytes, or comes to nothing but
   * zeros once padded or cut.
   */
  lemma ValidatorMatchesProgram(transferId: seq<byte>, recipient: Bytes32, amount: nat, burnTxHash: seq<byte>,
                                dccChainId: nat, expiration: i64)
    ensures ValidatorUnlockMessage(transferId, recipient, amount, burnTxHash, dccChainId, expiration)
         == ProgramUnlockMessage(transferId, recipient, amount, burnTxHash, dccChainId, expiration)
       <==> SameIdBytes(transferId) && SameIdBytes(burnTxHash)
  {
    hide ToLE, Ascii, I64ToU64, UNLOCK_DOMAIN, Fit;
    var x, y := if |transferId| == 32 then transferId else Zeros(32), Fit(32, transferId);
    var u, v := if |burnTxHash| == 32 then burnTxHash else Zeros(32), Fit(32, burnTxHash);
    var amountBytes, tail := ToLE(8, amount), ToLE(4, dccChainId);
    var last := ToLE(8, I64ToU64(expiration));
    if UNLOCK_DOMAIN + x + recipient + amountBytes + u + tail + last
       == UNLOCK_DOMAIN + y + recipient + amountBytes + v + tail + last {
      SplitRight(UNLOCK_DOMAIN + x + recipient + amountBytes + u + tail, last,
                 UNLOCK_DOMAIN + y + recipient + amountBytes + v + tail, last);
      SplitRight(UNLOCK_DOMAIN + x + recipient + amountBytes + u, tail, UNLOCK_DOMAIN + y + recipient + amountBytes + v, tail);
      SplitRight(UNLOCK_DOMAIN + x + recipient + amountBytes, u, UNLOCK_DOMAIN + y + recipient + amountBytes, v);
      SplitRight(UNLOCK_DOMAIN + x + recipient, amountBytes, UNLOCK_DOMAIN + y + recipient, amountBytes);
      SplitRight(UNLOCK_DOMAIN + x, recipient, UNLOCK_DOMAIN + y, recipient);
      SplitRight(UNLOCK_DOMAIN, x, UNLOCK_DOMAIN, y);
    }
  }
}
