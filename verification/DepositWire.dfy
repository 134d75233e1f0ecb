/** The deposit event on the wire: what the lock program emits and what a watcher makes of it. */
module DepositWire {
  import opened Bytes
  import opened Hex
  import opened Options
  import opened LockState
  import opened Text
  import Base58
  import UnlockWire

  /** An event as the program emits it: ids of 32 bytes, numbers within their types. */
  predicate Emitted(e: Event) {
    && e.Deposited? && |e.transferId| == 32
    && e.amount <= MAX_U64 && e.nonce <= MAX_U64 && e.slot <= MAX_U64 && e.chainId <= MAX_U32
    && MIN_I64 <= e.timestamp <= MAX_I64
  }

  /** The 132 bytes after the discriminator. */
  function EventBytes(e: Event): (s: seq<byte>)
    requires Emitted(e)
    ensures |s| == 132
  {
    e.transferId + e.sender + e.recipientDcc + ToLE(8, e.amount) + ToLE(8, e.nonce) + ToLE(8, e.slot)
    + ToLE(8, I64ToU64(e.timestamp)) + ToLE(4, e.chainId)
  }

  /** SolanaDepositEvent without the log's own slot and signature, which the decoder passes through. */
  datatype WatchedDeposit = WatchedDeposit(
    transferId: string, sender: string, recipientDcc: string, amount: nat, nonce: nat, slot: JsNumber, timestamp: JsNumber,
    chainId: nat)

  /** An event as JavaScript can hold it: slot and timestamp are doubles, amount and nonce are not. */
  function ViewOf(e: Event): WatchedDeposit
    requires e.Deposited?
  {
    WatchedDeposit(ToHex(e.transferId), Base58.Encode(e.sender), ToHex(e.recipientDcc), e.amount, e.nonce, AsJsNumber(e.slot),
                   AsJsNumber(e.timestamp), e.chainId)
  }

  /** The event 132 bytes stand for. */
  function EventOf(data: seq<byte>): (e: Event)
    requires |data| >= 132
    ensures Emitted(e)
  {
    UnlockWire.NumberRewritten(data, 96, 8);
    UnlockWire.NumberRewritten(data, 104, 8);
    UnlockWire.NumberRewritten(data, 112, 8);
    UnlockWire.NumberRewritten(data, 128, 4);
    Deposited(data[..32], data[32..64], data[64..96], UnlockWire.ReadU(data, 96, 8), UnlockWire.ReadU(data, 104, 8),
              UnlockWire.ReadU(data, 112, 8), UnlockWire.ReadI64(data, 120), UnlockWire.ReadU(data, 128, 4))
  }

  /** readBigUInt64LE and readUInt32LE: out of range they throw. */
  method ReadUnsigned(data: seq<byte>, offset: nat, size: nat) returns (v: Option<nat>)
    ensures v == if offset + size <= |data| then Some(UnlockWire.ReadU(data, offset, size)) else None
  {
    if offset + size > |data| {
      return None;
    }
    return Some(FromLE(data[offset..offset + size]));
  }

  /** decodeBridgeDeposit: a running offset over the fields; any read out of range is caught and gives null. */
  method DecodeBridgeDeposit(data: seq<byte>) returns (event: Option<WatchedDeposit>)
    ensures event == if |data| < 132 then None else Some(ViewOf(EventOf(data)))
  {
    hide ToHex, Base58.Encode, AsJsNumber, FromLE;
    if |data| < 120 {
      return None;
    }
    var offset := 0;
    var transferId := ToHex(data[offset..offset + 32]);
    offset := offset + 32;
    var sender := Base58.Encode(data[offset..offset + 32]);
    offset := offset + 32;
    var recipientDcc := ToHex(data[offset..offset + 32]);
    offset := offset + 32;
    var amount := ReadUnsigned(data, offset, 8);
    offset := offset + 8;
    var nonce := ReadUnsigned(data, offset, 8);
    offset := offset + 8;
    var slot := ReadUnsigned(data, offset, 8);
    offset := offset + 8;
    var timestamp := ReadUnsigned(data, offset, 8);
    offset := offset + 8;
    var chainId := ReadUnsigned(data, offset, 4);
    match (amount, nonce, slot, timestamp, chainId)
    case (Some(a), Some(n), Some(s), Some(t), Some(c)) =>
      UnlockWire.LEFits(data[120..128]);
      assert data[0..32] == data[..32];
      return Some(WatchedDeposit(transferId, sender, recipientDcc, a, n, AsJsNumber(s), AsJsNumber(U64ToI64(t)), c));
    case (_, _, _, _, _) => return None;
  }

  /** Decoding inverts the layout, whatever bytes follow. */
  lemma DecodedIsEmitted(e: Event, rest: seq<byte>)
    requires Emitted(e)
    ensures EventOf(EventBytes(e) + rest) == e
  {
    hide ToLE, FromLE, I64ToU64, U64ToI64;
    var b := EventBytes(e) + rest;
    assert b[96..104] == ToLE(8, e.amount) && b[104..112] == ToLE(8, e.nonce) && b[112..120] == ToLE(8, e.slot);
    assert b[120..128] == ToLE(8, I64ToU64(e.timestamp)) && b[128..132] == ToLE(4, e.chainId);
    NumberRead(8, e.amount);
    NumberRead(8, e.nonce);
    NumberRead(8, e.slot);
    NumberRead(8, I64ToU64(e.timestamp));
    NumberRead(4, e.chainId);
    UnlockWire.SignedRead(e.timestamp);
  }

  /** Where each field of the event stands, numbers lowest byte first. */
  lemma EventFields(e: Event)
    requires Emitted(e)
    ensures var b := EventBytes(e);
      && b[..32] == e.transferId && b[32..64] == e.sender && b[64..96] == e.recipientDcc
      && FromLE(b[96..104]) == e.amount && FromLE(b[104..112]) == e.nonce && FromLE(b[112..120]) == e.slot
      && FromLE(b[120..128]) <= MAX_U64 && U64ToI64(FromLE(b[120..128])) == e.timestamp && FromLE(b[128..132]) == e.chainId
  {
    hide EventBytes, FromLE, U64ToI64;
    assert EventBytes(e) + [] == EventBytes(e);
    DecodedIsEmitted(e, []);
    UnlockWire.LEFits(EventBytes(e)[120..128]);
  }

  /** And every long enough string is some event's layout. */
  lemma DecodedReEncodes(data: seq<byte>)
    requires |data| >= 132
    ensures EventBytes(EventOf(data)) == data[..132]
  {
    hide ToLE, FromLE, I64ToU64, U64ToI64;
    UnlockWire.NumberRewritten(data, 96, 8);
    UnlockWire.NumberRewritten(data, 104, 8);
    UnlockWire.NumberRewritten(data, 112, 8);
    UnlockWire.NumberRewritten(data, 120, 8);
    UnlockWire.NumberRewritten(data, 128, 4);
    UnlockWire.SignedRewritten(UnlockWire.ReadU(data, 120, 8));
  }

  predicate Safe(i: int) { -MAX_SAFE <= i <= MAX_SAFE }

  /** The watcher's view determines the event when slot and timestamp are safe integers. */
  lemma ViewDetermines(e: Event, f: Event)
    requires Emitted(e) && Emitted(f) && Safe(e.slot) && Safe(e.timestamp) && ViewOf(e) == ViewOf(f)
    ensures e == f
  {
    ToHexInjective(e.transferId, f.transferId);
    ToHexInjective(e.recipientDcc, f.recipientDcc);
    Base58.EncodeInjective(e.sender, f.sender);
  }
}
