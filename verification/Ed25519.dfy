/**
 * The Ed25519 precompile instruction: the parser the unlock handler uses to look for a
 * verified triple, and the two builders that lay such instructions out.
 */
module Ed25519 {
  import opened Bytes

  const ED25519_PROGRAM_ID := "Ed25519SigVerify111111111111111111111111111"
  const SELF_REF := MAX_U16

  datatype Instruction = Instruction(programId: string, data: seq<byte>)

  datatype Signer = Signer(pubkey: Bytes32, signature: Bytes64)

  /** One 14-byte descriptor: where a signature, its key and its message are. */
  datatype Descriptor = Descriptor(
    sigOffset: nat, sigIx: nat, pkOffset: nat, pkIx: nat, msgOffset: nat, msgSize: nat, msgIx: nat)
  {
    predicate SelfReferencing() {
      sigIx == SELF_REF && pkIx == SELF_REF && msgIx == SELF_REF
    }

    predicate InRange(size: nat) {
      pkOffset + 32 <= size && sigOffset + 64 <= size && msgOffset + msgSize <= size
    }
  }

  function DescriptorAt(data: seq<byte>, i: nat): Descriptor
    requires 2 + 14 * (i + 1) <= |data|
  {
    var at := 2 + 14 * i;
    Descriptor(U16(data, at), U16(data, at + 2), U16(data, at + 4), U16(data, at + 6),
               U16(data, at + 8), U16(data, at + 10), U16(data, at + 12))
  }

  predicate HasHeader(data: seq<byte>) {
    |data| >= 2 && data[0] > 0 && |data| >= 2 + 14 * (data[0] as int)
  }

  /** Descriptor i refers to this instruction, stays inside it, and names exactly this triple. */
  predicate Attests(data: seq<byte>, i: nat, pubkey: seq<byte>, message: seq<byte>, signature: seq<byte>)
    requires HasHeader(data) && i < data[0]
  {
    var d := DescriptorAt(data, i);
    && d.SelfReferencing()
    && d.InRange(|data|)
    && data[d.pkOffset..d.pkOffset + 32] == pubkey
    && data[d.sigOffset..d.sigOffset + 64] == signature
    && data[d.msgOffset..d.msgOffset + d.msgSize] == message
  }

  /** Descriptor i byte by byte: offset and instruction of signature and key, then offset, size and instruction of the message. */
  lemma AttestsExactly(data: seq<byte>, i: nat, pubkey: seq<byte>, message: seq<byte>, signature: seq<byte>)
    requires HasHeader(data) && i < data[0]
    ensures Attests(data, i, pubkey, message, signature)
       <==> var d := data[2 + 14 * i..2 + 14 * (i + 1)];
            var sig: int, pk: int := d[0] as int + 256 * d[1] as int, d[4] as int + 256 * d[5] as int;
            var msg: int, size: int := d[8] as int + 256 * d[9] as int, d[10] as int + 256 * d[11] as int;
            && d[2] == d[3] == d[6] == d[7] == d[12] == d[13] == 255
            && sig + 64 <= |data| && data[sig..sig + 64] == signature
            && pk + 32 <= |data| && data[pk..pk + 32] == pubkey
            && msg + size <= |data| && data[msg..msg + size] == message
  {
  }

  predicate InstructionAttests(data: seq<byte>, pubkey: seq<byte>, message: seq<byte>, signature: seq<byte>) {
    && HasHeader(data)
    && exists i: nat :: i < data[0] && Attests(data, i, pubkey, message, signature)
  }

  /** Some Ed25519 instruction before position `current` attests the triple. */
  predicate Introspected(ixs: seq<Instruction>, current: nat,
                         pubkey: seq<byte>, message: seq<byte>, signature: seq<byte>)
    requires current <= |ixs|
  {
    exists k: nat :: k < current && ixs[k].programId == ED25519_PROGRAM_ID
                     && InstructionAttests(ixs[k].data, pubkey, message, signature)
  }

  /** The checks on one descriptor, in the parser's order; every read is proved to stay inside the data. */
  method MatchDescriptor(data: seq<byte>, sigIndex: nat, pubkey: Bytes32, message: seq<byte>, signature: Bytes64)
    returns (found: bool)
    requires HasHeader(data) && sigIndex < data[0]
    ensures found <==> Attests(data, sigIndex, pubkey, message, signature)
  {
    var offset := 2 + sigIndex * 14;
    var sigOffset := U16(data, offset);
    var sigIx := U16(data, offset + 2);
    var pkOffset := U16(data, offset + 4);
    var pkIx := U16(data, offset + 6);
    var msgOffset := U16(data, offset + 8);
    var msgSize := U16(data, offset + 10);
    var msgIx := U16(data, offset + 12);
    if sigIx != SELF_REF || pkIx != SELF_REF || msgIx != SELF_REF {
      return false;
    }
    if pkOffset + 32 > |data| || data[pkOffset..pkOffset + 32] != pubkey {
      return false;
    }
    if sigOffset + 64 > |data| || data[sigOffset..sigOffset + 64] != signature {
      return false;
    }
    if msgOffset + msgSize > |data| {
      return false;
    }
    return data[msgOffset..msgOffset + msgSize] == message;
  }

  method ScanInstruction(data: seq<byte>, pubkey: Bytes32, message: seq<byte>, signature: Bytes64) returns (found: bool)
    ensures found <==> InstructionAttests(data, pubkey, message, signature)
  {
    if |data| < 2 {
      return false;
    }
    var numSignatures: int := data[0];
    if numSignatures == 0 || |data| < 2 + numSignatures * 14 {
      return false;
    }
    for sigIndex := 0 to numSignatures
      invariant forall i: nat :: i < sigIndex ==> !Attests(data, i, pubkey, message, signature)
    {
      var matches := MatchDescriptor(data, sigIndex, pubkey, message, signature);
      if matches {
        return true;
      }
    }
    return false;
  }

  /** The search over the instructions that precede the unlock. */
  method VerifySignatureIntrospect(ixs: seq<Instruction>, current: nat,
                                   pubkey: Bytes32, message: seq<byte>, signature: Bytes64) returns (found: bool)
    requires current <= |ixs|
    ensures found <==> Introspected(ixs, current, pubkey, message, signature)
  {
    for ixIndex := 0 to current
      invariant !Introspected(ixs, ixIndex, pubkey, message, signature)
    {
      if ixs[ixIndex].programId != ED25519_PROGRAM_ID {
        continue;
      }
      var matches := ScanInstruction(ixs[ixIndex].data, pubkey, message, signature);
      if matches {
        return true;
      }
    }
    return false;
  }

  // ---------------------------------------------------------------------------------------------
  // Builders
  // ---------------------------------------------------------------------------------------------

  function HeaderSize(n: nat): nat { 2 + 14 * n }

  function MessageStart(n: nat): nat { HeaderSize(n) + 96 * n }

  function BuiltDescriptor(n: nat, i: nat, messageSize: nat): Descriptor {
    Descriptor(HeaderSize(n) + 64 * i, SELF_REF, HeaderSize(n) + 64 * n + 32 * i, SELF_REF,
               MessageStart(n), messageSize, SELF_REF)
  }

  /** Signer i's descriptor, signature and key are in place. */
  predicate SignerLaidOut(data: seq<byte>, n: nat, i: nat, signer: Signer, messageSize: nat)
    requires |data| == MessageStart(n) + messageSize && i < n
  {
    var sigAt, pkAt := HeaderSize(n) + 64 * i, HeaderSize(n) + 64 * n + 32 * i;
    && DescriptorAt(data, i) == BuiltDescriptor(n, i, messageSize)
    && data[sigAt..sigAt + 64] == signer.signature
    && data[pkAt..pkAt + 32] == signer.pubkey
  }

  /** The whole instruction: count, padding, descriptors, signatures, keys, message. */
  predicate LaidOut(data: seq<byte>, signers: seq<Signer>, message: seq<byte>) {
    var n := |signers|;
    && |data| == MessageStart(n) + |message|
    && data[0] == n && data[1] == 0
    && (forall i: nat :: i < n ==> SignerLaidOut(data, n, i, signers[i], |message|))
    && data[MessageStart(n)..] == message
  }

  /** `buffer.writeUInt16LE`; the caller has checked the range. */
  method WriteU16LE(data: array<byte>, v: nat, at: nat)
    requires at + 2 <= data.Length && v <= MAX_U16
    modifies data
    ensures U16(data[..], at) == v
    ensures forall j :: 0 <= j < data.Length && j != at && j != at + 1 ==> data[j] == old(data[j])
  {
    data[at], data[at + 1] := v % 256, v / 256;
  }

  /** `source.copy(buffer, at)`. */
  method CopyInto(source: seq<byte>, data: array<byte>, at: nat)
    requires at + |source| <= data.Length
    modifies data
    ensures data[at..at + |source|] == source
    ensures forall j :: 0 <= j < data.Length && !(at <= j < at + |source|) ==> data[j] == old(data[j])
  {
    forall j | 0 <= j < |source| {
      data[at + j] := source[j];
    }
  }

  method WriteDescriptor(data: array<byte>, i: nat, d: Descriptor)
    requires HeaderSize(i + 1) <= data.Length
    requires d.SelfReferencing()
    requires d.sigOffset <= MAX_U16 && d.pkOffset <= MAX_U16 && d.msgOffset <= MAX_U16 && d.msgSize <= MAX_U16
    modifies data
    ensures DescriptorAt(data[..], i) == d
    ensures forall j :: 0 <= j < data.Length && !(HeaderSize(i) <= j < HeaderSize(i + 1)) ==> data[j] == old(data[j])
  {
    var at := 2 + i * 14;
    WriteU16LE(data, d.sigOffset, at);
    WriteU16LE(data, 0xffff, at + 2);
    WriteU16LE(data, d.pkOffset, at + 4);
    WriteU16LE(data, 0xffff, at + 6);
    WriteU16LE(data, d.msgOffset, at + 8);
    WriteU16LE(data, d.msgSize, at + 10);
    WriteU16LE(data, 0xffff, at + 12);
  }

  /** What a signer's layout depends on: its own descriptor, signature and key bytes. */
  lemma SignerFrame(a: seq<byte>, b: seq<byte>, n: nat, i: nat, signer: Signer, messageSize: nat)
    requires |a| == |b| == MessageStart(n) + messageSize && i < n
    requires SignerLaidOut(a, n, i, signer, messageSize)
    requires forall j :: HeaderSize(i) <= j < HeaderSize(i + 1) ==> a[j] == b[j]
    requires forall j :: HeaderSize(n) + 64 * i <= j < HeaderSize(n) + 64 * (i + 1) ==> a[j] == b[j]
    requires forall j :: HeaderSize(n) + 64 * n + 32 * i <= j < HeaderSize(n) + 64 * n + 32 * (i + 1) ==> a[j] == b[j]
    ensures SignerLaidOut(b, n, i, signer, messageSize)
  {
    var sigAt, pkAt := HeaderSize(n) + 64 * i, HeaderSize(n) + 64 * n + 32 * i;
    assert a[sigAt..sigAt + 64] == b[sigAt..sigAt + 64];
    assert a[pkAt..pkAt + 32] == b[pkAt..pkAt + 32];
  }

  lemma SignersFrame(a: seq<byte>, b: seq<byte>, signers: seq<Signer>, upTo: nat, messageSize: nat)
    requires var n := |signers|;
      && upTo <= n && |a| == |b| == MessageStart(n) + messageSize
      && (forall k: nat :: k < upTo ==> SignerLaidOut(a, n, k, signers[k], messageSize))
      && (forall j :: HeaderSize(0) <= j < HeaderSize(upTo) ==> a[j] == b[j])
      && (forall j :: HeaderSize(n) <= j < HeaderSize(n) + 64 * upTo ==> a[j] == b[j])
      && (forall j :: HeaderSize(n) + 64 * n <= j < HeaderSize(n) + 64 * n + 32 * upTo ==> a[j] == b[j])
    ensures forall k: nat :: k < upTo ==> SignerLaidOut(b, |signers|, k, signers[k], messageSize)
  {
    forall k: nat | k < upTo ensures SignerLaidOut(b, |signers|, k, signers[k], messageSize) {
      SignerFrame(a, b, |signers|, k, signers[k], messageSize);
    }
  }

  /** A descriptor and a stretch depend on their own bytes. */
  lemma DescriptorKept(a: seq<byte>, b: seq<byte>, i: nat)
    requires HeaderSize(i + 1) <= |a| == |b| && forall j :: HeaderSize(i) <= j < HeaderSize(i + 1) ==> a[j] == b[j]
    ensures DescriptorAt(a, i) == DescriptorAt(b, i)
  {
  }

  lemma StretchKept(a: seq<byte>, b: seq<byte>, from: nat, to: nat)
    requires from <= to <= |a| == |b| && forall j :: from <= j < to ==> a[j] == b[j]
    ensures a[from..to] == b[from..to]
  {
  }

  /** The signature and the key of signer i, and nothing else. */
  method CopySigner(data: array<byte>, n: nat, i: nat, signer: Signer)
    requires MessageStart(n) <= data.Length && i < n
    modifies data
    ensures var sigAt, pkAt := HeaderSize(n) + 64 * i, HeaderSize(n) + 64 * n + 32 * i;
      && data[..][sigAt..sigAt + 64] == signer.signature && data[..][pkAt..pkAt + 32] == signer.pubkey
      && forall j :: 0 <= j < data.Length && !(sigAt <= j < sigAt + 64) && !(pkAt <= j < pkAt + 32) ==> data[j] == old(data[j])
  {
    var sigAt, pkAt := HeaderSize(n) + 64 * i, HeaderSize(n) + 64 * n + 32 * i;
    CopyInto(signer.signature, data, sigAt);
    ghost var signed := data[..];
    CopyInto(signer.pubkey, data, pkAt);
    StretchKept(signed, data[..], sigAt, sigAt + 64);
  }

  /** Writes signer i, leaving the header bytes, the message area and every other signer alone. */
  method WriteSigner(data: array<byte>, n: nat, i: nat, signer: Signer, messageSize: nat)
    requires data.Length == MessageStart(n) + messageSize && i < n <= 255 && messageSize <= MAX_U16
    modifies data
    ensures SignerLaidOut(data[..], n, i, signer, messageSize)
    ensures data[0] == old(data[0]) && data[1] == old(data[1])
    ensures forall j :: HeaderSize(0) <= j < HeaderSize(i) ==> data[j] == old(data[j])
    ensures forall j :: HeaderSize(n) <= j < HeaderSize(n) + 64 * i ==> data[j] == old(data[j])
    ensures forall j :: HeaderSize(n) + 64 * n <= j < HeaderSize(n) + 64 * n + 32 * i ==> data[j] == old(data[j])
  {
    hide DescriptorAt, U16;
    WriteDescriptor(data, i, BuiltDescriptor(n, i, messageSize));
    ghost var described := data[..];
    CopySigner(data, n, i, signer);
    DescriptorKept(described, data[..], i);
  }

  method WriteSigners(data: array<byte>, signers: seq<Signer>, messageSize: nat)
    requires data.Length == MessageStart(|signers|) + messageSize && |signers| <= 255
    requires |signers| > 0 ==> messageSize <= MAX_U16
    modifies data
    ensures data[0] == old(data[0]) && data[1] == old(data[1])
    ensures forall k: nat :: k < |signers| ==> SignerLaidOut(data[..], |signers|, k, signers[k], messageSize)
  {
    hide SignerLaidOut;
    for i := 0 to |signers|
      invariant data[0] == old(data[0]) && data[1] == old(data[1])
      invariant forall k: nat :: k < i ==> SignerLaidOut(data[..], |signers|, k, signers[k], messageSize)
    {
      ghost var before := data[..];
      WriteSigner(data, |signers|, i, signers[i], messageSize);
      SignersFrame(before, data[..], signers, i, messageSize);
    }
  }

  /**
   * The multi-signature builder. Not built is the RangeError a Buffer write raises: more than 255
   * signers, or a message size that does not fit 16 bits.
   */
  method CreateMultiSigInstruction(signers: seq<Signer>, message: seq<byte>) returns (built: bool, data: array<byte>)
    ensures built <==> |signers| <= 255 && (|signers| > 0 ==> |message| <= MAX_U16)
    ensures built ==> LaidOut(data[..], signers, message)
  {
    var n := |signers|;
    var headerSize := 2 + n * 14;
    data := new byte[headerSize + n * 64 + n * 32 + |message|](_ => 0);
    if n > 255 || (n > 0 && |message| > 65535) {
      return false, data;
    }
    data[0], data[1] := n, 0;
    WriteSigners(data, signers, |message|);
    ghost var before := data[..];
    CopyInto(message, data, MessageStart(n));
    SignersFrame(before, data[..], signers, n, |message|);
    assert data[..][MessageStart(n)..] == message;
    return true, data;
  }

  /** The single-signature builder of the reverse bridge script: the same layout with one signer. */
  method CreateInstruction(signer: Signer, message: seq<byte>) returns (built: bool, data: array<byte>)
    ensures built <==> |message| <= MAX_U16
    ensures built ==> LaidOut(data[..], [signer], message)
  {
    hide DescriptorAt, U16;
    var headerSize := 2 + 14;
    var sigOffset := headerSize;
    var pkOffset := sigOffset + 64;
    var msgOffset := pkOffset + 32;
    data := new byte[headerSize + 64 + 32 + |message|](_ => 0);
    if |message| > 65535 {
      return false, data;
    }
    data[0], data[1] := 1, 0;
    WriteDescriptor(data, 0, Descriptor(sigOffset, 0xFFFF, pkOffset, 0xFFFF, msgOffset, |message|, 0xFFFF));
    ghost var described := data[..];
    CopyInto(signer.signature, data, sigOffset);
    ghost var signed := data[..];
    CopyInto(signer.pubkey, data, pkOffset);
    ghost var keyed := data[..];
    CopyInto(message, data, msgOffset);
    DescriptorKept(described, data[..], 0);
    StretchKept(signed, data[..], sigOffset, pkOffset);
    StretchKept(keyed, data[..], pkOffset, msgOffset);
    assert data[..][msgOffset..] == message;
    return true, data;
  }

  /**
   * What the builder lays out is exactly what the parser finds in it: each signer's triple, and
   * no other triple.
   */
  lemma BuiltInstructionAttests(data: seq<byte>, signers: seq<Signer>, message: seq<byte>,
                                pubkey: seq<byte>, m: seq<byte>, signature: seq<byte>)
    requires LaidOut(data, signers, message) && 0 < |signers| <= 255
    ensures InstructionAttests(data, pubkey, m, signature)
       <==> m == message && exists i: nat :: i < |signers| && signers[i].pubkey == pubkey && signers[i].signature == signature
  {
    var n := |signers|;
    forall i: nat | i < n
      ensures Attests(data, i, pubkey, m, signature)
         <==> m == message && signers[i].pubkey == pubkey && signers[i].signature == signature
    {
      assert SignerLaidOut(data, n, i, signers[i], |message|);
      var start := MessageStart(n);
      assert data[start..start + |message|] == data[start..] == message;
    }
  }

  // ---------------------------------------------------------------------------------------------
  // What the precompile adds
  // ---------------------------------------------------------------------------------------------

  /** The runtime ran the transaction, so every self-contained descriptor of every Ed25519 instruction verified. */
  ghost predicate PrecompilePassed(ixs: seq<Instruction>, verifies: (seq<byte>, seq<byte>, seq<byte>) -> bool) {
    forall k: nat, i: nat ::
      k < |ixs| && ixs[k].programId == ED25519_PROGRAM_ID && HasHeader(ixs[k].data) && i < ixs[k].data[0] ==>
        var d := DescriptorAt(ixs[k].data, i);
        d.SelfReferencing() && d.InRange(|ixs[k].data|) ==>
          verifies(ixs[k].data[d.pkOffset..d.pkOffset + 32],
                   ixs[k].data[d.msgOffset..d.msgOffset + d.msgSize],
                   ixs[k].data[d.sigOffset..d.sigOffset + 64])
  }

  /** A triple the parser accepts is one the precompile verified. */
  lemma IntrospectedIsVerified(ixs: seq<Instruction>, current: nat, verifies: (seq<byte>, seq<byte>, seq<byte>) -> bool,
                               pubkey: seq<byte>, message: seq<byte>, signature: seq<byte>)
    requires current <= |ixs| && PrecompilePassed(ixs, verifies)
    requires Introspected(ixs, current, pubkey, message, signature)
    ensures verifies(pubkey, message, signature)
  {
    var k: nat :| k < current && ixs[k].programId == ED25519_PROGRAM_ID
                  && InstructionAttests(ixs[k].data, pubkey, message, signature);
    var i: nat :| i < ixs[k].data[0] && Attests(ixs[k].data, i, pubkey, message, signature);
    var d := DescriptorAt(ixs[k].data, i);
    assert d.SelfReferencing() && d.InRange(|ixs[k].data|);
  }
}
