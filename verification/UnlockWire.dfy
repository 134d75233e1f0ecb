/** The parameters of an unlock on the wire: what a validator serializes and what the lock program reads. */
module UnlockWire {
  import opened Bytes
  import opened Options
  import opened LockState

  // ---------------------------------------------------------------------------------------------
  // Borsh, in the program's field order
  // ---------------------------------------------------------------------------------------------

  predicate Encodable(p: UnlockParams) {
    && |p.transferId| == 32 && p.amount <= MAX_U64 && p.dccChainId <= MAX_U32 && |p.attestations| <= MAX_U32
  }

  function AttestationBytes(a: ValidatorAttestation): (s: seq<byte>)
    ensures |s| == 96
  {
    a.validator + a.signature
  }

  function AttestationsBytes(atts: seq<ValidatorAttestation>): (s: seq<byte>)
    ensures |s| == 96 * |atts|
  {
    if atts == [] then [] else AttestationBytes(atts[0]) + AttestationsBytes(atts[1..])
  }

  function HeaderBytes(p: UnlockParams): seq<byte> {
    p.transferId + p.recipient + ToLE(8, p.amount) + p.burnTxHash + ToLE(4, p.dccChainId) + ToLE(8, I64ToU64(p.expiration))
    + ToLE(4, |p.attestations|)
  }

  function ParamsBytes(p: UnlockParams): seq<byte> { HeaderBytes(p) + AttestationsBytes(p.attestations) }

  function ReadAttestations(b: seq<byte>, n: nat): Option<seq<ValidatorAttestation>> {
    if n == 0 then Some([])
    else if |b| < 96 then None
    else match ReadAttestations(b[96..], n - 1)
      case None => None
      case Some(rest) => Some([ValidatorAttestation(b[..32], b[32..96])] + rest)
  }

  function ReadU(b: seq<byte>, from: nat, n: nat): nat
    requires from + n <= |b|
  {
    FromLE(b[from..from + n])
  }

  function ReadI64(b: seq<byte>, from: nat): i64
    requires from + 8 <= |b|
  {
    LEFits(b[from..from + 8]);
    U64ToI64(ReadU(b, from, 8))
  }

  lemma LEFits(b: seq<byte>)
    requires |b| == 8
    ensures FromLE(b) <= MAX_U64
  {
    FromLEBound(b);
    Pow256Values();
  }

  /** AnchorDeserialize of UnlockParams: the fields one after the other; bytes left over are ignored. */
  function ReadParams(b: seq<byte>): Option<UnlockParams> {
    if |b| < 120 then None
    else match ReadAttestations(b[120..], ReadU(b, 116, 4))
      case None => None
      case Some(atts) =>
        Some(UnlockParams(b[..32], b[32..64], ReadU(b, 64, 8), b[72..104], ReadU(b, 104, 4), ReadI64(b, 108), atts))
  }

  lemma SignedRead(i: i64)
    ensures U64ToI64(I64ToU64(i)) == i
  {
  }

  lemma OneRead(a: ValidatorAttestation, rest: seq<byte>)
    ensures var b := AttestationBytes(a) + rest;
      |b| >= 96 && b[96..] == rest && b[..32] == a.validator && b[32..96] == a.signature
  {
  }

  lemma {:induction false} AttestationsRead(atts: seq<ValidatorAttestation>, rest: seq<byte>)
    ensures ReadAttestations(AttestationsBytes(atts) + rest, |atts|) == Some(atts)
  {
    if atts != [] {
      var later := AttestationsBytes(atts[1..]) + rest;
      AttestationsRead(atts[1..], rest);
      assert AttestationsBytes(atts) + rest == AttestationBytes(atts[0]) + later;
      OneRead(atts[0], later);
      assert atts == [atts[0]] + atts[1..];
    }
  }

  /** Where each field of the header starts. */
  lemma HeaderFields(p: UnlockParams, rest: seq<byte>)
    requires |p.transferId| == 32
    ensures var b := HeaderBytes(p) + rest;
      && |HeaderBytes(p)| == 120
      && b[..32] == p.transferId && b[32..64] == p.recipient && b[64..72] == ToLE(8, p.amount) && b[72..104] == p.burnTxHash
      && b[104..108] == ToLE(4, p.dccChainId) && b[108..116] == ToLE(8, I64ToU64(p.expiration))
      && b[116..120] == ToLE(4, |p.attestations|) && b[120..] == rest
  {
    hide ToLE, I64ToU64;
  }

  /** Reading what was written gives the parameters back, whatever follows them. */
  lemma ParamsRoundTrip(p: UnlockParams, rest: seq<byte>)
    requires Encodable(p)
    ensures ReadParams(ParamsBytes(p) + rest) == Some(p)
    ensures |ParamsBytes(p)| == 120 + 96 * |p.attestations|
  {
    hide ToLE, FromLE, I64ToU64, U64ToI64, HeaderBytes, AttestationsBytes, ReadAttestations;
    var tail := AttestationsBytes(p.attestations) + rest;
    HeaderFields(p, tail);
    assert ParamsBytes(p) + rest == HeaderBytes(p) + tail;
    NumberRead(8, p.amount);
    NumberRead(4, p.dccChainId);
    NumberRead(4, |p.attestations|);
    NumberRead(8, I64ToU64(p.expiration));
    SignedRead(p.expiration);
    AttestationsRead(p.attestations, rest);
  }

  lemma {:induction false} AttestationsRewritten(b: seq<byte>, n: nat)
    requires ReadAttestations(b, n).Some?
    ensures var atts := ReadAttestations(b, n).value;
      |atts| == n && 96 * n <= |b| && AttestationsBytes(atts) == b[..96 * n]
  {
    if n > 0 {
      AttestationsRewritten(b[96..], n - 1);
      var atts := ReadAttestations(b, n).value;
      assert AttestationBytes(atts[0]) == b[..96];
      assert atts[1..] == ReadAttestations(b[96..], n - 1).value;
      assert b[..96] + b[96..][..96 * (n - 1)] == b[..96 * n];
    }
  }

  /** A number read from n bytes is written as the same bytes. */
  lemma NumberRewritten(b: seq<byte>, from: nat, n: nat)
    requires from + n <= |b| && (n == 8 || n == 4)
    ensures ToLE(n, ReadU(b, from, n)) == b[from..from + n]
    ensures n == 8 ==> ReadU(b, from, n) <= MAX_U64
    ensures n == 4 ==> ReadU(b, from, n) <= MAX_U32
  {
    LEBytesRoundTrip(b[from..from + n]);
    FromLEBound(b[from..from + n]);
    Pow256Values();
  }

  lemma SignedRewritten(u: nat)
    requires u <= MAX_U64
    ensures I64ToU64(U64ToI64(u)) == u
  {
  }

  /** And whatever can be read was written: the bytes read are the encoding of the result. */
  lemma ReadIsEncoding(b: seq<byte>)
    requires ReadParams(b).Some?
    ensures var p := ReadParams(b).value; Encodable(p) && ParamsBytes(p) <= b
  {
    hide ToLE, FromLE, I64ToU64, U64ToI64, AttestationsBytes, ReadAttestations;
    var p := ReadParams(b).value;
    AttestationsRewritten(b[120..], ReadU(b, 116, 4));
    NumberRewritten(b, 64, 8);
    NumberRewritten(b, 104, 4);
    NumberRewritten(b, 108, 8);
    NumberRewritten(b, 116, 4);
    SignedRewritten(ReadU(b, 108, 8));
    assert HeaderBytes(p) == b[..120];
    assert ParamsBytes(p) == b[..120] + b[120..][..96 * |p.attestations|] == b[..120 + 96 * |p.attestations|];
  }

  // ---------------------------------------------------------------------------------------------
  // The validator's serializer
  // ---------------------------------------------------------------------------------------------

  datatype NodeAttestation = NodeAttestation(publicKey: seq<byte>, signature: seq<byte>)

  datatype UnlockParamsInput = UnlockParamsInput(
    transferId: seq<byte>, recipient: Bytes32, amount: int, burnTxHash: seq<byte>, dccChainId: int, expiration: int,
    attestations: seq<NodeAttestation>)

  /** The integer writers accept their arguments; otherwise they throw a RangeError. */
  predicate InRange(p: UnlockParamsInput) {
    0 <= p.amount <= MAX_U64 && 0 <= p.dccChainId <= MAX_U32 && MIN_I64 <= p.expiration <= MAX_I64 && |p.attestations| <= MAX_U32
  }

  function OnWire(a: NodeAttestation): ValidatorAttestation { ValidatorAttestation(Fit(32, a.publicKey), Fit(64, a.signature)) }

  function AllOnWire(atts: seq<NodeAttestation>): seq<ValidatorAttestation> {
    seq(|atts|, i requires 0 <= i < |atts| => OnWire(atts[i]))
  }

  /** The parameters the program will read: byte fields padded with zeros or cut to their size. */
  function WireParams(p: UnlockParamsInput): UnlockParams
    requires InRange(p)
  {
    UnlockParams(Fit(32, p.transferId), p.recipient, p.amount, Fit(32, p.burnTxHash), p.dccChainId, p.expiration,
                 AllOnWire(p.attestations))
  }

  lemma {:induction false} AttestationsAppend(atts: seq<ValidatorAttestation>, a: ValidatorAttestation)
    ensures AttestationsBytes(atts + [a]) == AttestationsBytes(atts) + AttestationBytes(a)
  {
    if atts == [] {
      assert [a][1..] == [];
    } else {
      AttestationsAppend(atts[1..], a);
      assert (atts + [a])[1..] == atts[1..] + [a];
    }
  }

  lemma NoAttestations()
    ensures AttestationsBytes([]) == []
  {
  }

  /** Buffer.alloc(n), then source.copy over it. */
  method CopyInto(n: nat, source: seq<byte>) returns (buffer: array<byte>)
    ensures fresh(buffer) && buffer[..] == Fit(n, source)
  {
    buffer := new byte[n](_ => 0);
    var count := if n < |source| then n else |source|;
    for i := 0 to count
      invariant buffer[..i] == source[..i]
      invariant forall k :: i <= k < n ==> buffer[k] == 0
    {
      buffer[i] := source[i];
    }
    assert buffer[count..] == Zeros(n - count);
    assert buffer[..] == buffer[..count] + buffer[count..];
  }

  method SerializeAttestations(attestations: seq<NodeAttestation>) returns (out: Option<seq<byte>>)
    ensures |attestations| <= MAX_U32 ==> out == Some(ToLE(4, |attestations|) + AttestationsBytes(AllOnWire(attestations)))
    ensures |attestations| > MAX_U32 ==> out == None
  {
    hide ToLE, Fit, AttestationsBytes;
    NoAttestations();
    if |attestations| > MAX_U32 {
      return None;
    }
    var parts := ToLE(4, |attestations|);
    for i := 0 to |attestations|
      invariant parts == ToLE(4, |attestations|) + AttestationsBytes(AllOnWire(attestations[..i]))
    {
      var key := CopyInto(32, attestations[i].publicKey);
      var signature := CopyInto(64, attestations[i].signature);
      assert AllOnWire(attestations[..i + 1]) == AllOnWire(attestations[..i]) + [OnWire(attestations[i])];
      AttestationsAppend(AllOnWire(attestations[..i]), OnWire(attestations[i]));
      assert key[..] + signature[..] == AttestationBytes(OnWire(attestations[i]));
      parts := parts + key[..];
      parts := parts + signature[..];
    }
    assert attestations[..|attestations|] == attestations;
    return Some(parts);
  }

  /** serializeUnlockParams: the encoding of the parameters with their byte fields fitted, or a RangeError. */
  method SerializeUnlockParams(p: UnlockParamsInput) returns (out: Option<seq<byte>>)
    ensures out == if InRange(p) then Some(ParamsBytes(WireParams(p))) else None
  {
    if !(0 <= p.amount <= MAX_U64) || !(0 <= p.dccChainId <= MAX_U32) || !(MIN_I64 <= p.expiration <= MAX_I64) {
      return None;
    }
    var tid := CopyInto(32, p.transferId);
    var parts := tid[..];
    parts := parts + p.recipient;
    parts := parts + ToLE(8, p.amount);
    var bth := CopyInto(32, p.burnTxHash);
    parts := parts + bth[..];
    parts := parts + ToLE(4, p.dccChainId);
    parts := parts + ToLE(8, I64ToU64(p.expiration));
    var attestations := SerializeAttestations(p.attestations);
    match attestations
    case None => return None;
    case Some(bytes) =>
      assert parts + bytes == ParamsBytes(WireParams(p));
      return Some(parts + bytes);
  }

  /**
   * What the validator sends is what the program reads: decoding gives the parameters back with byte
   * fields padded or cut, for any number of attestations, from exactly 120 + 96n bytes.
   */
  lemma SerializedIsRead(p: UnlockParamsInput, rest: seq<byte>)
    requires InRange(p)
    ensures ReadParams(ParamsBytes(WireParams(p)) + rest) == Some(WireParams(p))
    ensures |ParamsBytes(WireParams(p))| == 120 + 96 * |p.attestations|
  {
    ParamsRoundTrip(WireParams(p), rest);
  }
}
