/** The configuration account as bytes, and the script that reads it at a running offset. */
module ConfigAccount {
  import opened Bytes
  import opened LockState
  import opened Options
  import opened Text
  import UnlockWire

  /** Within the integer types the account gives its fields. */
  predicate Storable(c: Config) {
    && c.globalNonce <= MAX_U64 && c.totalLocked <= MAX_U64 && c.totalUnlocked <= MAX_U64
    && c.validatorCount <= MAX_U8 && c.minValidators <= MAX_U8 && c.maxValidators <= MAX_U8
    && c.minDeposit <= MAX_U64 && c.maxDeposit <= MAX_U64 && c.maxDailyOutflow <= MAX_U64 && c.currentDailyOutflow <= MAX_U64
    && MIN_I64 <= c.lastDailyReset <= MAX_I64 && c.maxUnlockAmount <= MAX_U64 && c.requiredConfirmations <= MAX_U16
    && MIN_I64 <= c.largeWithdrawalDelay <= MAX_I64 && c.largeWithdrawalThreshold <= MAX_U64
    && c.dccChainId <= MAX_U32 && c.solanaChainId <= MAX_U32
  }

  function IdentityBytes(c: Config): (s: seq<byte>)
    ensures |s| == 65
  {
    c.authority + c.guardian + [if c.paused then 1 else 0]
  }

  function CounterBytes(c: Config): (s: seq<byte>)
    requires Storable(c)
    ensures |s| == 27
  {
    ToLE(8, c.globalNonce) + ToLE(8, c.totalLocked) + ToLE(8, c.totalUnlocked)
    + [c.validatorCount, c.minValidators, c.maxValidators]
  }

  function LimitBytes(c: Config): (s: seq<byte>)
    requires Storable(c)
    ensures |s| == 48
  {
    ToLE(8, c.minDeposit) + ToLE(8, c.maxDeposit) + ToLE(8, c.maxDailyOutflow) + ToLE(8, c.currentDailyOutflow)
    + ToLE(8, I64ToU64(c.lastDailyReset)) + ToLE(8, c.maxUnlockAmount)
  }

  function RuleBytes(c: Config, bump: byte, vaultBump: byte): (s: seq<byte>)
    requires Storable(c)
    ensures |s| == 28
  {
    ToLE(2, c.requiredConfirmations) + ToLE(8, I64ToU64(c.largeWithdrawalDelay)) + ToLE(8, c.largeWithdrawalThreshold)
    + ToLE(4, c.dccChainId) + ToLE(4, c.solanaChainId) + [bump, vaultBump]
  }

  /** The account up to the vault bump: eight bytes of discriminator, then the fields in their order. */
  function AccountBytes(discriminator: seq<byte>, c: Config, bump: byte, vaultBump: byte): (s: seq<byte>)
    requires Storable(c) && |discriminator| == 8
    ensures |s| == 176
  {
    discriminator + IdentityBytes(c) + CounterBytes(c) + LimitBytes(c) + RuleBytes(c, bump, vaultBump)
  }

  datatype ConfigView = ConfigView(
    authority: seq<byte>, guardian: seq<byte>, paused: bool, globalNonce: nat, totalLocked: nat, totalUnlocked: nat,
    validatorCount: nat, minValidators: nat, maxValidators: nat, minDeposit: nat, maxDeposit: nat, maxDailyOutflow: nat,
    currentDailyOutflow: nat, lastDailyReset: JsNumber, maxUnlockAmount: nat, reqConfirmations: nat, lgWithdrawDelay: JsNumber,
    lgWithdrawThresh: nat, dccChainId: nat, solanaChainId: nat, bump: Option<nat>, vaultBump: Option<nat>)

  /** The configuration as the script holds it. */
  function ViewOf(c: Config, bump: byte, vaultBump: byte): ConfigView {
    ConfigView(c.authority, c.guardian, c.paused, c.globalNonce, c.totalLocked, c.totalUnlocked, c.validatorCount, c.minValidators,
               c.maxValidators, c.minDeposit, c.maxDeposit, c.maxDailyOutflow, c.currentDailyOutflow, AsJsNumber(c.lastDailyReset),
               c.maxUnlockAmount, c.requiredConfirmations, AsJsNumber(c.largeWithdrawalDelay), c.largeWithdrawalThreshold,
               c.dccChainId, c.solanaChainId, Some(bump), Some(vaultBump))
  }

  /** An element of a buffer: nothing past its end. */
  function ByteAt(data: seq<byte>, at: nat): Option<nat> {
    if at < |data| then Some(data[at]) else None
  }

  /** data.subarray, cut off at the end. */
  function Sub(data: seq<byte>, from: nat, to: nat): seq<byte>
    requires from <= to
  {
    var end := if to <= |data| then to else |data|;
    if from <= end then data[from..end] else []
  }

  /** What stands at the fixed offsets; the two bumps come last and are not missed. */
  function Fields(data: seq<byte>): ConfigView
    requires |data| >= 174
  {
    ConfigView(data[8..40], data[40..72], data[72] != 0, UnlockWire.ReadU(data, 73, 8), UnlockWire.ReadU(data, 81, 8),
               UnlockWire.ReadU(data, 89, 8), data[97], data[98], data[99], UnlockWire.ReadU(data, 100, 8),
               UnlockWire.ReadU(data, 108, 8), UnlockWire.ReadU(data, 116, 8), UnlockWire.ReadU(data, 124, 8),
               AsJsNumber(UnlockWire.ReadI64(data, 132)), UnlockWire.ReadU(data, 140, 8), UnlockWire.ReadU(data, 148, 2),
               AsJsNumber(UnlockWire.ReadI64(data, 150)), UnlockWire.ReadU(data, 158, 8), UnlockWire.ReadU(data, 166, 4),
               UnlockWire.ReadU(data, 170, 4), ByteAt(data, 174), ByteAt(data, 175))
  }

  /** A number at the offset, or the RangeError of reading past the end. */
  method ReadNumber(data: seq<byte>, off: nat, n: nat) returns (v: Option<nat>)
    ensures v == if off + n <= |data| then Some(UnlockWire.ReadU(data, off, n)) else None
  {
    hide UnlockWire.ReadU;
    v := if off + n > |data| then None else Some(UnlockWire.ReadU(data, off, n));
  }

  method ReadSigned(data: seq<byte>, off: nat) returns (v: Option<JsNumber>)
    ensures v == if off + 8 <= |data| then Some(AsJsNumber(UnlockWire.ReadI64(data, off))) else None
  {
    hide UnlockWire.ReadI64, AsJsNumber;
    v := if off + 8 > |data| then None else Some(AsJsNumber(UnlockWire.ReadI64(data, off)));
  }

  /**
   * readBridgeConfig: the fields one after the other at a running offset. Data too short for the last
   * number throws; data that ends before the bumps does not.
   */
  method ReadBridgeConfig(data: seq<byte>) returns (v: Option<ConfigView>)
    ensures v == if |data| < 174 then None else Some(Fields(data))
  {
    hide UnlockWire.ReadU, UnlockWire.ReadI64, AsJsNumber;
    var off := 8;
    var authority := Sub(data, off, off + 32);
    off := off + 32;
    var guardian := Sub(data, off, off + 32);
    off := off + 32;
    var paused := ByteAt(data, off) != Some(0);
    off := off + 1;
    var globalNonce := ReadNumber(data, off, 8);
    if globalNonce.None? { return None; }
    off := off + 8;
    var totalLocked := ReadNumber(data, off, 8);
    if totalLocked.None? { return None; }
    off := off + 8;
    var totalUnlocked := ReadNumber(data, off, 8);
    if totalUnlocked.None? { return None; }
    off := off + 8;
    var validatorCount := ByteAt(data, off);
    off := off + 1;
    var minValidators := ByteAt(data, off);
    off := off + 1;
    var maxValidators := ByteAt(data, off);
    off := off + 1;
    var minDeposit := ReadNumber(data, off, 8);
    if minDeposit.None? { return None; }
    off := off + 8;
    var maxDeposit := ReadNumber(data, off, 8);
    if maxDeposit.None? { return None; }
    off := off + 8;
    var maxDailyOutflow := ReadNumber(data, off, 8);
    if maxDailyOutflow.None? { return None; }
    off := off + 8;
    var currentDailyOutflow := ReadNumber(data, off, 8);
    if currentDailyOutflow.None? { return None; }
    off := off + 8;
    var lastDailyReset := ReadSigned(data, off);
    if lastDailyReset.None? { return None; }
    off := off + 8;
    var maxUnlockAmount := ReadNumber(data, off, 8);
    if maxUnlockAmount.None? { return None; }
    off := off + 8;
    var reqConfirmations := ReadNumber(data, off, 2);
    if reqConfirmations.None? { return None; }
    off := off + 2;
    var lgWithdrawDelay := ReadSigned(data, off);
    if lgWithdrawDelay.None? { return None; }
    off := off + 8;
    var lgWithdrawThresh := ReadNumber(data, off, 8);
    if lgWithdrawThresh.None? { return None; }
    off := off + 8;
    var dccChainId := ReadNumber(data, off, 4);
    if dccChainId.None? { return None; }
    off := off + 4;
    var solanaChainId := ReadNumber(data, off, 4);
    if solanaChainId.None? { return None; }
    off := off + 4;
    var bump := ByteAt(data, off);
    off := off + 1;
    var vaultBump := ByteAt(data, off);
    v := Some(ConfigView(authority, guardian, paused, globalNonce.value, totalLocked.value, totalUnlocked.value,
                         validatorCount.value, minValidators.value, maxValidators.value, minDeposit.value, maxDeposit.value,
                         maxDailyOutflow.value, currentDailyOutflow.value, lastDailyReset.value, maxUnlockAmount.value,
                         reqConfirmations.value, lgWithdrawDelay.value, lgWithdrawThresh.value, dccChainId.value,
                         solanaChainId.value, bump, vaultBump));
  }

  /** A number written somewhere is read back from there. */
  lemma ReadAt(data: seq<byte>, front: seq<byte>, n: nat, v: nat)
    requires (n == 8 && v <= MAX_U64) || (n == 4 && v <= MAX_U32) || (n == 2 && v <= MAX_U16)
    requires front + ToLE(n, v) <= data
    ensures UnlockWire.ReadU(data, |front|, n) == v
  {
    Pow256Values();
    LERoundTrip(n, v);
    assert data[|front|..|front| + n] == (front + ToLE(n, v))[|front|..] == ToLE(n, v);
  }

  lemma ReadSignedAt(data: seq<byte>, front: seq<byte>, v: i64)
    requires front + ToLE(8, I64ToU64(v)) <= data
    ensures UnlockWire.ReadI64(data, |front|) == v
  {
    ReadAt(data, front, 8, I64ToU64(v));
    UnlockWire.SignedRead(v);
  }

  lemma CountersRead(data: seq<byte>, front: seq<byte>, c: Config)
    requires Storable(c) && |front| == 73 && front + CounterBytes(c) <= data
    ensures UnlockWire.ReadU(data, 73, 8) == c.globalNonce && UnlockWire.ReadU(data, 81, 8) == c.totalLocked
    ensures UnlockWire.ReadU(data, 89, 8) == c.totalUnlocked
    ensures data[97] == c.validatorCount && data[98] == c.minValidators && data[99] == c.maxValidators
  {
    hide ToLE, UnlockWire.ReadU;
    var a, b, d := ToLE(8, c.globalNonce), ToLE(8, c.totalLocked), ToLE(8, c.totalUnlocked);
    ReadAt(data, front, 8, c.globalNonce);
    ReadAt(data, front + a, 8, c.totalLocked);
    ReadAt(data, front + a + b, 8, c.totalUnlocked);
    assert front + a + b + d + [c.validatorCount, c.minValidators, c.maxValidators] == front + CounterBytes(c);
  }

  lemma LimitsRead(data: seq<byte>, front: seq<byte>, c: Config)
    requires Storable(c) && |front| == 100 && front + LimitBytes(c) <= data
    ensures UnlockWire.ReadU(data, 100, 8) == c.minDeposit && UnlockWire.ReadU(data, 108, 8) == c.maxDeposit
    ensures UnlockWire.ReadU(data, 116, 8) == c.maxDailyOutflow && UnlockWire.ReadU(data, 124, 8) == c.currentDailyOutflow
    ensures UnlockWire.ReadI64(data, 132) == c.lastDailyReset && UnlockWire.ReadU(data, 140, 8) == c.maxUnlockAmount
  {
    hide ToLE, UnlockWire.ReadU, UnlockWire.ReadI64, I64ToU64;
    var a, b, d, e := ToLE(8, c.minDeposit), ToLE(8, c.maxDeposit), ToLE(8, c.maxDailyOutflow), ToLE(8, c.currentDailyOutflow);
    var f, g := ToLE(8, I64ToU64(c.lastDailyReset)), ToLE(8, c.maxUnlockAmount);
    assert front + a + b + d + e + f + g == front + LimitBytes(c);
    ReadAt(data, front, 8, c.minDeposit);
    ReadAt(data, front + a, 8, c.maxDeposit);
    ReadAt(data, front + a + b, 8, c.maxDailyOutflow);
    ReadAt(data, front + a + b + d, 8, c.currentDailyOutflow);
    ReadSignedAt(data, front + a + b + d + e, c.lastDailyReset);
    ReadAt(data, front + a + b + d + e + f, 8, c.maxUnlockAmount);
  }

  lemma RulesRead(data: seq<byte>, front: seq<byte>, c: Config, bump: byte, vaultBump: byte)
    requires Storable(c) && |front| == 148 && front + RuleBytes(c, bump, vaultBump) <= data
    ensures UnlockWire.ReadU(data, 148, 2) == c.requiredConfirmations && UnlockWire.ReadI64(data, 150) == c.largeWithdrawalDelay
    ensures UnlockWire.ReadU(data, 158, 8) == c.largeWithdrawalThreshold && UnlockWire.ReadU(data, 166, 4) == c.dccChainId
    ensures UnlockWire.ReadU(data, 170, 4) == c.solanaChainId && data[174] == bump && data[175] == vaultBump
  {
    hide ToLE, UnlockWire.ReadU, UnlockWire.ReadI64, I64ToU64;
    var a, b, d := ToLE(2, c.requiredConfirmations), ToLE(8, I64ToU64(c.largeWithdrawalDelay)), ToLE(8, c.largeWithdrawalThreshold);
    var e, f := ToLE(4, c.dccChainId), ToLE(4, c.solanaChainId);
    assert front + a + b + d + e + f + [bump, vaultBump] == front + RuleBytes(c, bump, vaultBump);
    ReadAt(data, front, 2, c.requiredConfirmations);
    ReadSignedAt(data, front + a, c.largeWithdrawalDelay);
    ReadAt(data, front + a + b, 8, c.largeWithdrawalThreshold);
    ReadAt(data, front + a + b + d, 4, c.dccChainId);
    ReadAt(data, front + a + b + d + e, 4, c.solanaChainId);
  }

  /** The script's offsets are the account's: what it reads is the stored configuration, whatever follows. */
  lemma ConfigIsRead(discriminator: seq<byte>, c: Config, bump: byte, vaultBump: byte, rest: seq<byte>)
    requires Storable(c) && |discriminator| == 8
    ensures Fields(AccountBytes(discriminator, c, bump, vaultBump) + rest) == ViewOf(c, bump, vaultBump)
  {
    hide UnlockWire.ReadU, UnlockWire.ReadI64, CounterBytes, LimitBytes, RuleBytes, AsJsNumber;
    var data := AccountBytes(discriminator, c, bump, vaultBump) + rest;
    var x := discriminator + IdentityBytes(c);
    var y := x + CounterBytes(c);
    var z := y + LimitBytes(c);
    assert data == z + RuleBytes(c, bump, vaultBump) + rest;
    CountersRead(data, x, c);
    LimitsRead(data, y, c);
    RulesRead(data, z, c, bump, vaultBump);
    assert data[8..73] == IdentityBytes(c);
    assert data[8..40] == IdentityBytes(c)[..32] == c.authority;
    assert data[40..72] == IdentityBytes(c)[32..64] == c.guardian;
    assert data[72] == IdentityBytes(c)[64];
  }
}
