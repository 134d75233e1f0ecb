/**
 * A run of the lock program that pays its daily cap twice within a day, with one registered validator
 * whose signatures on both unlocks verify: what the breaker allows and its documentation rules out.
 */
module LockOverspend {
  import opened Bytes
  import opened LockState
  import opened LockSpec
  import opened LockRuns
  import opened LockLimits
  import Ed25519
  import LockQuorum
  import FW = FixedWindow

  /** One validator is enough, any amount up to the daily cap is paid at once, the hourly breaker is off. */
  function Terms(cap: nat): InitializeParams {
    InitializeParams(DEFAULT_KEY, 1, 20, 1, MAX_U64, cap, cap, 32, 0, cap + 1, 2, 1, 0)
  }

  /** An order for the whole cap with one attestation. */
  function Order(id: Bytes32, recipient: Pubkey, cap: nat, v: Pubkey, signature: Bytes64): UnlockParams {
    UnlockParams(id, recipient, cap, Zeros(32), 2, MAX_I64, [ValidatorAttestation(v, signature)])
  }

  /** The account of an active validator. */
  function EntryData(v: Pubkey): seq<byte> { Zeros(8) + v + [1] + Zeros(25) }

  /** The unlock with its validator's account and the precompile instruction before it. */
  function Pay(p: UnlockParams, v: Pubkey, data: seq<byte>): Instruction {
    Unlock(p, p.recipient, [EntryData(v)], [Ed25519.Instruction(Ed25519.ED25519_PROGRAM_ID, data)])
  }

  predicate SignedIn(data: seq<byte>, p: UnlockParams, v: Pubkey, signature: Bytes64) {
    Ed25519.LaidOut(data, [Ed25519.Signer(v, signature)], MessageOf(p))
  }

  lemma EntrySupplied(v: Pubkey)
    ensures Supplied([EntryData(v)], v) && forall w: Pubkey :: ActiveEntryData(EntryData(v), w) ==> w == v
  {
    assert EntryData(v)[8..40] == v && EntryData(v)[40] == 1;
    assert ActiveEntryData([EntryData(v)][0], v);
  }

  lemma SignatureIntrospected(p: UnlockParams, v: Pubkey, signature: Bytes64, data: seq<byte>)
    requires SignedIn(data, p, v, signature)
    ensures Ed25519.Introspected(Pay(p, v, data).preceding, 1, v, MessageOf(p), signature)
  {
    hide MessageOf, Ed25519.InstructionAttests, Ed25519.LaidOut;
    var signers := [Ed25519.Signer(v, signature)];
    Ed25519.BuiltInstructionAttests(data, signers, MessageOf(p), v, MessageOf(p), signature);
    assert signers[0].pubkey == v && signers[0].signature == signature;
    assert Pay(p, v, data).preceding[0].data == data;
  }

  type Verification = (seq<byte>, seq<byte>, seq<byte>) -> bool

  /** The precompile lets the unlock's instruction pass when the signature in it verifies. */
  lemma SignaturePrecompiled(p: UnlockParams, v: Pubkey, signature: Bytes64, data: seq<byte>, verifies: Verification)
    requires SignedIn(data, p, v, signature) && verifies(v, MessageOf(p), signature)
    ensures Ed25519.PrecompilePassed(Pay(p, v, data).preceding, verifies)
  {
    hide MessageOf, Ed25519.DescriptorAt;
    SignatureIntrospected(p, v, signature, data);
    assert data[0] == 1;
    assert Ed25519.Attests(data, 0, v, MessageOf(p), signature);
  }

  lemma QuorumPassed(id: Bytes32, recipient: Pubkey, cap: nat, v: Pubkey, signature: Bytes64, data: seq<byte>)
    requires SignedIn(data, Order(id, recipient, cap, v, signature), v, signature)
    ensures var p := Order(id, recipient, cap, v, signature);
      QuorumError(p, Pay(p, v, data).remaining, Pay(p, v, data).preceding).None?
  {
    hide MessageOf, Supplied, Ed25519.Introspected, SignedIn;
    var p := Order(id, recipient, cap, v, signature);
    EntrySupplied(v);
    SignatureIntrospected(p, v, signature, data);
    LockQuorum.NoAttestationError(p.attestations, Pay(p, v, data).remaining, Pay(p, v, data).preceding, MessageOf(p));
  }

  /** The terms in force, and lamports left for payments. */
  predicate Ready(s: State, cap: nat, left: nat) {
    var c := s.config;
    && !c.paused && c.dccChainId == 2 && c.minValidators == 1 && c.maxUnlockAmount == cap && c.maxDailyOutflow == cap
    && c.maxHourlyOutflow == 0 && c.largeWithdrawalThreshold == cap + 1 && s.vault >= left && c.totalUnlocked + left <= MAX_U64
  }

  lemma OnePayment(chain: Chain, s: State, clock: Clock, id: Bytes32, recipient: Pubkey, cap: nat, left: nat, v: Pubkey,
                   signature: Bytes64, data: seq<byte>)
    requires Ready(s, cap, cap + left) && id !in s.unlocks && clock.now < MAX_I64
    requires FW.Roll(DAY_SECONDS, DailyWindow(s.config), clock.now).count == 0
    requires SignedIn(data, Order(id, recipient, cap, v, signature), v, signature)
    ensures var p := Order(id, recipient, cap, v, signature);
      var t := StepEffect(chain, s, clock, Pay(p, v, data));
      && StepError(chain, s, clock, Pay(p, v, data)).None?
      && Ready(t, cap, left) && t.validators == s.validators && t.unlocks.Keys == s.unlocks.Keys + {id}
      && DailyWindow(t.config) == FW.Window(cap, FW.Roll(DAY_SECONDS, DailyWindow(s.config), clock.now).last)
      && t.events == s.events + [Unlocked(id, recipient, cap, Zeros(32), clock.now, 1)]
  {
    hide QuorumError, SignedIn;
    QuorumPassed(id, recipient, cap, v, signature, data);
  }

  lemma FirstTransaction(chain: Chain, authority: Pubkey, cap: nat, v: Pubkey)
    ensures var s := InitialState(authority, Terms(cap), 0, 2 * cap);
      var t := Apply(chain, s, Clock(0, 0), RegisterValidator(authority, v));
      && (2 * cap <= MAX_U64 ==> Ready(s, cap, 2 * cap) && Ready(t, cap, 2 * cap))
      && v in t.validators && t.unlocks == map[] && t.events == [] && DailyWindow(t.config) == FW.Window(0, 0)
  {
  }

  function Overspending(authority: Pubkey, recipient: Pubkey, cap: nat, v: Pubkey, ids: (Bytes32, Bytes32),
                        signatures: (Bytes64, Bytes64), data: (seq<byte>, seq<byte>)): seq<Transaction>
  {
    [Transaction(Clock(0, 0), RegisterValidator(authority, v)),
     Transaction(Clock(DAY_SECONDS - 1, 1), Pay(Order(ids.0, recipient, cap, v, signatures.0), v, data.0)),
     Transaction(Clock(DAY_SECONDS, 2), Pay(Order(ids.1, recipient, cap, v, signatures.1), v, data.1))]
  }

  lemma RunOfThree(chain: Chain, s: State, txs: seq<Transaction>)
    requires |txs| == 3
    ensures RunOf(chain, s, txs[..0]) == s
    ensures RunOf(chain, s, txs[..1]) == Apply(chain, s, txs[0].clock, txs[0].ins)
    ensures RunOf(chain, s, txs[..2]) == Apply(chain, RunOf(chain, s, txs[..1]), txs[1].clock, txs[1].ins)
    ensures RunOf(chain, s, txs) == Apply(chain, RunOf(chain, s, txs[..2]), txs[2].clock, txs[2].ins)
  {
    hide Apply;
    assert txs[..1][..0] == txs[..0] == [] && txs[..2][..1] == txs[..1];
  }

  lemma TwoPayments(e: Event, f: Event, from: int, to: int)
    requires e.Unlocked? && f.Unlocked? && from <= e.timestamp < to && from <= f.timestamp < to
    ensures PaidBetween([e, f], from, to) == e.amount + f.amount
  {
    assert [] + [e] == [e] && [e] + [f] == [e, f];
    PaidAppended([], e, from, to);
    PaidAppended([e], f, from, to);
  }

  /**
   * Transaction k is an accepted unlock whose instructions passed the precompile, whose accounts are entries of
   * the registry, and which carries a quorum of verified signatures over its own message.
   */
  ghost predicate QuorumUnlock(chain: Chain, s: State, txs: seq<Transaction>, k: nat, verifies: Verification)
    requires k < |txs|
  {
    var before, ins := RunOf(chain, s, txs[..k]), txs[k].ins;
    && ins.Unlock? && AcceptedAt(chain, s, txs, k)
    && Ed25519.PrecompilePassed(ins.preceding, verifies) && LockQuorum.Genuine(before, ins.remaining)
    && LockQuorum.QuorumMet(before, ins.unlock.attestations, MessageOf(ins.unlock), ins.remaining, verifies)
  }

  /** Under one cap all the while, two unlocks with a quorum pay it twice within 24 hours. */
  ghost predicate PaysTwice(chain: Chain, s: State, txs: seq<Transaction>, from: int, cap: nat, verifies: Verification) {
    && |txs| == 3 && QuorumUnlock(chain, s, txs, 1, verifies) && QuorumUnlock(chain, s, txs, 2, verifies)
    && Chronological(0, txs) && DailyCapsWithin(chain, s, txs, from, from + DAY_SECONDS, cap)
    && PaidBetween(RunOf(chain, s, txs).events, from, from + DAY_SECONDS) == 2 * cap
  }

  lemma EntryGenuine(s: State, v: Pubkey)
    requires v in s.validators
    ensures LockQuorum.Genuine(s, [EntryData(v)])
  {
    hide EntryData, ActiveEntryData;
    EntrySupplied(v);
  }

  /**
   * The daily outflow does exceed its cap: for every cap there is a program and a run of accepted
   * transactions in which two unlocks, each with a verified signature of the one registered validator, pay it
   * twice within one second, the first just before a reset and the second just after, the cap in force being
   * the same throughout.
   */
  lemma TwiceTheDailyCapIsPaid(chain: Chain, authority: Pubkey, recipient: Pubkey, cap: nat, v: Pubkey, ids: (Bytes32, Bytes32),
                               signatures: (Bytes64, Bytes64), data: (seq<byte>, seq<byte>), verifies: Verification)
    requires 0 < cap && 2 * cap <= MAX_U64 && ids.0 != ids.1
    requires var p := Order(ids.0, recipient, cap, v, signatures.0);
      SignedIn(data.0, p, v, signatures.0) && verifies(v, MessageOf(p), signatures.0)
    requires var p := Order(ids.1, recipient, cap, v, signatures.1);
      SignedIn(data.1, p, v, signatures.1) && verifies(v, MessageOf(p), signatures.1)
    ensures Initial(InitialState(authority, Terms(cap), 0, 2 * cap), 0)
    ensures PaysTwice(chain, InitialState(authority, Terms(cap), 0, 2 * cap),
                      Overspending(authority, recipient, cap, v, ids, signatures, data), DAY_SECONDS - 1, cap, verifies)
  {
    hide SignedIn, StepError, StepEffect, RunOf, PaidBetween, InitialState, LockQuorum.Genuine, LockQuorum.QuorumMet,
         Ed25519.PrecompilePassed, EntryData, MessageOf;
    var s, txs := InitialState(authority, Terms(cap), 0, 2 * cap),
                  Overspending(authority, recipient, cap, v, ids, signatures, data);
    assert ValidInitialization(Terms(cap));
    RunOfThree(chain, s, txs);
    FirstTransaction(chain, authority, cap, v);
    var one, two := RunOf(chain, s, txs[..1]), RunOf(chain, s, txs[..2]);
    OnePayment(chain, one, txs[1].clock, ids.0, recipient, cap, cap, v, signatures.0, data.0);
    OnePayment(chain, two, txs[2].clock, ids.1, recipient, cap, 0, v, signatures.1, data.1);
    EntryGenuine(one, v);
    EntryGenuine(two, v);
    SignaturePrecompiled(txs[1].ins.unlock, v, signatures.0, data.0, verifies);
    SignaturePrecompiled(txs[2].ins.unlock, v, signatures.1, data.1, verifies);
    LockQuorum.AcceptedUnlockHasQuorum(chain, s, 0, txs, 1, verifies);
    LockQuorum.AcceptedUnlockHasQuorum(chain, s, 0, txs, 2, verifies);
    var e, f := Unlocked(ids.0, recipient, cap, Zeros(32), DAY_SECONDS - 1, 1),
                Unlocked(ids.1, recipient, cap, Zeros(32), DAY_SECONDS, 1);
    assert RunOf(chain, s, txs).events == [e, f];
    TwoPayments(e, f, DAY_SECONDS - 1, DAY_SECONDS - 1 + DAY_SECONDS);
  }
}
