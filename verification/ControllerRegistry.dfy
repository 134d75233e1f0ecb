/** The controller's registries: validators and tokens against their counters, and what they say of an accepted mint. */
module ControllerRegistry {
  import opened Bytes
  import opened ControllerFrames
  import opened ControllerHistory
  import opened ControllerState
  import Base58

  function ActiveKeys(active: map<string, bool>): set<string> { set p | p in active && active[p] }

  /** The counters count: active validators, at most twenty, and registered tokens, at most fifty. */
  predicate RegistryInv(c: Controller) {
    && c.validatorCount == |ActiveKeys(c.validatorActive)| <= MAX_VALIDATORS
    && c.registeredTokenCount == |c.tokens| <= MAX_REGISTERED_TOKENS
    && 1 <= c.minValidators
  }

  predicate SameRegistry(c: Controller, d: Controller) {
    && d.validatorActive == c.validatorActive && d.validatorCount == c.validatorCount && d.minValidators == c.minValidators
    && d.registeredTokenCount == c.registeredTokenCount && d.tokens.Keys == c.tokens.Keys
  }

  lemma SameKeepsInv(c: Controller, d: Controller)
    requires RegistryInv(c) && SameRegistry(c, d)
    ensures RegistryInv(d)
  {
    assert |d.tokens| == |d.tokens.Keys| && |c.tokens| == |c.tokens.Keys|;
  }

  lemma OneMoreActive(active: map<string, bool>, pubkey: string)
    requires !(pubkey in active && active[pubkey])
    ensures |ActiveKeys(active[pubkey := true])| == |ActiveKeys(active)| + 1
  {
    assert ActiveKeys(active[pubkey := true]) == ActiveKeys(active) + {pubkey};
  }

  lemma OneLessActive(active: map<string, bool>, pubkey: string)
    requires pubkey in active && active[pubkey]
    ensures |ActiveKeys(active[pubkey := false])| == |ActiveKeys(active)| - 1
  {
    assert ActiveKeys(active) == ActiveKeys(active[pubkey := false]) + {pubkey};
  }

  lemma RegistrationKeepsInv(c: Controller, inv: Invocation, pubkey: string)
    requires RegistryInv(c) && DoRegisterValidator(c, inv, pubkey).Done?
    ensures RegistryInv(DoRegisterValidator(c, inv, pubkey).c)
  {
    hide Base58.Encode, ActiveKeys;
    OneMoreActive(c.validatorActive, pubkey);
  }

  lemma RemovalKeepsInv(c: Controller, inv: Invocation, pubkey: string)
    requires RegistryInv(c) && DoRemoveValidator(c, inv, pubkey).Done?
    ensures RegistryInv(DoRemoveValidator(c, inv, pubkey).c)
  {
    hide Base58.Encode, ActiveKeys;
    OneLessActive(c.validatorActive, pubkey);
  }

  lemma TokenKeepsInv(c: Controller, inv: Invocation, mint: string, name: string, sol: i64, dcc: i64)
    requires RegistryInv(c) && DoRegisterToken(c, inv, mint, name, sol, dcc).Done?
    ensures RegistryInv(DoRegisterToken(c, inv, mint, name, sol, dcc).c)
  {
    hide ActiveKeys, DivisorFor;
  }

  predicate Registers(call: Call) { call.RegisterValidator? || call.RemoveValidator? || call.RegisterToken? }

  lemma OthersKeepRegistry(rt: Runtime, c: Controller, inv: Invocation, call: Call)
    requires NATIVE_SOL_MINT in c.tokens && !Registers(call) && LiveStep(rt, c, inv, call).Done?
    ensures SameRegistry(c, LiveStep(rt, c, inv, call).c)
  {
    hide DoMintToken, DoMint, DoExecutePendingMint, BurnId, DivisorFor, Base58.Encode, NATIVE_SOL_MINT;
    if Mints(call) {
      MintsKeepSettings(rt, c, inv, call);
    }
  }

  lemma StepKeepsInv(rt: Runtime, c: Controller, inv: Invocation, call: Call)
    requires NATIVE_SOL_MINT in c.tokens && RegistryInv(c) && LiveStep(rt, c, inv, call).Done?
    ensures RegistryInv(LiveStep(rt, c, inv, call).c)
  {
    hide RegistryInv, DoMintToken, DoMint, DoExecutePendingMint, DoRegisterToken, DoRegisterValidator, DoRemoveValidator,
         DoBurnToken, DoBurn;
    if call.RegisterValidator? {
      RegistrationKeepsInv(c, inv, call.pubkey);
    } else if call.RemoveValidator? {
      RemovalKeepsInv(c, inv, call.pubkey);
    } else if call.RegisterToken? {
      TokenKeepsInv(c, inv, call.splMint, call.tokenName, call.solDecimals, call.dccDecimals);
    } else {
      OthersKeepRegistry(rt, c, inv, call);
      SameKeepsInv(c, LiveStep(rt, c, inv, call).c);
    }
  }

  lemma FirstRegistry(inv: Invocation, guardian: string, minValidators: i64)
    requires minValidators >= 1
    ensures RegistryInv(InitialController(inv, guardian, minValidators))
  {
    assert ActiveKeys(map[]) == {};
  }

  /** In every reachable state validator_count is the number of active keys, and the token count that of registered mints. */
  lemma {:induction false} RegistryConsistent(rt: Runtime, txs: seq<Transaction>)
    ensures RunOf(rt, txs).Live? ==> RegistryInv(RunOf(rt, txs).c)
  {
    hide LiveStep, RegistryInv;
    if txs != [] {
      var front, tx := txs[..|txs| - 1], txs[|txs| - 1];
      RegistryConsistent(rt, front);
      match RunOf(rt, front)
      case Fresh =>
        if tx.call.Initialize? && tx.call.minValidators >= 1 {
          FirstRegistry(tx.inv, tx.call.guardian, tx.call.minValidators);
        }
      case Live(c) => if LiveStep(rt, c, tx.inv, tx.call).Done? { StepKeepsInv(rt, c, tx.inv, tx.call); }
    }
  }

  /** The message an accepted mint's signatures must be over. */
  function MessageOf(call: Call): string
    requires IsMint(call)
  {
    match call
    case MintToken(id, recipient, amount, slot, mint, _, _) => MintMessage(id, recipient, amount, slot, mint, DCC_CHAIN_ID)
    case Mint(id, recipient, amount, slot, _, _) => LegacyMintMessage(id, recipient, amount, slot, DCC_CHAIN_ID)
  }

  /**
   * In every run an accepted mint carries at least min_validators, and at least one, signatures over the
   * message made of its own arguments, the first twenty of them each by an active validator. That the
   * validators differ is not among the script's checks.
   */
  lemma AcceptedMintSigned(rt: Runtime, txs: seq<Transaction>, inv: Invocation, call: Call)
    requires RunOf(rt, txs).Live? && IsMint(call) && LiveStep(rt, RunOf(rt, txs).c, inv, call).Done?
    ensures var c, n := RunOf(rt, txs).c, MinOf(|call.signatures|, 20);
      && 1 <= c.minValidators <= n && |call.pubkeys| == |call.signatures|
      && c.validatorCount == |ActiveKeys(c.validatorActive)|
      && forall i :: 0 <= i < n ==>
           && Base58.Encode(call.pubkeys[i]) in ActiveKeys(c.validatorActive)
           && (rt.sigVerify)(MessageOf(call), call.signatures[i], call.pubkeys[i])
  {
    hide RunOf, MintMessage, LegacyMintMessage, DailyCheck, Scaled, DoIssueNow, DoLegacyIssue, Base58.Encode;
    RegistryConsistent(rt, txs);
    var c := RunOf(rt, txs).c;
    assert MayMint(rt, c, call.transferId, call.amount, MessageOf(call), call.signatures, call.pubkeys);
    forall i | 0 <= i < MinOf(|call.signatures|, 20)
      ensures Base58.Encode(call.pubkeys[i]) in ActiveKeys(c.validatorActive)
      ensures (rt.sigVerify)(MessageOf(call), call.signatures[i], call.pubkeys[i]) {
      assert SignedBy(rt, c.validatorActive, MessageOf(call), call.signatures[i], call.pubkeys[i]);
    }
  }

  // ---------------------------------------------------------------------------------------------
  // Nothing asks for different validators
  // ---------------------------------------------------------------------------------------------

  /** The same mint with its first signature given n times, and nobody else's. */
  function Repeated(call: Call, n: nat): Call
    requires IsMint(call) && call.signatures != [] && call.pubkeys != []
  {
    var signatures, pubkeys := seq(n, _ => call.signatures[0]), seq(n, _ => call.pubkeys[0]);
    match call
    case MintToken(id, recipient, amount, slot, mint, _, _) => MintToken(id, recipient, amount, slot, mint, signatures, pubkeys)
    case Mint(id, recipient, amount, slot, _, _) => Mint(id, recipient, amount, slot, signatures, pubkeys)
  }

  lemma QuorumNotEmpty(rt: Runtime, active: map<string, bool>, message: string, signatures: seq<seq<byte>>,
                       pubkeys: seq<seq<byte>>, needed: i64)
    requires needed >= 1 && Quorum(rt, active, message, signatures, pubkeys, needed)
    ensures signatures != [] && |pubkeys| == |signatures| && needed <= 20
    ensures SignedBy(rt, active, message, signatures[0], pubkeys[0])
  {
    hide SignedBy;
  }

  lemma QuorumOfCopies(rt: Runtime, active: map<string, bool>, message: string, signature: seq<byte>, pubkey: seq<byte>, n: i64)
    requires 1 <= n <= 20 && SignedBy(rt, active, message, signature, pubkey)
    ensures Quorum(rt, active, message, seq(n, _ => signature), seq(n, _ => pubkey), n)
  {
    hide SignedBy;
  }

  lemma AcceptedHasQuorum(rt: Runtime, c: Controller, inv: Invocation, call: Call)
    requires NATIVE_SOL_MINT in c.tokens && IsMint(call) && LiveStep(rt, c, inv, call).Done?
    ensures Quorum(rt, c.validatorActive, MessageOf(call), call.signatures, call.pubkeys, c.minValidators)
  {
    hide Quorum, MintMessage, LegacyMintMessage, DailyCheck, Scaled, DoIssueNow, DoLegacyIssue;
  }

  /** Signatures enter a mint through the quorum only. */
  lemma OnlyTheQuorumCounts(rt: Runtime, c: Controller, inv: Invocation, call: Call, n: nat)
    requires NATIVE_SOL_MINT in c.tokens && IsMint(call) && call.signatures != [] && call.pubkeys != []
    requires Quorum(rt, c.validatorActive, MessageOf(call), call.signatures, call.pubkeys, c.minValidators)
    requires var copies := Repeated(call, n);
      Quorum(rt, c.validatorActive, MessageOf(call), copies.signatures, copies.pubkeys, c.minValidators)
    ensures LiveStep(rt, c, inv, Repeated(call, n)) == LiveStep(rt, c, inv, call)
  {
    hide Quorum, MintMessage, LegacyMintMessage, DailyCheck, Scaled;
  }

  /**
   * Whatever mint is accepted, the same mint is accepted with the same effect when its first signature
   * alone is given min_validators times.
   */
  lemma OneSignatureRepeated(rt: Runtime, c: Controller, inv: Invocation, call: Call)
    requires NATIVE_SOL_MINT in c.tokens && c.minValidators >= 1 && IsMint(call) && LiveStep(rt, c, inv, call).Done?
    ensures call.signatures != [] && call.pubkeys != []
    ensures LiveStep(rt, c, inv, Repeated(call, c.minValidators)) == LiveStep(rt, c, inv, call)
  {
    hide LiveStep, Quorum, MintMessage, LegacyMintMessage, SignedBy, NATIVE_SOL_MINT;
    AcceptedHasQuorum(rt, c, inv, call);
    QuorumNotEmpty(rt, c.validatorActive, MessageOf(call), call.signatures, call.pubkeys, c.minValidators);
    QuorumOfCopies(rt, c.validatorActive, MessageOf(call), call.signatures[0], call.pubkeys[0], c.minValidators);
    OnlyTheQuorumCounts(rt, c, inv, call, c.minValidators);
  }

  function SignersOf(call: Call): set<seq<byte>>
    requires IsMint(call)
  {
    set i | 0 <= i < |call.pubkeys| :: call.pubkeys[i]
  }

  /** Every mint the controller would accept in this call comes from as many validators as it asks for. */
  ghost predicate AsksForDifferent(rt: Runtime, c: Controller, inv: Invocation)
    requires NATIVE_SOL_MINT in c.tokens
  {
    forall call :: IsMint(call) && LiveStep(rt, c, inv, call).Done? ==> |SignersOf(call)| >= c.minValidators
  }

  /**
   * In any state of any run in which some mint is accepted, an accepted mint always comes from at least
   * min_validators different keys if and only if min_validators is one.
   */
  lemma DifferentSignersExactly(rt: Runtime, txs: seq<Transaction>, inv: Invocation, call: Call)
    requires RunOf(rt, txs).Live? && IsMint(call) && LiveStep(rt, RunOf(rt, txs).c, inv, call).Done?
    ensures AsksForDifferent(rt, RunOf(rt, txs).c, inv) <==> RunOf(rt, txs).c.minValidators == 1
  {
    hide RunOf, LiveStep, Repeated, SignersOf, NATIVE_SOL_MINT;
    var c := RunOf(rt, txs).c;
    RegistryConsistent(rt, txs);
    OneSignatureRepeated(rt, c, inv, call);
    var copies := Repeated(call, c.minValidators);
    CopiesOfOne(call, c.minValidators);
    if c.minValidators == 1 {
      forall other | IsMint(other) && LiveStep(rt, c, inv, other).Done? ensures |SignersOf(other)| >= c.minValidators {
        OneSignatureRepeated(rt, c, inv, other);
        SomebodySigned(other);
      }
    }
  }

  lemma CopiesOfOne(call: Call, n: nat)
    requires IsMint(call) && call.signatures != [] && call.pubkeys != [] && n >= 1
    ensures IsMint(Repeated(call, n)) && |SignersOf(Repeated(call, n))| == 1
  {
    var copies := Repeated(call, n);
    assert copies.pubkeys[0] == call.pubkeys[0];
    assert SignersOf(copies) == {call.pubkeys[0]};
  }

  lemma SomebodySigned(call: Call)
    requires IsMint(call) && call.pubkeys != []
    ensures |SignersOf(call)| >= 1
  {
    assert call.pubkeys[0] in SignersOf(call);
  }
}
