/** The validator registry and what an accepted unlock proves about it. */
module LockQuorum {
  import opened Bytes
  import opened LockState
  import opened LockSpec
  import opened LockGuards
  import opened LockRuns
  import Ed25519

  /** The counter is the number of live entries, every entry is active, the thresholds are in order. */
  predicate RegistryInv(s: State) {
    && s.config.validatorCount == |s.validators| <= s.config.maxValidators
    && 1 <= s.config.minValidators <= s.config.maxValidators <= 20
    && forall v :: v in s.validators ==> s.validators[v].pubkey == v && s.validators[v].active
  }

  lemma RegistryFrame(chain: Chain, s: State, clock: Clock, ins: Instruction)
    requires !ins.RegisterValidator? && !ins.RemoveValidator? && !ins.UpdateConfig? && !ins.ExecuteConfigChange?
    ensures var t := StepEffect(chain, s, clock, ins);
      && t.validators == s.validators && t.config.validatorCount == s.config.validatorCount
      && t.config.minValidators == s.config.minValidators && t.config.maxValidators == s.config.maxValidators
  {
  }

  lemma RegistrationKeepsInv(s: State, clock: Clock, v: Pubkey)
    requires RegistryInv(s) && v !in s.validators && s.config.validatorCount < s.config.maxValidators
    ensures RegistryInv(RegisterValidatorEffect(s, clock, v))
  {
  }

  lemma RemovalKeepsInv(s: State, v: Pubkey)
    requires RegistryInv(s) && v in s.validators
    ensures RegistryInv(RemoveValidatorEffect(s, v))
  {
    assert s.validators == (s.validators - {v})[v := s.validators[v]];
  }

  lemma UpdateKeepsInv(s: State, signer: Pubkey, u: UpdateConfigParams)
    requires RegistryInv(s) && UpdateConfigError(s, signer, u).None?
    ensures RegistryInv(UpdateConfigEffect(s, u))
  {
  }

  lemma ExecutionKeepsInv(s: State, clock: Clock, t: ConfigChangeType)
    requires RegistryInv(s) && ExecuteConfigChangeError(s, clock, t).None?
    ensures RegistryInv(ExecuteConfigChangeEffect(s, t))
  {
  }

  lemma OthersKeepInv(chain: Chain, s: State, clock: Clock, ins: Instruction)
    requires RegistryInv(s)
    requires !ins.RegisterValidator? && !ins.RemoveValidator? && !ins.UpdateConfig? && !ins.ExecuteConfigChange?
    ensures RegistryInv(StepEffect(chain, s, clock, ins))
  {
    hide StepEffect;
    RegistryFrame(chain, s, clock, ins);
  }

  lemma StepKeepsInv(chain: Chain, s: State, clock: Clock, ins: Instruction)
    requires RegistryInv(s)
    ensures RegistryInv(Apply(chain, s, clock, ins))
  {
    hide RegistryInv, UpdateConfigError, ExecuteConfigChangeError, UpdateConfigEffect, ExecuteConfigChangeEffect,
         UnlockError, DepositError, DepositSplError, ExecuteScheduledUnlockError, UnlockEffect, DepositEffect, DepositSplEffect;
    if StepError(chain, s, clock, ins).None? {
      match ins {
        case RegisterValidator(_, v) => RegistrationKeepsInv(s, clock, v);
        case RemoveValidator(_, v) => RemovalKeepsInv(s, v);
        case UpdateConfig(signer, u) => UpdateKeepsInv(s, signer, u);
        case ExecuteConfigChange(t) => ExecutionKeepsInv(s, clock, t);
        case _ => OthersKeepInv(chain, s, clock, ins);
      }
    }
  }

  lemma {:induction false} RegistryConsistent(chain: Chain, s: State, start: int, txs: seq<Transaction>)
    requires Initial(s, start)
    ensures RegistryInv(RunOf(chain, s, txs))
  {
    if txs == [] {
    } else {
      var tx := txs[|txs| - 1];
      RegistryConsistent(chain, s, start, txs[..|txs| - 1]);
      StepKeepsInv(chain, RunOf(chain, s, txs[..|txs| - 1]), tx.clock, tx.ins);
    }
  }

  /** The verification loop accepts exactly when every attestation does (and there are at most 255). */
  lemma {:induction false} NoAttestationError(atts: seq<ValidatorAttestation>, remaining: seq<seq<byte>>,
                                              preceding: seq<Ed25519.Instruction>, message: seq<byte>)
    ensures AttestationError(atts, remaining, preceding, message).None?
       <==> |atts| <= MAX_U8 && forall i :: 0 <= i < |atts| ==> Accepted(atts[i], remaining, preceding, message)
  {
    hide Supplied, Ed25519.Introspected;
    if atts == [] {
    } else {
      var front := atts[..|atts| - 1];
      NoAttestationError(front, remaining, preceding, message);
      assert forall i :: 0 <= i < |front| ==> front[i] == atts[i];
    }
  }

  /** The supplied accounts are entries of this program's registry (the runtime's part of the bargain). */
  ghost predicate Genuine(s: State, remaining: seq<seq<byte>>) {
    forall k, v: Pubkey :: 0 <= k < |remaining| && ActiveEntryData(remaining[k], v) ==> v in s.validators
  }

  function Signers(atts: seq<ValidatorAttestation>): set<Pubkey> {
    set i | 0 <= i < |atts| :: atts[i].validator
  }

  lemma {:induction false} DistinctCount(atts: seq<ValidatorAttestation>)
    requires DistinctValidators(atts)
    ensures |Signers(atts)| == |atts|
  {
    if atts == [] {
    } else {
      var front, last := atts[..|atts| - 1], atts[|atts| - 1];
      DistinctCount(front);
      assert Signers(atts) == Signers(front) + {last.validator};
      assert last.validator !in Signers(front);
    }
  }

  lemma SubsetSize<T>(a: set<T>, b: set<T>)
    requires a <= b
    ensures |a| <= |b|
  {
    assert b == a + (b - a);
  }

  lemma RegisteredSigners(s: State, atts: seq<ValidatorAttestation>, remaining: seq<seq<byte>>)
    requires Genuine(s, remaining) && DistinctValidators(atts)
    requires forall i :: 0 <= i < |atts| ==> Supplied(remaining, atts[i].validator)
    ensures Signers(atts) <= s.validators.Keys && |atts| <= |s.validators|
  {
    DistinctCount(atts);
    forall i | 0 <= i < |atts| ensures atts[i].validator in s.validators {
      var k :| 0 <= k < |remaining| && ActiveEntryData(remaining[k], atts[i].validator);
    }
    SubsetSize(Signers(atts), s.validators.Keys);
  }

  /** What attestations over `message`, accepted in state s, prove about their signers. */
  ghost predicate QuorumMet(s: State, atts: seq<ValidatorAttestation>, message: seq<byte>, remaining: seq<seq<byte>>,
                            verifies: (seq<byte>, seq<byte>, seq<byte>) -> bool) {
    && 1 <= s.config.minValidators <= |atts|
    && |Signers(atts)| == |atts|
    && (forall i :: 0 <= i < |atts| ==>
          Supplied(remaining, atts[i].validator) && verifies(atts[i].validator, message, atts[i].signature))
    && (Genuine(s, remaining) ==> Signers(atts) <= s.validators.Keys && |atts| <= s.config.validatorCount <= 20)
  }

  lemma QuorumFromAcceptance(s: State, atts: seq<ValidatorAttestation>, message: seq<byte>, remaining: seq<seq<byte>>,
                             preceding: seq<Ed25519.Instruction>, verifies: (seq<byte>, seq<byte>, seq<byte>) -> bool)
    requires RegistryInv(s) && Ed25519.PrecompilePassed(preceding, verifies)
    requires s.config.minValidators <= |atts| && DistinctValidators(atts)
    requires AttestationError(atts, remaining, preceding, message).None?
    ensures QuorumMet(s, atts, message, remaining, verifies)
  {
    NoAttestationError(atts, remaining, preceding, message);
    DistinctCount(atts);
    forall i | 0 <= i < |atts| ensures verifies(atts[i].validator, message, atts[i].signature) {
      Ed25519.IntrospectedIsVerified(preceding, |preceding|, verifies, atts[i].validator, message, atts[i].signature);
    }
    if Genuine(s, remaining) {
      RegisteredSigners(s, atts, remaining);
    }
  }

  lemma UnlockGuards(chain: Chain, s: State, clock: Clock, ins: Instruction)
    requires ins.Unlock? && StepError(chain, s, clock, ins).None?
    ensures s.config.minValidators <= |ins.unlock.attestations| && DistinctValidators(ins.unlock.attestations)
    ensures AttestationError(ins.unlock.attestations, ins.remaining, ins.preceding, MessageOf(ins.unlock)).None?
  {
    hide StepError, DistinctValidators, AttestationError, MessageOf;
    UnlockIsNew(chain, s, clock, ins);
    UnlockAccepted(chain, s, clock, ins);
  }

  /**
   * An accepted unlock carries at least the minimum of pairwise distinct validators, each found
   * active among the supplied entries, each with a signature over the unlock message that the
   * precompile verified. With genuine entries they are registered validators, so never more than
   * twenty, and neither the u8 count nor the second threshold check can fail.
   */
  lemma AcceptedUnlockHasQuorum(chain: Chain, s: State, start: int, txs: seq<Transaction>, k: nat,
                                verifies: (seq<byte>, seq<byte>, seq<byte>) -> bool)
    requires Initial(s, start) && k < |txs| && txs[k].ins.Unlock? && AcceptedAt(chain, s, txs, k)
    requires Ed25519.PrecompilePassed(txs[k].ins.preceding, verifies)
    ensures var p := txs[k].ins.unlock;
      QuorumMet(RunOf(chain, s, txs[..k]), p.attestations, MessageOf(p), txs[k].ins.remaining, verifies)
  {
    var ins := txs[k].ins;
    RegistryConsistent(chain, s, start, txs[..k]);
    UnlockGuards(chain, RunOf(chain, s, txs[..k]), txs[k].clock, ins);
    QuorumFromAcceptance(RunOf(chain, s, txs[..k]), ins.unlock.attestations, MessageOf(ins.unlock), ins.remaining,
                         ins.preceding, verifies);
  }
}
