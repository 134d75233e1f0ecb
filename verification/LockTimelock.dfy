/** Sensitive settings loosen only through a proposal that has waited out its delay. */
module LockTimelock {
  import opened Bytes
  import opened LockState
  import opened LockSpec
  import opened LockRuns

  /** The change recorded under t, and, for the two thresholds, on the loosening side of the current value. */
  predicate PendingSound(c: Config, t: ConfigChangeType, change: PendingConfigChange) {
    && change.changeType == t
    && change.executeAfter == change.proposedAt + DelayFor(t)
    && (t == MinValidatorsDecrease ==> 1 <= NewMin(change.newValue) < c.minValidators)
    && (t == MaxDailyOutflowIncrease ==> NewOutflow(change.newValue) > c.maxDailyOutflow)
    && (t == AuthorityTransfer || t == GuardianTransfer ==> change.newValue != DEFAULT_KEY)
  }

  predicate TimelockInv(s: State) {
    && s.config.minValidators <= s.config.maxValidators
    && forall t :: t in s.pending ==> PendingSound(s.config, t, s.pending[t])
  }

  /** Instructions that cannot change a timelocked setting or a pending change. */
  predicate Unrelated(ins: Instruction) {
    && !ins.UpdateConfig? && !ins.ProposeConfigChange? && !ins.ExecuteConfigChange? && !ins.CancelConfigChange?
  }

  predicate SameSettings(a: Config, b: Config) {
    a.authority == b.authority && a.guardian == b.guardian && a.minValidators == b.minValidators
    && a.maxValidators == b.maxValidators && a.maxDailyOutflow == b.maxDailyOutflow
  }

  lemma PayoutFrame(chain: Chain, s: State, clock: Clock, ins: Instruction)
    requires ins.Unlock? || ins.ExecuteScheduledUnlock?
    ensures var t := StepEffect(chain, s, clock, ins); SameSettings(s.config, t.config) && t.pending == s.pending
  {
    hide Paid, DepositEffect, DepositSplEffect, UpdateConfigEffect, RegisterValidatorEffect, RemoveValidatorEffect,
         ProposeConfigChangeEffect, ExecuteConfigChangeEffect;
  }

  lemma DepositFrame(chain: Chain, s: State, clock: Clock, ins: Instruction)
    requires ins.Deposit? || ins.DepositSpl?
    ensures var t := StepEffect(chain, s, clock, ins); SameSettings(s.config, t.config) && t.pending == s.pending
  {
    hide UnlockEffect, ExecuteScheduledUnlockEffect, UpdateConfigEffect, RegisterValidatorEffect, RemoveValidatorEffect,
         ProposeConfigChangeEffect, ExecuteConfigChangeEffect;
  }

  lemma UnrelatedFrame(chain: Chain, s: State, clock: Clock, ins: Instruction)
    requires Unrelated(ins)
    ensures var t := StepEffect(chain, s, clock, ins); SameSettings(s.config, t.config) && t.pending == s.pending
  {
    hide UnlockEffect, ExecuteScheduledUnlockEffect, DepositEffect, DepositSplEffect, UpdateConfigEffect,
         ProposeConfigChangeEffect, ExecuteConfigChangeEffect;
    if ins.Unlock? || ins.ExecuteScheduledUnlock? {
      PayoutFrame(chain, s, clock, ins);
    } else if ins.Deposit? || ins.DepositSpl? {
      DepositFrame(chain, s, clock, ins);
    }
  }

  lemma SameSettingsKeepInv(s: State, t: State)
    requires TimelockInv(s) && SameSettings(s.config, t.config) && t.pending == s.pending
    ensures TimelockInv(t)
  {
  }

  lemma UpdateKeepsInv(s: State, signer: Pubkey, u: UpdateConfigParams)
    requires TimelockInv(s) && UpdateConfigError(s, signer, u).None?
    ensures TimelockInv(UpdateConfigEffect(s, u))
  {
  }

  lemma ProposalKeepsInv(s: State, clock: Clock, signer: Pubkey, t: ConfigChangeType, value: Bytes32)
    requires TimelockInv(s) && ProposeConfigChangeError(s, clock, signer, t, value).None?
    ensures TimelockInv(ProposeConfigChangeEffect(s, clock, signer, t, value))
  {
  }

  lemma ExecutionKeepsInv(s: State, t: ConfigChangeType)
    requires TimelockInv(s)
    ensures TimelockInv(ExecuteConfigChangeEffect(s, t))
  {
  }

  lemma CancellationKeepsInv(s: State, t: ConfigChangeType)
    requires TimelockInv(s)
    ensures TimelockInv(s.(pending := s.pending - {t}))
  {
  }

  lemma StepKeepsInv(chain: Chain, s: State, clock: Clock, ins: Instruction)
    requires TimelockInv(s)
    ensures TimelockInv(Apply(chain, s, clock, ins))
  {
    hide TimelockInv, SameSettings, UnlockError, ExecuteScheduledUnlockError, DepositError, DepositSplError,
         UpdateConfigError, RegisterValidatorError, RemoveValidatorError, ProposeConfigChangeError, ExecuteConfigChangeError,
         CancelConfigChangeError, UnlockEffect, ExecuteScheduledUnlockEffect, DepositEffect, DepositSplEffect,
         UpdateConfigEffect, RegisterValidatorEffect, RemoveValidatorEffect, ProposeConfigChangeEffect,
         ExecuteConfigChangeEffect;
    if StepError(chain, s, clock, ins).None? {
      if ins.UpdateConfig? {
        UpdateKeepsInv(s, ins.signer, ins.update);
      } else if ins.ProposeConfigChange? {
        ProposalKeepsInv(s, clock, ins.signer, ins.changeType, ins.newValue);
      } else if ins.ExecuteConfigChange? {
        ExecutionKeepsInv(s, ins.changeType);
      } else if ins.CancelConfigChange? {
        CancellationKeepsInv(s, ins.changeType);
      } else {
        UnrelatedFrame(chain, s, clock, ins);
        SameSettingsKeepInv(s, StepEffect(chain, s, clock, ins));
      }
    }
  }

  /** In every reachable state every pending change is still a loosening one, although execution does not re-check. */
  lemma {:induction false} PendingAlwaysSound(chain: Chain, s: State, start: int, txs: seq<Transaction>)
    requires Initial(s, start)
    ensures TimelockInv(RunOf(chain, s, txs))
  {
    hide Apply;
    if txs == [] {
    } else {
      var tx := txs[|txs| - 1];
      PendingAlwaysSound(chain, s, start, txs[..|txs| - 1]);
      StepKeepsInv(chain, RunOf(chain, s, txs[..|txs| - 1]), tx.clock, tx.ins);
    }
  }

  /** So the checks execution does make never fail: only the delay can refuse it. */
  lemma ExecutionOnlyWaits(s: State, clock: Clock, t: ConfigChangeType)
    requires TimelockInv(s) && t in s.pending
    ensures ExecuteConfigChangeError(s, clock, t).None? <==> clock.now >= s.pending[t].proposedAt + DelayFor(t)
  {
    assert PendingSound(s.config, t, s.pending[t]);
  }

  /** Transaction j is the accepted proposal, by the authority of its time, that a pending change records. */
  predicate Proposed(chain: Chain, s: State, txs: seq<Transaction>, j: nat, change: PendingConfigChange)
    requires j < |txs|
  {
    && AcceptedAt(chain, s, txs, j)
    && txs[j].ins == ProposeConfigChange(change.proposer, change.changeType, change.newValue)
    && txs[j].clock.now == change.proposedAt
    && change.proposer == RunOf(chain, s, txs[..j]).config.authority
  }

  lemma ProposedEarlier(chain: Chain, s: State, txs: seq<Transaction>, j: nat, change: PendingConfigChange)
    requires txs != [] && j < |txs| - 1 && Proposed(chain, s, txs[..|txs| - 1], j, change)
    ensures Proposed(chain, s, txs, j, change)
  {
    assert txs[..|txs| - 1][..j] == txs[..j];
  }

  lemma PendingStep(chain: Chain, s: State, clock: Clock, ins: Instruction, t: ConfigChangeType)
    requires t in Apply(chain, s, clock, ins).pending
    ensures var change := Apply(chain, s, clock, ins).pending[t];
      || (t in s.pending && change == s.pending[t])
      || (&& StepError(chain, s, clock, ins).None?
          && ins == ProposeConfigChange(change.proposer, change.changeType, change.newValue)
          && change.proposedAt == clock.now && change.proposer == s.config.authority)
  {
    hide UnlockError, ExecuteScheduledUnlockError, DepositError, DepositSplError, UpdateConfigError, RegisterValidatorError,
         RemoveValidatorError, ExecuteConfigChangeError, CancelConfigChangeError, UnlockEffect,
         ExecuteScheduledUnlockEffect, DepositEffect, DepositSplEffect, RegisterValidatorEffect, RemoveValidatorEffect,
         SameSettings;
    if StepError(chain, s, clock, ins).None? && Unrelated(ins) {
      UnrelatedFrame(chain, s, clock, ins);
    }
  }

  /** Every pending change has its proposal in the run. */
  lemma {:induction false} PendingOrigin(chain: Chain, s: State, start: int, txs: seq<Transaction>, t: ConfigChangeType)
    returns (j: nat)
    requires Initial(s, start) && t in RunOf(chain, s, txs).pending
    ensures j < |txs| && Proposed(chain, s, txs, j, RunOf(chain, s, txs).pending[t])
  {
    hide Apply, StepError;
    var front, tx := txs[..|txs| - 1], txs[|txs| - 1];
    var before, change := RunOf(chain, s, front), RunOf(chain, s, txs).pending[t];
    PendingStep(chain, before, tx.clock, tx.ins, t);
    if t in before.pending && change == before.pending[t] {
      j := PendingOrigin(chain, s, start, front, t);
      ProposedEarlier(chain, s, txs, j, change);
    } else {
      j := |txs| - 1;
      assert txs[..j] == front;
    }
  }

  /** What a step may do to the guarded settings. */
  predicate Loosened(a: Config, b: Config) {
    b.minValidators < a.minValidators || b.maxDailyOutflow > a.maxDailyOutflow
    || b.authority != a.authority || b.guardian != a.guardian
  }

  /** The setting a change of type t moves, moved to the given value, and the others left alone. */
  predicate Moved(a: Config, b: Config, t: ConfigChangeType, value: Bytes32) {
    b == match t
         case AuthorityTransfer => a.(authority := value)
         case GuardianTransfer => a.(guardian := value)
         case MinValidatorsDecrease => a.(minValidators := NewMin(value))
         case MaxDailyOutflowIncrease => a.(maxDailyOutflow := NewOutflow(value))
  }

  lemma LooseningStep(chain: Chain, s: State, clock: Clock, ins: Instruction)
    requires TimelockInv(s) && Loosened(s.config, Apply(chain, s, clock, ins).config)
    ensures StepError(chain, s, clock, ins).None? && ins.ExecuteConfigChange? && ins.changeType in s.pending
    ensures clock.now >= s.pending[ins.changeType].proposedAt + DelayFor(ins.changeType)
    ensures Moved(s.config, Apply(chain, s, clock, ins).config, ins.changeType, s.pending[ins.changeType].newValue)
  {
    hide UnlockError, ExecuteScheduledUnlockError, DepositError, DepositSplError, RegisterValidatorError,
         RemoveValidatorError, CancelConfigChangeError, UnlockEffect, ExecuteScheduledUnlockEffect, DepositEffect,
         DepositSplEffect, RegisterValidatorEffect, RemoveValidatorEffect;
    if StepError(chain, s, clock, ins).None? && Unrelated(ins) {
      UnrelatedFrame(chain, s, clock, ins);
    }
    if StepError(chain, s, clock, ins).None? && ins.ExecuteConfigChange? {
      ExecutionOnlyWaits(s, clock, ins.changeType);
    }
  }

  /**
   * Wherever a run lowers the validator minimum, raises the daily cap or changes authority or
   * guardian, that transaction executes a change of that very type, to the value an earlier accepted
   * proposal named, and at least 48 hours after it, or 24 for the daily cap.
   */
  lemma TimelockSoundness(chain: Chain, s: State, start: int, txs: seq<Transaction>, k: nat) returns (j: nat)
    requires Initial(s, start) && k < |txs|
    requires Loosened(RunOf(chain, s, txs[..k]).config, RunOf(chain, s, txs[..k + 1]).config)
    ensures j < k && AcceptedAt(chain, s, txs, j) && AcceptedAt(chain, s, txs, k)
    ensures txs[k].ins.ExecuteConfigChange? && txs[j].ins.ProposeConfigChange?
    ensures txs[j].ins.changeType == txs[k].ins.changeType
    ensures txs[j].ins.signer == RunOf(chain, s, txs[..j]).config.authority
    ensures txs[k].clock.now - txs[j].clock.now >= if txs[k].ins.changeType == MaxDailyOutflowIncrease then 86400 else 172800
    ensures Moved(RunOf(chain, s, txs[..k]).config, RunOf(chain, s, txs[..k + 1]).config,
                  txs[k].ins.changeType, txs[j].ins.newValue)
  {
    hide Apply, StepError, Loosened, Moved;
    assert txs[..k + 1][..k] == txs[..k];
    PendingAlwaysSound(chain, s, start, txs[..k]);
    LooseningStep(chain, RunOf(chain, s, txs[..k]), txs[k].clock, txs[k].ins);
    j := PendingOrigin(chain, s, start, txs[..k], txs[k].ins.changeType);
    assert txs[..k][..j] == txs[..j];
  }
}
