/** What the acceptance of a payout or a deposit says: each check of its handler passed. */
module LockGuards {
  import opened Bytes
  import opened LockState
  import opened LockSpec

  lemma DepositAccepted(chain: Chain, s: State, clock: Clock, ins: Instruction)
    requires (ins.Deposit? || ins.DepositSpl?) && StepError(chain, s, clock, ins).None?
    ensures DepositGuards(chain, s, ins.sender, ins.deposit).None? && CounterGuards(s, ins.sender, ins.deposit).None?
  {
    hide DepositGuards, CounterGuards, UnlockError, ExecuteScheduledUnlockError, UpdateConfigError, RegisterValidatorError,
         RemoveValidatorError, ProposeConfigChangeError, ExecuteConfigChangeError, CancelConfigChangeError;
  }

  lemma UnlockAccepted(chain: Chain, s: State, clock: Clock, ins: Instruction)
    requires ins.Unlock? && StepError(chain, s, clock, ins).None?
    ensures UnlockRequestError(s, clock, ins.unlock, ins.recipient).None?
    ensures QuorumError(ins.unlock, ins.remaining, ins.preceding).None?
    ensures OutflowError(s.config, clock.now, ins.unlock.amount).None?
    ensures SettleError(s, clock.now, ins.unlock.amount).None?
  {
    hide UnlockRequestError, QuorumError, OutflowError, SettleError, DepositError, DepositSplError,
         ExecuteScheduledUnlockError, UpdateConfigError, RegisterValidatorError, RemoveValidatorError,
         ProposeConfigChangeError, ExecuteConfigChangeError, CancelConfigChangeError;
  }

  lemma UnlockRequested(s: State, clock: Clock, p: UnlockParams, recipient: Pubkey)
    requires UnlockRequestError(s, clock, p, recipient).None?
    ensures p.transferId !in s.unlocks && !s.config.paused && |p.attestations| >= s.config.minValidators
  {
  }

  lemma UnlockIsNew(chain: Chain, s: State, clock: Clock, ins: Instruction)
    requires ins.Unlock? && StepError(chain, s, clock, ins).None?
    ensures ins.unlock.transferId !in s.unlocks && !s.config.paused
    ensures |ins.unlock.attestations| >= s.config.minValidators
  {
    hide StepError, UnlockRequestError;
    UnlockAccepted(chain, s, clock, ins);
    UnlockRequested(s, clock, ins.unlock, ins.recipient);
  }

  lemma UnlockWithinLimits(chain: Chain, s: State, clock: Clock, ins: Instruction)
    requires ins.Unlock? && StepError(chain, s, clock, ins).None?
    ensures DailyGuard(s.config, clock.now, ins.unlock.amount).None?
    ensures HourlyGuard(s.config, clock.now, ins.unlock.amount).None?
  {
    hide StepError, DailyGuard, HourlyGuard, UnlockRequestError, QuorumError, SettleError;
    UnlockAccepted(chain, s, clock, ins);
  }

  lemma ExecutionChecked(chain: Chain, s: State, clock: Clock, ins: Instruction)
    requires ins.ExecuteScheduledUnlock? && StepError(chain, s, clock, ins).None?
    ensures ExecuteScheduledUnlockError(s, clock, ins.record, ins.recipient).None?
  {
    hide ExecuteScheduledUnlockError, DepositError, DepositSplError, UnlockError, UpdateConfigError, RegisterValidatorError,
         RemoveValidatorError, ProposeConfigChangeError, ExecuteConfigChangeError, CancelConfigChangeError;
  }

  /** A due record of an unpaused program, covered by the vault and the breaker. */
  predicate Payable(s: State, clock: Clock, id: seq<byte>) {
    && id in s.unlocks && !s.config.paused
    && var r := s.unlocks[id];
    && !r.executed && 0 < r.scheduledTime <= clock.now && r.amount <= s.vault
    && DailyGuard(s.config, clock.now, r.amount).None?
  }

  lemma ExecutionPayable(s: State, clock: Clock, id: seq<byte>, recipient: Pubkey)
    requires ExecuteScheduledUnlockError(s, clock, id, recipient).None?
    ensures Payable(s, clock, id)
  {
    hide DailyGuard;
  }

  lemma ExecutionAccepted(chain: Chain, s: State, clock: Clock, ins: Instruction)
    requires ins.ExecuteScheduledUnlock? && StepError(chain, s, clock, ins).None?
    ensures Payable(s, clock, ins.record)
  {
    hide StepError, Payable, ExecuteScheduledUnlockError;
    ExecutionChecked(chain, s, clock, ins);
    ExecutionPayable(s, clock, ins.record, ins.recipient);
  }
}
