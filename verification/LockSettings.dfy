/** Two documented relations between settings, over whole runs: each is kept but for one kind of update. */
module LockSettings {
  import opened Options
  import opened LockState
  import opened LockRuns
  import opened LockSpec
  import LockQuorum
  import LockTimelock

  predicate EnoughValidators(c: Config) { c.validatorCount >= c.minValidators }

  /** An update that asks for more validators than there are. */
  predicate RaisesMinimumAbove(ins: Instruction, count: nat) {
    ins.UpdateConfig? && ins.update.minValidators.Some? && ins.update.minValidators.value > count
  }

  predicate TouchesValidators(ins: Instruction) {
    ins.RegisterValidator? || ins.RemoveValidator? || ins.UpdateConfig? || ins.ExecuteConfigChange?
  }

  lemma MinimumExecuted(s: State, clock: Clock, t: ConfigChangeType)
    requires t in s.pending && ExecuteConfigChangeError(s, clock, t).None?
    requires t == MinValidatorsDecrease ==> NewMin(s.pending[t].newValue) < s.config.minValidators
    ensures var d := ExecuteConfigChangeEffect(s, t).config;
      d.validatorCount == s.config.validatorCount && d.minValidators <= s.config.minValidators
  {
  }

  lemma MinimumUpdated(s: State, signer: Pubkey, u: UpdateConfigParams)
    ensures var d := UpdateConfigEffect(s, u).config;
      && d.validatorCount == s.config.validatorCount
      && d.minValidators == if u.minValidators.Some? then u.minValidators.value else s.config.minValidators
  {
  }

  /**
   * The count does not drop below the minimum: from a state with enough validators every accepted
   * instruction leaves enough, if and only if it is not an update that raises the minimum above the
   * count. Pending decreases are below the current minimum, as in every reachable state.
   */
  lemma CountKeepsAboveMinimum(chain: Chain, s: State, clock: Clock, ins: Instruction)
    requires EnoughValidators(s.config) && StepError(chain, s, clock, ins).None?
    requires MinValidatorsDecrease in s.pending ==> NewMin(s.pending[MinValidatorsDecrease].newValue) < s.config.minValidators
    ensures EnoughValidators(StepEffect(chain, s, clock, ins).config) <==> !RaisesMinimumAbove(ins, s.config.validatorCount)
  {
    hide StepEffect, ExecuteConfigChangeEffect, UpdateConfigEffect, ExecuteConfigChangeError, UpdateConfigError, UnlockError,
         DepositError, DepositSplError, ExecuteScheduledUnlockError;
    if !TouchesValidators(ins) {
      LockQuorum.RegistryFrame(chain, s, clock, ins);
    } else {
      RegistryStep(chain, s, clock, ins);
      match ins {
        case UpdateConfig(signer, u) => MinimumUpdated(s, signer, u);
        case ExecuteConfigChange(t) => ExecutedPends(s, clock, t); MinimumExecuted(s, clock, t);
        case RegisterValidator(_, _) =>
        case RemoveValidator(_, _) =>
      }
    }
  }

  lemma ExecutedPends(s: State, clock: Clock, t: ConfigChangeType)
    requires ExecuteConfigChangeError(s, clock, t).None?
    ensures t in s.pending
  {
  }

  lemma RegistryStep(chain: Chain, s: State, clock: Clock, ins: Instruction)
    requires TouchesValidators(ins) && StepError(chain, s, clock, ins).None?
    ensures var c, d := s.config, StepEffect(chain, s, clock, ins).config;
      match ins {
        case RegisterValidator(_, _) => d.validatorCount == c.validatorCount + 1 && d.minValidators == c.minValidators
        case RemoveValidator(_, _) => c.validatorCount > c.minValidators && d.validatorCount == c.validatorCount - 1
                                      && d.minValidators == c.minValidators
        case UpdateConfig(_, u) => d == UpdateConfigEffect(s, u).config
        case ExecuteConfigChange(t) => d == ExecuteConfigChangeEffect(s, t).config && ExecuteConfigChangeError(s, clock, t).None?
        case _ => true
      }
  {
    hide ExecuteConfigChangeEffect, UpdateConfigEffect, ExecuteConfigChangeError, UpdateConfigError;
  }

  /** Every state of the run from position k on has enough validators. */
  predicate EnoughFrom(chain: Chain, s: State, txs: seq<Transaction>, k: nat) {
    forall j :: k <= j <= |txs| ==> EnoughValidators(RunOf(chain, s, txs[..j]).config)
  }

  /** Transaction j is an accepted update that asks for more validators than its moment has. */
  predicate RaisesAt(chain: Chain, s: State, txs: seq<Transaction>, j: nat)
    requires j < |txs|
  {
    AcceptedAt(chain, s, txs, j) && RaisesMinimumAbove(txs[j].ins, RunOf(chain, s, txs[..j]).config.validatorCount)
  }

  lemma EnoughNext(chain: Chain, s: State, start: int, txs: seq<Transaction>, j: nat)
    requires Initial(s, start) && j < |txs| && EnoughValidators(RunOf(chain, s, txs[..j]).config)
    ensures EnoughValidators(RunOf(chain, s, txs[..j + 1]).config) <==> !RaisesAt(chain, s, txs, j)
  {
    hide EnoughValidators, RaisesMinimumAbove, StepError, StepEffect;
    assert txs[..j + 1][..j] == txs[..j];
    var before := RunOf(chain, s, txs[..j]);
    if AcceptedAt(chain, s, txs, j) {
      LockTimelock.PendingAlwaysSound(chain, s, start, txs[..j]);
      AcceptedStep(chain, s, txs, j);
      CountKeepsAboveMinimum(chain, before, txs[j].clock, txs[j].ins);
    }
  }

  lemma {:induction false} EnoughKept(chain: Chain, s: State, start: int, txs: seq<Transaction>, k: nat, j: nat)
    requires Initial(s, start) && k <= j <= |txs| && EnoughValidators(RunOf(chain, s, txs[..k]).config)
    requires forall i :: k <= i < |txs| ==> !RaisesAt(chain, s, txs, i)
    ensures EnoughValidators(RunOf(chain, s, txs[..j]).config)
  {
    hide EnoughValidators, RaisesAt, RunOf;
    if k < j {
      EnoughKept(chain, s, start, txs, k, j - 1);
      EnoughNext(chain, s, start, txs, j - 1);
    }
  }

  /**
   * Over whole runs: once there are enough validators there are enough in every later state, if and only
   * if no accepted update from then on asks for more than there are at its moment. A registration may
   * make up for such an update afterwards, but not for the states in between.
   */
  lemma EnoughForGood(chain: Chain, s: State, start: int, txs: seq<Transaction>, k: nat)
    requires Initial(s, start) && k <= |txs| && EnoughValidators(RunOf(chain, s, txs[..k]).config)
    ensures EnoughFrom(chain, s, txs, k) <==> forall j :: k <= j < |txs| ==> !RaisesAt(chain, s, txs, j)
  {
    hide EnoughValidators, RaisesAt, RunOf;
    if EnoughFrom(chain, s, txs, k) {
      forall j | k <= j < |txs| ensures !RaisesAt(chain, s, txs, j) {
        EnoughNext(chain, s, start, txs, j);
      }
    } else if forall j :: k <= j < |txs| ==> !RaisesAt(chain, s, txs, j) {
      forall j | k <= j <= |txs| ensures EnoughValidators(RunOf(chain, s, txs[..j]).config) {
        EnoughKept(chain, s, start, txs, k, j);
      }
    }
  }

  /** There are not enough to begin with: initialization registers nobody. */
  lemma InitiallyTooFew(s: State, start: int)
    requires Initial(s, start)
    ensures s.config.validatorCount == 0 && !EnoughValidators(s.config)
  {
  }

  const NO_UPDATE := UpdateConfigParams(None, None, None, None, None, None, None, None, None)

  /** In any state with room the authority can raise the minimum above the count, and the update is accepted. */
  lemma MinimumRaisedAbove(chain: Chain, s: State, clock: Clock, m: nat)
    requires s.config.validatorCount < m && s.config.minValidators <= m <= s.config.maxValidators
    ensures var ins := UpdateConfig(s.config.authority, NO_UPDATE.(minValidators := Some(m)));
      && StepError(chain, s, clock, ins).None? && RaisesMinimumAbove(ins, s.config.validatorCount)
      && !EnoughValidators(StepEffect(chain, s, clock, ins).config)
  {
  }

  /** A run that loses its quorum: one validator registered where one is enough, then two asked for. */
  lemma RunBelowMinimum(chain: Chain, s: State, start: int, v: Pubkey)
    requires Initial(s, start) && s.config.minValidators == 1 && s.config.maxValidators >= 2
    ensures var clock := Clock(start, 0);
      var txs := [Transaction(clock, RegisterValidator(s.config.authority, v)),
                  Transaction(clock, UpdateConfig(s.config.authority, NO_UPDATE.(minValidators := Some(2))))];
      && AcceptedAt(chain, s, txs, 0) && AcceptedAt(chain, s, txs, 1)
      && EnoughValidators(RunOf(chain, s, txs[..1]).config) && !EnoughValidators(RunOf(chain, s, txs).config)
  {
    hide NO_UPDATE;
    var clock := Clock(start, 0);
    var first, second := Transaction(clock, RegisterValidator(s.config.authority, v)),
                         Transaction(clock, UpdateConfig(s.config.authority, NO_UPDATE.(minValidators := Some(2))));
    var txs := [first, second];
    assert txs[..0] == [] && txs[..1] == [first] && [first][..0] == [];
    var one := RegisterValidatorEffect(s, clock, v);
    assert RunOf(chain, s, [first]) == Apply(chain, RunOf(chain, s, []), clock, first.ins) == one;
    MinimumRaisedAbove(chain, one, clock, 2);
    assert RunOf(chain, s, txs) == Apply(chain, one, clock, second.ins);
  }

  predicate DepositBounds(c: Config) { c.maxDeposit > c.minDeposit }

  /** An update that raises the minimum deposit alone, up to the maximum or beyond. */
  predicate RaisesMinDepositAlone(ins: Instruction, c: Config) {
    ins.UpdateConfig? && ins.update.minDeposit.Some? && ins.update.maxDeposit.None? && ins.update.minDeposit.value >= c.maxDeposit
  }

  lemma DepositBoundsFrame(chain: Chain, s: State, clock: Clock, ins: Instruction)
    requires !ins.UpdateConfig?
    ensures var d := StepEffect(chain, s, clock, ins).config;
      d.minDeposit == s.config.minDeposit && d.maxDeposit == s.config.maxDeposit
  {
  }

  lemma DepositBoundsUpdated(s: State, signer: Pubkey, u: UpdateConfigParams)
    requires DepositBounds(s.config) && UpdateConfigError(s, signer, u).None?
    ensures DepositBounds(UpdateConfigEffect(s, u).config)
       <==> !(u.minDeposit.Some? && u.maxDeposit.None? && u.minDeposit.value >= s.config.maxDeposit)
  {
  }

  /** The maximum deposit stays above the minimum, if and only if no update raises the minimum alone past it. */
  lemma DepositBoundsKept(chain: Chain, s: State, clock: Clock, ins: Instruction)
    requires DepositBounds(s.config) && StepError(chain, s, clock, ins).None?
    ensures DepositBounds(StepEffect(chain, s, clock, ins).config) <==> !RaisesMinDepositAlone(ins, s.config)
  {
    hide UpdateConfigEffect, UpdateConfigError, UnlockError, DepositError, DepositSplError, ExecuteScheduledUnlockError,
         UnlockEffect, DepositEffect, DepositSplEffect, ExecuteScheduledUnlockEffect, ExecuteConfigChangeError;
    if ins.UpdateConfig? {
      DepositBoundsUpdated(s, ins.signer, ins.update);
    } else {
      DepositBoundsFrame(chain, s, clock, ins);
    }
  }

  /** Transaction j is an accepted update that raises the minimum deposit alone, up to the maximum or beyond. */
  predicate RaisesDepositAt(chain: Chain, s: State, txs: seq<Transaction>, j: nat)
    requires j < |txs|
  {
    AcceptedAt(chain, s, txs, j) && RaisesMinDepositAlone(txs[j].ins, RunOf(chain, s, txs[..j]).config)
  }

  lemma DepositBoundsNext(chain: Chain, s: State, txs: seq<Transaction>, j: nat)
    requires j < |txs| && DepositBounds(RunOf(chain, s, txs[..j]).config)
    ensures DepositBounds(RunOf(chain, s, txs[..j + 1]).config) <==> !RaisesDepositAt(chain, s, txs, j)
  {
    hide DepositBounds, RaisesMinDepositAlone, StepError, StepEffect;
    assert txs[..j + 1][..j] == txs[..j];
    if AcceptedAt(chain, s, txs, j) {
      AcceptedStep(chain, s, txs, j);
      DepositBoundsKept(chain, RunOf(chain, s, txs[..j]), txs[j].clock, txs[j].ins);
    }
  }

  lemma {:induction false} DepositBoundsUpTo(chain: Chain, s: State, txs: seq<Transaction>, j: nat)
    requires DepositBounds(s.config) && j <= |txs|
    requires forall i :: 0 <= i < |txs| ==> !RaisesDepositAt(chain, s, txs, i)
    ensures DepositBounds(RunOf(chain, s, txs[..j]).config)
  {
    hide DepositBounds, RaisesDepositAt;
    if j > 0 {
      DepositBoundsUpTo(chain, s, txs, j - 1);
      DepositBoundsNext(chain, s, txs, j - 1);
    }
  }

  /**
   * Over whole runs: the maximum deposit is above the minimum in every state, if and only if no accepted
   * update raises the minimum alone past the maximum of its moment.
   */
  lemma DepositBoundsForGood(chain: Chain, s: State, start: int, txs: seq<Transaction>)
    requires Initial(s, start)
    ensures (forall j :: 0 <= j <= |txs| ==> DepositBounds(RunOf(chain, s, txs[..j]).config))
       <==> (forall j :: 0 <= j < |txs| ==> !RaisesDepositAt(chain, s, txs, j))
  {
    hide RaisesDepositAt, RunOf;
    InitialBounds(s, start);
    if forall j :: 0 <= j < |txs| ==> !RaisesDepositAt(chain, s, txs, j) {
      forall j | 0 <= j <= |txs| ensures DepositBounds(RunOf(chain, s, txs[..j]).config) {
        DepositBoundsUpTo(chain, s, txs, j);
      }
    } else {
      var j :| 0 <= j < |txs| && RaisesDepositAt(chain, s, txs, j);
      if DepositBounds(RunOf(chain, s, txs[..j]).config) {
        DepositBoundsNext(chain, s, txs, j);
      }
    }
  }

  lemma InitialBounds(s: State, start: int)
    requires Initial(s, start)
    ensures DepositBounds(s.config)
  {
  }

  /** In any state the authority can raise the minimum deposit alone to the maximum or beyond. */
  lemma MinDepositRaisedAlone(chain: Chain, s: State, clock: Clock, m: nat)
    requires m >= s.config.maxDeposit && m > 0
    ensures var ins := UpdateConfig(s.config.authority, NO_UPDATE.(minDeposit := Some(m)));
      && StepError(chain, s, clock, ins).None? && RaisesMinDepositAlone(ins, s.config)
      && !DepositBounds(StepEffect(chain, s, clock, ins).config)
  {
  }
}
