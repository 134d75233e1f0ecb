/**
 * The lock program with its accounts as fields. Handlers mutate the accounts as they go and may
 * fail half-way; `Process` is the runtime's atomicity: a failed instruction is rolled back.
 */
module LockProgram {
  import opened Bytes
  import opened Options
  import opened LockState
  import opened LockSpec
  import opened UnlockMessages
  import Ed25519

  /** compute_transfer_id: the 40 bytes of sender and nonce, hashed. */
  method ComputeTransferId(chain: Chain, sender: Pubkey, nonce: nat) returns (id: seq<byte>)
    ensures id == TransferId(chain, sender, nonce)
  {
    var data: seq<byte> := [];
    data := data + sender;
    data := data + ToLE(8, nonce);
    assert data == sender + ToLE(8, nonce);
    id := (chain.hash)(data);
  }

  /** The seen-list loop of the unlock handler. */
  method HasDuplicates(atts: seq<ValidatorAttestation>) returns (duplicate: bool)
    ensures duplicate <==> !DistinctValidators(atts)
  {
    var seen: seq<Pubkey> := [];
    for i := 0 to |atts|
      invariant |seen| == i && forall k :: 0 <= k < i ==> seen[k] == atts[k].validator
      invariant DistinctValidators(atts[..i])
    {
      if atts[i].validator in seen {
        return true;
      }
      seen := seen + [atts[i].validator];
      assert DistinctValidators(atts[..i + 1]);
    }
    assert atts[..|atts|] == atts;
    return false;
  }

  /** The search through the remaining accounts for an active entry of `validator`. */
  method FindValidator(remaining: seq<seq<byte>>, validator: Pubkey) returns (found: bool)
    ensures found <==> Supplied(remaining, validator)
  {
    for k := 0 to |remaining|
      invariant forall j :: 0 <= j < k ==> !ActiveEntryData(remaining[j], validator)
    {
      var data := remaining[k];
      if |data| >= VALIDATOR_ENTRY_LEN {
        var pubkey := data[8..40];
        var active := data[40] != 0;
        if pubkey == validator && active {
          return true;
        }
      }
    }
    return false;
  }

  /** The first failing attestation decides; later ones are not looked at. */
  lemma {:induction false} FirstFailureDecides(atts: seq<ValidatorAttestation>, k: nat, remaining: seq<seq<byte>>,
                                               preceding: seq<Ed25519.Instruction>, message: seq<byte>)
    requires k <= |atts| && AttestationError(atts[..k], remaining, preceding, message).Some?
    ensures AttestationError(atts, remaining, preceding, message) == AttestationError(atts[..k], remaining, preceding, message)
  {
    if k == |atts| {
      assert atts[..k] == atts;
    } else {
      var front := atts[..|atts| - 1];
      assert front[..k] == atts[..k];
      FirstFailureDecides(front, k, remaining, preceding, message);
    }
  }

  /** The verification loop: `validSigs` is a u8 with overflow checks. */
  method VerifyAttestations(atts: seq<ValidatorAttestation>, remaining: seq<seq<byte>>,
                            preceding: seq<Ed25519.Instruction>, message: seq<byte>)
    returns (error: Option<Error>, validSigs: nat)
    ensures error == AttestationError(atts, remaining, preceding, message)
    ensures error.None? ==> validSigs == |atts|
  {
    hide Supplied, Ed25519.Introspected;
    validSigs := 0;
    for i := 0 to |atts|
      invariant validSigs == i
      invariant AttestationError(atts[..i], remaining, preceding, message).None?
    {
      assert atts[..i + 1][..i] == atts[..i];
      var found := FindValidator(remaining, atts[i].validator);
      if !found {
        FirstFailureDecides(atts, i + 1, remaining, preceding, message);
        return Some(ValidatorNotActive), validSigs;
      }
      var sigValid := Ed25519.VerifySignatureIntrospect(preceding, |preceding|, atts[i].validator, message, atts[i].signature);
      if !sigValid {
        FirstFailureDecides(atts, i + 1, remaining, preceding, message);
        return Some(InvalidSignature), validSigs;
      }
      if validSigs + 1 > MAX_U8 {
        FirstFailureDecides(atts, i + 1, remaining, preceding, message);
        return Some(ArithmeticOverflow), validSigs;
      }
      validSigs := validSigs + 1;
    }
    assert atts[..|atts|] == atts;
    return None, validSigs;
  }

  class LockProgram {
    const chain: Chain
    var config: Config
    var users: map<Pubkey, UserState>
    var deposits: map<seq<byte>, DepositRecord>
    var unlocks: map<seq<byte>, UnlockRecord>
    var validators: map<Pubkey, ValidatorEntry>
    var pending: map<ConfigChangeType, PendingConfigChange>
    var vault: nat
    var events: seq<Event>

    function Snapshot(): State
      reads this
    {
      State(config, users, deposits, unlocks, validators, pending, vault, events)
    }

    /** The configuration account, created and filled in. */
    constructor Created(chain: Chain, authority: Pubkey, p: InitializeParams, now: int, lamports: nat)
      ensures this.chain == chain && Snapshot() == InitialState(authority, p, now, lamports)
    {
      this.chain := chain;
      config := Config(
        authority, p.guardian, false, 0, 0, 0, 0, p.minValidators, p.maxValidators, p.minDeposit, p.maxDeposit,
        p.maxDailyOutflow, 0, now, p.maxUnlockAmount, p.requiredConfirmations, p.largeWithdrawalDelay,
        p.largeWithdrawalThreshold, p.dccChainId, p.solanaChainId, p.maxHourlyOutflow, 0, now);
      users, deposits, unlocks, validators, pending := map[], map[], map[], map[], map[];
      vault, events := lamports, [];
    }

    /**
     * initialize: refused where the configuration account exists already, or on the first check its
     * parameters fail; otherwise every account is as initialization leaves it.
     */
    static method Initialize(existing: LockProgram?, chain: Chain, authority: Pubkey, p: InitializeParams, now: int, lamports: nat)
      returns (error: Option<Error>, program: LockProgram?)
      ensures error == Then(Check(existing == null, AccountInUse), InitializeError(p))
      ensures error.Some? ==> program == existing
      ensures error.None? <==> existing == null && ValidInitialization(p)
      ensures error.None? ==> program != null && fresh(program) && program.chain == chain
                              && program.Snapshot() == InitialState(authority, p, now, lamports)
    {
      if existing != null {
        return Some(AccountInUse), existing;
      }
      if !(p.minValidators >= 1 && p.minValidators <= p.maxValidators) {
        return Some(InvalidConfig), null;
      }
      if p.maxValidators > 20 {
        return Some(InvalidConfig), null;
      }
      if p.minDeposit == 0 {
        return Some(InvalidConfig), null;
      }
      if p.maxDeposit <= p.minDeposit {
        return Some(InvalidConfig), null;
      }
      if p.maxDailyOutflow == 0 {
        return Some(InvalidConfig), null;
      }
      if p.requiredConfirmations < 32 {
        return Some(InvalidConfig), null;
      }
      program := new LockProgram.Created(chain, authority, p, now, lamports);
      return None, program;
    }

    /** The guards both deposit handlers start with; yields the sender's account, initialized if new. */
    method OpenDeposit(sender: Pubkey, p: DepositParams) returns (error: Option<Error>, user: UserState)
      ensures error == DepositGuards(chain, Snapshot(), sender, p)
      ensures error.None? ==> user == SenderState(Snapshot(), sender)
    {
      user := if sender in users then users[sender] else UserState(DEFAULT_KEY, 0, 0);
      if p.transferId in deposits {
        return Some(AccountInUse), user;
      }
      if config.paused {
        return Some(BridgePaused), user;
      }
      if p.amount < config.minDeposit {
        return Some(DepositTooSmall), user;
      }
      if p.amount > config.maxDeposit {
        return Some(DepositTooLarge), user;
      }
      if p.recipientDcc == Zeros(32) {
        return Some(InvalidDccAddress), user;
      }
      if user.user == DEFAULT_KEY {
        user := UserState(sender, 0, 0);
      }
      var expected := ComputeTransferId(chain, sender, user.nextNonce);
      if p.transferId != expected {
        return Some(InvalidTransferId), user;
      }
      return None, user;
    }

    /** Counts the deposit and stores its record: the second half both deposit handlers share. */
    method RecordDeposit(clock: Clock, sender: Pubkey, user: UserState, p: DepositParams) returns (error: Option<Error>)
      requires user == SenderState(Snapshot(), sender)
      modifies this
      ensures error == CounterGuards(old(Snapshot()), sender, p)
      ensures error.None? ==> Snapshot() == Recorded(old(Snapshot()), clock, sender, p)
    {
      if config.globalNonce + 1 > MAX_U64 {
        return Some(ArithmeticOverflow);
      }
      config := config.(globalNonce := config.globalNonce + 1);
      var currentNonce := user.nextNonce;
      if currentNonce + 1 > MAX_U64 || user.totalDeposited + p.amount > MAX_U64 {
        return Some(ArithmeticOverflow);
      }
      users := users[sender := user.(nextNonce := currentNonce + 1, totalDeposited := user.totalDeposited + p.amount)];
      deposits := deposits[p.transferId := DepositRecord(p.transferId, sender, p.recipientDcc, p.amount, currentNonce,
                                                         clock.slot, clock.now, false)];
      return None;
    }

    method Deposit(clock: Clock, sender: Pubkey, p: DepositParams) returns (error: Option<Error>)
      modifies this
      ensures error == DepositError(chain, old(Snapshot()), sender, p)
      ensures error.None? ==> Snapshot() == DepositEffect(old(Snapshot()), clock, sender, p)
    {
      hide DepositGuards, TransferId;
      var refused, user := OpenDeposit(sender, p);
      if refused.Some? {
        return refused;
      }
      if sender == chain.vaultKey {
        return Some(MissingSignature);
      }
      vault := vault + p.amount;
      if config.totalLocked + p.amount > MAX_U64 {
        return Some(ArithmeticOverflow);
      }
      config := config.(totalLocked := config.totalLocked + p.amount);
      error := RecordDeposit(clock, sender, user, p);
      events := events + [Deposited(p.transferId, sender, p.recipientDcc, p.amount, user.nextNonce,
                                    clock.slot, clock.now, config.solanaChainId)];
    }

    method DepositSpl(clock: Clock, sender: Pubkey, splMint: Pubkey, p: DepositParams) returns (error: Option<Error>)
      modifies this
      ensures error == DepositSplError(chain, old(Snapshot()), sender, p)
      ensures error.None? ==> Snapshot() == DepositSplEffect(old(Snapshot()), clock, sender, splMint, p)
    {
      var refused, user := OpenDeposit(sender, p);
      if refused.Some? {
        return refused;
      }
      error := RecordDeposit(clock, sender, user, p);
      events := events + [DepositedSpl(p.transferId, sender, p.recipientDcc, splMint, p.amount, user.nextNonce,
                                       clock.slot, clock.now, config.solanaChainId)];
    }

    method CheckUnlockRequest(clock: Clock, p: UnlockParams, recipient: Pubkey) returns (error: Option<Error>)
      ensures error == UnlockRequestError(Snapshot(), clock, p, recipient)
    {
      if p.transferId in unlocks {
        return Some(AccountInUse);
      }
      if config.paused {
        return Some(BridgePaused);
      }
      if p.dccChainId != config.dccChainId {
        return Some(ChainIdMismatch);
      }
      if p.expiration <= clock.now {
        return Some(TransferExpired);
      }
      if p.amount > config.maxUnlockAmount {
        return Some(UnlockAmountExceeded);
      }
      if |p.attestations| < config.minValidators {
        return Some(InsufficientSignatures);
      }
      if p.recipient != recipient {
        return Some(Unauthorized);
      }
      return None;
    }

    /** The signature loops. The handler compares the final count with the threshold once more; it cannot fail there. */
    method CheckQuorum(p: UnlockParams, remaining: seq<seq<byte>>, preceding: seq<Ed25519.Instruction>)
      returns (error: Option<Error>)
      requires |p.attestations| >= config.minValidators
      ensures error == QuorumError(p, remaining, preceding)
    {
      var duplicate := HasDuplicates(p.attestations);
      if duplicate {
        return Some(DuplicateValidatorSignature);
      }
      var message := ConstructUnlockMessage(p.transferId, p.recipient, p.amount, p.burnTxHash, p.dccChainId, p.expiration);
      var validSigs;
      error, validSigs := VerifyAttestations(p.attestations, remaining, preceding, message);
      assert error.None? ==> validSigs >= config.minValidators;
    }

    /** Both circuit breakers, rolled and checked; the hourly one is updated here. */
    method CheckOutflow(now: int, amount: nat) returns (error: Option<Error>)
      modifies this`config
      ensures error == OutflowError(old(config), now, amount)
      ensures error.None? ==> config == RolledConfig(old(config), now, amount)
    {
      if now - config.lastDailyReset >= 86400 {
        config := config.(currentDailyOutflow := 0, lastDailyReset := now);
      }
      var newDailyOutflow := config.currentDailyOutflow + amount;
      if newDailyOutflow > MAX_U64 {
        return Some(ArithmeticOverflow);
      }
      if newDailyOutflow > config.maxDailyOutflow {
        return Some(DailyOutflowExceeded);
      }
      if now - config.lastHourlyReset >= 3600 {
        config := config.(currentHourlyOutflow := 0, lastHourlyReset := now);
      }
      if config.maxHourlyOutflow > 0 {
        var newHourlyOutflow := config.currentHourlyOutflow + amount;
        if newHourlyOutflow > MAX_U64 {
          return Some(ArithmeticOverflow);
        }
        if newHourlyOutflow > config.maxHourlyOutflow {
          return Some(HourlyOutflowExceeded);
        }
        config := config.(currentHourlyOutflow := newHourlyOutflow);
      }
      return None;
    }

    /** Schedules a large withdrawal, pays any other. */
    method Settle(clock: Clock, p: UnlockParams) returns (error: Option<Error>)
      modifies this
      ensures error == SettleError(old(Snapshot()), clock.now, p.amount)
      ensures error.None? ==> Snapshot() == SettleEffect(chain, old(Snapshot()), clock, p)
    {
      if p.amount >= config.largeWithdrawalThreshold {
        var scheduledTime := clock.now + config.largeWithdrawalDelay;
        if !(MIN_I64 <= scheduledTime <= MAX_I64) {
          return Some(ArithmeticOverflow);
        }
        unlocks := unlocks[p.transferId := UnlockRecord(p.transferId, p.recipient, p.amount, clock.now, p.burnTxHash,
                                                        false, scheduledTime)];
        return None;
      }
      if vault < p.amount {
        return Some(InsufficientVaultBalance);
      }
      PayFromVault(p.recipient, p.amount);
      if config.totalUnlocked + p.amount > MAX_U64 {
        return Some(ArithmeticOverflow);
      }
      config := config.(totalUnlocked := config.totalUnlocked + p.amount,
                        currentDailyOutflow := config.currentDailyOutflow + p.amount);
      unlocks := unlocks[p.transferId := UnlockRecord(p.transferId, p.recipient, p.amount, clock.now, p.burnTxHash, true, 0)];
      events := events + [Unlocked(p.transferId, p.recipient, p.amount, p.burnTxHash, clock.now, |p.attestations|)];
      return None;
    }

    method LimitAndSettle(clock: Clock, p: UnlockParams) returns (error: Option<Error>)
      modifies this
      ensures error == Then(OutflowError(old(config), clock.now, p.amount), SettleError(old(Snapshot()), clock.now, p.amount))
      ensures error.None? ==> Snapshot() == UnlockEffect(chain, old(Snapshot()), clock, p)
    {
      error := CheckOutflow(clock.now, p.amount);
      if error.None? {
        error := Settle(clock, p);
      }
    }

    method Unlock(clock: Clock, p: UnlockParams, recipient: Pubkey, remaining: seq<seq<byte>>,
                  preceding: seq<Ed25519.Instruction>) returns (error: Option<Error>)
      modifies this
      ensures error == UnlockError(old(Snapshot()), clock, p, recipient, remaining, preceding)
      ensures error.None? ==> Snapshot() == UnlockEffect(chain, old(Snapshot()), clock, p)
    {
      error := CheckUnlockRequest(clock, p, recipient);
      if error.Some? {
        return;
      }
      error := CheckQuorum(p, remaining, preceding);
      if error.Some? {
        return;
      }
      error := LimitAndSettle(clock, p);
    }

    /** The system transfer out of the vault. */
    method PayFromVault(recipient: Pubkey, amount: nat)
      requires amount <= vault
      modifies this`vault
      ensures vault == if recipient == chain.vaultKey then old(vault) else old(vault) - amount
    {
      if recipient != chain.vaultKey {
        vault := vault - amount;
      }
    }

    /** Pays first and checks the daily limit last; only the rollback undoes a payment over the limit. */
    method ExecuteScheduledUnlock(clock: Clock, id: seq<byte>, recipient: Pubkey) returns (error: Option<Error>)
      modifies this
      ensures error == ExecuteScheduledUnlockError(old(Snapshot()), clock, id, recipient)
      ensures error.None? ==> Snapshot() == ExecuteScheduledUnlockEffect(chain, old(Snapshot()), clock, id)
    {
      if id !in unlocks {
        return Some(AccountNotInitialized);
      }
      var record := unlocks[id];
      if record.executed {
        return Some(UnlockAlreadyExecuted);
      }
      if record.scheduledTime <= 0 {
        return Some(InvalidConfig);
      }
      if recipient != record.recipient {
        return Some(Unauthorized);
      }
      if config.paused {
        return Some(BridgePaused);
      }
      if clock.now < record.scheduledTime {
        return Some(WithdrawalDelayNotElapsed);
      }
      if vault < record.amount {
        return Some(InsufficientVaultBalance);
      }
      PayFromVault(recipient, record.amount);
      if config.totalUnlocked + record.amount > MAX_U64 {
        return Some(ArithmeticOverflow);
      }
      config := config.(totalUnlocked := config.totalUnlocked + record.amount);
      if clock.now - config.lastDailyReset >= 86400 {
        config := config.(currentDailyOutflow := 0, lastDailyReset := clock.now);
      }
      if config.currentDailyOutflow + record.amount > MAX_U64 {
        return Some(ArithmeticOverflow);
      }
      config := config.(currentDailyOutflow := config.currentDailyOutflow + record.amount);
      if config.currentDailyOutflow > config.maxDailyOutflow {
        return Some(DailyOutflowExceeded);
      }
      unlocks := unlocks[id := record.(executed := true)];
      events := events + [LockState.ScheduledUnlockExecuted(record.transferId, record.recipient, record.amount, clock.now)];
      return None;
    }

    /** Guarded assignments in order: the bound on the maximum sees a new minimum. */
    method UpdateDepositBounds(u: UpdateConfigParams) returns (error: Option<Error>)
      modifies this`config
      ensures error == Check(ValidDepositBounds(old(config), u), Error.InvalidConfig)
      ensures error.None? ==> config == WithDepositBounds(old(config), u)
    {
      if u.minDeposit.Some? {
        if u.minDeposit.value == 0 {
          return Some(InvalidConfig);
        }
        config := config.(minDeposit := u.minDeposit.value);
      }
      if u.maxDeposit.Some? {
        if u.maxDeposit.value <= config.minDeposit {
          return Some(InvalidConfig);
        }
        config := config.(maxDeposit := u.maxDeposit.value);
      }
      return None;
    }

    method UpdateOutflowBounds(u: UpdateConfigParams) returns (error: Option<Error>)
      modifies this`config
      ensures error == Check(ValidOutflowBounds(old(config), u), Error.InvalidConfig)
      ensures error.None? ==> config == WithOutflowBounds(old(config), u)
    {
      if u.maxDailyOutflow.Some? {
        if u.maxDailyOutflow.value == 0 || u.maxDailyOutflow.value > config.maxDailyOutflow {
          return Some(InvalidConfig);
        }
        config := config.(maxDailyOutflow := u.maxDailyOutflow.value);
      }
      if u.maxUnlockAmount.Some? {
        if u.maxUnlockAmount.value == 0 {
          return Some(InvalidConfig);
        }
        config := config.(maxUnlockAmount := u.maxUnlockAmount.value);
      }
      if u.requiredConfirmations.Some? {
        if u.requiredConfirmations.value < 32 {
          return Some(InvalidConfig);
        }
        config := config.(requiredConfirmations := u.requiredConfirmations.value);
      }
      return None;
    }

    method UpdateThresholds(u: UpdateConfigParams) returns (error: Option<Error>)
      modifies this`config
      ensures error == Check(ValidThresholds(old(config), u), Error.InvalidConfig)
      ensures error.None? ==> config == WithThresholds(old(config), u)
    {
      if u.largeWithdrawalDelay.Some? {
        if u.largeWithdrawalDelay.value < 0 {
          return Some(InvalidConfig);
        }
        config := config.(largeWithdrawalDelay := u.largeWithdrawalDelay.value);
      }
      if u.largeWithdrawalThreshold.Some? {
        config := config.(largeWithdrawalThreshold := u.largeWithdrawalThreshold.value);
      }
      if u.minValidators.Some? {
        var minValidators := u.minValidators.value;
        if !(1 <= minValidators <= config.maxValidators) || minValidators < config.minValidators {
          return Some(InvalidConfig);
        }
        config := config.(minValidators := minValidators);
      }
      if u.maxHourlyOutflow.Some? {
        if u.maxHourlyOutflow.value == 0 {
          return Some(InvalidConfig);
        }
        config := config.(maxHourlyOutflow := u.maxHourlyOutflow.value);
      }
      return None;
    }

    method UpdateConfig(signer: Pubkey, u: UpdateConfigParams) returns (error: Option<Error>)
      modifies this
      ensures error == UpdateConfigError(old(Snapshot()), signer, u)
      ensures error.None? ==> Snapshot() == UpdateConfigEffect(old(Snapshot()), u)
    {
      if signer != config.authority {
        return Some(Unauthorized);
      }
      error := UpdateDepositBounds(u);
      if error.None? {
        error := UpdateOutflowBounds(u);
        if error.None? {
          error := UpdateThresholds(u);
        }
      }
    }

    method RegisterValidator(clock: Clock, signer: Pubkey, validator: Pubkey) returns (error: Option<Error>)
      modifies this
      ensures error == RegisterValidatorError(old(Snapshot()), signer, validator)
      ensures error.None? ==> Snapshot() == RegisterValidatorEffect(old(Snapshot()), clock, validator)
    {
      if signer != config.authority {
        return Some(Unauthorized);
      }
      if validator in validators {
        return Some(AccountInUse);
      }
      if config.validatorCount >= config.maxValidators {
        return Some(MaxValidatorsReached);
      }
      validators := validators[validator := ValidatorEntry(validator, true, clock.now, 0, 0)];
      config := config.(validatorCount := config.validatorCount + 1);
      return None;
    }

    method RemoveValidator(signer: Pubkey, validator: Pubkey) returns (error: Option<Error>)
      modifies this
      ensures error == RemoveValidatorError(old(Snapshot()), signer, validator)
      ensures error.None? ==> Snapshot() == RemoveValidatorEffect(old(Snapshot()), validator)
    {
      if signer != config.authority {
        return Some(Unauthorized);
      }
      if validator !in validators {
        return Some(AccountNotInitialized);
      }
      if config.validatorCount <= config.minValidators {
        return Some(ValidatorRemovalBreachesMinimum);
      }
      config := config.(validatorCount := config.validatorCount - 1);
      validators := validators - {validator};
      return None;
    }

    method ProposeConfigChange(clock: Clock, signer: Pubkey, t: ConfigChangeType, value: Bytes32) returns (error: Option<Error>)
      modifies this
      ensures error == ProposeConfigChangeError(old(Snapshot()), clock, signer, t, value)
      ensures error.None? ==> Snapshot() == ProposeConfigChangeEffect(old(Snapshot()), clock, signer, t, value)
    {
      if signer != config.authority {
        return Some(Unauthorized);
      }
      if t in pending {
        return Some(AccountInUse);
      }
      match t {
        case AuthorityTransfer => if value == Zeros(32) { return Some(InvalidConfig); }
        case GuardianTransfer => if value == Zeros(32) { return Some(InvalidConfig); }
        case MinValidatorsDecrease =>
          var newMin := NewMin(value);
          if newMin < 1 || newMin >= config.minValidators { return Some(InvalidConfig); }
        case MaxDailyOutflowIncrease =>
          var newOutflow := NewOutflow(value);
          if newOutflow == 0 || newOutflow <= config.maxDailyOutflow { return Some(InvalidConfig); }
      }
      if clock.now + DelayFor(t) > MAX_I64 {
        return Some(ArithmeticOverflow);
      }
      pending := pending[t := PendingConfigChange(t, value, clock.now, clock.now + DelayFor(t), signer)];
      return None;
    }

    method ExecuteConfigChange(clock: Clock, t: ConfigChangeType) returns (error: Option<Error>)
      modifies this
      ensures error == ExecuteConfigChangeError(old(Snapshot()), clock, t)
      ensures error.None? ==> Snapshot() == ExecuteConfigChangeEffect(old(Snapshot()), t)
    {
      if t !in pending {
        return Some(AccountNotInitialized);
      }
      var change := pending[t];
      if clock.now < change.executeAfter {
        return Some(TimelockNotElapsed);
      }
      match t {
        case AuthorityTransfer => config := config.(authority := change.newValue);
        case GuardianTransfer => config := config.(guardian := change.newValue);
        case MinValidatorsDecrease =>
          var newMin := NewMin(change.newValue);
          if newMin < 1 || newMin > config.maxValidators { return Some(InvalidConfig); }
          config := config.(minValidators := newMin);
        case MaxDailyOutflowIncrease =>
          var newOutflow := NewOutflow(change.newValue);
          if newOutflow == 0 { return Some(InvalidConfig); }
          config := config.(maxDailyOutflow := newOutflow);
      }
      pending := pending - {t};
      return None;
    }

    method CancelConfigChange(signer: Pubkey, t: ConfigChangeType) returns (error: Option<Error>)
      modifies this
      ensures error == CancelConfigChangeError(old(Snapshot()), signer, t)
      ensures error.None? ==> Snapshot() == old(Snapshot()).(pending := old(pending) - {t})
    {
      if signer != config.authority {
        return Some(Unauthorized);
      }
      if t !in pending {
        return Some(AccountNotInitialized);
      }
      pending := pending - {t};
      return None;
    }

    method EmergencyPause(signer: Pubkey) returns (error: Option<Error>)
      modifies this
      ensures error == Check(signer == old(config).authority || signer == old(config).guardian, Error.Unauthorized)
      ensures error.None? ==> Snapshot() == old(Snapshot()).(config := old(config).(paused := true))
    {
      if signer != config.authority && signer != config.guardian {
        return Some(Unauthorized);
      }
      config := config.(paused := true);
      return None;
    }

    method EmergencyResume(signer: Pubkey) returns (error: Option<Error>)
      modifies this
      ensures error == Check(signer == old(config).authority, Error.Unauthorized)
      ensures error.None? ==> Snapshot() == old(Snapshot()).(config := old(config).(paused := false))
    {
      if signer != config.authority {
        return Some(Unauthorized);
      }
      config := config.(paused := false);
      return None;
    }

    method Dispatch(clock: Clock, ins: Instruction) returns (error: Option<Error>)
      modifies this
      ensures error == StepError(chain, old(Snapshot()), clock, ins)
      ensures error.None? ==> Snapshot() == StepEffect(chain, old(Snapshot()), clock, ins)
    {
      hide DepositError, DepositSplError, UnlockError, ExecuteScheduledUnlockError, UpdateConfigError, RegisterValidatorError,
           RemoveValidatorError, ProposeConfigChangeError, ExecuteConfigChangeError, CancelConfigChangeError, DepositEffect,
           DepositSplEffect, UnlockEffect, ExecuteScheduledUnlockEffect, UpdateConfigEffect, RegisterValidatorEffect,
           RemoveValidatorEffect, ProposeConfigChangeEffect, ExecuteConfigChangeEffect;
      match ins {
        case Deposit(sender, p) => error := Deposit(clock, sender, p);
        case DepositSpl(sender, mint, p) => error := DepositSpl(clock, sender, mint, p);
        case Unlock(p, recipient, remaining, preceding) => error := Unlock(clock, p, recipient, remaining, preceding);
        case ExecuteScheduledUnlock(id, recipient) => error := ExecuteScheduledUnlock(clock, id, recipient);
        case EmergencyPause(signer) => error := EmergencyPause(signer);
        case EmergencyResume(signer) => error := EmergencyResume(signer);
        case UpdateConfig(signer, u) => error := UpdateConfig(signer, u);
        case RegisterValidator(signer, v) => error := RegisterValidator(clock, signer, v);
        case RemoveValidator(signer, v) => error := RemoveValidator(signer, v);
        case ProposeConfigChange(signer, t, value) => error := ProposeConfigChange(clock, signer, t, value);
        case ExecuteConfigChange(t) => error := ExecuteConfigChange(clock, t);
        case CancelConfigChange(signer, t) => error := CancelConfigChange(signer, t);
        case Donate(lamports) =>
          vault := vault + lamports;
          error := None;
      }
    }

    /** One transaction: all of the handler's changes, or none. */
    method Process(clock: Clock, ins: Instruction) returns (error: Option<Error>)
      modifies this
      ensures error == StepError(chain, old(Snapshot()), clock, ins)
      ensures Snapshot() == Apply(chain, old(Snapshot()), clock, ins)
    {
      hide StepError, StepEffect;
      var saved := Snapshot();
      error := Dispatch(clock, ins);
      if error.Some? {
        config, users, deposits, unlocks := saved.config, saved.users, saved.deposits, saved.unlocks;
        validators, pending, vault, events := saved.validators, saved.pending, saved.vault, saved.events;
      }
    }
  }
}
