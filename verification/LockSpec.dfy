/**
 * Each instruction of the lock program as one atomic step: the first guard that fails, and the
 * state after a step that fails none. A failed instruction leaves no trace.
 */
module LockSpec {
  import opened Bytes
  import opened Options
  import opened LockState
  import opened FixedWindow
  import opened UnlockMessages
  import Ed25519

  function Check(ok: bool, e: Error): Option<Error> { if ok then None else Some(e) }

  function Then(first: Option<Error>, second: Option<Error>): Option<Error> {
    if first.Some? then first else second
  }

  // ---------------------------------------------------------------------------------------------
  // Initialize
  // ---------------------------------------------------------------------------------------------

  /** The handler's checks on the parameters, in their order. */
  function InitializeError(p: InitializeParams): Option<Error> {
    Then(Check(1 <= p.minValidators <= p.maxValidators, InvalidConfig),
    Then(Check(p.maxValidators <= 20, InvalidConfig),
    Then(Check(p.minDeposit > 0, InvalidConfig),
    Then(Check(p.maxDeposit > p.minDeposit, InvalidConfig),
    Then(Check(p.maxDailyOutflow > 0, InvalidConfig),
         Check(p.requiredConfirmations >= 32, InvalidConfig))))))
  }

  /** What they come to. */
  predicate ValidInitialization(p: InitializeParams) {
    && 1 <= p.minValidators <= p.maxValidators <= 20
    && 0 < p.minDeposit < p.maxDeposit
    && p.maxDailyOutflow > 0
    && p.requiredConfirmations >= 32
  }

  /** The state right after initialization; the vault may already hold lamports. */
  function InitialState(authority: Pubkey, p: InitializeParams, now: int, vault: nat): State {
    var config := Config(
      authority, p.guardian, false, 0, 0, 0, 0, p.minValidators, p.maxValidators, p.minDeposit, p.maxDeposit,
      p.maxDailyOutflow, 0, now, p.maxUnlockAmount, p.requiredConfirmations, p.largeWithdrawalDelay,
      p.largeWithdrawalThreshold, p.dccChainId, p.solanaChainId, p.maxHourlyOutflow, 0, now);
    State(config, map[], map[], map[], map[], map[], vault, [])
  }

  // ---------------------------------------------------------------------------------------------
  // Deposits
  // ---------------------------------------------------------------------------------------------

  /** hash(sender || nonce as 8 little-endian bytes). */
  function TransferId(chain: Chain, sender: Pubkey, nonce: nat): seq<byte> {
    (chain.hash)(sender + ToLE(8, nonce))
  }

  /** The sender's account as the handler sees it after its first-deposit initialization. */
  function SenderState(s: State, sender: Pubkey): UserState {
    if sender in s.users && s.users[sender].user != DEFAULT_KEY then s.users[sender] else UserState(sender, 0, 0)
  }

  function DepositGuards(chain: Chain, s: State, sender: Pubkey, p: DepositParams): Option<Error> {
    var user := SenderState(s, sender);
    Then(Check(p.transferId !in s.deposits, AccountInUse),
    Then(Check(!s.config.paused, BridgePaused),
    Then(Check(p.amount >= s.config.minDeposit, DepositTooSmall),
    Then(Check(p.amount <= s.config.maxDeposit, DepositTooLarge),
    Then(Check(p.recipientDcc != Zeros(32), InvalidDccAddress),
         Check(p.transferId == TransferId(chain, sender, user.nextNonce), InvalidTransferId))))))
  }

  function CounterGuards(s: State, sender: Pubkey, p: DepositParams): Option<Error> {
    var user := SenderState(s, sender);
    Check(&& s.config.globalNonce + 1 <= MAX_U64
          && user.nextNonce + 1 <= MAX_U64
          && user.totalDeposited + p.amount <= MAX_U64, ArithmeticOverflow)
  }

  function DepositError(chain: Chain, s: State, sender: Pubkey, p: DepositParams): Option<Error> {
    Then(DepositGuards(chain, s, sender, p),
    Then(Check(sender != chain.vaultKey, MissingSignature),
    Then(Check(s.config.totalLocked + p.amount <= MAX_U64, ArithmeticOverflow),
         CounterGuards(s, sender, p))))
  }

  function DepositSplError(chain: Chain, s: State, sender: Pubkey, p: DepositParams): Option<Error> {
    Then(DepositGuards(chain, s, sender, p), CounterGuards(s, sender, p))
  }

  /** What both kinds of deposit record: the sender's next nonce, the record and the global count. */
  function Recorded(s: State, clock: Clock, sender: Pubkey, p: DepositParams): State {
    var user := SenderState(s, sender);
    s.(config := s.config.(globalNonce := s.config.globalNonce + 1),
       users := s.users[sender := user.(nextNonce := user.nextNonce + 1, totalDeposited := user.totalDeposited + p.amount)],
       deposits := s.deposits[p.transferId := DepositRecord(p.transferId, sender, p.recipientDcc, p.amount,
                                                            user.nextNonce, clock.slot, clock.now, false)])
  }

  function DepositEffect(s: State, clock: Clock, sender: Pubkey, p: DepositParams): State {
    var r := Recorded(s, clock, sender, p);
    r.(config := r.config.(totalLocked := s.config.totalLocked + p.amount),
       vault := s.vault + p.amount,
       events := s.events + [Deposited(p.transferId, sender, p.recipientDcc, p.amount, SenderState(s, sender).nextNonce,
                                       clock.slot, clock.now, s.config.solanaChainId)])
  }

  function DepositSplEffect(s: State, clock: Clock, sender: Pubkey, splMint: Pubkey, p: DepositParams): State {
    Recorded(s, clock, sender, p).(
      events := s.events + [DepositedSpl(p.transferId, sender, p.recipientDcc, splMint, p.amount,
                                         SenderState(s, sender).nextNonce, clock.slot, clock.now, s.config.solanaChainId)])
  }

  // ---------------------------------------------------------------------------------------------
  // Unlocks
  // ---------------------------------------------------------------------------------------------

  predicate DistinctValidators(atts: seq<ValidatorAttestation>) {
    forall i, j :: 0 <= i < j < |atts| ==> atts[i].validator != atts[j].validator
  }

  /** Account data long enough for an entry, whose key is `validator` and whose active flag is set. */
  predicate ActiveEntryData(data: seq<byte>, validator: Pubkey) {
    |data| >= VALIDATOR_ENTRY_LEN && data[8..40] == validator && data[40] != 0
  }

  predicate Supplied(remaining: seq<seq<byte>>, validator: Pubkey) {
    exists k :: 0 <= k < |remaining| && ActiveEntryData(remaining[k], validator)
  }

  /** The attestation's validator is among the supplied active entries and its signature was introspected. */
  predicate Accepted(att: ValidatorAttestation, remaining: seq<seq<byte>>, preceding: seq<Ed25519.Instruction>,
                     message: seq<byte>)
  {
    && Supplied(remaining, att.validator)
    && Ed25519.Introspected(preceding, |preceding|, att.validator, message, att.signature)
  }

  /** The first attestation that is not accepted, and why; the count of accepted ones is a u8. */
  function AttestationError(atts: seq<ValidatorAttestation>, remaining: seq<seq<byte>>,
                            preceding: seq<Ed25519.Instruction>, message: seq<byte>): Option<Error>
  {
    if atts == [] then None else
      var front, att := atts[..|atts| - 1], atts[|atts| - 1];
      Then(AttestationError(front, remaining, preceding, message),
      Then(Check(Supplied(remaining, att.validator), ValidatorNotActive),
      Then(Check(Ed25519.Introspected(preceding, |preceding|, att.validator, message, att.signature), InvalidSignature),
           Check(|atts| <= MAX_U8, ArithmeticOverflow))))
  }

  function MessageOf(p: UnlockParams): seq<byte>
  {
    UnlockMessage(p.transferId, p.recipient, p.amount, p.burnTxHash, p.dccChainId, p.expiration)
  }

  function DailyWindow(c: Config): Window { Window(c.currentDailyOutflow, c.lastDailyReset) }

  function HourlyWindow(c: Config): Window { Window(c.currentHourlyOutflow, c.lastHourlyReset) }

  /** The daily breaker's verdict on paying `amount` now. */
  function DailyGuard(c: Config, now: int, amount: nat): Option<Error> {
    var count := Roll(DAY_SECONDS, DailyWindow(c), now).count + amount;
    Then(Check(count <= MAX_U64, ArithmeticOverflow), Check(count <= c.maxDailyOutflow, DailyOutflowExceeded))
  }

  /** The hourly breaker's verdict; a zero cap switches it off. */
  function HourlyGuard(c: Config, now: int, amount: nat): Option<Error> {
    var count := Roll(HOUR_SECONDS, HourlyWindow(c), now).count + amount;
    if c.maxHourlyOutflow == 0 then None
    else Then(Check(count <= MAX_U64, ArithmeticOverflow), Check(count <= c.maxHourlyOutflow, HourlyOutflowExceeded))
  }

  /** The request is new, unexpired, for this chain, within the size limit and to the named recipient. */
  function UnlockRequestError(s: State, clock: Clock, p: UnlockParams, recipient: Pubkey): Option<Error> {
    var c := s.config;
    Then(Check(p.transferId !in s.unlocks, AccountInUse),
    Then(Check(!c.paused, BridgePaused),
    Then(Check(p.dccChainId == c.dccChainId, ChainIdMismatch),
    Then(Check(clock.now < p.expiration, TransferExpired),
    Then(Check(p.amount <= c.maxUnlockAmount, UnlockAmountExceeded),
    Then(Check(|p.attestations| >= c.minValidators, InsufficientSignatures),
         Check(p.recipient == recipient, Unauthorized)))))))
  }

  /** Distinct validators, each accepted. */
  function QuorumError(p: UnlockParams, remaining: seq<seq<byte>>, preceding: seq<Ed25519.Instruction>): Option<Error> {
    Then(Check(DistinctValidators(p.attestations), DuplicateValidatorSignature),
         AttestationError(p.attestations, remaining, preceding, MessageOf(p)))
  }

  function OutflowError(c: Config, now: int, amount: nat): Option<Error> {
    Then(DailyGuard(c, now, amount), HourlyGuard(c, now, amount))
  }

  /** A large amount is scheduled, any other is paid at once. */
  function SettleError(s: State, now: int, amount: nat): Option<Error> {
    var c := s.config;
    if amount >= c.largeWithdrawalThreshold then
      Check(MIN_I64 <= now + c.largeWithdrawalDelay <= MAX_I64, ArithmeticOverflow)
    else
      Then(Check(s.vault >= amount, InsufficientVaultBalance),
           Check(c.totalUnlocked + amount <= MAX_U64, ArithmeticOverflow))
  }

  function UnlockError(s: State, clock: Clock, p: UnlockParams, recipient: Pubkey,
                       remaining: seq<seq<byte>>, preceding: seq<Ed25519.Instruction>): Option<Error>
  {
    Then(UnlockRequestError(s, clock, p, recipient),
    Then(QuorumError(p, remaining, preceding),
    Then(OutflowError(s.config, clock.now, p.amount),
         SettleError(s, clock.now, p.amount))))
  }

  /** The vault after paying `amount`; paying the vault itself moves nothing. */
  function Paid(chain: Chain, vault: nat, recipient: Pubkey, amount: nat): nat {
    if recipient == chain.vaultKey || amount > vault then vault else vault - amount
  }

  /**
   * The breakers after an accepted unlock: both are rolled, the hourly one counts the amount unless
   * it is off. The daily one counts a paid amount only; a scheduled one is counted when it is paid.
   */
  function RolledConfig(c: Config, now: int, amount: nat): Config {
    var daily := Roll(DAY_SECONDS, DailyWindow(c), now);
    var hourly := Roll(HOUR_SECONDS, HourlyWindow(c), now);
    c.(lastDailyReset := daily.last,
       currentDailyOutflow := daily.count,
       lastHourlyReset := hourly.last,
       currentHourlyOutflow := hourly.count + (if c.maxHourlyOutflow > 0 then amount else 0))
  }

  function SettleEffect(chain: Chain, s: State, clock: Clock, p: UnlockParams): State {
    var c := s.config;
    if p.amount >= c.largeWithdrawalThreshold then
      s.(unlocks := s.unlocks[p.transferId := UnlockRecord(p.transferId, p.recipient, p.amount, clock.now, p.burnTxHash,
                                                           false, clock.now + c.largeWithdrawalDelay)])
    else
      s.(config := c.(totalUnlocked := c.totalUnlocked + p.amount,
                      currentDailyOutflow := c.currentDailyOutflow + p.amount),
         unlocks := s.unlocks[p.transferId := UnlockRecord(p.transferId, p.recipient, p.amount, clock.now, p.burnTxHash, true, 0)],
         vault := Paid(chain, s.vault, p.recipient, p.amount),
         events := s.events + [Unlocked(p.transferId, p.recipient, p.amount, p.burnTxHash, clock.now, |p.attestations|)])
  }

  function UnlockEffect(chain: Chain, s: State, clock: Clock, p: UnlockParams): State {
    SettleEffect(chain, s.(config := RolledConfig(s.config, clock.now, p.amount)), clock, p)
  }

  function ExecuteScheduledUnlockError(s: State, clock: Clock, id: seq<byte>, recipient: Pubkey): Option<Error> {
    if id !in s.unlocks then Some(AccountNotInitialized) else
      var r, c := s.unlocks[id], s.config;
      Then(Check(!r.executed, UnlockAlreadyExecuted),
      Then(Check(r.scheduledTime > 0, InvalidConfig),
      Then(Check(recipient == r.recipient, Unauthorized),
      Then(Check(!c.paused, BridgePaused),
      Then(Check(clock.now >= r.scheduledTime, WithdrawalDelayNotElapsed),
      Then(Check(s.vault >= r.amount, InsufficientVaultBalance),
      Then(Check(c.totalUnlocked + r.amount <= MAX_U64, ArithmeticOverflow),
           DailyGuard(c, clock.now, r.amount))))))))
  }

  function ExecuteScheduledUnlockEffect(chain: Chain, s: State, clock: Clock, id: seq<byte>): State {
    if id !in s.unlocks then s else
    var r, c := s.unlocks[id], s.config;
    var daily := After(DAY_SECONDS, DailyWindow(c), Tick(clock.now, r.amount, c.maxDailyOutflow));
    s.(config := c.(totalUnlocked := c.totalUnlocked + r.amount,
                    currentDailyOutflow := daily.count,
                    lastDailyReset := daily.last),
       unlocks := s.unlocks[id := r.(executed := true)],
       vault := Paid(chain, s.vault, r.recipient, r.amount),
       events := s.events + [ScheduledUnlockExecuted(r.transferId, r.recipient, r.amount, clock.now)])
  }

  // ---------------------------------------------------------------------------------------------
  // Configuration
  // ---------------------------------------------------------------------------------------------

  function Or<T>(o: Option<T>, default: T): T { if o.Some? then o.value else default }

  predicate ValidDepositBounds(c: Config, u: UpdateConfigParams) {
    && (u.minDeposit.Some? ==> u.minDeposit.value > 0)
    && (u.maxDeposit.Some? ==> u.maxDeposit.value > Or(u.minDeposit, c.minDeposit))
  }

  /** The daily cap may only go down here. */
  predicate ValidOutflowBounds(c: Config, u: UpdateConfigParams) {
    && (u.maxDailyOutflow.Some? ==> 0 < u.maxDailyOutflow.value <= c.maxDailyOutflow)
    && (u.maxUnlockAmount.Some? ==> u.maxUnlockAmount.value > 0)
    && (u.requiredConfirmations.Some? ==> u.requiredConfirmations.value >= 32)
  }

  /** The validator minimum may only go up here. */
  predicate ValidThresholds(c: Config, u: UpdateConfigParams) {
    && (u.largeWithdrawalDelay.Some? ==> u.largeWithdrawalDelay.value >= 0)
    && (u.minValidators.Some? ==> 1 <= u.minValidators.value <= c.maxValidators && c.minValidators <= u.minValidators.value)
    && (u.maxHourlyOutflow.Some? ==> u.maxHourlyOutflow.value > 0)
  }

  function UpdateConfigError(s: State, signer: Pubkey, u: UpdateConfigParams): Option<Error> {
    Then(Check(signer == s.config.authority, Unauthorized),
         Check(ValidDepositBounds(s.config, u) && ValidOutflowBounds(s.config, u) && ValidThresholds(s.config, u), InvalidConfig))
  }

  function WithDepositBounds(c: Config, u: UpdateConfigParams): Config {
    c.(minDeposit := Or(u.minDeposit, c.minDeposit), maxDeposit := Or(u.maxDeposit, c.maxDeposit))
  }

  function WithOutflowBounds(c: Config, u: UpdateConfigParams): Config {
    c.(maxDailyOutflow := Or(u.maxDailyOutflow, c.maxDailyOutflow),
       maxUnlockAmount := Or(u.maxUnlockAmount, c.maxUnlockAmount),
       requiredConfirmations := Or(u.requiredConfirmations, c.requiredConfirmations))
  }

  function WithThresholds(c: Config, u: UpdateConfigParams): Config {
    c.(largeWithdrawalDelay := Or(u.largeWithdrawalDelay, c.largeWithdrawalDelay),
       largeWithdrawalThreshold := Or(u.largeWithdrawalThreshold, c.largeWithdrawalThreshold),
       minValidators := Or(u.minValidators, c.minValidators),
       maxHourlyOutflow := Or(u.maxHourlyOutflow, c.maxHourlyOutflow))
  }

  function UpdateConfigEffect(s: State, u: UpdateConfigParams): State {
    s.(config := WithThresholds(WithOutflowBounds(WithDepositBounds(s.config, u), u), u))
  }

  function RegisterValidatorError(s: State, signer: Pubkey, validator: Pubkey): Option<Error> {
    Then(Check(signer == s.config.authority, Unauthorized),
    Then(Check(validator !in s.validators, AccountInUse),
         Check(s.config.validatorCount < s.config.maxValidators, MaxValidatorsReached)))
  }

  function RegisterValidatorEffect(s: State, clock: Clock, validator: Pubkey): State {
    s.(config := s.config.(validatorCount := s.config.validatorCount + 1),
       validators := s.validators[validator := ValidatorEntry(validator, true, clock.now, 0, 0)])
  }

  function RemoveValidatorError(s: State, signer: Pubkey, validator: Pubkey): Option<Error> {
    Then(Check(signer == s.config.authority, Unauthorized),
    Then(Check(validator in s.validators, AccountNotInitialized),
         Check(s.config.validatorCount > s.config.minValidators, ValidatorRemovalBreachesMinimum)))
  }

  function RemoveValidatorEffect(s: State, validator: Pubkey): State {
    s.(config := s.config.(validatorCount := if s.config.validatorCount > 0 then s.config.validatorCount - 1 else 0),
       validators := s.validators - {validator})
  }

  function DelayFor(t: ConfigChangeType): int {
    match t
    case AuthorityTransfer => 48 * 3600
    case GuardianTransfer => 48 * 3600
    case MinValidatorsDecrease => 48 * 3600
    case MaxDailyOutflowIncrease => 24 * 3600
  }

  function NewMin(value: Bytes32): nat { value[0] }

  function NewOutflow(value: Bytes32): nat { FromLE(value[..8]) }

  function ProposeConfigChangeError(s: State, clock: Clock, signer: Pubkey, t: ConfigChangeType, value: Bytes32): Option<Error> {
    Then(Check(signer == s.config.authority, Unauthorized),
    Then(Check(t !in s.pending, AccountInUse),
    Then(Check(match t
               case AuthorityTransfer => value != Zeros(32)
               case GuardianTransfer => value != Zeros(32)
               case MinValidatorsDecrease => 1 <= NewMin(value) < s.config.minValidators
               case MaxDailyOutflowIncrease => NewOutflow(value) > s.config.maxDailyOutflow, InvalidConfig),
         Check(clock.now + DelayFor(t) <= MAX_I64, ArithmeticOverflow))))
  }

  function ProposeConfigChangeEffect(s: State, clock: Clock, signer: Pubkey, t: ConfigChangeType, value: Bytes32): State {
    s.(pending := s.pending[t := PendingConfigChange(t, value, clock.now, clock.now + DelayFor(t), signer)])
  }

  function ExecuteConfigChangeError(s: State, clock: Clock, t: ConfigChangeType): Option<Error> {
    if t !in s.pending then Some(AccountNotInitialized) else
      var change := s.pending[t];
      Then(Check(clock.now >= change.executeAfter, TimelockNotElapsed),
           Check(match t
                 case AuthorityTransfer => true
                 case GuardianTransfer => true
                 case MinValidatorsDecrease => 1 <= NewMin(change.newValue) <= s.config.maxValidators
                 case MaxDailyOutflowIncrease => NewOutflow(change.newValue) > 0, InvalidConfig))
  }

  function ExecuteConfigChangeEffect(s: State, t: ConfigChangeType): State {
    if t !in s.pending then s else
    var value, c := s.pending[t].newValue, s.config;
    s.(config := match t
                 case AuthorityTransfer => c.(authority := value)
                 case GuardianTransfer => c.(guardian := value)
                 case MinValidatorsDecrease => c.(minValidators := NewMin(value))
                 case MaxDailyOutflowIncrease => c.(maxDailyOutflow := NewOutflow(value)),
       pending := s.pending - {t})
  }

  function CancelConfigChangeError(s: State, signer: Pubkey, t: ConfigChangeType): Option<Error> {
    Then(Check(signer == s.config.authority, Unauthorized), Check(t in s.pending, AccountNotInitialized))
  }

  // ---------------------------------------------------------------------------------------------
  // The step
  // ---------------------------------------------------------------------------------------------

  function StepError(chain: Chain, s: State, clock: Clock, ins: Instruction): Option<Error> {
    match ins
    case Deposit(sender, p) => DepositError(chain, s, sender, p)
    case DepositSpl(sender, _, p) => DepositSplError(chain, s, sender, p)
    case Unlock(p, recipient, remaining, preceding) => UnlockError(s, clock, p, recipient, remaining, preceding)
    case ExecuteScheduledUnlock(id, recipient) => ExecuteScheduledUnlockError(s, clock, id, recipient)
    case EmergencyPause(signer) => Check(signer == s.config.authority || signer == s.config.guardian, Unauthorized)
    case EmergencyResume(signer) => Check(signer == s.config.authority, Unauthorized)
    case UpdateConfig(signer, u) => UpdateConfigError(s, signer, u)
    case RegisterValidator(signer, v) => RegisterValidatorError(s, signer, v)
    case RemoveValidator(signer, v) => RemoveValidatorError(s, signer, v)
    case ProposeConfigChange(signer, t, value) => ProposeConfigChangeError(s, clock, signer, t, value)
    case ExecuteConfigChange(t) => ExecuteConfigChangeError(s, clock, t)
    case CancelConfigChange(signer, t) => CancelConfigChangeError(s, signer, t)
    case Donate(_) => None
  }

  function StepEffect(chain: Chain, s: State, clock: Clock, ins: Instruction): State {
    match ins
    case Deposit(sender, p) => DepositEffect(s, clock, sender, p)
    case DepositSpl(sender, mint, p) => DepositSplEffect(s, clock, sender, mint, p)
    case Unlock(p, _, _, _) => UnlockEffect(chain, s, clock, p)
    case ExecuteScheduledUnlock(id, _) => ExecuteScheduledUnlockEffect(chain, s, clock, id)
    case EmergencyPause(_) => s.(config := s.config.(paused := true))
    case EmergencyResume(_) => s.(config := s.config.(paused := false))
    case UpdateConfig(_, u) => UpdateConfigEffect(s, u)
    case RegisterValidator(_, v) => RegisterValidatorEffect(s, clock, v)
    case RemoveValidator(_, v) => RemoveValidatorEffect(s, v)
    case ProposeConfigChange(signer, t, value) => ProposeConfigChangeEffect(s, clock, signer, t, value)
    case ExecuteConfigChange(t) => ExecuteConfigChangeEffect(s, t)
    case CancelConfigChange(_, t) => s.(pending := s.pending - {t})
    case Donate(lamports) => s.(vault := s.vault + lamports)
  }

  /** The state after a transaction: the effect, or the unchanged state when a guard failed. */
  function Apply(chain: Chain, s: State, clock: Clock, ins: Instruction): State {
    if StepError(chain, s, clock, ins).None? then StepEffect(chain, s, clock, ins) else s
  }
}
