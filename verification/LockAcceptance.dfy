/**
 * Which transactions the lock program accepts, over the fields of its accounts alone, and what a refusal
 * means: the conditions of each instruction spelled out, in the order in which their errors take precedence.
 */
module LockAcceptance {
  import opened Bytes
  import opened Options
  import opened LockState
  import opened LockSpec
  import opened LockRuns
  import Ed25519
  import LockDeposits
  import LockQuorum

  /** Initialization passes its checks exactly with parameters in order, and fails them with one error. */
  lemma InitializationExactly(p: InitializeParams)
    ensures InitializeError(p)
         == if && 1 <= p.minValidators <= p.maxValidators <= 20 && 0 < p.minDeposit < p.maxDeposit
               && 0 < p.maxDailyOutflow && 32 <= p.requiredConfirmations then None
            else Some(InvalidConfig)
    ensures InitializeError(p).None? <==> ValidInitialization(p)
  {
  }

  // ---------------------------------------------------------------------------------------------
  // Deposits
  // ---------------------------------------------------------------------------------------------

  /** The nonce a sender's next deposit takes; the all-zero key starts anew each time. */
  function NextNonce(s: State, sender: Pubkey): nat {
    if sender in s.users && s.users[sender].user != DEFAULT_KEY then s.users[sender].nextNonce else 0
  }

  function DepositedSoFar(s: State, sender: Pubkey): nat {
    if sender in s.users && s.users[sender].user != DEFAULT_KEY then s.users[sender].totalDeposited else 0
  }

  /** Unpaused, within the bounds, to somebody, under the id made of sender and nonce. */
  predicate DepositInOrder(chain: Chain, s: State, sender: Pubkey, p: DepositParams) {
    && !s.config.paused
    && s.config.minDeposit <= p.amount <= s.config.maxDeposit
    && p.recipientDcc != DEFAULT_KEY
    && p.transferId == (chain.hash)(sender + ToLE(8, NextNonce(s, sender)))
  }

  predicate CountersHaveRoom(s: State, sender: Pubkey, amount: nat) {
    && s.config.globalNonce < MAX_U64 && NextNonce(s, sender) < MAX_U64
    && DepositedSoFar(s, sender) + amount <= MAX_U64
  }

  /** What a native deposit needs besides: a sender that can sign, and room in the total. */
  predicate NativeInOrder(chain: Chain, s: State, sender: Pubkey, amount: nat) {
    sender != chain.vaultKey && s.config.totalLocked + amount <= MAX_U64
  }

  predicate MayDeposit(chain: Chain, s: State, ins: Instruction)
    requires ins.Deposit? || ins.DepositSpl?
  {
    && DepositInOrder(chain, s, ins.sender, ins.deposit) && ins.deposit.transferId !in s.deposits
    && CountersHaveRoom(s, ins.sender, ins.deposit.amount)
    && (ins.Deposit? ==> NativeInOrder(chain, s, ins.sender, ins.deposit.amount))
  }

  lemma DepositExactly(chain: Chain, s: State, clock: Clock, ins: Instruction)
    requires ins.Deposit? || ins.DepositSpl?
    ensures StepError(chain, s, clock, ins).None? <==> MayDeposit(chain, s, ins)
  {
    hide UnlockError, ExecuteScheduledUnlockError, UpdateConfigError, RegisterValidatorError, RemoveValidatorError,
         ProposeConfigChangeError, ExecuteConfigChangeError, CancelConfigChangeError, ToLE;
  }

  /** What a deposit's error means: the check it names failed, and those before it passed. */
  predicate DepositRefused(chain: Chain, s: State, ins: Instruction, e: Error)
    requires ins.Deposit? || ins.DepositSpl?
  {
    var p, c := ins.deposit, s.config;
    match e
    case AccountInUse => p.transferId in s.deposits
    case BridgePaused => p.transferId !in s.deposits && c.paused
    case DepositTooSmall => p.transferId !in s.deposits && !c.paused && p.amount < c.minDeposit
    case DepositTooLarge =>
      p.transferId !in s.deposits && !c.paused && c.minDeposit <= p.amount && c.maxDeposit < p.amount
    case InvalidDccAddress =>
      p.transferId !in s.deposits && !c.paused && c.minDeposit <= p.amount <= c.maxDeposit && p.recipientDcc == DEFAULT_KEY
    case InvalidTransferId =>
      && p.transferId !in s.deposits && !c.paused && c.minDeposit <= p.amount <= c.maxDeposit && p.recipientDcc != DEFAULT_KEY
      && p.transferId != (chain.hash)(ins.sender + ToLE(8, NextNonce(s, ins.sender)))
    case MissingSignature =>
      p.transferId !in s.deposits && DepositInOrder(chain, s, ins.sender, p) && ins.Deposit? && ins.sender == chain.vaultKey
    case ArithmeticOverflow =>
      && p.transferId !in s.deposits && DepositInOrder(chain, s, ins.sender, p)
      && (ins.Deposit? ==> ins.sender != chain.vaultKey)
      && !(CountersHaveRoom(s, ins.sender, p.amount) && (ins.Deposit? ==> c.totalLocked + p.amount <= MAX_U64))
    case _ => false
  }

  lemma OrderRefusal(chain: Chain, s: State, sender: Pubkey, p: DepositParams, e: Error)
    ensures var ins := DepositSpl(sender, DEFAULT_KEY, p);
      DepositGuards(chain, s, sender, p) == Some(e)
      <==> DepositRefused(chain, s, ins, e) && !(p.transferId !in s.deposits && DepositInOrder(chain, s, sender, p))
    ensures DepositGuards(chain, s, sender, p).None? <==> p.transferId !in s.deposits && DepositInOrder(chain, s, sender, p)
  {
    hide ToLE, CountersHaveRoom;
  }

  lemma CountersExactly(s: State, sender: Pubkey, p: DepositParams)
    ensures CounterGuards(s, sender, p) == if CountersHaveRoom(s, sender, p.amount) then None else Some(ArithmeticOverflow)
  {
  }

  /** A deposit is refused with an error if and only if that is the error of the first check that fails. */
  lemma DepositRefusal(chain: Chain, s: State, clock: Clock, ins: Instruction, e: Error)
    requires ins.Deposit? || ins.DepositSpl?
    ensures StepError(chain, s, clock, ins) == Some(e) <==> DepositRefused(chain, s, ins, e)
  {
    hide DepositGuards, CounterGuards, CountersHaveRoom, UnlockError, ExecuteScheduledUnlockError, UpdateConfigError,
         RegisterValidatorError, RemoveValidatorError, ProposeConfigChangeError, ExecuteConfigChangeError,
         CancelConfigChangeError, ToLE;
    OrderRefusal(chain, s, ins.sender, ins.deposit, e);
    CountersExactly(s, ins.sender, ins.deposit);
  }

  /**
   * In every state of every run a deposit is accepted if and only if it is in order and the counters have
   * room; that the account of its record is free need not be said, but for the all-zero key.
   */
  lemma DepositsAccepted(chain: Chain, s: State, start: int, txs: seq<Transaction>, clock: Clock, ins: Instruction)
    requires Injective(chain.hash) && Initial(s, start) && (ins.Deposit? || ins.DepositSpl?)
    ensures var t := RunOf(chain, s, txs);
      StepError(chain, t, clock, ins).None?
      <==> && DepositInOrder(chain, t, ins.sender, ins.deposit) && CountersHaveRoom(t, ins.sender, ins.deposit.amount)
           && (ins.Deposit? ==> NativeInOrder(chain, t, ins.sender, ins.deposit.amount))
           && (ins.sender == DEFAULT_KEY ==> ins.sender !in t.users)
  {
    hide StepError, RunOf, CountersHaveRoom, LockDeposits.DepositInv;
    var t := RunOf(chain, s, txs);
    DepositExactly(chain, t, clock, ins);
    LockDeposits.GapFreeNonces(chain, s, start, txs);
    LockDeposits.NextIdUnused(chain, t, ins.sender);
  }

  // ---------------------------------------------------------------------------------------------
  // Unlocks
  // ---------------------------------------------------------------------------------------------

  /** New, in time, for this chain, within the limit, to the recipient supplied. */
  predicate UnlockInOrder(s: State, clock: Clock, ins: Instruction)
    requires ins.Unlock?
  {
    var p, c := ins.unlock, s.config;
    && p.transferId !in s.unlocks && !c.paused
    && p.dccChainId == c.dccChainId
    && clock.now < p.expiration
    && p.amount <= c.maxUnlockAmount
    && p.recipient == ins.recipient
  }

  /** One of the supplied accounts is long enough for an entry, holds the key, and is active. */
  predicate EntrySupplied(remaining: seq<seq<byte>>, v: Pubkey) {
    exists k :: 0 <= k < |remaining| && |remaining[k]| >= 66 && remaining[k][8..40] == v && remaining[k][40] != 0
  }

  /** Enough different validators, each supplied as an active entry, with an introspected signature. */
  predicate QuorumInOrder(s: State, ins: Instruction)
    requires ins.Unlock?
  {
    var atts := ins.unlock.attestations;
    && s.config.minValidators <= |atts| <= 255
    && (forall i, j :: 0 <= i < j < |atts| ==> atts[i].validator != atts[j].validator)
    && forall i :: 0 <= i < |atts| ==>
         && EntrySupplied(ins.remaining, atts[i].validator)
         && Ed25519.Introspected(ins.preceding, |ins.preceding|, atts[i].validator, MessageOf(ins.unlock), atts[i].signature)
  }

  lemma SuppliedExactly(remaining: seq<seq<byte>>, v: Pubkey)
    ensures Supplied(remaining, v) <==> EntrySupplied(remaining, v)
  {
    if Supplied(remaining, v) {
      var k :| 0 <= k < |remaining| && ActiveEntryData(remaining[k], v);
      assert remaining[k][8..40] == v;
    }
    if EntrySupplied(remaining, v) {
      var k :| 0 <= k < |remaining| && |remaining[k]| >= 66 && remaining[k][8..40] == v && remaining[k][40] != 0;
      assert ActiveEntryData(remaining[k], v);
    }
  }

  /** What is counted once the amount is, in a window that may just have passed. */
  function CountedWith(now: int, last: int, size: int, count: nat, amount: nat): nat {
    amount + if now - last >= size then 0 else count
  }

  predicate DailyRoom(c: Config, now: int, amount: nat) {
    CountedWith(now, c.lastDailyReset, 86400, c.currentDailyOutflow, amount) <= c.maxDailyOutflow
    && CountedWith(now, c.lastDailyReset, 86400, c.currentDailyOutflow, amount) <= MAX_U64
  }

  predicate HourlyRoom(c: Config, now: int, amount: nat) {
    c.maxHourlyOutflow > 0 ==>
      && CountedWith(now, c.lastHourlyReset, 3600, c.currentHourlyOutflow, amount) <= c.maxHourlyOutflow
      && CountedWith(now, c.lastHourlyReset, 3600, c.currentHourlyOutflow, amount) <= MAX_U64
  }

  /** A large amount can be scheduled, any other paid. */
  predicate Settles(s: State, now: int, amount: nat) {
    if amount >= s.config.largeWithdrawalThreshold then MIN_I64 <= now + s.config.largeWithdrawalDelay <= MAX_I64
    else amount <= s.vault && s.config.totalUnlocked + amount <= MAX_U64
  }

  predicate MayUnlock(s: State, clock: Clock, ins: Instruction)
    requires ins.Unlock?
  {
    && UnlockInOrder(s, clock, ins) && QuorumInOrder(s, ins)
    && DailyRoom(s.config, clock.now, ins.unlock.amount) && HourlyRoom(s.config, clock.now, ins.unlock.amount)
    && Settles(s, clock.now, ins.unlock.amount)
  }

  lemma QuorumExactly(s: State, ins: Instruction)
    requires ins.Unlock?
    ensures QuorumInOrder(s, ins)
       <==> QuorumError(ins.unlock, ins.remaining, ins.preceding).None? && |ins.unlock.attestations| >= s.config.minValidators
  {
    hide MessageOf, Supplied, EntrySupplied, Ed25519.Introspected;
    forall v {
      SuppliedExactly(ins.remaining, v);
    }
    LockQuorum.NoAttestationError(ins.unlock.attestations, ins.remaining, ins.preceding, MessageOf(ins.unlock));
  }

  lemma RequestExactly(s: State, clock: Clock, ins: Instruction)
    requires ins.Unlock?
    ensures UnlockInOrder(s, clock, ins) && |ins.unlock.attestations| >= s.config.minValidators
       <==> UnlockRequestError(s, clock, ins.unlock, ins.recipient).None?
  {
  }

  lemma OutflowExactly(c: Config, now: int, amount: nat)
    ensures DailyRoom(c, now, amount) <==> DailyGuard(c, now, amount).None?
    ensures DailyRoom(c, now, amount) && HourlyRoom(c, now, amount) <==> OutflowError(c, now, amount).None?
  {
  }

  /** An unlock is accepted if and only if request, quorum, both breakers and the settlement are in order. */
  lemma UnlockExactly(chain: Chain, s: State, clock: Clock, ins: Instruction)
    requires ins.Unlock?
    ensures StepError(chain, s, clock, ins).None? <==> MayUnlock(s, clock, ins)
  {
    hide UnlockInOrder, QuorumInOrder, DailyRoom, HourlyRoom, UnlockRequestError, QuorumError, OutflowError, DepositError,
         DepositSplError, ExecuteScheduledUnlockError, UpdateConfigError, RegisterValidatorError, RemoveValidatorError,
         ProposeConfigChangeError, ExecuteConfigChangeError, CancelConfigChangeError;
    RequestExactly(s, clock, ins);
    QuorumExactly(s, ins);
    OutflowExactly(s.config, clock.now, ins.unlock.amount);
  }

  /** What an error of the request checks means. */
  predicate RequestRefused(s: State, clock: Clock, ins: Instruction, e: Error)
    requires ins.Unlock?
  {
    var p, c := ins.unlock, s.config;
    var unseen := p.transferId !in s.unlocks;
    match e
    case AccountInUse => !unseen
    case BridgePaused => unseen && c.paused
    case ChainIdMismatch => unseen && !c.paused && p.dccChainId != c.dccChainId
    case TransferExpired => unseen && !c.paused && p.dccChainId == c.dccChainId && p.expiration <= clock.now
    case UnlockAmountExceeded =>
      unseen && !c.paused && p.dccChainId == c.dccChainId && clock.now < p.expiration && c.maxUnlockAmount < p.amount
    case InsufficientSignatures =>
      && unseen && !c.paused && p.dccChainId == c.dccChainId && clock.now < p.expiration && p.amount <= c.maxUnlockAmount
      && |p.attestations| < c.minValidators
    case Unauthorized =>
      && unseen && !c.paused && p.dccChainId == c.dccChainId && clock.now < p.expiration && p.amount <= c.maxUnlockAmount
      && c.minValidators <= |p.attestations| && p.recipient != ins.recipient
    case _ => false
  }

  /** Attestation i is the first that is not accepted, for the reason e; the count of accepted ones is a u8. */
  predicate FirstFailure(ins: Instruction, i: nat, e: Error)
    requires ins.Unlock? && i < |ins.unlock.attestations|
  {
    var atts, message := ins.unlock.attestations, MessageOf(ins.unlock);
    && i <= 255
    && (forall j :: 0 <= j < i ==> Accepted(atts[j], ins.remaining, ins.preceding, message))
    && if !EntrySupplied(ins.remaining, atts[i].validator) then e == ValidatorNotActive
       else if !Ed25519.Introspected(ins.preceding, |ins.preceding|, atts[i].validator, message, atts[i].signature) then
         e == InvalidSignature
       else i == 255 && e == ArithmeticOverflow
  }

  predicate AttestationRefused(ins: Instruction, e: Error)
    requires ins.Unlock?
  {
    exists i: nat :: i < |ins.unlock.attestations| && FirstFailure(ins, i, e)
  }

  /** The loop's error is that of the first attestation it does not accept. */
  lemma {:induction false} LoopRefusal(atts: seq<ValidatorAttestation>, ins: Instruction, e: Error)
    requires ins.Unlock? && atts <= ins.unlock.attestations
    ensures AttestationError(atts, ins.remaining, ins.preceding, MessageOf(ins.unlock)) == Some(e)
       <==> exists i: nat :: i < |atts| && FirstFailure(ins, i, e)
  {
    hide MessageOf, Supplied, EntrySupplied, Ed25519.Introspected;
    forall v {
      SuppliedExactly(ins.remaining, v);
    }
    if atts != [] {
      var front, message := atts[..|atts| - 1], MessageOf(ins.unlock);
      LoopRefusal(front, ins, e);
      LockQuorum.NoAttestationError(front, ins.remaining, ins.preceding, message);
      var error := AttestationError(front, ins.remaining, ins.preceding, message);
      if error.Some? {
        LoopRefusal(front, ins, error.value);
        var i: nat :| i < |front| && FirstFailure(ins, i, error.value);
        assert !Accepted(ins.unlock.attestations[i], ins.remaining, ins.preceding, message) || i == 255;
      }
      if FirstFailure(ins, |front|, e) {
        assert forall i :: 0 <= i < |front| ==> front[i] == ins.unlock.attestations[i];
      }
    }
  }

  /** The daily breaker speaks first, and of each an overflow before the cap. */
  predicate OutflowRefused(c: Config, now: int, amount: nat, e: Error) {
    var daily := CountedWith(now, c.lastDailyReset, 86400, c.currentDailyOutflow, amount);
    var hourly := CountedWith(now, c.lastHourlyReset, 3600, c.currentHourlyOutflow, amount);
    if daily > MAX_U64 then e == ArithmeticOverflow
    else if daily > c.maxDailyOutflow then e == DailyOutflowExceeded
    else c.maxHourlyOutflow > 0
         && if hourly > MAX_U64 then e == ArithmeticOverflow else hourly > c.maxHourlyOutflow && e == HourlyOutflowExceeded
  }

  /** What an unlock's error means: the check it names failed, and those before it passed. */
  predicate UnlockRefused(s: State, clock: Clock, ins: Instruction, e: Error)
    requires ins.Unlock?
  {
    var c, now, amount, atts := s.config, clock.now, ins.unlock.amount, ins.unlock.attestations;
    if !UnlockInOrder(s, clock, ins) || |atts| < c.minValidators then RequestRefused(s, clock, ins, e)
    else if exists i, j :: 0 <= i < j < |atts| && atts[i].validator == atts[j].validator then e == DuplicateValidatorSignature
    else if !QuorumInOrder(s, ins) then AttestationRefused(ins, e)
    else if !(DailyRoom(c, now, amount) && HourlyRoom(c, now, amount)) then OutflowRefused(c, now, amount, e)
    else if amount < c.largeWithdrawalThreshold && amount > s.vault then e == InsufficientVaultBalance
    else !Settles(s, now, amount) && e == ArithmeticOverflow
  }

  lemma RequestRefusal(s: State, clock: Clock, ins: Instruction, e: Error)
    requires ins.Unlock?
    ensures UnlockRequestError(s, clock, ins.unlock, ins.recipient) == Some(e) <==> RequestRefused(s, clock, ins, e)
  {
  }

  lemma OutflowRefusal(c: Config, now: int, amount: nat, e: Error)
    ensures OutflowError(c, now, amount) == Some(e) <==> OutflowRefused(c, now, amount, e)
  {
  }

  lemma SettleRefusal(s: State, now: int, amount: nat, e: Error)
    ensures Settles(s, now, amount) <==> SettleError(s, now, amount).None?
    ensures SettleError(s, now, amount) == Some(e)
       <==> if amount < s.config.largeWithdrawalThreshold && amount > s.vault then e == InsufficientVaultBalance
            else !Settles(s, now, amount) && e == ArithmeticOverflow
  {
  }

  lemma LoopRefused(ins: Instruction, e: Error)
    requires ins.Unlock?
    ensures AttestationRefused(ins, e)
       <==> AttestationError(ins.unlock.attestations, ins.remaining, ins.preceding, MessageOf(ins.unlock)) == Some(e)
  {
    hide AttestationError, FirstFailure;
    LoopRefusal(ins.unlock.attestations, ins, e);
  }

  /** An unlock is refused with an error if and only if that is the error of the first check that fails. */
  lemma UnlockRefusal(chain: Chain, s: State, clock: Clock, ins: Instruction, e: Error)
    requires ins.Unlock?
    ensures StepError(chain, s, clock, ins) == Some(e) <==> UnlockRefused(s, clock, ins, e)
  {
    hide UnlockInOrder, QuorumInOrder, UnlockRequestError, AttestationError, OutflowError, SettleError, RequestRefused,
         AttestationRefused, OutflowRefused, DailyRoom, HourlyRoom, Settles, DepositError, DepositSplError,
         ExecuteScheduledUnlockError, UpdateConfigError, RegisterValidatorError, RemoveValidatorError,
         ProposeConfigChangeError, ExecuteConfigChangeError, CancelConfigChangeError, MessageOf;
    var amount := ins.unlock.amount;
    RequestExactly(s, clock, ins);
    RequestRefusal(s, clock, ins, e);
    QuorumExactly(s, ins);
    LoopRefused(ins, e);
    OutflowExactly(s.config, clock.now, amount);
    OutflowRefusal(s.config, clock.now, amount, e);
    SettleRefusal(s, clock.now, amount, e);
  }

  // ---------------------------------------------------------------------------------------------
  // Scheduled unlocks
  // ---------------------------------------------------------------------------------------------

  /** A scheduled record that is due, not executed, covered by vault and daily breaker, paid to its recipient. */
  predicate MayExecute(s: State, clock: Clock, ins: Instruction)
    requires ins.ExecuteScheduledUnlock?
  {
    && ins.record in s.unlocks && !s.config.paused
    && var r := s.unlocks[ins.record];
    && !r.executed && 0 < r.scheduledTime <= clock.now && r.recipient == ins.recipient
    && r.amount <= s.vault && s.config.totalUnlocked + r.amount <= MAX_U64
    && DailyRoom(s.config, clock.now, r.amount)
  }

  lemma ExecutionExactly(chain: Chain, s: State, clock: Clock, ins: Instruction)
    requires ins.ExecuteScheduledUnlock?
    ensures StepError(chain, s, clock, ins).None? <==> MayExecute(s, clock, ins)
  {
    hide UnlockError, DepositError, DepositSplError, UpdateConfigError, RegisterValidatorError, RemoveValidatorError,
         ProposeConfigChangeError, ExecuteConfigChangeError, CancelConfigChangeError;
  }

  predicate ExecutionRefused(s: State, clock: Clock, ins: Instruction, e: Error)
    requires ins.ExecuteScheduledUnlock?
  {
    if ins.record !in s.unlocks then e == AccountNotInitialized
    else
      var r, c := s.unlocks[ins.record], s.config;
      var daily := CountedWith(clock.now, c.lastDailyReset, 86400, c.currentDailyOutflow, r.amount);
      if r.executed then e == UnlockAlreadyExecuted
      else if r.scheduledTime <= 0 then e == InvalidConfig
      else if r.recipient != ins.recipient then e == Unauthorized
      else if c.paused then e == BridgePaused
      else if clock.now < r.scheduledTime then e == WithdrawalDelayNotElapsed
      else if s.vault < r.amount then e == InsufficientVaultBalance
      else if c.totalUnlocked + r.amount > MAX_U64 || daily > MAX_U64 then e == ArithmeticOverflow
      else daily > c.maxDailyOutflow && e == DailyOutflowExceeded
  }

  lemma RecordRefusal(s: State, clock: Clock, ins: Instruction, e: Error)
    requires ins.ExecuteScheduledUnlock?
    ensures ExecuteScheduledUnlockError(s, clock, ins.record, ins.recipient) == Some(e) <==> ExecutionRefused(s, clock, ins, e)
  {
  }

  lemma ExecutionRefusal(chain: Chain, s: State, clock: Clock, ins: Instruction, e: Error)
    requires ins.ExecuteScheduledUnlock?
    ensures StepError(chain, s, clock, ins) == Some(e) <==> ExecutionRefused(s, clock, ins, e)
  {
    hide ExecutionRefused, ExecuteScheduledUnlockError, UnlockError, DepositError, DepositSplError, UpdateConfigError,
         RegisterValidatorError, RemoveValidatorError, ProposeConfigChangeError, ExecuteConfigChangeError,
         CancelConfigChangeError;
    RecordRefusal(s, clock, ins, e);
  }

  // ---------------------------------------------------------------------------------------------
  // Administration
  // ---------------------------------------------------------------------------------------------

  /** The first eight bytes of a change's value as a number, lowest first. */
  function FirstEight(value: Bytes32): nat { FromLE(value[..8]) }

  /** What a direct update may ask for. */
  predicate MayAsk(c: Config, u: UpdateConfigParams) {
    && (u.minDeposit.Some? ==> u.minDeposit.value > 0)
    && (u.maxDeposit.Some? ==> u.maxDeposit.value > if u.minDeposit.Some? then u.minDeposit.value else c.minDeposit)
    && (u.maxDailyOutflow.Some? ==> 0 < u.maxDailyOutflow.value <= c.maxDailyOutflow)
    && (u.maxUnlockAmount.Some? ==> u.maxUnlockAmount.value > 0)
    && (u.requiredConfirmations.Some? ==> u.requiredConfirmations.value >= 32)
    && (u.largeWithdrawalDelay.Some? ==> u.largeWithdrawalDelay.value >= 0)
    && (u.minValidators.Some? ==> 1 <= u.minValidators.value && c.minValidators <= u.minValidators.value <= c.maxValidators)
    && (u.maxHourlyOutflow.Some? ==> u.maxHourlyOutflow.value > 0)
  }

  /** What may be proposed: another key, fewer validators but one at least, a higher cap. */
  predicate MayPropose(c: Config, t: ConfigChangeType, value: Bytes32) {
    match t
    case AuthorityTransfer => value != DEFAULT_KEY
    case GuardianTransfer => value != DEFAULT_KEY
    case MinValidatorsDecrease => 0 < value[0] < c.minValidators
    case MaxDailyOutflowIncrease => c.maxDailyOutflow < FirstEight(value)
  }

  /** What is checked again at execution. */
  predicate StillPossible(c: Config, t: ConfigChangeType, value: Bytes32) {
    match t
    case AuthorityTransfer => true
    case GuardianTransfer => true
    case MinValidatorsDecrease => 0 < value[0] <= c.maxValidators
    case MaxDailyOutflowIncrease => 0 < FirstEight(value)
  }

  /** Two days, but one for the daily cap. */
  function DelaySeconds(t: ConfigChangeType): int { if t.MaxDailyOutflowIncrease? then 86400 else 172800 }

  predicate MayAdminister(s: State, clock: Clock, ins: Instruction) {
    var c := s.config;
    match ins
    case EmergencyPause(signer) => signer == c.authority || signer == c.guardian
    case EmergencyResume(signer) => signer == c.authority
    case UpdateConfig(signer, u) => signer == c.authority && MayAsk(c, u)
    case RegisterValidator(signer, v) => signer == c.authority && v !in s.validators && c.validatorCount < c.maxValidators
    case RemoveValidator(signer, v) => signer == c.authority && v in s.validators && c.minValidators < c.validatorCount
    case ProposeConfigChange(signer, t, value) =>
      signer == c.authority && t !in s.pending && MayPropose(c, t, value) && clock.now + DelaySeconds(t) <= MAX_I64
    case ExecuteConfigChange(t) =>
      t in s.pending && s.pending[t].executeAfter <= clock.now && StillPossible(c, t, s.pending[t].newValue)
    case CancelConfigChange(signer, t) => signer == c.authority && t in s.pending
    case Donate(_) => true
    case _ => false
  }

  predicate Administers(ins: Instruction) {
    !ins.Deposit? && !ins.DepositSpl? && !ins.Unlock? && !ins.ExecuteScheduledUnlock?
  }

  lemma AdministrationExactly(chain: Chain, s: State, clock: Clock, ins: Instruction)
    requires Administers(ins)
    ensures StepError(chain, s, clock, ins).None? <==> MayAdminister(s, clock, ins)
  {
    hide UnlockError, DepositError, DepositSplError, ExecuteScheduledUnlockError, FromLE;
  }

  predicate AdministrationRefused(s: State, clock: Clock, ins: Instruction, e: Error) {
    var c := s.config;
    match ins
    case EmergencyPause(_) => !MayAdminister(s, clock, ins) && e == Unauthorized
    case EmergencyResume(_) => !MayAdminister(s, clock, ins) && e == Unauthorized
    case UpdateConfig(signer, u) => if signer != c.authority then e == Unauthorized else !MayAsk(c, u) && e == InvalidConfig
    case RegisterValidator(signer, v) =>
      if signer != c.authority then e == Unauthorized else if v in s.validators then e == AccountInUse
      else c.validatorCount >= c.maxValidators && e == MaxValidatorsReached
    case RemoveValidator(signer, v) =>
      if signer != c.authority then e == Unauthorized else if v !in s.validators then e == AccountNotInitialized
      else c.validatorCount <= c.minValidators && e == ValidatorRemovalBreachesMinimum
    case ProposeConfigChange(signer, t, value) =>
      if signer != c.authority then e == Unauthorized else if t in s.pending then e == AccountInUse
      else if !MayPropose(c, t, value) then e == InvalidConfig
      else clock.now + DelaySeconds(t) > MAX_I64 && e == ArithmeticOverflow
    case ExecuteConfigChange(t) =>
      if t !in s.pending then e == AccountNotInitialized
      else if clock.now < s.pending[t].executeAfter then e == TimelockNotElapsed
      else !StillPossible(c, t, s.pending[t].newValue) && e == InvalidConfig
    case CancelConfigChange(signer, t) =>
      if signer != c.authority then e == Unauthorized else t !in s.pending && e == AccountNotInitialized
    case _ => false
  }

  lemma AdministrationRefusal(chain: Chain, s: State, clock: Clock, ins: Instruction, e: Error)
    requires Administers(ins)
    ensures StepError(chain, s, clock, ins) == Some(e) <==> AdministrationRefused(s, clock, ins, e)
  {
    hide UnlockError, DepositError, DepositSplError, ExecuteScheduledUnlockError, FromLE;
  }
}
