/** The accounts of the Solana lock program and the instructions that change them. */
module LockState {
  import opened Bytes
  import opened Options
  import Ed25519

  type Pubkey = Bytes32

  /** Pubkey::default(): all zero bytes. */
  const DEFAULT_KEY: Pubkey := Zeros(32)

  const DAY_SECONDS: nat := 86400
  const HOUR_SECONDS: nat := 3600

  datatype Config = Config(
    authority: Pubkey,
    guardian: Pubkey,
    paused: bool,
    globalNonce: nat,
    totalLocked: nat,
    totalUnlocked: nat,
    validatorCount: nat,
    minValidators: nat,
    maxValidators: nat,
    minDeposit: nat,
    maxDeposit: nat,
    maxDailyOutflow: nat,
    currentDailyOutflow: nat,
    lastDailyReset: int,
    maxUnlockAmount: nat,
    requiredConfirmations: nat,
    largeWithdrawalDelay: int,
    largeWithdrawalThreshold: nat,
    dccChainId: nat,
    solanaChainId: nat,
    maxHourlyOutflow: nat,
    currentHourlyOutflow: nat,
    lastHourlyReset: int)

  datatype DepositRecord = DepositRecord(
    transferId: seq<byte>, sender: Pubkey, recipientDcc: Bytes32, amount: nat, nonce: nat, slot: nat,
    timestamp: int, processed: bool)

  datatype UserState = UserState(user: Pubkey, nextNonce: nat, totalDeposited: nat)

  datatype UnlockRecord = UnlockRecord(
    transferId: seq<byte>, recipient: Pubkey, amount: nat, timestamp: int, burnTxHash: Bytes32,
    executed: bool, scheduledTime: int)

  datatype ValidatorEntry = ValidatorEntry(
    pubkey: Pubkey, active: bool, registeredAt: int, attestationCount: nat, faultCount: nat)

  /** Serialized size of a ValidatorEntry account, discriminator included. */
  const VALIDATOR_ENTRY_LEN: nat := 8 + 32 + 1 + 8 + 8 + 8 + 1

  datatype ConfigChangeType = AuthorityTransfer | GuardianTransfer | MinValidatorsDecrease | MaxDailyOutflowIncrease

  datatype PendingConfigChange = PendingConfigChange(
    changeType: ConfigChangeType, newValue: Bytes32, proposedAt: int, executeAfter: int, proposer: Pubkey)

  /** The emitted events that move or promise money. */
  datatype Event =
    | Deposited(transferId: seq<byte>, sender: Pubkey, recipientDcc: Bytes32, amount: nat, nonce: nat,
                slot: nat, timestamp: int, chainId: nat)
    | DepositedSpl(transferId: seq<byte>, sender: Pubkey, recipientDcc: Bytes32, splMint: Pubkey, amount: nat,
                   nonce: nat, slot: nat, timestamp: int, chainId: nat)
    | Unlocked(transferId: seq<byte>, recipient: Pubkey, amount: nat, burnTxHash: Bytes32, timestamp: int,
               signatureCount: nat)
    | ScheduledUnlockExecuted(transferId: seq<byte>, recipient: Pubkey, amount: nat, timestamp: int)

  datatype State = State(
    config: Config,
    users: map<Pubkey, UserState>,
    deposits: map<seq<byte>, DepositRecord>,
    unlocks: map<seq<byte>, UnlockRecord>,
    validators: map<Pubkey, ValidatorEntry>,
    pending: map<ConfigChangeType, PendingConfigChange>,
    vault: nat,
    events: seq<Event>)

  datatype InitializeParams = InitializeParams(
    guardian: Pubkey, minValidators: nat, maxValidators: nat, minDeposit: nat, maxDeposit: nat,
    maxDailyOutflow: nat, maxUnlockAmount: nat, requiredConfirmations: nat, largeWithdrawalDelay: int,
    largeWithdrawalThreshold: nat, dccChainId: nat, solanaChainId: nat, maxHourlyOutflow: nat)

  datatype DepositParams = DepositParams(recipientDcc: Bytes32, amount: nat, transferId: seq<byte>)

  datatype ValidatorAttestation = ValidatorAttestation(validator: Pubkey, signature: Bytes64)

  datatype UnlockParams = UnlockParams(
    transferId: seq<byte>, recipient: Pubkey, amount: nat, burnTxHash: Bytes32, dccChainId: nat,
    expiration: i64, attestations: seq<ValidatorAttestation>)

  datatype UpdateConfigParams = UpdateConfigParams(
    minDeposit: Option<nat>, maxDeposit: Option<nat>, maxDailyOutflow: Option<nat>, maxUnlockAmount: Option<nat>,
    requiredConfirmations: Option<nat>, largeWithdrawalDelay: Option<int>, largeWithdrawalThreshold: Option<nat>,
    minValidators: Option<nat>, maxHourlyOutflow: Option<nat>)

  /**
   * An instruction with its signer and the accounts and data it is given. `remaining` holds the raw
   * data of the extra accounts of an unlock, `preceding` the instructions before it in its
   * transaction. A donation is a plain transfer into the vault by anybody.
   */
  datatype Instruction =
    | Deposit(sender: Pubkey, deposit: DepositParams)
    | DepositSpl(sender: Pubkey, splMint: Pubkey, deposit: DepositParams)
    | Unlock(unlock: UnlockParams, recipient: Pubkey, remaining: seq<seq<byte>>, preceding: seq<Ed25519.Instruction>)
    | ExecuteScheduledUnlock(record: seq<byte>, recipient: Pubkey)
    | EmergencyPause(signer: Pubkey)
    | EmergencyResume(signer: Pubkey)
    | UpdateConfig(signer: Pubkey, update: UpdateConfigParams)
    | RegisterValidator(signer: Pubkey, validator: Pubkey)
    | RemoveValidator(signer: Pubkey, validator: Pubkey)
    | ProposeConfigChange(signer: Pubkey, changeType: ConfigChangeType, newValue: Bytes32)
    | ExecuteConfigChange(changeType: ConfigChangeType)
    | CancelConfigChange(signer: Pubkey, changeType: ConfigChangeType)
    | Donate(lamports: nat)

  datatype Clock = Clock(now: int, slot: nat)

  /** What the program takes as given: the hash function and the address of its vault account. */
  datatype Chain = Chain(hash: seq<byte> -> seq<byte>, vaultKey: Pubkey)

  datatype Error =
    | BridgePaused | DepositTooSmall | DepositTooLarge | InsufficientSignatures | InvalidSignature
    | ValidatorNotActive | DuplicateValidatorSignature | DailyOutflowExceeded | UnlockAmountExceeded
    | WithdrawalDelayNotElapsed | InsufficientVaultBalance | ArithmeticOverflow | Unauthorized
    | InvalidDccAddress | MaxValidatorsReached | ValidatorRemovalBreachesMinimum | ChainIdMismatch
    | TransferExpired | UnlockAlreadyExecuted | InvalidConfig | InvalidTransferId | TimelockNotElapsed
    | HourlyOutflowExceeded
    | AccountInUse          // `init` on an account that exists
    | AccountNotInitialized // an account that is read does not exist
    | MissingSignature      // a program-derived address cannot sign
}
