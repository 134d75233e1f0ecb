# The SOL–DCC bridge, verified

A Dafny model of a two-chain bridge: the Solana program that locks lamports and pays them out again, the
DecentralChain controller (a RIDE script) that mints and burns the wrapped assets, the validators' consensus
engine between them, the byte formats they exchange, and two small services that keep sliding logs. `dafny
verify dfyconfig.toml` checks every file.

## How the system is modelled

**The lock program.** `LockProgram.dfy` is a class whose fields are the program's accounts and whose methods
are its instruction handlers, with their loops and their order of checks and updates; `Process` adds the
runtime's atomicity (a failed instruction is rolled back, which `execute_scheduled_unlock` relies on).
`LockSpec.dfy` says what each instruction does as functions: `StepError`, the first check that fails, and
`StepEffect`, the new state. Every handler is proved to be its functions. Runs are sequences of transactions,
accepted or refused (`LockRuns.dfy`). `LockAcceptance` says over the fields of accounts and instructions alone
which transactions are accepted and what each refusal means, `LockHistory` reads every account and the log of events
back from the accepted instructions, and `LockDeposits`, `LockEvents`, `LockPayouts`, `LockCustody`,
`LockQuorum`, `LockTimelock`, `LockSettings` and `LockLimits` prove what every run keeps. Integers have their Rust
widths; an overflow fails the instruction, as the workspace's `overflow-checks` makes it.

**The controller.** `ControllerScript.dfy` is the script on its flat key-value store, each callable a function
from what the getters return to an error or a list of entries and token actions; RIDE's `let` is lazy, so a
delayed mint never looks at the form of its recipient, and a 64-bit overflow throws. `ControllerState.dfy` says
the same on records. `ControllerKeys` proves exactly which keys share a string, whatever is put into them,
`ControllerRefinement` that store and records agree over every run of every callable, if and only if no accepted
call writes one pending mint over another, and the ledgers (`ControllerMints`, `ControllerTokens`,
`ControllerSupply`, `ControllerTotals`, `ControllerBurns`, `ControllerLimits`, `ControllerHandovers`,
`ControllerRegistry`, `ControllerPause`) what every run of the records keeps. A history (`ControllerHistory`) is
read off accepted calls and their token actions, so the ledgers compare the controller's counters with something
other than themselves. `ControllerAcceptance` says over the fields alone which calls are accepted, and
`ControllerRecords` reads the records back from the accepted calls. `LockOverspend` and `ControllerWitnesses` hold runs that reach what one may take to be
ruled out.

**Both chains.** `Solvency.dfy` interleaves transactions on both and proves that the vault covers what is
owed, under a hypothesis of honest attestations that is stated step by step.

**Consensus.** `ConsensusState.dfy` is the engine as a state machine whose proposals take two turns, with the
wait for a signature between them; `ConsensusEngine.dfy` is the class with its maps, each method proved to be
one step; `ConsensusSafety.dfy` proves safety over every interleaving and `ConsensusOrigins.dfy` where each attestation
comes from.

**Formats.** `Ed25519` (precompile instructions: builders and the introspecting parser), `Base58`, `Hex`,
`Utf8` (RFC 3629), `UnlockMessages`, `Messages` and `MessageLayouts` (signed messages, field by field),
`UnlockWire` (Borsh unlock parameters), `DepositWire` (the deposit event), `ConfigAccount` (the configuration account), `BurnRecords` (burn records read back by the API).

**Sliding logs.** `SlidingLogs`, `RateLimiter` and `AnomalyDetector`: pruned logs against full histories.

## What is taken as given

- SHA-256 (FIPS 180-4, section 6.2) is a parameter `hash`; where a theorem needs it, `Injective(hash)` says it
  has no collisions.
- Ed25519 verification (RFC 8032, section 5.1.7) is a parameter relation. `Ed25519.PrecompilePassed` states
  what the runtime has checked: every descriptor of a preceding precompile instruction names a verified triple.
- Clock readings and block heights do not go back where a theorem says `Chronological`; a difference of two
  clock readings does not overflow 64 bits.
- Asset ids computed by `calculateAssetId` in different transactions differ (`ControllerSupply.FreshAssets`).
- A transfer into the vault by anybody is an instruction `Donate`.

## Where the code and its documents differ

- A daily outflow that never exceeds its cap (docs/AUDIT_SCOPE.md:133) is not what the breaker keeps: a fixed
  window allows twice the cap across a reset, and never more (`FixedWindow.AtMostTwiceTheCap`).
  `LockOverspend.TwiceTheDailyCapIsPaid` is a run of the lock program that pays twice its cap within a second,
  `ControllerWitnesses.TwiceTheDailyCapIsMinted` one of the controller. One cap is kept in every 24 hours that no
  reset divides, and so from each reset on (`LockLimits.DailyOutflowWithoutReset`, `DailyOutflowFromReset`). In
  any state, and for any 24 hours, the breaker keeps to one cap whatever it is asked for next if and only if
  counter, last reset and payouts so far are as `DayKeepsToOneCap` says (`FixedWindow.OneCapExactly`,
  `LockLimits.OneDailyCapExactly`, `ControllerLimits.OneDailyCapExactly`).
- A validator count never below the minimum (docs/AUDIT_SCOPE.md:132): it is below after initialization, which
  registers nobody (`LockSettings.InitiallyTooFew`), and once it has reached the minimum it stays there in all later states if and only if no
  accepted update asks for more validators than there are (`LockSettings.EnoughForGood`); any authority can make
  such an update, and `RunBelowMinimum` is a run with one. In the same way the maximum deposit stays above the
  minimum exactly when the minimum is never raised alone past it (`LockSettings.DepositBoundsForGood`).
- A transfer gets one outcome from the consensus engine only if its proposals do not overlap inside the wait
  for a signature: `ConsensusSafety.AtMostOneOutcome`; for every overlap, `OverlapDoubles`; and every transfer
  can be brought to one by proposing it twice in a row, `TwoOutcomes`.
- A transfer id is the hash of sender and nonce only, although a comment on the deposit record
  (programs/sol-bridge-lock/src/state.rs:159) adds the slot.
- The engine's unlock message determines its fields exactly when the byte lengths of sender and transaction id
  are known (`Messages.EngineUnlockDetermined`): `EngineUnlockAmbiguous` moves the end of the sender,
  `EngineUnlockShifts` the end of the recipient, with amount and height between it and the transaction id. Base58
  texts of equally long byte strings can differ in length. The mint message determines its fields by itself.
- The controller's keys are not injective: the flag of a pending mint whose id starts with `height_` is the
  height of another one (`ControllerKeys.KeyStringExactly` has all such pairs). Scheduling such an id, or
  cancelling one over a pending mint, is the only way store and records come apart
  (`ControllerRefinement.FlatStoreExactly`); with hexadecimal ids they never do (`HexNeverConfused`).
- The validators behind an accepted mint of the controller need not be different: whatever is accepted is
  accepted with its first signature repeated, so that as many validators as asked for are behind it if and only if
  that number is one (`ControllerRegistry.DifferentSignersExactly`; a run is
  `ControllerWitnesses.OneValidatorSignsTwice`).
- The controller's global minted total covers the burned one in every state of a run if and only if no accepted
  legacy burn is of more than the two differ by at its moment (`ControllerTotals.MintedCoversBurned`); the callable
  does not compare them, and `ControllerWitnesses.BurnedExceedsMinted` is a run in which one is.
- Large mints do not all wait (the bridge's README.md:219): the legacy `mint` has no delay, so that the large mints of a run have
  waited if and only if it has no accepted legacy one among them (`ControllerMints.LargeMintsWaitExactly`);
  `ControllerWitnesses.LargeMintIssuedAtOnce` is a run with one, for every amount up to the largest single mint.
- The next deposit id of a sender is always unused, except for the all-zero key (`LockDeposits.NextIdUnused`).
- The API reads a burn record back exactly when its Solana recipient and mint hold no `|`
  (`BurnRecords.StoredBurnReadsBack`); the controller checks only the recipient's length.

## Model

| member | source | states |
|---|---|---|
| LockProgram.ComputeTransferId | programs/sol-bridge-lock/src/instructions/deposit.rs:67-72 | the id is the hash of the 40 bytes of sender and little-endian nonce |
| LockProgram.HasDuplicates | programs/sol-bridge-lock/src/instructions/unlock.rs:119-126 | the seen-list loop reports a duplicate exactly when two attestations name one validator |
| LockProgram.FindValidator | programs/sol-bridge-lock/src/instructions/unlock.rs:145-163 | the search finds a validator exactly when a supplied account is long enough, holds its key and is active |
| LockProgram.VerifyAttestations | programs/sol-bridge-lock/src/instructions/unlock.rs:143-176 | the loop returns the error of the first attestation that is not accepted, otherwise the number of attestations |
| LockProgram.LockProgram.Initialize | programs/sol-bridge-lock/src/instructions/initialize.rs:33-102 | refused where the account exists, or with the first parameter check that fails; otherwise every account is as initialization leaves it |
| LockProgram.LockProgram.Deposit | programs/sol-bridge-lock/src/instructions/deposit.rs:74-175 | refuses with the first failing check or leaves exactly the deposit's whole new state |
| LockProgram.LockProgram.DepositSpl | programs/sol-bridge-lock/src/instructions/deposit_spl.rs:80-183 | the same for SPL deposits, which share nonces and records |
| LockProgram.LockProgram.CheckUnlockRequest | programs/sol-bridge-lock/src/instructions/unlock.rs:84-117 | the checks on the request in their order |
| LockProgram.LockProgram.CheckQuorum | programs/sol-bridge-lock/src/instructions/unlock.rs:106-181 | distinct validators, each accepted; the second threshold check never fails |
| LockProgram.LockProgram.CheckOutflow | programs/sol-bridge-lock/src/instructions/unlock.rs:183-217 | both breakers' verdicts, and the rolled counters |
| LockProgram.LockProgram.Settle | programs/sol-bridge-lock/src/instructions/unlock.rs:219-297 | schedules a large amount, pays any other, with the whole new state |
| LockProgram.LockProgram.Unlock | programs/sol-bridge-lock/src/instructions/unlock.rs:80-297 | the unlock handler is its specification: verdict and whole new state |
| LockProgram.LockProgram.ExecuteScheduledUnlock | programs/sol-bridge-lock/src/instructions/execute_scheduled_unlock.rs:43-118 | the delayed payout, whose breaker is checked after the state is changed |
| LockProgram.LockProgram.UpdateConfig | programs/sol-bridge-lock/src/instructions/update_config.rs:35-102 | guarded assignments in order: verdict and whole new state |
| LockProgram.LockProgram.RegisterValidator | programs/sol-bridge-lock/src/instructions/register_validator.rs:37-69 | one more entry and count, or refused |
| LockProgram.LockProgram.RemoveValidator | programs/sol-bridge-lock/src/instructions/remove_validator.rs:29-53 | one entry fewer, never below the minimum |
| LockProgram.LockProgram.ProposeConfigChange | programs/sol-bridge-lock/src/instructions/propose_config_change.rs:52-115 | records a change of a loosening kind with its timelock, or refuses |
| LockProgram.LockProgram.ExecuteConfigChange | programs/sol-bridge-lock/src/instructions/execute_config_change.rs:47-107 | applies a due change and closes it |
| LockProgram.LockProgram.CancelConfigChange | programs/sol-bridge-lock/src/instructions/execute_config_change.rs:140-159 | drops a pending change |
| LockProgram.LockProgram.EmergencyPause | programs/sol-bridge-lock/src/instructions/emergency.rs:39-54 | authority or guardian may pause |
| LockProgram.LockProgram.EmergencyResume | programs/sol-bridge-lock/src/instructions/emergency.rs:56-71 | only the authority may resume |
| LockProgram.LockProgram.Process | programs/sol-bridge-lock/src/instructions/execute_scheduled_unlock.rs:64-101 | any instruction takes full effect or, failing anywhere, none |
| LockAcceptance.InitializationExactly | programs/sol-bridge-lock/src/instructions/initialize.rs:59-70 | initialization passes exactly with thresholds, bounds, cap and confirmations in order, and fails with one error |
| LockAcceptance.DepositsAccepted | programs/sol-bridge-lock/src/instructions/deposit.rs:74-112 | in every state of every run a deposit, native or SPL, is accepted if and only if the bridge is unpaused, the amount within both bounds, the recipient not zero, the id the hash of sender and next nonce, and the counters have room |
| LockAcceptance.DepositRefusal | programs/sol-bridge-lock/src/instructions/deposit_spl.rs:80-112 | a deposit is refused with an error if and only if that error's check is the first that fails |
| LockAcceptance.UnlockExactly | programs/sol-bridge-lock/src/instructions/unlock.rs:84-258 | an unlock is accepted if and only if it is new, unexpired, for this chain, within the limit, to the recipient supplied, unpaused, attested by enough different active validators, within both breakers, and can be paid or scheduled |
| LockAcceptance.UnlockRefusal | programs/sol-bridge-lock/src/instructions/unlock.rs:84-258 | an unlock is refused with an error if and only if that error's check is the first that fails |
| LockAcceptance.ExecutionExactly | programs/sol-bridge-lock/src/instructions/execute_scheduled_unlock.rs:43-101 | a scheduled unlock is executed if and only if it is due, not executed, unpaused, to its recipient, and covered by vault and daily breaker |
| LockAcceptance.ExecutionRefusal | programs/sol-bridge-lock/src/instructions/execute_scheduled_unlock.rs:43-101 | it is refused with an error if and only if that error's check is the first that fails |
| LockAcceptance.AdministrationExactly | programs/sol-bridge-lock/src/instructions/update_config.rs:35-102 | each administrative instruction is accepted if and only if its signer, target and values are as listed field by field |
| LockAcceptance.AdministrationRefusal | programs/sol-bridge-lock/src/instructions/propose_config_change.rs:52-115 | and refused with an error if and only if that error's check is the first that fails |
| LockHistory.SettingsAsLastSaid | programs/sol-bridge-lock/src/instructions/update_config.rs:38-102 | over any run each of fifteen settings is as initialized or as the latest accepted update, executed change, pause or resume made it |
| LockHistory.ChangesAsLastSaid | programs/sol-bridge-lock/src/instructions/propose_config_change.rs:95-115 | over any run the pending change of a type is the latest accepted proposal of it, due 172800 or 86400 seconds later, until executed or cancelled |
| LockHistory.ValidatorsAsLastSaid | programs/sol-bridge-lock/src/instructions/register_validator.rs:37-69 | over any run a validator's entry is the one its latest registration made, active and with nothing counted, until removed |
| LockHistory.DepositsAsSaid | programs/sol-bridge-lock/src/instructions/deposit.rs:123-153 | over any run each deposit record, or its absence, is what the accepted deposits said |
| LockHistory.DepositOrigin | programs/sol-bridge-lock/src/instructions/deposit.rs:74-153 | behind every deposit record of a run stands an accepted deposit of that sender, recipient, amount, nonce, slot and time, within the bounds of its moment |
| LockHistory.DepositRecorded | programs/sol-bridge-lock/src/instructions/deposit.rs:123-153 | every accepted deposit of a run leaves that record for good |
| LockHistory.UnlocksAsSaid | programs/sol-bridge-lock/src/instructions/unlock.rs:219-277 | over any run each unlock record is what the accepted unlock named, executed at once below the threshold, after its delay otherwise |
| LockHistory.UnlockOrigin | programs/sol-bridge-lock/src/instructions/unlock.rs:84-277 | behind every unlock record of a run stands an accepted unlock, in time and for this chain, of that recipient, amount, burn and time |
| LockHistory.UnlockRecorded | programs/sol-bridge-lock/src/instructions/unlock.rs:219-277 | every accepted unlock of a run leaves that record for good |
| LockHistory.EventsAreAnnouncements | programs/sol-bridge-lock/src/events.rs:10-27 | over any run the log is, in order, the events the accepted instructions announce, field by field |
| LockDeposits.TransferIdInjective | programs/sol-bridge-lock/src/instructions/deposit.rs:67-72 | different senders or nonces have different ids |
| LockDeposits.NextIdUnused | programs/sol-bridge-lock/src/instructions/deposit.rs:90-112 | in a sound ledger the id a sender must use next is free, if and only if the sender is not the all-zero key with an account |
| LockDeposits.RecordedKeepsInv | programs/sol-bridge-lock/src/instructions/deposit_spl.rs:96-159 | what both deposits record keeps the ledger |
| LockDeposits.GapFreeNonces | programs/sol-bridge-lock/src/instructions/deposit.rs:64-153 | in every run each sender's records carry the nonces 0..next-1, the global nonce counts records and sums next nonces, and totals sum the sender's amounts |
| LockEvents.DepositsLogged | programs/sol-bridge-lock/src/instructions/deposit.rs:138-175 | in every run deposit events and deposit records are the same deposits field by field, and no id is emitted twice |
| LockEvents.EventsGrow | programs/sol-bridge-lock/src/events.rs:10-27 | events are only appended |
| LockCustody.RecordOrigin | programs/sol-bridge-lock/src/instructions/unlock.rs:45-52 | every unlock record of a run was made by an accepted unlock of that order |
| LockCustody.EveryPayoutAttested | programs/sol-bridge-lock/src/instructions/unlock.rs:84-277 | behind every payout stands an accepted unlock of that id, amount and recipient, unexpired, for this chain and within the limit of its moment, with a quorum of signatures over just those parameters |
| LockCustody.PauseHalts | programs/sol-bridge-lock/src/instructions/emergency.rs:39-54 | from any paused state, until a resume, no deposit, payout, record or event; the vault changes only by gifts |
| LockSettings.CountKeepsAboveMinimum | programs/sol-bridge-lock/src/instructions/update_config.rs:78-89 | one accepted instruction leaves enough validators if and only if it is not an update raising the minimum above their count |
| LockSettings.EnoughForGood | programs/sol-bridge-lock/src/instructions/remove_validator.rs:29-38 | over any run, once there are enough validators every later state has enough if and only if no accepted update raises the minimum above the count of its moment |
| LockSettings.InitiallyTooFew | programs/sol-bridge-lock/src/instructions/initialize.rs:61-80 | every initial state has fewer validators than its minimum |
| LockSettings.RunBelowMinimum | programs/sol-bridge-lock/src/instructions/update_config.rs:78-89 | a run of two accepted transactions from an initial state that reaches the minimum and falls below it |
| LockSettings.MinimumRaisedAbove | programs/sol-bridge-lock/src/instructions/update_config.rs:78-89 | in every state with room for more validators the authority has such an update accepted |
| LockSettings.DepositBoundsKept | programs/sol-bridge-lock/src/instructions/update_config.rs:38-46 | one accepted instruction leaves the maximum deposit above the minimum if and only if it does not raise the minimum alone past it |
| LockSettings.DepositBoundsForGood | programs/sol-bridge-lock/src/instructions/initialize.rs:65-66 | over any run the maximum deposit is above the minimum in every state if and only if no accepted update raises the minimum alone past the maximum of its moment |
| LockSettings.MinDepositRaisedAlone | programs/sol-bridge-lock/src/instructions/update_config.rs:38-46 | in every state the authority has such an update accepted |
| LockPayouts.PayoutLedger | programs/sol-bridge-lock/src/instructions/unlock.rs:219-277 | in every run total_locked sums native deposits, total_unlocked sums executed records, and each id is paid at most once with the recorded amount and recipient |
| LockPayouts.VaultConservation | programs/sol-bridge-lock/src/instructions/unlock.rs:240-277 | vault + total_unlocked = initial vault + donations + total_locked + payouts addressed to the vault itself, in every run |
| LockPayouts.RecordsKept | programs/sol-bridge-lock/src/instructions/unlock.rs:45-52 | unlock records are never removed and change only by a scheduled one becoming executed |
| LockPayouts.ScheduledNotBeforeDelay | programs/sol-bridge-lock/src/instructions/execute_scheduled_unlock.rs:51-101 | a large withdrawal is paid no sooner than its acceptance plus the delay then in force, as accepted |
| LockQuorum.RegistryConsistent | programs/sol-bridge-lock/src/instructions/remove_validator.rs:29-38 | in every run validator_count is the number of entries, all active, and 1 <= min <= max <= 20 |
| LockQuorum.NoAttestationError | programs/sol-bridge-lock/src/instructions/unlock.rs:143-176 | the loop passes exactly when every attestation is accepted and there are at most 255 |
| LockQuorum.AcceptedUnlockHasQuorum | programs/sol-bridge-lock/src/instructions/unlock.rs:106-181 | in every run an accepted unlock carries at least min_validators pairwise distinct validators, each with a verified signature over its message |
| LockTimelock.PendingAlwaysSound | programs/sol-bridge-lock/src/instructions/propose_config_change.rs:52-93 | in every run a pending minimum is strictly below the current one and a pending cap strictly above, although execution does not check again |
| LockTimelock.ExecutionOnlyWaits | programs/sol-bridge-lock/src/instructions/execute_config_change.rs:47-90 | so only the delay can refuse an execution |
| LockTimelock.PendingOrigin | programs/sol-bridge-lock/src/instructions/propose_config_change.rs:95-115 | every pending change was proposed by the authority of its time |
| LockTimelock.TimelockSoundness | programs/sol-bridge-lock/src/instructions/update_config.rs:48-89 | the minimum falls, the cap rises, authority or guardian change only by executing a change at least 172800 seconds after its proposal, 86400 for the cap |
| LockLimits.DailyBreakerRuns | programs/sol-bridge-lock/src/instructions/execute_scheduled_unlock.rs:86-98 | over a run the daily counter and reset are the window that all payouts leave, each within the cap then in force |
| LockLimits.DailyOutflowBound | programs/sol-bridge-lock/src/instructions/unlock.rs:186-200 | lamports paid by both handlers in any 24 hours are at most twice the largest cap in force, and the counter is what was paid since the last reset |
| LockLimits.DailyOutflowWithoutReset | programs/sol-bridge-lock/src/instructions/unlock.rs:186-200 | over any run the lamports paid in 24 hours that no reset divides come to at most one cap |
| LockLimits.DailyOutflowFromReset | programs/sol-bridge-lock/src/instructions/execute_scheduled_unlock.rs:86-98 | so do those paid in the 24 hours from any reset of the run |
| LockLimits.OneDailyCapExactly | programs/sol-bridge-lock/src/instructions/unlock.rs:186-200 | in every state of every run, and for any 24 hours, the breaker keeps the payouts in them to one cap, whatever it is asked for next, if and only if counter, last reset and payouts so far meet that condition |
| LockLimits.OneDailyCapOnwards | programs/sol-bridge-lock/src/instructions/execute_scheduled_unlock.rs:86-98 | from such a state on, any transactions pay at most one cap in those 24 hours |
| LockOverspend.TwiceTheDailyCapIsPaid | programs/sol-bridge-lock/src/instructions/unlock.rs:186-200 | for every cap, a run from an initial state in which two accepted unlocks, each with a quorum of verified signatures by registered validators, pay twice the cap within 24 hours |
| LockLimits.HourlyOutflowBound | programs/sol-bridge-lock/src/instructions/unlock.rs:201-217 | the same per hour for accepted unlocks while the hourly cap is on |
| FixedWindow.CounterIsSumSinceReset | programs/sol-bridge-lock/src/instructions/unlock.rs:186-199 | the counter equals what was counted since the last reset |
| FixedWindow.ResetsApart | programs/sol-bridge-lock/src/instructions/unlock.rs:186-191 | two resets are at least one window apart |
| FixedWindow.AtMostTwiceTheCap | dcc-contracts/bridge-controller/bridge_controller.ride:223-245 | any interval one window long counts at most twice the largest cap in force in it |
| FixedWindow.AtMostTheCapWithoutReset | dcc-contracts/bridge-controller/bridge_controller.ride:223-245 | and at most one cap when no reset falls inside it after its first instant |
| FixedWindow.OneCapExactly | dcc-contracts/bridge-controller/bridge_controller.ride:223-245 | at any moment of any run, and for any interval one window long, over, under way or to come, one cap is kept whatever follows if and only if the counter, its last reset and what was spent in the interval are as a stated condition has it |
| FixedWindow.TwiceTheCapIsReached | dcc-contracts/bridge-controller/bridge_controller.ride:223-245 | twice the cap is reached, so one cap is not a bound |
| Ed25519.MatchDescriptor | programs/sol-bridge-lock/src/instructions/unlock.rs:389-432 | one descriptor is matched exactly when it refers to its own instruction, stays inside it and names the triple; no read is out of range |
| Ed25519.ScanInstruction | programs/sol-bridge-lock/src/instructions/unlock.rs:360-434 | an instruction is accepted exactly when some descriptor attests the triple |
| Ed25519.VerifySignatureIntrospect | programs/sol-bridge-lock/src/instructions/unlock.rs:336-438 | true exactly when some earlier Ed25519 instruction attests the triple, on arbitrary bytes |
| Ed25519.IntrospectedIsVerified | programs/sol-bridge-lock/src/instructions/unlock.rs:321-335 | an introspected triple is one the precompile verified |
| Ed25519.CreateMultiSigInstruction | tests/e2e/bridge.test.ts:130-179 | builds the layout for up to 255 signers and 65535 message bytes, and throws otherwise |
| Ed25519.CreateInstruction | e2e-reverse-test.cjs:136-181 | the one-signer builder gives the same layout |
| Ed25519.BuiltInstructionAttests | tests/e2e/bridge.test.ts:130-179 | a built instruction attests a triple exactly when it is one of its signers with its message |
| Ed25519.AttestsExactly | programs/sol-bridge-lock/src/instructions/unlock.rs:389-432 | byte by byte what a descriptor must hold to attest a triple |
| Base58.EncodeBase58 | scripts/generate-validator-key.ts:92-106 | the encoder computes base 58 with one '1' per leading zero byte; it fails only on the empty string |
| Base58.DivideOut | scripts/generate-validator-key.ts:96-100 | the division loop ends and gives the base-58 digits |
| Base58.RoundTrip | scripts/generate-validator-key.ts:92-106 | decoding an encoding gives the bytes back |
| Base58.DecodeRoundTrip | scripts/generate-validator-key.ts:92-106 | encoding a decoded base58 text gives the text back |
| Base58.EncodeInjective | scripts/generate-validator-key.ts:92-106 | different bytes have different texts |
| Base58.LeadingOnes | scripts/generate-validator-key.ts:101-104 | each leading zero byte is one leading '1' |
| ControllerKeys.KeyTexts | dcc-contracts/bridge-controller/bridge_controller.ride:43-84 | every key, fixed or with an id, address, key or mint in it, is the string its key function concatenates |
| ControllerKeys.KeyOfWords | dcc-contracts/bridge-controller/bridge_controller.ride:43-84 | every key's words, with whatever is put into it, are read back as the key its string is taken for |
| ControllerKeys.KeyStringExactly | dcc-contracts/bridge-controller/bridge_controller.ride:43-84 | two keys share a string exactly when they are taken for the same key, for all ids, addresses, keys and mints |
| ControllerKeys.KeyStringInjective | dcc-contracts/bridge-controller/bridge_controller.ride:43-84 | the key functions are injective and pairwise disjoint on keys taken for themselves |
| ControllerKeys.UnderscoreCollides | dcc-contracts/bridge-controller/bridge_controller.ride:61-62 | the flag of an id that starts with height_ has the key of the height of another id |
| ControllerStore.WrittenEntry | dcc-contracts/bridge-controller/bridge_controller.ride:465-477 | written entries are found again under their keys and change no other plain key |
| ControllerStore.FoldCounts | dcc-contracts/bridge-controller/bridge_controller.ride:200-221 | the fold counts every signature up to the twentieth or throws at the first bad one |
| ControllerStore.SignaturesAgree | dcc-contracts/bridge-controller/bridge_controller.ride:188-221 | signature verification on the store is the quorum on the records |
| ControllerRefinement.MintTokenMatches | dcc-contracts/bridge-controller/bridge_controller.ride:413-484 | mintToken on the store is mintToken on the records, delayed or at once |
| ControllerRefinement.MintMatches | dcc-contracts/bridge-controller/bridge_controller.ride:488-542 | the same for the legacy mint |
| ControllerRefinement.ExecutePendingMatches | dcc-contracts/bridge-controller/bridge_controller.ride:545-586 | the same for executePendingMint |
| ControllerRefinement.CancelPendingMatches | dcc-contracts/bridge-controller/bridge_controller.ride:705-716 | the same for cancelPendingMint |
| ControllerRefinement.BurnTokenMatches | dcc-contracts/bridge-controller/bridge_controller.ride:593-636 | the same for burnToken |
| ControllerRefinement.BurnMatches | dcc-contracts/bridge-controller/bridge_controller.ride:639-682 | the same for the legacy burn |
| ControllerRefinement.RegisterTokenMatches | dcc-contracts/bridge-controller/bridge_controller.ride:303-355 | the same for registerToken |
| ControllerRefinement.SetTokenEnabledMatches | dcc-contracts/bridge-controller/bridge_controller.ride:358-364 | the same for setTokenEnabled |
| ControllerRefinement.RegisterValidatorMatches | dcc-contracts/bridge-controller/bridge_controller.ride:371-385 | the same for registerValidator |
| ControllerRefinement.RemoveValidatorMatches | dcc-contracts/bridge-controller/bridge_controller.ride:388-403 | the same for removeValidator |
| ControllerRefinement.SwitchesMatch | dcc-contracts/bridge-controller/bridge_controller.ride:689-738 | the same for pause, resume and the two maxima |
| ControllerRefinement.ProposalsMatch | dcc-contracts/bridge-controller/bridge_controller.ride:741-791 | the same for proposing an admin or guardian |
| ControllerRefinement.AdminHandoverMatches | dcc-contracts/bridge-controller/bridge_controller.ride:753-768 | the same for executing an admin transfer |
| ControllerRefinement.GuardianHandoverMatches | dcc-contracts/bridge-controller/bridge_controller.ride:794-809 | the same for executing a guardian transfer |
| ControllerRefinement.CancelsMatch | dcc-contracts/bridge-controller/bridge_controller.ride:771-820 | the same for cancelling either |
| ControllerRefinement.FreshCallRefines | dcc-contracts/bridge-controller/bridge_controller.ride:252-289 | on the empty account only initialize succeeds, and writes the initial records |
| ControllerRefinement.FlatStoreRefines | dcc-contracts/bridge-controller/bridge_controller.ride:251-820 | after any run in which no accepted call writes one pending mint over another the store stands for the records, and any next call at all gives the same verdict and actions, and matching entries unless it is the first of that kind |
| ControllerRefinement.FlatStoreExactly | dcc-contracts/bridge-controller/bridge_controller.ride:251-820 | the store stands for the records all along a run if and only if no accepted call of it schedules an id starting with height_ or cancels one over a pending mint |
| ControllerRefinement.ConfusingBreaks | dcc-contracts/bridge-controller/bridge_controller.ride:456-465 | after such a call the store stands for the records no more |
| ControllerRefinement.HexNeverConfused | validator/src/watchers/solana-watcher.ts:167-167 | in a run that schedules and cancels mints under hexadecimal ids only, as the validators write them, store and records never come apart |
| ControllerAcceptance.AcceptedExactly | dcc-contracts/bridge-controller/bridge_controller.ride:251-820 | each callable is accepted if and only if caller, arguments, payment, signatures over the written-out text, breaker and records are as listed field by field |
| ControllerAcceptance.FreshExactly | dcc-contracts/bridge-controller/bridge_controller.ride:252-289 | an uninitialised account accepts its initialization alone |
| ControllerAcceptance.ActionsExactly | dcc-contracts/bridge-controller/bridge_controller.ride:465-480 | an accepted call issues, hands over or burns exactly these units of these assets to these recipients |
| ControllerRecords.SettingsAsLastSaid | dcc-contracts/bridge-controller/bridge_controller.ride:689-820 | over any run roles, proposals, pause, limits and the native asset are what the latest accepted call about them said |
| ControllerRecords.TokensAsLastSaid | dcc-contracts/bridge-controller/bridge_controller.ride:303-364 | over any run a token's asset, name, decimals, divisor and switch are what its registration and the latest switch said |
| ControllerRecords.ValidatorsAsLastSaid | dcc-contracts/bridge-controller/bridge_controller.ride:371-403 | over any run a key is active as its latest registration or removal said |
| ControllerRecords.SlotsAsLastSaid | dcc-contracts/bridge-controller/bridge_controller.ride:371-385 | over any run a slot holds the key last registered at that count |
| ControllerRecords.PendingAsLastSaid | dcc-contracts/bridge-controller/bridge_controller.ride:456-465 | over any run a mint is pending with the height, recipient, units and mint its call named, until executed or cancelled |
| ControllerRecords.BurnsAsSaid | dcc-contracts/bridge-controller/bridge_controller.ride:620-629 | over any run each burn record, or its absence, is what the accepted burns said |
| ControllerRecords.BurnOrigin | dcc-contracts/bridge-controller/bridge_controller.ride:592-682 | behind every burn record of a run stands an accepted burn by that caller that named that Solana recipient and mint and paid that amount at that height and time |
| ControllerRecords.BurnRecorded | dcc-contracts/bridge-controller/bridge_controller.ride:592-682 | every accepted burn of a run leaves such a record for good |
| ControllerRegistry.RegistryConsistent | dcc-contracts/bridge-controller/bridge_controller.ride:371-403 | over any run validator_count is the number of active keys, at most 20, and the token count that of registered mints, at most 50 |
| ControllerRegistry.AcceptedMintSigned | dcc-contracts/bridge-controller/bridge_controller.ride:188-221 | over any run an accepted mint carries at least min_validators, and at least one, signatures by active validators over the message of its own arguments |
| ControllerRegistry.OneSignatureRepeated | dcc-contracts/bridge-controller/bridge_controller.ride:188-221 | any accepted mint is accepted with the same effect when its first signature alone is given min_validators times |
| ControllerRegistry.DifferentSignersExactly | dcc-contracts/bridge-controller/bridge_controller.ride:188-221 | in any state of any run that accepts a mint, accepted mints always come from min_validators different keys if and only if that number is one |
| ControllerWitnesses.OneValidatorSignsTwice | dcc-contracts/bridge-controller/bridge_controller.ride:188-221 | a run that asks for two signatures, knows one validator and accepts its signature given twice |
| ControllerPause.PauseHalts | dcc-contracts/bridge-controller/bridge_controller.ride:689-702 | from any paused state, until a resume, counters and records of mints and burns stand still, pending mints can only go, and no accepted call issues, hands over or burns units of any asset |
| ControllerMints.MintAtMostOnce | dcc-contracts/bridge-controller/bridge_controller.ride:413-586 | over any run no id is issued twice, each issue carries out its mint, pending ids are processed and unissued, delayed mints wait 60 blocks and all others none, and global_nonce counts issues |
| ControllerMints.CancelledForGood | dcc-contracts/bridge-controller/bridge_controller.ride:705-716 | a cancelled mint is never issued by any later run |
| ControllerMints.LargeMintsWaitExactly | dcc-contracts/bridge-controller/bridge_controller.ride:488-542 | over any run every issue of a mint of at least the threshold comes at least 60 blocks after its acceptance if and only if no accepted call is a legacy mint of at least the threshold |
| ControllerWitnesses.LargeMintIssuedAtOnce | dcc-contracts/bridge-controller/bridge_controller.ride:488-542 | for every amount from the threshold to the largest single mint, a run that accepts it by the legacy mint and issues it without delay |
| ControllerTokens.DivisorIsPower | dcc-contracts/bridge-controller/bridge_controller.ride:328-340 | the ladder is 10^max(0, difference), defined exactly up to ten digits |
| ControllerTokens.DustSum | dcc-contracts/bridge-controller/bridge_controller.ride:447-448 | rounding down keeps back at most divisor - 1 per mint, summed over any set of mints |
| ControllerSupply.TokenInvariants | dcc-contracts/bridge-controller/bridge_controller.ride:465-477 | over any run totals equal issues, every mint is rounded correctly, assets are distinct and supplies agree |
| ControllerSupply.TokenLedger | dcc-contracts/bridge-controller/bridge_controller.ride:317-350 | per token: divisor, supply = minted - burned, and the dust bound on accepted raw units |
| ControllerSupply.FaceValue | dcc-contracts/bridge-controller/bridge_controller.ride:442-480 | minted face value never exceeds deposited face value |
| ControllerTotals.TotalsAreFlows | dcc-contracts/bridge-controller/bridge_controller.ride:517-531 | over any run the global totals are what the legacy callables issued and burned, and the native totals that and what the token callables did |
| ControllerTotals.CoverKept | dcc-contracts/bridge-controller/bridge_controller.ride:654-676 | from a state whose global minted total covers the burned one an accepted call leads to another if and only if it is not a legacy burn of more than their difference |
| ControllerTotals.MintedCoversBurned | dcc-contracts/bridge-controller/bridge_controller.ride:654-676 | over any run the minted total covers the burned one in every state if and only if no accepted legacy burn is of more than the two differ by at its moment |
| ControllerWitnesses.BurnedExceedsMinted | dcc-contracts/bridge-controller/bridge_controller.ride:592-682 | a run in which units issued by mintToken are burned by the legacy burn, after which the burned total exceeds the minted one |
| ControllerBurns.BurnIdInjective | dcc-contracts/bridge-controller/bridge_controller.ride:612-617 | a burn id determines caller, nonce, height and amount |
| ControllerBurns.NextBurnIsNew | dcc-contracts/bridge-controller/bridge_controller.ride:604-617 | the id of a caller's next burn is not in use |
| ControllerBurns.BurnLedger | dcc-contracts/bridge-controller/bridge_controller.ride:592-682 | over any run a caller's nonce is its number of records and records naming a mint sum to its total burned |
| ControllerBurns.BurnRecordsKept | dcc-contracts/bridge-controller/bridge_controller.ride:592-682 | no burn record is ever overwritten or removed |
| ControllerLimits.CheckIsBreaker | dcc-contracts/bridge-controller/bridge_controller.ride:223-245 | checkDailyLimit is the fixed-window breaker over 1440 blocks |
| ControllerLimits.DailyMintBound | dcc-contracts/bridge-controller/bridge_controller.ride:223-245 | raw units accepted in any 1440 blocks are at most twice the largest cap in force, and the counter is their sum since the last reset |
| ControllerLimits.DailyMintWithoutReset | dcc-contracts/bridge-controller/bridge_controller.ride:223-245 | raw units accepted in 1440 blocks that no reset divides come to at most one cap |
| ControllerLimits.DailyMintFromReset | dcc-contracts/bridge-controller/bridge_controller.ride:223-245 | so do those accepted in the 1440 blocks from any reset of the run |
| ControllerLimits.OneDailyCapExactly | dcc-contracts/bridge-controller/bridge_controller.ride:223-245 | in every state of every run, and for any 1440 blocks, the breaker keeps the raw units accepted in them to one cap, whatever it is asked for next, if and only if counter, last reset and mints so far meet the same condition |
| ControllerLimits.OneDailyCapOnwards | dcc-contracts/bridge-controller/bridge_controller.ride:223-245 | from such a state on, any transactions mint at most one cap in those 1440 blocks |
| ControllerWitnesses.TwiceTheDailyCapIsMinted | dcc-contracts/bridge-controller/bridge_controller.ride:223-245 | for every cap below the delay threshold, a run that accepts it twice within 1440 blocks |
| ControllerHandovers.ProposalOrigin | dcc-contracts/bridge-controller/bridge_controller.ride:741-809 | every standing proposal was made by the admin of its time and untouched since |
| ControllerHandovers.HandoverTimelock | dcc-contracts/bridge-controller/bridge_controller.ride:741-809 | admin and guardian change only by executing a proposal at least 2880 blocks old that stood untouched |
| BurnRecords.ReadBackExactly | api/src/utils/dcc-helpers.ts:114-146 | a stored record is read back exactly when its text fields hold no separator |
| BurnRecords.StoredBurnReadsBack | api/src/utils/dcc-helpers.ts:114-146 | every record the controller stored in any run that confuses no pending mints is read back exactly when recipient and mint hold no separator |
| BridgeSums.MintedIsAccepted | dcc-contracts/bridge-controller/bridge_controller.ride:413-542 | what native mints were accepted for equals the deposits behind them |
| BridgeSums.PayoutsCovered | programs/sol-bridge-lock/src/instructions/unlock.rs:240-277 | payouts come to at most ten times the native burns they were made for |
| Solvency.MintsBacked | dcc-contracts/bridge-controller/bridge_controller.ride:413-542 | under honest attestations every native mint has its deposit in every joint state |
| Solvency.UnlocksHonoured | programs/sol-bridge-lock/src/instructions/unlock.rs:219-277 | under honest attestations every unlock has a native burn of its own in every joint state |
| Solvency.VaultCovers | programs/sol-bridge-lock/src/instructions/unlock.rs:240-277 | vault >= native deposits - executed unlocks in every joint state |
| Solvency.MintedWithinLocked | dcc-contracts/bridge-controller/bridge_controller.ride:488-542 | ten lamports are locked for every native unit ever minted |
| Solvency.Solvent | programs/sol-bridge-lock/src/instructions/execute_scheduled_unlock.rs:64-101 | vault >= unminted native deposits + 10 x (circulating + pending + burned but unpaid native units) in every joint state |
| ConsensusEngine.ConsensusEngine.ProposeAttestation | validator/src/consensus/engine.ts:82-102 | the first turn of a proposal: guards, message, request for a signature |
| ConsensusEngine.ConsensusEngine.FinishProposal | validator/src/consensus/engine.ts:102-133 | the second turn: opens the round whatever happened meanwhile |
| ConsensusEngine.ConsensusEngine.SomeFrom | validator/src/consensus/engine.ts:155-161 | the search finds an attestation of the node exactly when there is one |
| ConsensusEngine.ConsensusEngine.ReceiveAttestation | validator/src/consensus/engine.ts:139-188 | one received attestation is one step: ignored, reported or added and checked |
| ConsensusEngine.ConsensusEngine.CheckConsensus | validator/src/consensus/engine.ts:193-222 | resolves the round at the threshold and emits the result |
| ConsensusEngine.ConsensusEngine.CheckConsensusTimeout | validator/src/consensus/engine.ts:227-248 | resolves an unresolved round as failed |
| ConsensusEngine.ConsensusEngine.Cleanup | validator/src/consensus/engine.ts:217-220 | drops the finished round from the map |
| ConsensusSafety.DeliverySound | validator/src/consensus/engine.ts:139-248 | over every interleaving each outcome is its round's only one, and a reached one delivers exactly max(2, minValidators) attestations of distinct nodes over the proposer's own message |
| ConsensusSafety.DeliveredForGood | validator/src/consensus/engine.ts:193-215 | a delivered result never changes although it shares its round's attestations |
| ConsensusOrigins.AttestationOrigins | validator/src/consensus/engine.ts:82-188 | over every interleaving each round's first attestation, its one broadcast, carries the signature, key and time brought for its own earlier proposal, with its node, transfer, kind and message; every other one is one received, unchanged |
| ConsensusOrigins.SignatureOpensRound | validator/src/consensus/engine.ts:102-133 | every signature brought for a waiting proposal opens such a round for good |
| ConsensusOrigins.MapsAsHappened | validator/src/consensus/engine.ts:193-222 | over every interleaving a transfer is processed exactly when it was reached, and pending exactly under its latest round that no cleanup dropped |
| ConsensusSafety.AtMostOneOutcome | validator/src/consensus/engine.ts:82-248 | without overlapping proposals a transfer gets at most one outcome, once |
| ConsensusSafety.OverlapDoubles | validator/src/consensus/engine.ts:86-118 | every overlap can go on to two outcomes of one transfer |
| ConsensusSafety.ProposedTwiceOverlaps | validator/src/consensus/engine.ts:82-118 | two proposals of a transfer in a row overlap, in every state that takes up the first |
| ConsensusSafety.TwoOutcomes | validator/src/consensus/engine.ts:82-118 | so there is a run that gives any transfer two outcomes |
| UnlockMessages.ConstructUnlockMessage | programs/sol-bridge-lock/src/instructions/unlock.rs:301-319 | the pushes give the concatenation of the seven fields |
| Messages.ConstructCanonicalMessage | validator/src/consensus/engine.ts:254-306 | the pushed parts concatenate to the canonical message, or an integer out of range throws |
| Messages.UnlockInjective | programs/sol-bridge-lock/src/instructions/unlock.rs:301-319 | the unlock message has 140 bytes and determines its fields |
| Messages.EngineMintInjective | validator/src/consensus/engine.ts:254-277 | the engine's mint message determines its request, although the sender has no length before it |
| Messages.EngineUnlockAmbiguous | validator/src/consensus/engine.ts:277-285 | a different request whose recipient begins with the end of the sender has the same message |
| Messages.EngineUnlockShifts | validator/src/consensus/engine.ts:277-285 | a different request whose amount begins with the last character of the recipient, and whose transaction id begins with the top byte of the height, has the same message |
| Messages.EngineUnlockDetermined | validator/src/consensus/engine.ts:277-285 | two requests with one unlock message are equal if and only if their senders and their transaction ids have equal byte lengths |
| Messages.EngineUnlockInjective | validator/src/consensus/engine.ts:277-285 | the unlock message is injective on senders of one byte length and transaction ids of one byte length |
| Messages.RideMintInjective | dcc-contracts/bridge-controller/bridge_controller.ride:154-170 | mintToken's message determines its pipe-free fields |
| Messages.RideLegacyMintInjective | dcc-contracts/bridge-controller/bridge_controller.ride:172-186 | so does the legacy mint's |
| MessageLayouts.MintText | dcc-contracts/bridge-controller/bridge_controller.ride:154-170 | mintToken's message word by word |
| MessageLayouts.LegacyMintText | dcc-contracts/bridge-controller/bridge_controller.ride:172-186 | the legacy mint's message word by word |
| MessageLayouts.UnlockLayout | programs/sol-bridge-lock/src/instructions/unlock.rs:301-319 | each field of the unlock message is read back at its offset |
| MessageLayouts.EngineMintLayout | validator/src/consensus/engine.ts:254-277 | so is each field of the engine's mint message |
| MessageLayouts.EngineUnlockLayout | validator/src/consensus/engine.ts:277-306 | and of its unlock message |
| MessageLayouts.BurnIdLayout | dcc-contracts/bridge-controller/bridge_controller.ride:612-617 | a burn id hashes 50 bytes from which caller, nonce, height and amount are read back |
| MessageLayouts.BurnWords | dcc-contracts/bridge-controller/bridge_controller.ride:620-629 | the stored burn record word by word |
| Messages.FormatsDisjoint | programs/sol-bridge-lock/src/instructions/unlock.rs:301-319 | no two of the five formats share a message |
| Messages.MessagesDetermined | dcc-contracts/bridge-controller/bridge_controller.ride:154-185 | across all five formats a message determines its format, and its fields too if and only if, for the engine's unlock, the two lengths are the same |
| Messages.ValidatorMatchesProgram | validator/src/main.ts:360-370 | the validator's unlock bytes are the program's exactly when each id has 32 bytes or is all zeros once padded or cut |
| UnlockWire.CopyInto | validator/src/main.ts:521-522 | copying into a zeroed buffer pads with zeros or cuts off |
| UnlockWire.SerializeAttestations | validator/src/main.ts:565-584 | a length and 96 bytes for each attestation |
| UnlockWire.SerializeUnlockParams | validator/src/main.ts:517-553 | the Borsh encoding of the fitted parameters, or a RangeError |
| UnlockWire.HeaderFields | programs/sol-bridge-lock/src/instructions/unlock.rs:8-33 | each field of the encoded parameters stands at its offset |
| UnlockWire.ParamsRoundTrip | programs/sol-bridge-lock/src/instructions/unlock.rs:8-33 | decoding an encoding gives the parameters back; its length is 120 + 96n |
| UnlockWire.ReadIsEncoding | programs/sol-bridge-lock/src/instructions/unlock.rs:8-33 | bytes that can be decoded are the encoding of the result |
| UnlockWire.SerializedIsRead | validator/src/main.ts:517-584 | the program reads exactly the fitted parameters the validator serialized |
| DepositWire.DecodeBridgeDeposit | validator/src/watchers/solana-watcher.ts:157-206 | null exactly below 132 bytes, otherwise the event's view |
| DepositWire.EventFields | programs/sol-bridge-lock/src/events.rs:10-27 | each field of the emitted event is read back at its offset |
| DepositWire.DecodedIsEmitted | programs/sol-bridge-lock/src/events.rs:10-27 | decoding inverts the layout |
| DepositWire.DecodedReEncodes | programs/sol-bridge-lock/src/events.rs:10-27 | every 132 bytes are some event's layout |
| DepositWire.ViewDetermines | validator/src/watchers/solana-watcher.ts:157-206 | the view determines the event when slot and timestamp are safe integers |
| ConfigAccount.ReadBridgeConfig | e2e-reverse-test.cjs:92-130 | the running offset reads the fields at fixed offsets, or throws exactly on data shorter than 174 bytes |
| ConfigAccount.CountersRead | programs/sol-bridge-lock/src/state.rs:9-85 | nonce, totals and validator counts stand at bytes 73 to 99 of the account |
| ConfigAccount.LimitsRead | programs/sol-bridge-lock/src/state.rs:9-85 | deposit bounds, daily cap, counter and reset and the unlock limit stand at bytes 100 to 147 |
| ConfigAccount.RulesRead | programs/sol-bridge-lock/src/state.rs:9-85 | confirmations, delay, threshold, chain ids and bumps stand at bytes 148 to 175 |
| ConfigAccount.ConfigIsRead | programs/sol-bridge-lock/src/state.rs:9-85 | what the script reads of an account is the configuration stored in it |
| SlidingLogs.Filter | telegram-bot/src/middleware/rateLimiter.cjs:44-44 | filter keeps the later times in order |
| SlidingLogs.AfterTwice | telegram-bot/src/middleware/rateLimiter.cjs:27-34 | what an earlier cutoff drops a later one drops anyway |
| RateLimiter.RateLimiter.Handle | telegram-bot/src/middleware/rateLimiter.cjs:36-58 | goes on exactly when the full history holds fewer than the maximum in the window, otherwise answers the query or replies; no window ever holds more |
| RateLimiter.RateLimiter.Prune | telegram-bot/src/middleware/rateLimiter.cjs:26-33 | filters every bucket, drops empty ones, and changes no decision |
| RateLimiter.PassKeepsLimit | telegram-bot/src/middleware/rateLimiter.cjs:46-57 | passing below the maximum keeps every window within it |
| RateLimiter.PruneKeepsRepresenting | telegram-bot/src/middleware/rateLimiter.cjs:26-33 | pruned buckets stand for the same history |
| AnomalyDetector.AnomalyDetector.CheckTransactionRate | monitoring/src/detectors/anomaly-detector.ts:148-171 | alerts exactly when the full history holds more than the limit in the last 60000 ms |
| AnomalyDetector.AnomalyDetector.RaiseAlert | monitoring/src/detectors/anomaly-detector.ts:250-256 | keeps exactly the last thousand alerts |

## Left out

- LockQuorum.AcceptedUnlockHasQuorum: the supplied accounts are raw bytes to the handler; that they are entries of this program's registry is the hypothesis `Genuine` of the part that needs it.
- LockProgram.LockProgram.DepositSpl: the custody of SPL tokens (token accounts and their balances) is not modelled; shared nonces and records are.
- LockProgram.LockProgram.Process: rent, compute limits and other failures of the runtime are not modelled; they only take transactions out of a run.
- ConsensusEngine.ConsensusEngine.FinishProposal: round objects are entries of one sequence, referred to by index, so that sharing shows; object identity beyond that is not modelled.
- ConsensusSafety.OverlapDoubles: says that an overlap can go wrong, not that it must.
- BurnRecords.ReadBackExactly: `parseInt` is modelled on text without leading blanks, and a number that is not a safe integer only as "possibly rounded".
- RateLimiter.RateLimiter.Handle: that a failing reply is swallowed is not modelled.
- AnomalyDetector.AnomalyDetector.CheckTransactionRate: an alert is modelled by what its check determines; text, severity and automatic pause are not.
- Solvency.Solvent: is about native SOL only; the honesty of attestations is its hypothesis, since no program can check the other chain.
- Program-derived addresses and bumps: an account is found by its seeds.
- Events that move or promise no money (pauses, registrations, configuration).
- The other checks of the monitor, among them the hourly volume counter, which is a simpler reset counter.
- The controller's read-only views `getStats` and `getTokenInfo`; the name, symbol and description of an issued asset beyond the stored name.
- The reserve contract `dcc-contracts/wsol-token/wsol_token.ride`: the controller issues its own asset.
- Liveness of consensus and equality of messages across nodes: each node puts its own clock into its message.
- The five-field burn parsers of the validator, which do not match the six-field record, and the byte offsets of `api/src/routes/deposit.ts`, which do not match the configuration account.
- The watchers' maps of pending events and their finality loops.
- Network, storage, HTTP, chat, wallets, key storage and deployment.
