/**
 * The bridge controller on its flat store, as the RIDE script reads and writes it: every value sits
 * under a string key, a callable either throws or returns data entries and token actions. RIDE
 * evaluates a `let` only where it is used, so a large mint never looks at the recipient's format.
 */
module ControllerScript {
  import opened Bytes
  import opened Options
  import opened ControllerKeys
  import opened ControllerState
  import Base58

  datatype Value = IntV(i: i64) | BoolV(b: bool) | StrV(s: string)

  type Store = map<string, Value>

  /** Entries to write, each under its key's string; None deletes the entry. */
  type Writes = map<Key, Option<Value>>

  datatype Result = Throws | Entries(writes: Writes, actions: seq<Action>)

  /** The script sees the store only through its getters. */
  type Getter = Key -> Option<Value>

  function GetInteger(db: Getter, k: Key): Option<i64> {
    match db(k)
    case Some(IntV(i)) => Some(i)
    case _ => None
  }

  function GetBoolean(db: Getter, k: Key): Option<bool> {
    match db(k)
    case Some(BoolV(b)) => Some(b)
    case _ => None
  }

  function GetString(db: Getter, k: Key): Option<string> {
    match db(k)
    case Some(StrV(s)) => Some(s)
    case _ => None
  }

  function K(k: FixedKey): Key { Fixed(k) }

  function Put(v: Value): Option<Value> { Some(v) }

  function IntOr(db: Getter, k: Key, default: i64): i64 {
    var v := GetInteger(db, k);
    if v.Some? then v.value else default
  }

  predicate IsAdmin(db: Getter, inv: Invocation) { GetString(db, K(Admin)) == Some(CallerText(inv)) }

  predicate IsGuardian(db: Getter, inv: Invocation) { GetString(db, K(Guardian)) == Some(CallerText(inv)) }

  predicate Unpaused(db: Getter) { GetBoolean(db, K(Paused)) == Some(false) }

  predicate IsValidatorActive(db: Getter, pubkey: string) { GetBoolean(db, ValidatorActive(pubkey)) == Some(true) }

  predicate IsTransferProcessed(db: Getter, id: string) { GetBoolean(db, ProcessedTransfer(id)) == Some(true) }

  predicate IsTokenRegistered(db: Getter, mint: string) { GetString(db, Token(mint, AssetId)).Some? }

  predicate IsTokenEnabled(db: Getter, mint: string) { GetBoolean(db, Token(mint, Enabled)) == Some(true) }

  // ---------------------------------------------------------------------------------------------
  // Helpers
  // ---------------------------------------------------------------------------------------------

  /** The fold over positions 0..19: counts verified signatures, or throws at the first bad one. */
  function FoldSignatures(rt: Runtime, db: Getter, message: string, signatures: seq<seq<byte>>, pubkeys: seq<seq<byte>>,
                          idx: nat, acc: nat): Option<nat>
    requires |signatures| == |pubkeys|
    decreases 20 - idx
  {
    if idx >= 20 then Some(acc)
    else if idx >= |signatures| then FoldSignatures(rt, db, message, signatures, pubkeys, idx + 1, acc)
    else if !IsValidatorActive(db, Base58.Encode(pubkeys[idx])) then None
    else if !(rt.sigVerify)(message, signatures[idx], pubkeys[idx]) then None
    else FoldSignatures(rt, db, message, signatures, pubkeys, idx + 1, acc + 1)
  }

  /** verifyValidatorSignatures: true, or it throws. */
  predicate VerifyValidatorSignatures(rt: Runtime, db: Getter, message: string,
                                      signatures: seq<seq<byte>>, pubkeys: seq<seq<byte>>, minRequired: i64)
  {
    if |signatures| < minRequired || |signatures| != |pubkeys| then false
    else match FoldSignatures(rt, db, message, signatures, pubkeys, 0, 0)
      case None => false
      case Some(valid) => valid >= minRequired
  }

  function CheckDailyLimit(db: Getter, height: i64, amount: i64): Option<(i64, i64)> {
    DailyCheck(IntOr(db, K(DailyMinted), 0), IntOr(db, K(DailyResetHeight), 0), IntOr(db, K(MaxDailyMint), MAX_DAILY_MINT),
               height, amount)
  }

  // ---------------------------------------------------------------------------------------------
  // Callables
  // ---------------------------------------------------------------------------------------------

  function Initialize(db: Getter, inv: Invocation, guardian: string, minValidators: i64): Result {
    if GetString(db, K(Admin)).Some? || minValidators < 1 then Throws
    else
      Entries(InitialEntries(inv, guardian, minValidators) + TokenEntries(NATIVE_SOL_MINT, inv.freshAsset, "SOL", 9, 8, 10),
        [Issue(inv.freshAsset, 8)])
  }

  function InitialEntries(inv: Invocation, guardian: string, minValidators: i64): Writes {
    RoleEntries(inv, guardian) + CounterEntries() + LimitEntries(inv, minValidators)
  }

  function RoleEntries(inv: Invocation, guardian: string): Writes {
    map[
      K(Admin) := Put(StrV(CallerText(inv))),
      K(Guardian) := Put(StrV(guardian)),
      K(Paused) := Put(BoolV(false)),
      K(WsolAssetId) := Put(StrV(inv.freshAsset))]
  }

  function CounterEntries(): Writes {
    map[
      K(TotalMinted) := Put(IntV(0)),
      K(TotalBurned) := Put(IntV(0)),
      K(GlobalNonce) := Put(IntV(0)),
      K(ValidatorCount) := Put(IntV(0)),
      K(DailyMinted) := Put(IntV(0))]
  }

  function LimitEntries(inv: Invocation, minValidators: i64): Writes {
    map[
      K(MinValidators) := Put(IntV(minValidators)),
      K(DailyResetHeight) := Put(IntV(inv.height)),
      K(MaxDailyMint) := Put(IntV(MAX_DAILY_MINT)),
      K(MaxSingleMint) := Put(IntV(MAX_SINGLE_MINT)),
      K(RegisteredTokenCount) := Put(IntV(1))]
  }

  function TokenEntries(mint: string, asset: string, name: string, sol: i64, dcc: i64, divisor: i64): Writes {
    map[
      Token(mint, AssetId) := Put(StrV(asset)),
      Token(mint, Name) := Put(StrV(name)),
      Token(mint, SolDecimals) := Put(IntV(sol)),
      Token(mint, DccDecimals) := Put(IntV(dcc)),
      Token(mint, Divisor) := Put(IntV(divisor)),
      Token(mint, Enabled) := Put(BoolV(true)),
      Token(mint, Minted) := Put(IntV(0)),
      Token(mint, TokenField.Burned) := Put(IntV(0))]
  }

  function RegisterToken(db: Getter, inv: Invocation, mint: string, name: string, sol: i64, dcc: i64): Result {
    if !IsAdmin(db, inv) || IsTokenRegistered(db, mint) then Throws
    else if dcc < 0 || dcc > 8 || sol < 0 || sol > 18 || |mint| < 32 || |mint| > 44 then Throws
    else
      var count := IntOr(db, K(RegisteredTokenCount), 0);
      if count >= MAX_REGISTERED_TOKENS then Throws
      else match DivisorFor(sol - dcc)
        case None => Throws
        case Some(divisor) =>
          Entries(TokenEntries(mint, inv.freshAsset, name, sol, dcc, divisor)
                  + map[K(RegisteredTokenCount) := Put(IntV(count + 1))],
                  [Issue(inv.freshAsset, dcc)])
  }

  function SetTokenEnabled(db: Getter, inv: Invocation, mint: string, enabled: bool): Result {
    if !IsAdmin(db, inv) || !IsTokenRegistered(db, mint) then Throws
    else Entries(map[Token(mint, Enabled) := Put(BoolV(enabled))], [])
  }

  function ValidatorEntries(pubkey: string, active: bool, count: i64): Writes {
    map[
      ValidatorActive(pubkey) := Put(BoolV(active)),
      K(ValidatorCount) := Put(IntV(count))]
  }

  function RegisterValidator(db: Getter, inv: Invocation, pubkey: string): Result {
    if !IsAdmin(db, inv) || IsValidatorActive(db, pubkey) then Throws
    else match GetInteger(db, K(ValidatorCount))
      case None => Throws
      case Some(count) =>
        if count >= MAX_VALIDATORS then Throws
        else
          Entries(ValidatorEntries(pubkey, true, count + 1) + map[Validator(count) := Put(StrV(pubkey))], [])
  }

  function RemoveValidator(db: Getter, inv: Invocation, pubkey: string): Result {
    if !IsAdmin(db, inv) || !IsValidatorActive(db, pubkey) then Throws
    else match (GetInteger(db, K(ValidatorCount)), GetInteger(db, K(MinValidators)))
      case (Some(count), Some(minVal)) =>
        if count == MIN_I64 || count - 1 < minVal then Throws
        else
          Entries(ValidatorEntries(pubkey, false, count - 1), [])
      case (_, _) => Throws
  }

  /** The checks both mints share: unpaused, a new id, an amount within bounds, enough signatures. */
  predicate MintAllowed(rt: Runtime, db: Getter, id: string, amount: i64, message: string,
                        signatures: seq<seq<byte>>, pubkeys: seq<seq<byte>>)
  {
    && Unpaused(db)
    && !IsTransferProcessed(db, id)
    && MIN_MINT_AMOUNT <= amount <= IntOr(db, K(MaxSingleMint), MAX_SINGLE_MINT)
    && match GetInteger(db, K(MinValidators))
       case None => false
       case Some(minRequired) => VerifyValidatorSignatures(rt, db, message, signatures, pubkeys, minRequired)
  }

  function MintToken(rt: Runtime, db: Getter, inv: Invocation, call: Call): Result
    requires call.MintToken?
  {
    var id, mint, amount := call.transferId, call.splMint, call.amount;
    if !IsTokenRegistered(db, mint) || !IsTokenEnabled(db, mint) then Throws
    else if !MintAllowed(rt, db, id, amount, MintMessage(id, call.recipient, amount, call.solSlot, mint, DCC_CHAIN_ID),
                         call.signatures, call.pubkeys) then Throws
    else match CheckDailyLimit(db, inv.height, amount)
      case None => Throws
      case Some(daily) =>
        var divisor := IntOr(db, Token(mint, Divisor), 1);
        var mintAmount := if divisor > 1 then Scaled(amount, divisor) else amount;
        if mintAmount <= 0 then Throws
        else if amount >= LARGE_TX_THRESHOLD then Entries(
            CountedEntries(id, daily) + PendingEntries(id, inv.height, call.recipient, mintAmount, mint), [])
        else IssueNow(rt, db, call, mintAmount, daily)
  }

  /** What every accepted mint writes: the id is processed and the raw amount counted. */
  function CountedEntries(id: string, daily: (i64, i64)): Writes {
    map[
      ProcessedTransfer(id) := Put(BoolV(true)),
      K(DailyMinted) := Put(IntV(daily.0)),
      K(DailyResetHeight) := Put(IntV(daily.1))]
  }

  /** What every issue writes: the token's total and the global nonce. */
  function IssuedEntries(mint: string, minted: i64, nonce: i64): Writes {
    map[
      Token(mint, Minted) := Put(IntV(minted)),
      K(GlobalNonce) := Put(IntV(nonce))]
  }

  function PendingEntries(id: string, height: i64, recipient: string, amount: i64, mint: string): Writes {
    map[
      Pending(id, Flag) := Put(BoolV(true)),
      Pending(id, Height) := Put(IntV(height)),
      Pending(id, Recipient) := Put(StrV(recipient)),
      Pending(id, Amount) := Put(IntV(amount)),
      Pending(id, SplMint) := Put(StrV(mint))]
  }

  /** mintToken's immediate branch. */
  function IssueNow(rt: Runtime, db: Getter, call: Call, mintAmount: i64, daily: (i64, i64)): Result
    requires call.MintToken?
  {
    var mint := call.splMint;
    var minted := IntOr(db, Token(mint, Minted), 0);
    match (GetInteger(db, K(GlobalNonce)), GetString(db, Token(mint, AssetId)))
    case (Some(nonce), Some(asset)) =>
      if !(rt.isAddress)(call.recipient) || !CanAdd(minted, mintAmount) || !CanAdd(nonce, 1) then Throws
      else
        Entries(CountedEntries(call.transferId, daily) + IssuedEntries(mint, minted + mintAmount, nonce + 1),
          [Reissue(asset, mintAmount), Transfer(call.recipient, mintAmount, asset)])
    case (_, _) => Throws
  }

  function Mint(rt: Runtime, db: Getter, inv: Invocation, call: Call): Result
    requires call.Mint?
  {
    var id, amount := call.transferId, call.amount;
    if !MintAllowed(rt, db, id, amount, LegacyMintMessage(id, call.recipient, amount, call.solSlot, DCC_CHAIN_ID),
                    call.signatures, call.pubkeys) then Throws
    else match CheckDailyLimit(db, inv.height, amount)
      case None => Throws
      case Some(daily) =>
        var divisor := IntOr(db, Token(NATIVE_SOL_MINT, Divisor), 1);
        // Dividing by zero throws; by a negative number gives no positive amount.
        if divisor <= 0 || Scaled(amount, divisor) <= 0 then Throws
        else LegacyIssue(rt, db, call, Scaled(amount, divisor), daily)
  }

  function LegacyIssue(rt: Runtime, db: Getter, call: Call, mintAmount: i64, daily: (i64, i64)): Result
    requires call.Mint?
  {
    var minted := IntOr(db, Token(NATIVE_SOL_MINT, Minted), 0);
    match (GetInteger(db, K(GlobalNonce)), GetInteger(db, K(TotalMinted)), GetString(db, K(WsolAssetId)))
    case (Some(nonce), Some(total), Some(asset)) =>
      if !(rt.isAddress)(call.recipient) || !CanAdd(total, mintAmount) || !CanAdd(minted, mintAmount)
         || !CanAdd(nonce, 1) then Throws
      else
        Entries(CountedEntries(call.transferId, daily) + IssuedEntries(NATIVE_SOL_MINT, minted + mintAmount, nonce + 1)
                + map[K(TotalMinted) := Put(IntV(total + mintAmount))],
          [Reissue(asset, mintAmount), Transfer(call.recipient, mintAmount, asset)])
    case (_, _, _) => Throws
  }

  function PendingDeletes(id: string): Writes {
    map[
      Pending(id, Flag) := None,
      Pending(id, Height) := None,
      Pending(id, Recipient) := None,
      Pending(id, Amount) := None,
      Pending(id, SplMint) := None]
  }

  function ExecutePendingMint(rt: Runtime, db: Getter, inv: Invocation, id: string): Result {
    if !Unpaused(db) || GetBoolean(db, Pending(id, Flag)) != Some(true) then Throws
    else match GetInteger(db, Pending(id, Height))
      case None => Throws
      case Some(scheduled) =>
        if !Fits(inv.height - scheduled) || inv.height - scheduled < LARGE_TX_DELAY_BLOCKS then Throws
        else match (GetString(db, Pending(id, Recipient)), GetInteger(db, Pending(id, Amount)))
          case (Some(recipient), Some(amount)) =>
            var stored := GetString(db, Pending(id, SplMint));
            IssuePending(rt, db, id, recipient, amount, if stored.Some? then stored.value else NATIVE_SOL_MINT)
          case (_, _) => Throws
  }

  function IssuePending(rt: Runtime, db: Getter, id: string, recipient: string, amount: i64, mint: string): Result {
    var minted := IntOr(db, Token(mint, Minted), 0);
    match (GetString(db, Token(mint, AssetId)), GetInteger(db, K(GlobalNonce)))
    case (Some(asset), Some(nonce)) =>
      if !(rt.isAddress)(recipient) || !CanAdd(minted, amount) || !CanAdd(nonce, 1) then Throws
      else
        Entries(PendingDeletes(id) + IssuedEntries(mint, minted + amount, nonce + 1),
                [Reissue(asset, amount), Transfer(recipient, amount, asset)])
    case (_, _) => Throws
  }

  function RecordEntries(id: string, b: BurnEntry, burned: i64, nonce: i64): Writes {
    map[
      BurnRecord(id) := Put(StrV(BurnText(b))),
      Token(b.splMint, TokenField.Burned) := Put(IntV(burned)),
      BurnNonce(b.sender) := Put(IntV(nonce))]
  }

  /** The entries both burns write. */
  function BurnEntries(rt: Runtime, db: Getter, inv: Invocation, solRecipient: string, mint: string, assetId: string): Result {
    if inv.payments == [] || inv.payments[0].assetId.None? || inv.payments[0].assetId.value != assetId
       || inv.payments[0].amount < MIN_MINT_AMOUNT then Throws
    else
      var amount := inv.payments[0].amount;
      var nonce := IntOr(db, BurnNonce(CallerText(inv)), 0);
      var burned := IntOr(db, Token(mint, TokenField.Burned), 0);
      if !CanAdd(burned, amount) || !CanAdd(nonce, 1) then Throws
      else
        var id := BurnId(rt, inv.caller, nonce, inv.height, amount);
        Entries(
          RecordEntries(id, BurnEntry(CallerText(inv), solRecipient, mint, amount, inv.height, inv.timestamp),
                        burned + amount, nonce + 1),
          [BurnAsset(assetId, amount)])
  }

  function BurnToken(rt: Runtime, db: Getter, inv: Invocation, solRecipient: string, mint: string): Result {
    if !Unpaused(db) || !ValidSolanaAddress(solRecipient) then Throws
    else match GetString(db, Token(mint, AssetId))
      case None => Throws
      case Some(asset) => BurnEntries(rt, db, inv, solRecipient, mint, asset)
  }

  function Burn(rt: Runtime, db: Getter, inv: Invocation, solRecipient: string): Result {
    if !Unpaused(db) || !ValidSolanaAddress(solRecipient) then Throws
    else match (GetString(db, K(WsolAssetId)), GetInteger(db, K(TotalBurned)))
      case (Some(asset), Some(total)) =>
        (match BurnEntries(rt, db, inv, solRecipient, NATIVE_SOL_MINT, asset)
         case Throws => Throws
         case Entries(writes, actions) =>
           if !CanAdd(total, inv.payments[0].amount) then Throws
           else Entries(writes + map[K(TotalBurned) := Put(IntV(total + inv.payments[0].amount))], actions))
      case (_, _) => Throws
  }

  function OnlyIf(ok: bool, writes: Writes): Result { if ok then Entries(writes, []) else Throws }

  function CancelPendingMint(db: Getter, inv: Invocation, id: string): Result {
    OnlyIf(IsAdmin(db, inv) || IsGuardian(db, inv), PendingDeletes(id))
  }

  function ProposedEntries(to: string, height: i64, toKey: FixedKey, heightKey: FixedKey): Writes {
    map[K(toKey) := Put(StrV(to)), K(heightKey) := Put(IntV(height))]
  }

  function ClearedEntries(toKey: FixedKey, heightKey: FixedKey): Writes { map[K(toKey) := None, K(heightKey) := None] }

  function ProposeHandover(db: Getter, inv: Invocation, to: string, toKey: FixedKey, heightKey: FixedKey): Result {
    OnlyIf(IsAdmin(db, inv) && |to| >= 20, ProposedEntries(to, inv.height, toKey, heightKey))
  }

  function ExecuteHandover(db: Getter, inv: Invocation, role: FixedKey, toKey: FixedKey, heightKey: FixedKey): Result {
    match (GetString(db, K(toKey)), GetInteger(db, K(heightKey)))
    case (Some(to), Some(proposed)) =>
      if !Fits(inv.height - proposed) || inv.height - proposed < TRANSFER_DELAY_BLOCKS then Throws
      else Entries(ClearedEntries(toKey, heightKey) + map[K(role) := Put(StrV(to))], [])
    case (_, _) => Throws
  }

  function CancelHandover(db: Getter, inv: Invocation, toKey: FixedKey, heightKey: FixedKey): Result {
    OnlyIf(IsAdmin(db, inv), ClearedEntries(toKey, heightKey))
  }

  function Invoke(rt: Runtime, db: Getter, inv: Invocation, call: Call): Result {
    match call
    case Initialize(guardian, minValidators) => Initialize(db, inv, guardian, minValidators)
    case RegisterToken(mint, name, sol, dcc) => RegisterToken(db, inv, mint, name, sol, dcc)
    case SetTokenEnabled(mint, enabled) => SetTokenEnabled(db, inv, mint, enabled)
    case RegisterValidator(p) => RegisterValidator(db, inv, p)
    case RemoveValidator(p) => RemoveValidator(db, inv, p)
    case MintToken(_, _, _, _, _, _, _) => MintToken(rt, db, inv, call)
    case Mint(_, _, _, _, _, _) => Mint(rt, db, inv, call)
    case ExecutePendingMint(id) => ExecutePendingMint(rt, db, inv, id)
    case CancelPendingMint(id) => CancelPendingMint(db, inv, id)
    case BurnToken(r, mint) => BurnToken(rt, db, inv, r, mint)
    case Burn(r) => Burn(rt, db, inv, r)
    case EmergencyPause => OnlyIf(IsAdmin(db, inv) || IsGuardian(db, inv), map[K(Paused) := Put(BoolV(true))])
    case EmergencyResume => OnlyIf(IsAdmin(db, inv), map[K(Paused) := Put(BoolV(false))])
    case UpdateMaxDailyMint(m) => OnlyIf(IsAdmin(db, inv) && m > 0, map[K(MaxDailyMint) := Put(IntV(m))])
    case UpdateMaxSingleMint(m) => OnlyIf(IsAdmin(db, inv) && m > 0, map[K(MaxSingleMint) := Put(IntV(m))])
    case ProposeAdminTransfer(to) => ProposeHandover(db, inv, to, AdminTransfer, AdminTransferHeight)
    case ExecuteAdminTransfer => ExecuteHandover(db, inv, Admin, AdminTransfer, AdminTransferHeight)
    case CancelAdminTransfer => CancelHandover(db, inv, AdminTransfer, AdminTransferHeight)
    case ProposeGuardianTransfer(to) => ProposeHandover(db, inv, to, GuardianTransfer, GuardianTransferHeight)
    case ExecuteGuardianTransfer => ExecuteHandover(db, inv, Guardian, GuardianTransfer, GuardianTransferHeight)
    case CancelGuardianTransfer => CancelHandover(db, inv, GuardianTransfer, GuardianTransferHeight)
  }

  // ---------------------------------------------------------------------------------------------
  // On the flat store
  // ---------------------------------------------------------------------------------------------

  function Get(st: Store, k: Key): Option<Value> {
    if KeyString(k) in st then Some(st[KeyString(k)]) else None
  }

  function Reader(st: Store): Getter { k => Get(st, k) }

  /** Some entry is written under the string s. */
  predicate Touches(writes: Writes, s: string) { exists k :: k in writes && KeyString(k) == s }

  /** What is written under the string s. */
  ghost function EntryFor(writes: Writes, s: string): Option<Value>
    requires Touches(writes, s)
  {
    var k :| k in writes && KeyString(k) == s;
    writes[k]
  }

  /** The store after the entries are written. */
  ghost function Written(st: Store, writes: Writes): Store {
    var strings := st.Keys + set k | k in writes :: KeyString(k);
    map s | s in strings && (Touches(writes, s) ==> EntryFor(writes, s).Some?) ::
      if Touches(writes, s) then EntryFor(writes, s).value else st[s]
  }

  /** The store after a call: the entries written, or nothing when it threw. */
  ghost function Called(rt: Runtime, st: Store, inv: Invocation, call: Call): Store {
    match Invoke(rt, Reader(st), inv, call)
    case Throws => st
    case Entries(writes, _) => Written(st, writes)
  }
}
