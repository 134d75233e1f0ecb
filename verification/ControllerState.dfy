/**
 * The bridge controller as records: what its flat store stands for, and each callable as one step
 * on the records. A step that throws changes nothing.
 */
module ControllerState {
  import opened Bytes
  import opened Options
  import opened Text
  import Base58

  /** The sentinel mint for native SOL: forty-three characters, "So", forty ones and "2". */
  const NATIVE_SOL_MINT := "So" + Ones(40) + "2"
  const DCC_CHAIN_ID: i64 := 2
  const MAX_VALIDATORS: i64 := 20
  const MAX_DAILY_MINT: i64 := 1_000_000_000_000
  const MAX_SINGLE_MINT: i64 := 100_000_000_000
  const MIN_MINT_AMOUNT: i64 := 1000
  const LARGE_TX_THRESHOLD: i64 := 50_000_000_000
  const LARGE_TX_DELAY_BLOCKS: i64 := 60
  const RATE_LIMIT_WINDOW: nat := 1440
  const MAX_REGISTERED_TOKENS: i64 := 50
  const TRANSFER_DELAY_BLOCKS: i64 := 2880

  function Ones(n: nat): (s: string)
    ensures |s| == n && forall i :: 0 <= i < n ==> s[i] == '1'
  {
    seq(n, _ => '1')
  }

  /** RIDE integers are 64-bit; leaving the range throws. */
  predicate Fits(i: int) { MIN_I64 <= i <= MAX_I64 }

  predicate CanAdd(a: int, b: int) { Fits(a + b) }

  type Address = s: seq<byte> | |s| == 26 witness seq(26, _ => 0)

  datatype TokenInfo = TokenInfo(
    assetId: string, name: string, solDecimals: i64, dccDecimals: i64, divisor: i64, enabled: bool, minted: i64, burned: i64)

  datatype PendingMint = PendingMint(height: i64, recipient: string, amount: i64, splMint: string)

  datatype BurnEntry = BurnEntry(
    sender: string, solRecipient: string, splMint: string, amount: i64, height: i64, timestamp: i64)

  /** A proposed admin or guardian. */
  datatype Handover = Handover(to: string, height: i64)

  datatype Controller = Controller(
    admin: string,
    guardian: string,
    paused: bool,
    wsolAssetId: string,
    totalMinted: i64,
    totalBurned: i64,
    globalNonce: i64,
    validatorCount: i64,
    minValidators: i64,
    dailyMinted: i64,
    dailyResetHeight: i64,
    maxDailyMint: i64,
    maxSingleMint: i64,
    registeredTokenCount: i64,
    validatorSlots: map<int, string>,
    validatorActive: map<string, bool>,
    processed: set<string>,
    pending: map<string, PendingMint>,
    burnRecords: map<string, BurnEntry>,
    burnNonces: map<string, i64>,
    adminTransfer: Option<Handover>,
    guardianTransfer: Option<Handover>,
    tokens: map<string, TokenInfo>)

  datatype World = Fresh | Live(c: Controller)

  datatype Payment = Payment(assetId: Option<string>, amount: i64)

  /** What a callable sees besides the store; `freshAsset` is the id an Issue in this call would get. */
  datatype Invocation = Invocation(caller: Address, height: i64, timestamp: i64, payments: seq<Payment>, freshAsset: string)

  /** The runtime functions the script relies on. */
  datatype Runtime = Runtime(
    hash: seq<byte> -> seq<byte>,
    sigVerify: (string, seq<byte>, seq<byte>) -> bool,
    isAddress: string -> bool)

  datatype Call =
    | Initialize(guardian: string, minValidators: i64)
    | RegisterToken(splMint: string, tokenName: string, solDecimals: i64, dccDecimals: i64)
    | SetTokenEnabled(splMint: string, enabled: bool)
    | RegisterValidator(pubkey: string)
    | RemoveValidator(pubkey: string)
    | MintToken(transferId: string, recipient: string, amount: i64, solSlot: i64, splMint: string,
                signatures: seq<seq<byte>>, pubkeys: seq<seq<byte>>)
    | Mint(transferId: string, recipient: string, amount: i64, solSlot: i64,
           signatures: seq<seq<byte>>, pubkeys: seq<seq<byte>>)
    | ExecutePendingMint(transferId: string)
    | CancelPendingMint(transferId: string)
    | BurnToken(solRecipient: string, splMint: string)
    | Burn(solRecipient: string)
    | EmergencyPause
    | EmergencyResume
    | UpdateMaxDailyMint(newMax: i64)
    | UpdateMaxSingleMint(newMax: i64)
    | ProposeAdminTransfer(to: string)
    | ExecuteAdminTransfer
    | CancelAdminTransfer
    | ProposeGuardianTransfer(to: string)
    | ExecuteGuardianTransfer
    | CancelGuardianTransfer

  /** Token actions the chain carries out after a callable. */
  datatype Action =
    | Issue(assetId: string, decimals: i64)
    | Reissue(assetId: string, amount: i64)
    | Transfer(recipient: string, amount: i64, assetId: string)
    | BurnAsset(assetId: string, amount: i64)

  datatype Outcome = Throw | Done(c: Controller, actions: seq<Action>)

  // ---------------------------------------------------------------------------------------------
  // Shared pieces
  // ---------------------------------------------------------------------------------------------

  function CallerText(inv: Invocation): string { Base58.Encode(inv.caller) }

  /** An Int as eight big-endian bytes. */
  function LongBytes(i: i64): (s: seq<byte>)
    ensures |s| == 8
  {
    var le := ToLE(8, I64ToU64(i));
    [le[7], le[6], le[5], le[4], le[3], le[2], le[1], le[0]]
  }

  /** The id of a burn: caller, the caller's burn nonce, height and amount, hashed. */
  function BurnId(rt: Runtime, caller: Address, nonce: i64, height: i64, amount: i64): string {
    Base58.Encode((rt.hash)(caller + LongBytes(nonce) + LongBytes(height) + LongBytes(amount)))
  }

  function BurnText(b: BurnEntry): string {
    Join([b.sender, b.solRecipient, b.splMint, IntText(b.amount), IntText(b.height), IntText(b.timestamp)], '|')
  }

  const MINT_DOMAIN := "SOL_DCC_BRIDGE_V2"
  const LEGACY_MINT_DOMAIN := "SOL_DCC_BRIDGE_V1"

  /** constructMintMessage. */
  function MintMessage(transferId: string, recipient: string, amount: int, solSlot: int, splMint: string, chainId: int): string {
    Join([MINT_DOMAIN, "MINT", transferId, recipient, IntText(amount), IntText(solSlot), splMint, IntText(chainId)], '|')
  }

  /** constructLegacyMintMessage. */
  function LegacyMintMessage(transferId: string, recipient: string, amount: int, solSlot: int, chainId: int): string {
    Join([LEGACY_MINT_DOMAIN, "MINT", transferId, recipient, IntText(amount), IntText(solSlot), IntText(chainId)], '|')
  }

  function MinOf(a: nat, b: nat): nat { if a < b then a else b }

  /** The key is an active validator's and the signature is its own over the message. */
  predicate SignedBy(rt: Runtime, active: map<string, bool>, message: string, signature: seq<byte>, pubkey: seq<byte>) {
    && Base58.Encode(pubkey) in active && active[Base58.Encode(pubkey)]
    && (rt.sigVerify)(message, signature, pubkey)
  }

  /**
   * Enough signatures, one key each, and the first twenty of them by active validators over the
   * message. Nothing asks for different validators.
   */
  predicate Quorum(rt: Runtime, active: map<string, bool>, message: string,
                   signatures: seq<seq<byte>>, pubkeys: seq<seq<byte>>, minRequired: i64)
  {
    var n := MinOf(|signatures|, 20);
    && |signatures| >= minRequired
    && |signatures| == |pubkeys|
    && n >= minRequired
    && forall i :: 0 <= i < n ==> SignedBy(rt, active, message, signatures[i], pubkeys[i])
  }

  /** checkDailyLimit: the new count and reset height, or nothing when the limit is exceeded. */
  function DailyCheck(dailyMinted: i64, resetHeight: i64, maxDaily: i64, height: i64, amount: i64): Option<(i64, i64)> {
    if !Fits(height - resetHeight) then None
    else
      var expired := height - resetHeight >= RATE_LIMIT_WINDOW;
      var before := if expired then 0 else dailyMinted;
      if !CanAdd(before, amount) || before + amount > maxDaily then None
      else Some((before + amount, if expired then height else resetHeight))
  }

  lemma QuotientBound(a: nat, d: nat)
    requires d >= 1
    ensures 0 <= a / d <= a
  {
    ProductAtLeast(a / d, d - 1);
    assert a / d * d == a / d * (d - 1) + a / d;
  }

  lemma ProductAtLeast(q: nat, e: nat)
    ensures q * e >= 0
  {
  }

  /** Raw Solana units in units of the wrapped asset, rounded down. */
  function Scaled(amount: i64, divisor: i64): (q: i64)
    requires amount >= 0 && divisor >= 1
    ensures 0 <= q <= amount
  {
    QuotientBound(amount, divisor);
    var a: int, d: int := amount, divisor;
    a / d
  }

  /** registerToken's ladder: 10^(sol - dcc), from one up to ten digits. */
  function DivisorFor(diff: int): Option<i64> {
    if diff <= 0 then Some(1)
    else if diff == 1 then Some(10)
    else if diff == 2 then Some(100)
    else if diff == 3 then Some(1000)
    else if diff == 4 then Some(10000)
    else if diff == 5 then Some(100000)
    else if diff == 6 then Some(1000000)
    else if diff == 7 then Some(10000000)
    else if diff == 8 then Some(100000000)
    else if diff == 9 then Some(1000000000)
    else if diff == 10 then Some(10000000000)
    else None
  }

  predicate ValidSolanaAddress(s: string) { 32 <= |s| <= 44 }

  // ---------------------------------------------------------------------------------------------
  // Steps
  // ---------------------------------------------------------------------------------------------

  function InitialController(inv: Invocation, guardian: string, minValidators: i64): Controller {
    Controller(
      CallerText(inv), guardian, false, inv.freshAsset, 0, 0, 0, 0, minValidators, 0, inv.height, MAX_DAILY_MINT,
      MAX_SINGLE_MINT, 1, map[], map[], {}, map[], map[], map[], None, None,
      map[NATIVE_SOL_MINT := TokenInfo(inv.freshAsset, "SOL", 9, 8, 10, true, 0, 0)])
  }

  function DoRegisterToken(c: Controller, inv: Invocation, mint: string, name: string, sol: i64, dcc: i64): Outcome {
    if CallerText(inv) != c.admin || mint in c.tokens || dcc < 0 || dcc > 8 || sol < 0 || sol > 18
       || |mint| < 32 || |mint| > 44 || c.registeredTokenCount >= MAX_REGISTERED_TOKENS then Throw
    else match DivisorFor(sol - dcc)
      case None => Throw
      case Some(divisor) =>
        Done(c.(tokens := c.tokens[mint := TokenInfo(inv.freshAsset, name, sol, dcc, divisor, true, 0, 0)],
                registeredTokenCount := c.registeredTokenCount + 1),
             [Issue(inv.freshAsset, dcc)])
  }

  /** The checks both mints share: unpaused, a new id, an amount within bounds, enough signatures. */
  predicate MayMint(rt: Runtime, c: Controller, id: string, amount: i64, message: string,
                    signatures: seq<seq<byte>>, pubkeys: seq<seq<byte>>)
  {
    && !c.paused
    && id !in c.processed
    && MIN_MINT_AMOUNT <= amount <= c.maxSingleMint
    && Quorum(rt, c.validatorActive, message, signatures, pubkeys, c.minValidators)
  }

  /** The records after a transfer id is accepted and its raw amount counted. */
  function Counted(c: Controller, id: string, daily: (i64, i64)): Controller {
    c.(processed := c.processed + {id}, dailyMinted := daily.0, dailyResetHeight := daily.1)
  }

  /** A mint of a registered token: one more issue, and the token's total. */
  function Minted(c: Controller, mint: string, amount: i64): Controller
    requires mint in c.tokens && CanAdd(c.tokens[mint].minted, amount) && CanAdd(c.globalNonce, 1)
  {
    c.(tokens := c.tokens[mint := c.tokens[mint].(minted := c.tokens[mint].minted + amount)],
       globalNonce := c.globalNonce + 1)
  }

  function DoMintToken(rt: Runtime, c: Controller, inv: Invocation, call: Call): Outcome
    requires call.MintToken?
  {
    var id, mint, amount := call.transferId, call.splMint, call.amount;
    if mint !in c.tokens || !c.tokens[mint].enabled
       || !MayMint(rt, c, id, amount, MintMessage(id, call.recipient, amount, call.solSlot, mint, DCC_CHAIN_ID),
                   call.signatures, call.pubkeys) then Throw
    else match DailyCheck(c.dailyMinted, c.dailyResetHeight, c.maxDailyMint, inv.height, amount)
      case None => Throw
      case Some(daily) =>
        var mintAmount := if c.tokens[mint].divisor > 1 then Scaled(amount, c.tokens[mint].divisor) else amount;
        if mintAmount <= 0 then Throw
        else if amount >= LARGE_TX_THRESHOLD then
          Done(Counted(c, id, daily).(pending := c.pending[id := PendingMint(inv.height, call.recipient, mintAmount, mint)]), [])
        else DoIssueNow(rt, c, call, mintAmount, daily)
  }

  function DoIssueNow(rt: Runtime, c: Controller, call: Call, mintAmount: i64, daily: (i64, i64)): Outcome
    requires call.MintToken? && call.splMint in c.tokens
  {
    var token := c.tokens[call.splMint];
    if !(rt.isAddress)(call.recipient) || !CanAdd(token.minted, mintAmount) || !CanAdd(c.globalNonce, 1) then Throw
    else
      Done(Minted(Counted(c, call.transferId, daily), call.splMint, mintAmount),
           [Reissue(token.assetId, mintAmount), Transfer(call.recipient, mintAmount, token.assetId)])
  }

  function DoMint(rt: Runtime, c: Controller, inv: Invocation, call: Call): Outcome
    requires call.Mint? && NATIVE_SOL_MINT in c.tokens
  {
    var id, amount := call.transferId, call.amount;
    if !MayMint(rt, c, id, amount, LegacyMintMessage(id, call.recipient, amount, call.solSlot, DCC_CHAIN_ID),
                call.signatures, call.pubkeys) then Throw
    else match DailyCheck(c.dailyMinted, c.dailyResetHeight, c.maxDailyMint, inv.height, amount)
      case None => Throw
      case Some(daily) =>
        var divisor := c.tokens[NATIVE_SOL_MINT].divisor;
        if divisor <= 0 || Scaled(amount, divisor) <= 0 then Throw
        else DoLegacyIssue(rt, c, call, Scaled(amount, divisor), daily)
  }

  function DoLegacyIssue(rt: Runtime, c: Controller, call: Call, mintAmount: i64, daily: (i64, i64)): Outcome
    requires call.Mint? && NATIVE_SOL_MINT in c.tokens
  {
    if !(rt.isAddress)(call.recipient) || !CanAdd(c.totalMinted, mintAmount)
       || !CanAdd(c.tokens[NATIVE_SOL_MINT].minted, mintAmount) || !CanAdd(c.globalNonce, 1) then Throw
    else
      Done(Minted(Counted(c, call.transferId, daily), NATIVE_SOL_MINT, mintAmount).(totalMinted := c.totalMinted + mintAmount),
           [Reissue(c.wsolAssetId, mintAmount), Transfer(call.recipient, mintAmount, c.wsolAssetId)])
  }

  function DoExecutePendingMint(rt: Runtime, c: Controller, inv: Invocation, id: string): Outcome {
    if c.paused || id !in c.pending then Throw
    else
      var p := c.pending[id];
      if !Fits(inv.height - p.height) || inv.height - p.height < LARGE_TX_DELAY_BLOCKS || p.splMint !in c.tokens then Throw
      else DoIssuePending(rt, c, id, p)
  }

  function DoIssuePending(rt: Runtime, c: Controller, id: string, p: PendingMint): Outcome
    requires p.splMint in c.tokens
  {
    var token := c.tokens[p.splMint];
    if !(rt.isAddress)(p.recipient) || !CanAdd(token.minted, p.amount) || !CanAdd(c.globalNonce, 1) then Throw
    else
      Done(Minted(c, p.splMint, p.amount).(pending := c.pending - {id}),
           [Reissue(token.assetId, p.amount), Transfer(p.recipient, p.amount, token.assetId)])
  }

  /** How many burns a caller has made. */
  function NonceOf(c: Controller, caller: string): i64 { if caller in c.burnNonces then c.burnNonces[caller] else 0 }

  /** What both burns share: the caller's next burn, recorded. */
  function Burned(rt: Runtime, c: Controller, inv: Invocation, solRecipient: string, mint: string, assetId: string): Outcome
    requires mint in c.tokens
  {
    if inv.payments == [] || inv.payments[0].assetId != Some(assetId) || inv.payments[0].amount < MIN_MINT_AMOUNT then Throw
    else
      var amount, caller, token := inv.payments[0].amount, CallerText(inv), c.tokens[mint];
      var nonce := NonceOf(c, caller);
      if !CanAdd(token.burned, amount) || !CanAdd(nonce, 1) then Throw
      else
        var id := BurnId(rt, inv.caller, nonce, inv.height, amount);
        Done(c.(burnRecords := c.burnRecords[id := BurnEntry(caller, solRecipient, mint, amount, inv.height, inv.timestamp)],
                tokens := c.tokens[mint := token.(burned := token.burned + amount)],
                burnNonces := c.burnNonces[caller := nonce + 1]),
             [BurnAsset(assetId, amount)])
  }

  function DoBurnToken(rt: Runtime, c: Controller, inv: Invocation, solRecipient: string, mint: string): Outcome {
    if c.paused || !ValidSolanaAddress(solRecipient) || mint !in c.tokens then Throw
    else Burned(rt, c, inv, solRecipient, mint, c.tokens[mint].assetId)
  }

  function DoBurn(rt: Runtime, c: Controller, inv: Invocation, solRecipient: string): Outcome
    requires NATIVE_SOL_MINT in c.tokens
  {
    if c.paused || !ValidSolanaAddress(solRecipient) then Throw
    else match Burned(rt, c, inv, solRecipient, NATIVE_SOL_MINT, c.wsolAssetId)
      case Throw => Throw
      case Done(burned, actions) =>
        if !CanAdd(c.totalBurned, inv.payments[0].amount) then Throw
        else Done(burned.(totalBurned := c.totalBurned + inv.payments[0].amount), actions)
  }

  function DoRegisterValidator(c: Controller, inv: Invocation, pubkey: string): Outcome {
    if CallerText(inv) != c.admin || (pubkey in c.validatorActive && c.validatorActive[pubkey])
       || c.validatorCount >= MAX_VALIDATORS then Throw
    else
      Done(c.(validatorSlots := c.validatorSlots[c.validatorCount as int := pubkey],
              validatorActive := c.validatorActive[pubkey := true],
              validatorCount := c.validatorCount + 1), [])
  }

  function DoRemoveValidator(c: Controller, inv: Invocation, pubkey: string): Outcome {
    if CallerText(inv) != c.admin || !(pubkey in c.validatorActive && c.validatorActive[pubkey])
       || c.validatorCount == MIN_I64 || c.validatorCount - 1 < c.minValidators then Throw
    else
      Done(c.(validatorActive := c.validatorActive[pubkey := false], validatorCount := c.validatorCount - 1), [])
  }

  predicate HandoverDue(h: Option<Handover>, height: i64) {
    h.Some? && Fits(height - h.value.height) && height - h.value.height >= TRANSFER_DELAY_BLOCKS
  }

  function When(ok: bool, c: Controller): Outcome { if ok then Done(c, []) else Throw }

  function LiveStep(rt: Runtime, c: Controller, inv: Invocation, call: Call): Outcome
    requires NATIVE_SOL_MINT in c.tokens
  {
    var admin, guardian := CallerText(inv) == c.admin, CallerText(inv) == c.guardian;
    match call
    case Initialize(_, _) => Throw
    case RegisterToken(mint, name, sol, dcc) => DoRegisterToken(c, inv, mint, name, sol, dcc)
    case SetTokenEnabled(mint, enabled) =>
      if !admin || mint !in c.tokens then Throw
      else Done(c.(tokens := c.tokens[mint := c.tokens[mint].(enabled := enabled)]), [])
    case RegisterValidator(p) => DoRegisterValidator(c, inv, p)
    case RemoveValidator(p) => DoRemoveValidator(c, inv, p)
    case MintToken(_, _, _, _, _, _, _) => DoMintToken(rt, c, inv, call)
    case Mint(_, _, _, _, _, _) => DoMint(rt, c, inv, call)
    case ExecutePendingMint(id) => DoExecutePendingMint(rt, c, inv, id)
    case CancelPendingMint(id) => When(admin || guardian, c.(pending := c.pending - {id}))
    case BurnToken(r, mint) => DoBurnToken(rt, c, inv, r, mint)
    case Burn(r) => DoBurn(rt, c, inv, r)
    case EmergencyPause => When(admin || guardian, c.(paused := true))
    case EmergencyResume => When(admin, c.(paused := false))
    case UpdateMaxDailyMint(m) => When(admin && m > 0, c.(maxDailyMint := m))
    case UpdateMaxSingleMint(m) => When(admin && m > 0, c.(maxSingleMint := m))
    case ProposeAdminTransfer(to) => When(admin && |to| >= 20, c.(adminTransfer := Some(Handover(to, inv.height))))
    case ExecuteAdminTransfer =>
      if HandoverDue(c.adminTransfer, inv.height) then Done(c.(admin := c.adminTransfer.value.to, adminTransfer := None), [])
      else Throw
    case CancelAdminTransfer => When(admin, c.(adminTransfer := None))
    case ProposeGuardianTransfer(to) => When(admin && |to| >= 20, c.(guardianTransfer := Some(Handover(to, inv.height))))
    case ExecuteGuardianTransfer =>
      if HandoverDue(c.guardianTransfer, inv.height) then
        Done(c.(guardian := c.guardianTransfer.value.to, guardianTransfer := None), [])
      else Throw
    case CancelGuardianTransfer => When(admin, c.(guardianTransfer := None))
  }

  /** Native SOL is registered from the start and no token is ever unregistered. */
  predicate Valid(w: World) { w.Live? ==> NATIVE_SOL_MINT in w.c.tokens }

  function Step(rt: Runtime, w: World, inv: Invocation, call: Call): Outcome
    requires Valid(w)
  {
    match w
    case Live(c) => LiveStep(rt, c, inv, call)
    case Fresh =>
      if call.Initialize? && call.minValidators >= 1 then
        Done(InitialController(inv, call.guardian, call.minValidators), [Issue(inv.freshAsset, 8)])
      else Throw
  }

  lemma MintsKeepTokens(rt: Runtime, c: Controller, inv: Invocation, call: Call)
    requires NATIVE_SOL_MINT in c.tokens && (call.Mint? || call.ExecutePendingMint?) && LiveStep(rt, c, inv, call).Done?
    ensures c.tokens.Keys <= LiveStep(rt, c, inv, call).c.tokens.Keys
  {
    hide LegacyMintMessage, Quorum, DailyCheck, Scaled, DoMintToken, DoRegisterToken, DoRegisterValidator, DoRemoveValidator,
         DoBurnToken, DoBurn, Base58.Encode, NATIVE_SOL_MINT;
  }

  lemma MintTokenKeepsTokens(rt: Runtime, c: Controller, inv: Invocation, call: Call)
    requires call.MintToken? && DoMintToken(rt, c, inv, call).Done?
    ensures c.tokens.Keys <= DoMintToken(rt, c, inv, call).c.tokens.Keys
  {
    hide MintMessage, Quorum, DailyCheck, Scaled, Base58.Encode, NATIVE_SOL_MINT;
  }

  lemma BurnsKeepTokens(rt: Runtime, c: Controller, inv: Invocation, call: Call)
    requires NATIVE_SOL_MINT in c.tokens && (call.BurnToken? || call.Burn?) && LiveStep(rt, c, inv, call).Done?
    ensures c.tokens.Keys <= LiveStep(rt, c, inv, call).c.tokens.Keys
  {
    hide DoMintToken, DoMint, DoExecutePendingMint, DoRegisterToken, DoRegisterValidator, DoRemoveValidator, BurnId,
         Base58.Encode, NATIVE_SOL_MINT;
  }

  lemma TokensStay(rt: Runtime, c: Controller, inv: Invocation, call: Call)
    requires NATIVE_SOL_MINT in c.tokens && LiveStep(rt, c, inv, call).Done?
    ensures c.tokens.Keys <= LiveStep(rt, c, inv, call).c.tokens.Keys
  {
    hide DoMintToken, DoMint, DoExecutePendingMint, DoBurnToken, DoBurn, DivisorFor, Base58.Encode, NATIVE_SOL_MINT;
    if call.MintToken? {
      MintTokenKeepsTokens(rt, c, inv, call);
    } else if call.Mint? || call.ExecutePendingMint? {
      MintsKeepTokens(rt, c, inv, call);
    } else if call.BurnToken? || call.Burn? {
      BurnsKeepTokens(rt, c, inv, call);
    }
  }

  /** A transaction on the controller's account. */
  datatype Transaction = Transaction(inv: Invocation, call: Call)

  /** The world after a transaction: a callable that throws changes nothing. */
  function Next(rt: Runtime, w: World, tx: Transaction): (next: World)
    requires Valid(w)
    ensures Valid(next)
  {
    match Step(rt, w, tx.inv, tx.call)
    case Throw => w
    case Done(c, _) => if w.Live? then TokensStay(rt, w.c, tx.inv, tx.call); Live(c) else Live(c)
  }

  /** The world after a run from the uninitialised account. */
  function RunOf(rt: Runtime, txs: seq<Transaction>): (w: World)
    ensures Valid(w)
  {
    if txs == [] then Fresh else Next(rt, RunOf(rt, txs[..|txs| - 1]), txs[|txs| - 1])
  }
}
