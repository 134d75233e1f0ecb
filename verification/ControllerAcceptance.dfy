/**
 * Which calls the controller accepts, over the fields of its records and the call's arguments alone, and the
 * token actions of those it accepts.
 */
module ControllerAcceptance {
  import opened Bytes
  import opened Options
  import opened Text
  import opened ControllerState
  import Base58
  import MessageLayouts

  /** The text the validators sign for mintToken. */
  function MintTokenText(call: Call): string
    requires call.MintToken?
  {
    "SOL_DCC_BRIDGE_V2" + "|" + "MINT" + "|" + call.transferId + "|" + call.recipient + "|" + IntText(call.amount)
    + "|" + IntText(call.solSlot) + "|" + call.splMint + "|" + "2"
  }

  /** The text the validators sign for the legacy mint. */
  function MintText(call: Call): string
    requires call.Mint?
  {
    "SOL_DCC_BRIDGE_V1" + "|" + "MINT" + "|" + call.transferId + "|" + call.recipient + "|" + IntText(call.amount)
    + "|" + IntText(call.solSlot) + "|" + "2"
  }

  /** As many signatures as keys and as asked for, and each of the first twenty an active validator's over the text. */
  predicate EnoughSigned(rt: Runtime, c: Controller, text: string, signatures: seq<seq<byte>>, pubkeys: seq<seq<byte>>) {
    && c.minValidators <= |signatures| == |pubkeys| && c.minValidators <= 20
    && forall i :: 0 <= i < |signatures| && i < 20 ==>
         && Base58.Encode(pubkeys[i]) in c.validatorActive && c.validatorActive[Base58.Encode(pubkeys[i])]
         && (rt.sigVerify)(text, signatures[i], pubkeys[i])
  }

  /** Unpaused, under a new id, of an amount within bounds. */
  predicate MintInOrder(c: Controller, id: string, amount: i64) {
    !c.paused && id !in c.processed && 1000 <= amount <= c.maxSingleMint
  }

  /** The day's count with the amount, in a window of 1440 blocks that may just have passed. */
  function CountedWith(c: Controller, height: i64, amount: i64): int {
    amount as int + if height - c.dailyResetHeight >= 1440 then 0 else c.dailyMinted as int
  }

  predicate DailyRoom(c: Controller, height: i64, amount: i64) {
    Fits(height - c.dailyResetHeight) && Fits(CountedWith(c, height, amount)) && CountedWith(c, height, amount) <= c.maxDailyMint
  }

  /** The units of a token its raw amount comes to. */
  function Units(token: TokenInfo, amount: nat): int {
    if token.divisor > 1 then amount / token.divisor as nat else amount
  }

  predicate MayMintToken(rt: Runtime, c: Controller, inv: Invocation, call: Call)
    requires call.MintToken?
  {
    && call.splMint in c.tokens && c.tokens[call.splMint].enabled
    && MintInOrder(c, call.transferId, call.amount)
    && EnoughSigned(rt, c, MintTokenText(call), call.signatures, call.pubkeys)
    && DailyRoom(c, inv.height, call.amount)
    && var token, units := c.tokens[call.splMint], Units(c.tokens[call.splMint], call.amount);
    && units > 0
    && (call.amount < 50_000_000_000 ==>
          (rt.isAddress)(call.recipient) && Fits(token.minted + units) && Fits(c.globalNonce + 1))
  }

  predicate MayMint(rt: Runtime, c: Controller, inv: Invocation, call: Call)
    requires call.Mint? && NATIVE_SOL_MINT in c.tokens
  {
    && MintInOrder(c, call.transferId, call.amount)
    && EnoughSigned(rt, c, MintText(call), call.signatures, call.pubkeys)
    && DailyRoom(c, inv.height, call.amount)
    && var token := c.tokens[NATIVE_SOL_MINT];
    && token.divisor > 0
    && var units := call.amount as int / token.divisor as int;
    && units > 0 && (rt.isAddress)(call.recipient)
    && Fits(c.totalMinted + units) && Fits(token.minted + units) && Fits(c.globalNonce + 1)
  }

  /** A pending mint at least sixty blocks old, of a registered token, to an address. */
  predicate MayExecutePending(rt: Runtime, c: Controller, inv: Invocation, id: string) {
    && !c.paused && id in c.pending
    && var p := c.pending[id];
    && 60 <= inv.height - p.height <= MAX_I64 && p.splMint in c.tokens && (rt.isAddress)(p.recipient)
    && Fits(c.tokens[p.splMint].minted + p.amount) && Fits(c.globalNonce + 1)
  }

  /** A payment of at least 1000 units of the asset, to a text as long as a Solana address. */
  predicate MayBurn(c: Controller, inv: Invocation, solRecipient: string, mint: string, asset: string)
    requires mint in c.tokens
  {
    && !c.paused && 32 <= |solRecipient| <= 44
    && inv.payments != [] && inv.payments[0].assetId == Some(asset) && 1000 <= inv.payments[0].amount
    && Fits(c.tokens[mint].burned + inv.payments[0].amount) && Fits(NonceOf(c, CallerText(inv)) + 1)
  }

  predicate MayRegisterToken(c: Controller, mint: string, sol: i64, dcc: i64) {
    && mint !in c.tokens && 32 <= |mint| <= 44 && 0 <= dcc <= 8 && 0 <= sol <= 18 && sol - dcc <= 10
    && c.registeredTokenCount < 50
  }

  predicate Due(h: Option<Handover>, height: i64) { h.Some? && 2880 <= height - h.value.height <= MAX_I64 }

  predicate Active(c: Controller, pubkey: string) { pubkey in c.validatorActive && c.validatorActive[pubkey] }

  /** The calls that handle no amounts, by whom they are made. */
  predicate MayAdminister(c: Controller, inv: Invocation, call: Call) {
    var caller := Base58.Encode(inv.caller);
    match call
    case RegisterToken(mint, _, sol, dcc) => caller == c.admin && MayRegisterToken(c, mint, sol, dcc)
    case SetTokenEnabled(mint, _) => caller == c.admin && mint in c.tokens
    case RegisterValidator(p) => caller == c.admin && !Active(c, p) && c.validatorCount < 20
    case RemoveValidator(p) => caller == c.admin && Active(c, p) && MIN_I64 < c.validatorCount && c.minValidators < c.validatorCount
    case CancelPendingMint(_) => caller == c.admin || caller == c.guardian
    case EmergencyPause => caller == c.admin || caller == c.guardian
    case EmergencyResume => caller == c.admin
    case UpdateMaxDailyMint(m) => caller == c.admin && m > 0
    case UpdateMaxSingleMint(m) => caller == c.admin && m > 0
    case ProposeAdminTransfer(to) => caller == c.admin && |to| >= 20
    case CancelAdminTransfer => caller == c.admin
    case ProposeGuardianTransfer(to) => caller == c.admin && |to| >= 20
    case CancelGuardianTransfer => caller == c.admin
    case ExecuteAdminTransfer => Due(c.adminTransfer, inv.height)
    case ExecuteGuardianTransfer => Due(c.guardianTransfer, inv.height)
    case _ => false
  }

  predicate Acceptable(rt: Runtime, c: Controller, inv: Invocation, call: Call)
    requires NATIVE_SOL_MINT in c.tokens
  {
    match call
    case MintToken(_, _, _, _, _, _, _) => MayMintToken(rt, c, inv, call)
    case Mint(_, _, _, _, _, _) => MayMint(rt, c, inv, call)
    case ExecutePendingMint(id) => MayExecutePending(rt, c, inv, id)
    case BurnToken(r, mint) => mint in c.tokens && MayBurn(c, inv, r, mint, c.tokens[mint].assetId)
    case Burn(r) =>
      MayBurn(c, inv, r, NATIVE_SOL_MINT, c.wsolAssetId) && Fits(c.totalBurned + inv.payments[0].amount)
    case _ => MayAdminister(c, inv, call)
  }

  lemma QuorumExactly(rt: Runtime, c: Controller, text: string, signatures: seq<seq<byte>>, pubkeys: seq<seq<byte>>)
    ensures EnoughSigned(rt, c, text, signatures, pubkeys)
       <==> Quorum(rt, c.validatorActive, text, signatures, pubkeys, c.minValidators)
  {
    hide Base58.Encode;
  }

  lemma DailyExactly(c: Controller, height: i64, amount: i64)
    ensures DailyRoom(c, height, amount)
       <==> DailyCheck(c.dailyMinted, c.dailyResetHeight, c.maxDailyMint, height, amount).Some?
  {
  }

  lemma Two()
    ensures IntText(2) == "2"
  {
  }

  lemma MintTokenWords(call: Call)
    requires call.MintToken?
    ensures MintTokenText(call)
         == MintMessage(call.transferId, call.recipient, call.amount, call.solSlot, call.splMint, DCC_CHAIN_ID)
  {
    hide MintMessage, IntText;
    Two();
    MessageLayouts.MintText(call.transferId, call.recipient, call.amount, call.solSlot, call.splMint, DCC_CHAIN_ID);
  }

  lemma MintWords(call: Call)
    requires call.Mint?
    ensures MintText(call) == LegacyMintMessage(call.transferId, call.recipient, call.amount, call.solSlot, DCC_CHAIN_ID)
  {
    hide LegacyMintMessage, IntText;
    Two();
    MessageLayouts.LegacyMintText(call.transferId, call.recipient, call.amount, call.solSlot, DCC_CHAIN_ID);
  }

  lemma MintTokenExactly(rt: Runtime, c: Controller, inv: Invocation, call: Call)
    requires call.MintToken?
    ensures DoMintToken(rt, c, inv, call).Done? <==> MayMintToken(rt, c, inv, call)
  {
    hide MintMessage, Quorum, EnoughSigned, DailyCheck, DailyRoom, MintTokenText;
    MintTokenWords(call);
    QuorumExactly(rt, c, MintTokenText(call), call.signatures, call.pubkeys);
    DailyExactly(c, inv.height, call.amount);
  }

  lemma MintExactly(rt: Runtime, c: Controller, inv: Invocation, call: Call)
    requires call.Mint? && NATIVE_SOL_MINT in c.tokens
    ensures DoMint(rt, c, inv, call).Done? <==> MayMint(rt, c, inv, call)
  {
    hide LegacyMintMessage, Quorum, EnoughSigned, DailyCheck, DailyRoom, MintText;
    MintWords(call);
    QuorumExactly(rt, c, MintText(call), call.signatures, call.pubkeys);
    DailyExactly(c, inv.height, call.amount);
  }

  lemma PendingExactly(rt: Runtime, c: Controller, inv: Invocation, id: string)
    ensures DoExecutePendingMint(rt, c, inv, id).Done? <==> MayExecutePending(rt, c, inv, id)
  {
  }

  lemma BurnsExactly(rt: Runtime, c: Controller, inv: Invocation, call: Call)
    requires NATIVE_SOL_MINT in c.tokens && (call.BurnToken? || call.Burn?)
    ensures LiveStep(rt, c, inv, call).Done? <==> Acceptable(rt, c, inv, call)
  {
    hide BurnId, Base58.Encode, NATIVE_SOL_MINT, DoMintToken, DoMint, DoExecutePendingMint;
  }

  lemma AdministrationExactly(rt: Runtime, c: Controller, inv: Invocation, call: Call)
    requires NATIVE_SOL_MINT in c.tokens && !Moves(call)
    ensures LiveStep(rt, c, inv, call).Done? <==> MayAdminister(c, inv, call)
  {
    hide Base58.Encode, NATIVE_SOL_MINT, DoMintToken, DoMint, DoExecutePendingMint, DoBurnToken, DoBurn;
  }

  predicate Moves(call: Call) { call.MintToken? || call.Mint? || call.ExecutePendingMint? || call.BurnToken? || call.Burn? }

  /** The controller accepts a call if and only if its arguments, the caller and the records are as listed. */
  lemma AcceptedExactly(rt: Runtime, c: Controller, inv: Invocation, call: Call)
    requires NATIVE_SOL_MINT in c.tokens
    ensures LiveStep(rt, c, inv, call).Done? <==> Acceptable(rt, c, inv, call)
  {
    hide NATIVE_SOL_MINT, DoMintToken, DoMint, DoExecutePendingMint, DoBurnToken, DoBurn, MayMintToken, MayMint,
         MayExecutePending, MayBurn, MayAdminister, DoRegisterToken, DoRegisterValidator, DoRemoveValidator;
    match call
    case MintToken(_, _, _, _, _, _, _) => MintTokenExactly(rt, c, inv, call);
    case Mint(_, _, _, _, _, _) => MintExactly(rt, c, inv, call);
    case ExecutePendingMint(id) => PendingExactly(rt, c, inv, id);
    case BurnToken(_, _) => BurnsExactly(rt, c, inv, call);
    case Burn(_) => BurnsExactly(rt, c, inv, call);
    case _ => AdministrationExactly(rt, c, inv, call);
  }

  /** An uninitialised account accepts its initialization alone, asking for one validator at least. */
  lemma FreshExactly(rt: Runtime, inv: Invocation, call: Call)
    ensures Step(rt, Fresh, inv, call).Done? <==> call.Initialize? && call.minValidators >= 1
  {
  }

  // ---------------------------------------------------------------------------------------------
  // Token actions
  // ---------------------------------------------------------------------------------------------

  function Issued(asset: string, units: i64, recipient: string): seq<Action> {
    [Reissue(asset, units), Transfer(recipient, units, asset)]
  }

  /** An accepted call has just these token actions. */
  lemma ActionsExactly(rt: Runtime, c: Controller, inv: Invocation, call: Call)
    requires NATIVE_SOL_MINT in c.tokens && LiveStep(rt, c, inv, call).Done?
    ensures LiveStep(rt, c, inv, call).actions
         == match call
            case RegisterToken(_, _, _, dcc) => [Issue(inv.freshAsset, dcc)]
            case MintToken(_, recipient, amount, _, mint, _, _) =>
              if amount >= 50_000_000_000 then []
              else Issued(c.tokens[mint].assetId, Units(c.tokens[mint], amount), recipient)
            case Mint(_, recipient, amount, _, _, _) =>
              Issued(c.wsolAssetId, amount as int / c.tokens[NATIVE_SOL_MINT].divisor as int, recipient)
            case ExecutePendingMint(id) =>
              var p := c.pending[id]; Issued(c.tokens[p.splMint].assetId, p.amount, p.recipient)
            case BurnToken(_, mint) => [BurnAsset(c.tokens[mint].assetId, inv.payments[0].amount)]
            case Burn(_) => [BurnAsset(c.wsolAssetId, inv.payments[0].amount)]
            case _ => []
  {
  }
}
