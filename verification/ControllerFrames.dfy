/** What each kind of accepted call does to tokens, burns and the daily count: the frames the ledgers are built on. */
module ControllerFrames {
  import opened Bytes
  import opened ControllerState

  /** Calls that handle neither mints, burns nor tokens. */
  predicate Administrative(call: Call) {
    || call.RegisterValidator? || call.RemoveValidator? || call.EmergencyPause? || call.EmergencyResume?
    || call.UpdateMaxDailyMint? || call.UpdateMaxSingleMint?
    || call.ProposeAdminTransfer? || call.ExecuteAdminTransfer? || call.CancelAdminTransfer?
    || call.ProposeGuardianTransfer? || call.ExecuteGuardianTransfer? || call.CancelGuardianTransfer?
  }

  /** Their whole effect on money. */
  lemma AdministrativeFrame(rt: Runtime, c: Controller, inv: Invocation, call: Call)
    requires NATIVE_SOL_MINT in c.tokens && Administrative(call) && LiveStep(rt, c, inv, call).Done?
    ensures var o := LiveStep(rt, c, inv, call);
      && o.actions == [] && o.c.tokens == c.tokens && o.c.wsolAssetId == c.wsolAssetId
      && o.c.processed == c.processed && o.c.pending == c.pending && o.c.globalNonce == c.globalNonce
      && o.c.burnRecords == c.burnRecords && o.c.burnNonces == c.burnNonces
      && o.c.dailyMinted == c.dailyMinted && o.c.dailyResetHeight == c.dailyResetHeight
  {
    hide DoMintToken, DoMint, DoExecutePendingMint, DoBurnToken, DoBurn, DoRegisterToken, Base58.Encode, NATIVE_SOL_MINT;
  }

  predicate SameBurns(c: Controller, d: Controller) {
    d.burnRecords == c.burnRecords && d.burnNonces == c.burnNonces && d.wsolAssetId == c.wsolAssetId
  }

  /** The tokens after `amount` more units of one were issued. */
  predicate MoreIssued(tokens: map<string, TokenInfo>, later: map<string, TokenInfo>, mint: string, amount: i64) {
    && mint in tokens && CanAdd(tokens[mint].minted, amount)
    && later == tokens[mint := tokens[mint].(minted := tokens[mint].minted + amount)]
  }

  /** What a raw amount of a token comes to in units of its asset. */
  function UnitsOf(t: TokenInfo, raw: i64): i64
    requires raw >= 0
  {
    if t.divisor > 1 then Scaled(raw, t.divisor) else raw
  }

  lemma ScheduleFrame(rt: Runtime, c: Controller, inv: Invocation, call: Call)
    requires call.MintToken? && DoMintToken(rt, c, inv, call).Done? && call.amount >= LARGE_TX_THRESHOLD
    ensures var o, id := DoMintToken(rt, c, inv, call), call.transferId;
      && o.actions == [] && o.c.tokens == c.tokens && SameBurns(c, o.c) && id !in c.processed
      && call.splMint in c.tokens && id in o.c.pending && o.c.pending[id].amount == UnitsOf(c.tokens[call.splMint], call.amount)
  {
    hide MintMessage, Quorum, DailyCheck, Scaled, DoIssueNow;
  }

  lemma IssueNowFrame(rt: Runtime, c: Controller, inv: Invocation, call: Call)
    requires call.MintToken? && DoMintToken(rt, c, inv, call).Done? && call.amount < LARGE_TX_THRESHOLD
    ensures call.splMint in c.tokens && call.amount >= MIN_MINT_AMOUNT
    ensures var o, token := DoMintToken(rt, c, inv, call), c.tokens[call.splMint];
      var units := UnitsOf(token, call.amount);
      && o.actions == [Reissue(token.assetId, units), Transfer(call.recipient, units, token.assetId)]
      && MoreIssued(c.tokens, o.c.tokens, call.splMint, units) && SameBurns(c, o.c) && call.transferId !in c.processed
  {
    hide MintMessage, Quorum, DailyCheck, Scaled;
  }

  lemma LegacyFrame(rt: Runtime, c: Controller, inv: Invocation, call: Call)
    requires call.Mint? && NATIVE_SOL_MINT in c.tokens && DoMint(rt, c, inv, call).Done?
    ensures call.amount >= MIN_MINT_AMOUNT && c.tokens[NATIVE_SOL_MINT].divisor >= 1
    ensures var o, token := DoMint(rt, c, inv, call), c.tokens[NATIVE_SOL_MINT];
      var units := Scaled(call.amount, token.divisor);
      && o.actions == [Reissue(c.wsolAssetId, units), Transfer(call.recipient, units, c.wsolAssetId)]
      && MoreIssued(c.tokens, o.c.tokens, NATIVE_SOL_MINT, units) && SameBurns(c, o.c) && call.transferId !in c.processed
  {
    hide LegacyMintMessage, Quorum, DailyCheck, Scaled;
  }

  lemma ExecuteFrame(rt: Runtime, c: Controller, inv: Invocation, id: string)
    requires DoExecutePendingMint(rt, c, inv, id).Done?
    ensures id in c.pending && c.pending[id].splMint in c.tokens
    ensures var o, p := DoExecutePendingMint(rt, c, inv, id), c.pending[id];
      && o.actions == [Reissue(c.tokens[p.splMint].assetId, p.amount), Transfer(p.recipient, p.amount, c.tokens[p.splMint].assetId)]
      && MoreIssued(c.tokens, o.c.tokens, p.splMint, p.amount) && SameBurns(c, o.c)
  {
  }

  predicate Switched(c: Controller, o: Outcome, mint: string, enabled: bool)
    requires o.Done?
  {
    && mint in c.tokens && o.actions == []
    && o.c.tokens == c.tokens[mint := c.tokens[mint].(enabled := enabled)]
  }

  predicate Registered(c: Controller, o: Outcome, inv: Invocation, call: Call)
    requires o.Done? && call.RegisterToken?
  {
    var divisor := DivisorFor(call.solDecimals - call.dccDecimals);
    && call.splMint !in c.tokens && divisor.Some? && 0 <= call.dccDecimals <= 8 && 0 <= call.solDecimals <= 18
    && o.actions == [Issue(inv.freshAsset, call.dccDecimals)]
    && o.c.tokens == c.tokens[call.splMint :=
         TokenInfo(inv.freshAsset, call.tokenName, call.solDecimals, call.dccDecimals, divisor.value, true, 0, 0)]
  }

  /** The remaining calls that mint and burn nothing. */
  lemma RegistryFrame(rt: Runtime, c: Controller, inv: Invocation, call: Call)
    requires NATIVE_SOL_MINT in c.tokens && LiveStep(rt, c, inv, call).Done?
    requires call.RegisterToken? || call.SetTokenEnabled? || call.CancelPendingMint?
    ensures var o := LiveStep(rt, c, inv, call);
      && SameBurns(c, o.c)
      && (call.CancelPendingMint? ==> o.c.tokens == c.tokens && o.actions == [])
      && (call.SetTokenEnabled? ==> Switched(c, o, call.splMint, call.enabled))
      && (call.RegisterToken? ==> Registered(c, o, inv, call))
  {
    hide DoMintToken, DoMint, DoExecutePendingMint, DoBurnToken, DoBurn, DivisorFor;
  }

  /** Both burns: the caller pays units of the asset, which are burned and added to the token's total. */
  lemma BurnedFrame(rt: Runtime, c: Controller, inv: Invocation, solRecipient: string, mint: string, asset: string)
    requires mint in c.tokens && Burned(rt, c, inv, solRecipient, mint, asset).Done?
    ensures inv.payments != [] && inv.payments[0].amount >= MIN_MINT_AMOUNT
    ensures var o, amount := Burned(rt, c, inv, solRecipient, mint, asset), inv.payments[0].amount;
      && o.actions == [BurnAsset(asset, amount)] && o.c.wsolAssetId == c.wsolAssetId
      && CanAdd(c.tokens[mint].burned, amount)
      && o.c.tokens == c.tokens[mint := c.tokens[mint].(burned := c.tokens[mint].burned + amount)]
  {
    hide BurnId;
  }

  lemma LegacyBurnFrame(rt: Runtime, c: Controller, inv: Invocation, solRecipient: string)
    requires NATIVE_SOL_MINT in c.tokens && DoBurn(rt, c, inv, solRecipient).Done?
    ensures var o, b := DoBurn(rt, c, inv, solRecipient), Burned(rt, c, inv, solRecipient, NATIVE_SOL_MINT, c.wsolAssetId);
      && b.Done? && o.actions == b.actions
      && o.c.tokens == b.c.tokens && o.c.burnRecords == b.c.burnRecords && o.c.burnNonces == b.c.burnNonces
      && o.c.wsolAssetId == b.c.wsolAssetId
  {
    hide Burned;
  }

  // ---------------------------------------------------------------------------------------------
  // What no mint touches
  // ---------------------------------------------------------------------------------------------

  predicate Mints(call: Call) { call.MintToken? || call.Mint? || call.ExecutePendingMint? }

  /** Roles, proposals, limits and both registries. */
  predicate SettingsKept(c: Controller, d: Controller) {
    && d.paused == c.paused && d.maxDailyMint == c.maxDailyMint && d.maxSingleMint == c.maxSingleMint
    && d.wsolAssetId == c.wsolAssetId && d.validatorSlots == c.validatorSlots
    && d.admin == c.admin && d.guardian == c.guardian
    && d.adminTransfer == c.adminTransfer && d.guardianTransfer == c.guardianTransfer
    && d.validatorActive == c.validatorActive && d.validatorCount == c.validatorCount && d.minValidators == c.minValidators
    && d.registeredTokenCount == c.registeredTokenCount && d.tokens.Keys == c.tokens.Keys
  }

  lemma IssueNowKeepsSettings(rt: Runtime, c: Controller, call: Call, mintAmount: i64, daily: (i64, i64))
    requires call.MintToken? && call.splMint in c.tokens && DoIssueNow(rt, c, call, mintAmount, daily).Done?
    ensures SettingsKept(c, DoIssueNow(rt, c, call, mintAmount, daily).c)
  {
  }

  lemma MintTokenKeepsSettings(rt: Runtime, c: Controller, inv: Invocation, call: Call)
    requires call.MintToken? && DoMintToken(rt, c, inv, call).Done?
    ensures SettingsKept(c, DoMintToken(rt, c, inv, call).c)
  {
    hide MayMint, DailyCheck, Scaled, MintMessage, DoIssueNow;
    var mint, amount := call.splMint, call.amount;
    MintTokenAmount(rt, c, inv, call);
    var mintAmount := if c.tokens[mint].divisor > 1 then Scaled(amount, c.tokens[mint].divisor) else amount;
    if amount < LARGE_TX_THRESHOLD {
      var daily := DailyCheck(c.dailyMinted, c.dailyResetHeight, c.maxDailyMint, inv.height, amount).value;
      IssueNowKeepsSettings(rt, c, call, mintAmount, daily);
    }
  }

  lemma MintTokenAmount(rt: Runtime, c: Controller, inv: Invocation, call: Call)
    requires call.MintToken? && DoMintToken(rt, c, inv, call).Done?
    ensures call.splMint in c.tokens && call.amount >= 0
  {
    hide Quorum, DailyCheck, Scaled, MintMessage, DoIssueNow;
  }

  lemma MintKeepsSettings(rt: Runtime, c: Controller, inv: Invocation, call: Call)
    requires call.Mint? && NATIVE_SOL_MINT in c.tokens && DoMint(rt, c, inv, call).Done?
    ensures SettingsKept(c, DoMint(rt, c, inv, call).c)
  {
    hide MayMint, DailyCheck, Scaled, LegacyMintMessage;
  }

  lemma MintsKeepSettings(rt: Runtime, c: Controller, inv: Invocation, call: Call)
    requires NATIVE_SOL_MINT in c.tokens && Mints(call) && LiveStep(rt, c, inv, call).Done?
    ensures SettingsKept(c, LiveStep(rt, c, inv, call).c)
  {
    hide DoMintToken, DoMint;
    match call {
      case MintToken(_, _, _, _, _, _, _) => MintTokenKeepsSettings(rt, c, inv, call);
      case Mint(_, _, _, _, _, _) => MintKeepsSettings(rt, c, inv, call);
      case ExecutePendingMint(_) =>
    }
  }
}
