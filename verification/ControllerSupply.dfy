/** The supply of each token's asset against its totals, and the token ledger over any run. */
module ControllerSupply {
  import opened Bytes
  import opened ControllerFrames
  import opened ControllerHistory
  import opened ControllerMints
  import opened ControllerState
  import opened ControllerTokens

  type SupplyMap = map<string, int>

  /** Each registered token has its own asset, whose supply is what was minted less what was burned. */
  predicate SuppliesAgree(tokens: TokenMap, supply: SupplyMap) {
    && (forall mint :: mint in tokens ==>
          tokens[mint].assetId in supply && supply[tokens[mint].assetId] == tokens[mint].minted - tokens[mint].burned)
    && (forall mint, other :: mint in tokens && other in tokens && tokens[mint].assetId == tokens[other].assetId ==> mint == other)
  }

  /** One token's totals move by `net` units, and its asset's supply with them. */
  lemma OneMoves(tokens: TokenMap, later: TokenMap, supply: SupplyMap, mint: string, t: TokenInfo, net: int)
    requires SuppliesAgree(tokens, supply) && mint in tokens && later == tokens[mint := t]
    requires t.assetId == tokens[mint].assetId
    requires t.minted - t.burned == tokens[mint].minted - tokens[mint].burned + net
    ensures SuppliesAgree(later, supply[t.assetId := supply[t.assetId] + net])
  {
  }

  lemma NewToken(tokens: TokenMap, supply: SupplyMap, mint: string, t: TokenInfo)
    requires SuppliesAgree(tokens, supply) && mint !in tokens && t.assetId !in supply && t.minted == t.burned == 0
    ensures SuppliesAgree(tokens[mint := t], supply[t.assetId := 0])
  {
  }

  lemma SupplyOfReissue(supply: SupplyMap, asset: string, recipient: string, n: i64)
    requires asset in supply
    ensures SupplyAfter(supply, [Reissue(asset, n), Transfer(recipient, n, asset)]) == supply[asset := supply[asset] + n]
  {
    var reissue, both := [Reissue(asset, n)], [Reissue(asset, n), Transfer(recipient, n, asset)];
    assert reissue[..0] == [] && both[..1] == reissue;
    assert SupplyAfter(supply, reissue) == supply[asset := supply[asset] + n];
  }

  lemma SupplyOfOne(supply: SupplyMap, a: Action)
    requires a.Issue? || (a.BurnAsset? && a.assetId in supply)
    ensures SupplyAfter(supply, [a]) == supply[a.assetId := if a.Issue? then 0 else supply[a.assetId] - a.amount]
  {
    assert [a][..0] == [];
  }

  /** The calls that issue an asset. */
  predicate IssuesAsset(call: Call) { call.Initialize? || call.RegisterToken? }

  lemma IssueKeepsSupply(rt: Runtime, c: Controller, supply: SupplyMap, inv: Invocation, call: Call)
    requires NATIVE_SOL_MINT in c.tokens && c.wsolAssetId == c.tokens[NATIVE_SOL_MINT].assetId && SuppliesAgree(c.tokens, supply)
    requires (IsMint(call) || call.ExecutePendingMint?) && LiveStep(rt, c, inv, call).Done?
    ensures var o := LiveStep(rt, c, inv, call); var after := SupplyAfter(supply, o.actions);
      SuppliesAgree(o.c.tokens, after) && after.Keys == supply.Keys
  {
    hide DoMintToken, DoMint, DoExecutePendingMint, DoRegisterToken, DoBurnToken, DoBurn, SuppliesAgree, UnitsOf, Scaled;
    var o := LiveStep(rt, c, inv, call);
    if call.MintToken? && call.amount >= LARGE_TX_THRESHOLD {
      ScheduleFrame(rt, c, inv, call);
    } else if call.MintToken? {
      IssueNowFrame(rt, c, inv, call);
      ReissueKeeps(c.tokens, o.c.tokens, supply, call.splMint, call.recipient, UnitsOf(c.tokens[call.splMint], call.amount));
    } else if call.Mint? {
      LegacyFrame(rt, c, inv, call);
      ReissueKeeps(c.tokens, o.c.tokens, supply, NATIVE_SOL_MINT, call.recipient,
                   Scaled(call.amount, c.tokens[NATIVE_SOL_MINT].divisor));
    } else {
      ExecuteFrame(rt, c, inv, call.transferId);
      var p := c.pending[call.transferId];
      ReissueKeeps(c.tokens, o.c.tokens, supply, p.splMint, p.recipient, p.amount);
    }
  }

  lemma ReissueKeeps(tokens: TokenMap, later: TokenMap, supply: SupplyMap, mint: string, recipient: string, n: i64)
    requires SuppliesAgree(tokens, supply) && MoreIssued(tokens, later, mint, n)
    ensures var asset := tokens[mint].assetId;
      var after := SupplyAfter(supply, [Reissue(asset, n), Transfer(recipient, n, asset)]);
      SuppliesAgree(later, after) && after.Keys == supply.Keys
  {
    SupplyOfReissue(supply, tokens[mint].assetId, recipient, n);
    OneMoves(tokens, later, supply, mint, tokens[mint].(minted := tokens[mint].minted + n), n);
  }

  lemma BurnKeepsSupply(rt: Runtime, c: Controller, supply: SupplyMap, inv: Invocation,
                        solRecipient: string, mint: string, asset: string)
    requires mint in c.tokens && asset == c.tokens[mint].assetId && SuppliesAgree(c.tokens, supply)
    requires Burned(rt, c, inv, solRecipient, mint, asset).Done?
    ensures var o := Burned(rt, c, inv, solRecipient, mint, asset); var after := SupplyAfter(supply, o.actions);
      SuppliesAgree(o.c.tokens, after) && after.Keys == supply.Keys
  {
    hide Burned, SupplyAfter;
    BurnedFrame(rt, c, inv, solRecipient, mint, asset);
    var o, amount := Burned(rt, c, inv, solRecipient, mint, asset), inv.payments[0].amount;
    SupplyOfOne(supply, BurnAsset(asset, amount));
    OneMoves(c.tokens, o.c.tokens, supply, mint, c.tokens[mint].(burned := c.tokens[mint].burned + amount), -amount);
  }

  lemma RegistryKeepsSupply(rt: Runtime, c: Controller, supply: SupplyMap, inv: Invocation, call: Call)
    requires NATIVE_SOL_MINT in c.tokens && SuppliesAgree(c.tokens, supply) && LiveStep(rt, c, inv, call).Done?
    requires call.RegisterToken? || call.SetTokenEnabled? || call.CancelPendingMint?
    requires call.RegisterToken? ==> inv.freshAsset !in supply
    ensures var o := LiveStep(rt, c, inv, call); var after := SupplyAfter(supply, o.actions);
      SuppliesAgree(o.c.tokens, after) && after.Keys <= supply.Keys + if IssuesAsset(call) then {inv.freshAsset} else {}
  {
    hide DoMintToken, DoMint, DoExecutePendingMint, DoRegisterToken, DoBurnToken, DoBurn, DivisorFor;
    RegistryFrame(rt, c, inv, call);
    var o := LiveStep(rt, c, inv, call);
    if call.RegisterToken? {
      SupplyOfOne(supply, Issue(inv.freshAsset, call.dccDecimals));
      NewToken(c.tokens, supply, call.splMint, o.c.tokens[call.splMint]);
    } else if call.SetTokenEnabled? {
      OneMoves(c.tokens, o.c.tokens, supply, call.splMint, o.c.tokens[call.splMint], 0);
      assert supply[c.tokens[call.splMint].assetId := supply[c.tokens[call.splMint].assetId] + 0] == supply;
    }
  }

  lemma StepKeepsSupply(rt: Runtime, c: Controller, supply: SupplyMap, inv: Invocation, call: Call)
    requires NATIVE_SOL_MINT in c.tokens && c.wsolAssetId == c.tokens[NATIVE_SOL_MINT].assetId && SuppliesAgree(c.tokens, supply)
    requires LiveStep(rt, c, inv, call).Done? && (IssuesAsset(call) ==> inv.freshAsset !in supply)
    ensures var o := LiveStep(rt, c, inv, call); var after := SupplyAfter(supply, o.actions);
      SuppliesAgree(o.c.tokens, after) && after.Keys <= supply.Keys + if IssuesAsset(call) then {inv.freshAsset} else {}
  {
    hide DoMintToken, DoMint, DoExecutePendingMint, DoRegisterToken, DoBurn, Burned, SuppliesAgree;
    if IsMint(call) || call.ExecutePendingMint? {
      IssueKeepsSupply(rt, c, supply, inv, call);
    } else if call.BurnToken? {
      BurnKeepsSupply(rt, c, supply, inv, call.solRecipient, call.splMint, c.tokens[call.splMint].assetId);
    } else if call.Burn? {
      LegacyBurnFrame(rt, c, inv, call.solRecipient);
      BurnKeepsSupply(rt, c, supply, inv, call.solRecipient, NATIVE_SOL_MINT, c.wsolAssetId);
    } else if Administrative(call) {
      AdministrativeFrame(rt, c, inv, call);
    } else {
      RegistryKeepsSupply(rt, c, supply, inv, call);
    }
  }

  // ---------------------------------------------------------------------------------------------
  // Over any run
  // ---------------------------------------------------------------------------------------------

  /** Asset ids the chain computes in different transactions are different. */
  predicate FreshAssets(txs: seq<Transaction>) {
    forall i, j :: 0 <= i < j < |txs| && IssuesAsset(txs[i].call) && IssuesAsset(txs[j].call) ==>
      txs[i].inv.freshAsset != txs[j].inv.freshAsset
  }

  predicate IssuedIn(txs: seq<Transaction>, asset: string) {
    exists i :: 0 <= i < |txs| && IssuesAsset(txs[i].call) && txs[i].inv.freshAsset == asset
  }

  ghost predicate SupplyInv(txs: seq<Transaction>, c: Controller, supply: SupplyMap) {
    SuppliesAgree(c.tokens, supply) && forall a :: a in supply ==> IssuedIn(txs, a)
  }

  lemma FirstTotals(inv: Invocation, guardian: string, minValidators: i64)
    ensures var c := InitialController(inv, guardian, minValidators);
      TokenInv(c, map[]) && SuppliesAgree(c.tokens, SupplyAfter(map[], [Issue(inv.freshAsset, 8)]))
    ensures SupplyAfter(map[], [Issue(inv.freshAsset, 8)]) == map[inv.freshAsset := 0]
  {
    SupplyOfOne(map[], Issue(inv.freshAsset, 8));
    DivisorIsPower(1);
  }

  lemma IssuedInLater(txs: seq<Transaction>, asset: string)
    requires txs != [] && IssuedIn(txs[..|txs| - 1], asset)
    ensures IssuedIn(txs, asset)
  {
    var i :| 0 <= i < |txs| - 1 && IssuesAsset(txs[i].call) && txs[i].inv.freshAsset == asset;
    assert IssuesAsset(txs[i].call);
  }

  lemma SupplyStep(rt: Runtime, txs: seq<Transaction>, c: Controller, supply: SupplyMap)
    requires txs != [] && FreshAssets(txs) && TokenInv(c, HistoryOf(rt, txs[..|txs| - 1]).mints)
    requires SupplyInv(txs[..|txs| - 1], c, supply) && LiveStep(rt, c, txs[|txs| - 1].inv, txs[|txs| - 1].call).Done?
    ensures var tx := txs[|txs| - 1];
      var o := LiveStep(rt, c, tx.inv, tx.call); SupplyInv(txs, o.c, SupplyAfter(supply, o.actions))
  {
    hide LiveStep, SuppliesAgree, TotalsAgree, MintsRounded, DivisorsSound, SupplyAfter, HistoryOf;
    var tx := txs[|txs| - 1];
    assert IssuesAsset(tx.call) ==> !IssuedIn(txs[..|txs| - 1], tx.inv.freshAsset);
    StepKeepsSupply(rt, c, supply, tx.inv, tx.call);
    forall a | a in SupplyAfter(supply, LiveStep(rt, c, tx.inv, tx.call).actions) ensures IssuedIn(txs, a) {
      if a in supply { IssuedInLater(txs, a); } else { assert IssuesAsset(txs[|txs| - 1].call); }
    }
  }

  /** Both invariants, in every reachable state. */
  lemma {:induction false} TokenInvariants(rt: Runtime, txs: seq<Transaction>)
    requires FreshAssets(txs)
    ensures RunOf(rt, txs).Live? ==>
      TokenInv(RunOf(rt, txs).c, HistoryOf(rt, txs).mints) && SupplyInv(txs, RunOf(rt, txs).c, HistoryOf(rt, txs).supply)
    ensures RunOf(rt, txs).Fresh? ==> HistoryOf(rt, txs) == NOTHING
  {
    hide LiveStep, TokenInv, SupplyAfter, SuppliesAgree, MintsAfter;
    if txs != [] {
      var front, tx := txs[..|txs| - 1], txs[|txs| - 1];
      TokenInvariants(rt, front);
      MintAtMostOnce(rt, front);
      var w := RunOf(rt, front);
      if w.Live? {
        if LiveStep(rt, w.c, tx.inv, tx.call).Done? {
          StepKeepsTotals(rt, w.c, HistoryOf(rt, front), tx);
          SupplyStep(rt, txs, w.c, HistoryOf(rt, front).supply);
        } else {
          forall a | a in HistoryOf(rt, front).supply ensures IssuedIn(txs, a) { IssuedInLater(txs, a); }
        }
      } else if tx.call.Initialize? {
        FirstTotals(tx.inv, tx.call.guardian, tx.call.minValidators);
        assert IssuesAsset(txs[|txs| - 1].call);
      }
    }
  }

  /**
   * The token ledger, for every token registered in any reachable state: its divisor is
   * 10^max(0, solDecimals - dccDecimals), at most 10^10; the supply of its asset, as the chain counts
   * it, is what was minted less what was burned; and the raw units accepted for it exceed the divisor
   * times the units minted, pending and cancelled by at most divisor - 1 per accepted mint.
   */
  lemma TokenLedger(rt: Runtime, txs: seq<Transaction>, mint: string)
    requires FreshAssets(txs) && RunOf(rt, txs).Live? && mint in RunOf(rt, txs).c.tokens
    ensures var t, h := RunOf(rt, txs).c.tokens[mint], HistoryOf(rt, txs);
      && t.divisor == Pow10(Excess(t.solDecimals, t.dccDecimals)) <= 10_000_000_000
      && t.assetId in h.supply && h.supply[t.assetId] == t.minted - t.burned
      && t.minted == Units(h.mints, mint, Issued)
      && DustBound(AcceptedRaw(h.mints, mint), AllUnits(h.mints, mint), Accepts(h.mints, mint), t.divisor)
  {
    hide LiveStep, Step, RunOf, HistoryOf, Rounded, DustBound, Units;
    TokenInvariants(rt, txs);
    DustSum(HistoryOf(rt, txs).mints, mint, RunOf(rt, txs).c.tokens[mint].divisor);
  }

  /**
   * Never more face value than was deposited: minted units of 10^-dccDecimals each are worth at most the
   * accepted raw units of 10^-solDecimals each.
   */
  lemma FaceValue(rt: Runtime, txs: seq<Transaction>, mint: string)
    requires FreshAssets(txs) && RunOf(rt, txs).Live? && mint in RunOf(rt, txs).c.tokens
    ensures var t := RunOf(rt, txs).c.tokens[mint];
      0 <= t.dccDecimals && 0 <= t.solDecimals
      && t.minted * Pow10(t.solDecimals) <= AcceptedRaw(HistoryOf(rt, txs).mints, mint) * Pow10(t.dccDecimals)
  {
    hide LiveStep, Step, RunOf, HistoryOf, Rounded, Units;
    TokenInvariants(rt, txs);
    TokenLedger(rt, txs, mint);
    var t, mints := RunOf(rt, txs).c.tokens[mint], HistoryOf(rt, txs).mints;
    assert t.minted <= AllUnits(mints, mint);
    FaceArithmetic(AcceptedRaw(mints, mint), t.minted, AllUnits(mints, mint), Accepts(mints, mint), t.divisor,
                   t.solDecimals, t.dccDecimals);
  }

  lemma {:induction false} Pow10Splits(m: nat, n: nat)
    ensures Pow10(m + n) == Pow10(m) * Pow10(n)
  {
    if m > 0 {
      Pow10Splits(m - 1, n);
    }
  }

  lemma TimesMonotone(a: nat, b: nat, k: nat)
    requires a <= b
    ensures a * k <= b * k
  {
  }

  lemma FaceArithmetic(raw: nat, minted: nat, units: nat, count: nat, divisor: nat, sol: nat, dcc: nat)
    requires minted <= units && divisor == Pow10(Excess(sol, dcc)) && DustBound(raw, units, count, divisor)
    ensures minted * Pow10(sol) <= raw * Pow10(dcc)
  {
    hide Pow10;
    TimesMonotone(minted, units, divisor);
    if sol <= dcc { OneIsPower(); }
    if sol > dcc {
      Pow10Splits(sol - dcc, dcc);
      ScaledUp(minted, divisor, Pow10(dcc), raw);
    } else {
      Pow10Grows(sol, dcc);
      NotScaled(minted, raw, Pow10(sol), Pow10(dcc));
    }
  }

  lemma OneIsPower()
    ensures Pow10(0) == 1
  {
  }

  lemma ScaledUp(minted: nat, divisor: nat, unit: nat, raw: nat)
    requires minted * divisor <= raw
    ensures minted * (divisor * unit) <= raw * unit
  {
    TimesMonotone(minted * divisor, raw, unit);
    assert minted * divisor * unit == minted * (divisor * unit);
  }

  lemma NotScaled(minted: nat, raw: nat, low: nat, high: nat)
    requires minted <= raw && low <= high
    ensures minted * low <= raw * high
  {
    TimesMonotone(low, high, minted);
    TimesMonotone(minted, raw, high);
  }

  lemma Pow10Grows(m: nat, n: nat)
    requires m <= n
    ensures Pow10(m) <= Pow10(n)
  {
    Pow10Splits(n - m, m);
    TimesMonotone(1, Pow10(n - m), Pow10(m));
  }
}
