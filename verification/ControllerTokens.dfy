/** The token ledger: supplies, divisors and what rounding keeps back. */
module ControllerTokens {
  import opened Bytes
  import opened ControllerFrames
  import opened ControllerHistory
  import opened ControllerMints
  import opened ControllerState
  import opened Sums
  import Base58

  function Pow10(n: nat): (p: nat)
    ensures p >= 1
  {
    if n == 0 then 1 else 10 * Pow10(n - 1)
  }

  function Excess(sol: int, dcc: int): nat { if sol > dcc then sol - dcc else 0 }

  /** The ladder of literals is the power of ten it is meant to be, and stops at ten digits. */
  lemma DivisorIsPower(diff: int)
    ensures DivisorFor(diff).Some? <==> diff <= 10
    ensures diff <= 10 ==> DivisorFor(diff).value == Pow10(Excess(diff, 0)) <= 10_000_000_000
  {
    assert Pow10(1) == 10 && Pow10(2) == 100 && Pow10(3) == 1000;
    assert Pow10(4) == 10000 && Pow10(5) == 100000;
    assert Pow10(6) == 1000000 && Pow10(7) == 10000000;
    assert Pow10(8) == 100000000 && Pow10(9) == 1000000000;
    assert Pow10(10) == 10000000000;
  }

  type TokenMap = map<string, TokenInfo>

  predicate DivisorSound(t: TokenInfo) {
    && 0 <= t.dccDecimals <= 8 && 0 <= t.solDecimals <= 18
    && t.divisor == Pow10(Excess(t.solDecimals, t.dccDecimals)) <= 10_000_000_000
  }

  /** Rounding down keeps back less than one unit of the asset. */
  predicate Rounded(m: MintRecord, divisor: int) {
    m.raw >= 0 && m.amount >= 0 && 0 <= m.raw - divisor * m.amount <= divisor - 1
  }

  predicate OfToken(m: MintRecord, mint: string) { m.splMint == mint && m.raw >= 0 && m.amount >= 0 }

  function RawOf(mint: string): MintRecord -> nat { (m: MintRecord) => if OfToken(m, mint) then m.raw else 0 }

  function UnitsAs(mint: string, status: Status): MintRecord -> nat {
    (m: MintRecord) => if OfToken(m, mint) && m.status == status then m.amount else 0
  }

  function CountOf(mint: string): MintRecord -> nat { (m: MintRecord) => if OfToken(m, mint) then 1 else 0 }

  ghost function AcceptedRaw(mints: MintMap, mint: string): nat { SumOver(mints, RawOf(mint)) }

  ghost function Units(mints: MintMap, mint: string, status: Status): nat { SumOver(mints, UnitsAs(mint, status)) }

  ghost function Accepts(mints: MintMap, mint: string): nat { SumOver(mints, CountOf(mint)) }

  predicate DivisorsSound(tokens: TokenMap) { forall mint :: mint in tokens ==> DivisorSound(tokens[mint]) }

  predicate MintsRounded(tokens: TokenMap, mints: MintMap) {
    forall id :: id in mints ==> mints[id].splMint in tokens && Rounded(mints[id], tokens[mints[id].splMint].divisor)
  }

  ghost predicate TotalsAgree(tokens: TokenMap, mints: MintMap) {
    forall mint :: mint in tokens ==> tokens[mint].minted == Units(mints, mint, Issued)
  }

  ghost predicate TokenInv(c: Controller, mints: MintMap) {
    && NATIVE_SOL_MINT in c.tokens && c.wsolAssetId == c.tokens[NATIVE_SOL_MINT].assetId && c.tokens[NATIVE_SOL_MINT].divisor == 10
    && DivisorsSound(c.tokens)
    && MintsRounded(c.tokens, mints)
    && TotalsAgree(c.tokens, mints)
  }

  // ---------------------------------------------------------------------------------------------
  // Sums over mints
  // ---------------------------------------------------------------------------------------------

  lemma UnitsInsert(mints: MintMap, id: string, m: MintRecord, mint: string)
    requires id !in mints
    ensures Units(mints[id := m], mint, Issued) == Units(mints, mint, Issued) + UnitsAs(mint, Issued)(m)
  {
    SumInsert(mints, UnitsAs(mint, Issued), id, m);
  }

  lemma UnitsUpdate(mints: MintMap, id: string, m: MintRecord, mint: string)
    requires id in mints
    ensures Units(mints[id := m], mint, Issued)
         == Units(mints, mint, Issued) - UnitsAs(mint, Issued)(mints[id]) + UnitsAs(mint, Issued)(m)
  {
    SumUpdate(mints, UnitsAs(mint, Issued), id, m);
  }

  lemma ScaledRounds(raw: i64, divisor: i64)
    requires raw >= 0 && divisor >= 1
    ensures 0 <= raw - divisor * Scaled(raw, divisor) <= divisor - 1
  {
    var a: int, d: int := raw, divisor;
    assert a == a / d * d + a % d;
  }

  lemma UnitsRound(t: TokenInfo, raw: i64)
    requires raw >= 0 && DivisorSound(t)
    ensures 0 <= UnitsOf(t, raw) && 0 <= raw - t.divisor * UnitsOf(t, raw) <= t.divisor - 1
  {
    if t.divisor > 1 {
      ScaledRounds(raw, t.divisor);
    }
  }

  /** One more accepted mint, issued at once or waiting. */
  lemma OneMoreMint(tokens: TokenMap, later: TokenMap, mints: MintMap, id: string, m: MintRecord)
    requires MintsRounded(tokens, mints) && TotalsAgree(tokens, mints) && id !in mints
    requires m.splMint in tokens && Rounded(m, tokens[m.splMint].divisor)
    requires if m.status == Issued then Fits(m.amount) && MoreIssued(tokens, later, m.splMint, m.amount) else later == tokens
    ensures MintsRounded(later, mints[id := m]) && TotalsAgree(later, mints[id := m])
  {
    hide Rounded, Units;
    forall mint | mint in later ensures later[mint].minted == Units(mints[id := m], mint, Issued) {
      UnitsInsert(mints, id, m, mint);
      RoundedIsNonNegative(m, tokens[m.splMint].divisor);
    }
  }

  lemma RoundedIsNonNegative(m: MintRecord, divisor: int)
    requires Rounded(m, divisor)
    ensures m.raw >= 0 && m.amount >= 0
  {
  }

  /** A waiting mint issued or cancelled. */
  lemma OneSettled(tokens: TokenMap, later: TokenMap, mints: MintMap, id: string, status: Status)
    requires MintsRounded(tokens, mints) && TotalsAgree(tokens, mints) && id in mints && mints[id].status == Waiting
    requires Fits(mints[id].amount)
    requires if status == Issued then MoreIssued(tokens, later, mints[id].splMint, mints[id].amount) else later == tokens
    ensures MintsRounded(later, WithStatus(mints, id, status)) && TotalsAgree(later, WithStatus(mints, id, status))
  {
    hide Rounded, Units;
    var m := mints[id].(status := status);
    RoundedIsNonNegative(mints[id], tokens[mints[id].splMint].divisor);
    RoundedKept(mints[id], m, tokens[m.splMint].divisor);
    forall mint | mint in later ensures later[mint].minted == Units(mints[id := m], mint, Issued) {
      UnitsUpdate(mints, id, m, mint);
    }
  }

  lemma RoundedKept(m: MintRecord, n: MintRecord, divisor: int)
    requires Rounded(m, divisor) && n.raw == m.raw && n.amount == m.amount
    ensures Rounded(n, divisor)
  {
  }

  // ---------------------------------------------------------------------------------------------
  // The dust bound
  // ---------------------------------------------------------------------------------------------

  /** What `units` of an asset leave of `raw` units of its token, over `count` roundings. */
  predicate DustBound(raw: int, units: int, count: int, divisor: int) {
    0 <= raw - divisor * units <= (divisor - 1) * count
  }

  lemma DustStep(raw: nat, units: nat, count: nat, moreRaw: nat, moreUnits: nat, divisor: nat)
    requires divisor >= 1 && DustBound(raw, units, count, divisor) && DustBound(moreRaw, moreUnits, 1, divisor)
    ensures DustBound(raw + moreRaw, units + moreUnits, count + 1, divisor)
  {
    assert divisor * (units + moreUnits) == divisor * units + divisor * moreUnits;
    assert (divisor - 1) * (count + 1) == (divisor - 1) * count + (divisor - 1);
  }

  ghost function AllUnits(mints: MintMap, mint: string): nat {
    Units(mints, mint, Issued) + Units(mints, mint, Waiting) + Units(mints, mint, Cancelled)
  }

  /** One mint's part of the three sums. */
  lemma SumsRemove(mints: MintMap, mint: string, k: string)
    requires k in mints && (mints[k].splMint == mint ==> mints[k].raw >= 0 && mints[k].amount >= 0)
    ensures var m, rest := mints[k], mints - {k};
      var of := m.splMint == mint;
      && AcceptedRaw(mints, mint) == AcceptedRaw(rest, mint) + (if of then m.raw else 0)
      && Accepts(mints, mint) == Accepts(rest, mint) + (if of then 1 else 0)
      && AllUnits(mints, mint) == AllUnits(rest, mint) + (if of then m.amount else 0)
  {
    SumRemove(mints, RawOf(mint), k);
    SumRemove(mints, CountOf(mint), k);
    SumRemove(mints, UnitsAs(mint, Issued), k);
    SumRemove(mints, UnitsAs(mint, Waiting), k);
    SumRemove(mints, UnitsAs(mint, Cancelled), k);
  }

  /** Summed over all mints of a token: raw units less divisor times units, between nothing and divisor - 1 each. */
  lemma {:induction false} DustSum(mints: MintMap, mint: string, divisor: nat)
    requires divisor >= 1
    requires forall id :: id in mints && mints[id].splMint == mint ==> Rounded(mints[id], divisor)
    ensures DustBound(AcceptedRaw(mints, mint), AllUnits(mints, mint), Accepts(mints, mint), divisor)
    decreases |mints|
  {
    hide SumOver, Units, AllUnits, Rounded, DustBound, AcceptedRaw, Accepts;
    if mints == map[] {
      NothingSums(mint, divisor);
    } else {
      var k :| k in mints;
      var m, rest := mints[k], mints - {k};
      DustSum(rest, mint, divisor);
      if m.splMint == mint {
        RoundedIsDust(m, divisor);
        DustStep(AcceptedRaw(rest, mint), AllUnits(rest, mint), Accepts(rest, mint), m.raw, m.amount, divisor);
      }
      SumsRemove(mints, mint, k);
    }
  }

  lemma RoundedIsDust(m: MintRecord, divisor: int)
    requires Rounded(m, divisor)
    ensures m.raw >= 0 && m.amount >= 0 && DustBound(m.raw, m.amount, 1, divisor)
  {
  }

  lemma NothingSums(mint: string, divisor: nat)
    ensures DustBound(AcceptedRaw(map[], mint), AllUnits(map[], mint), Accepts(map[], mint), divisor)
  {
  }

  // ---------------------------------------------------------------------------------------------
  // Each callable
  // ---------------------------------------------------------------------------------------------

  lemma MintTokenKeepsTotals(rt: Runtime, c: Controller, h: History, tx: Transaction)
    requires tx.call.MintToken? && TokenInv(c, h.mints) && c.processed == h.mints.Keys
    requires DoMintToken(rt, c, tx.inv, tx.call).Done?
    ensures var o := DoMintToken(rt, c, tx.inv, tx.call); TokenInv(o.c, Observed(h, tx, o.c, o.actions).mints)
  {
    hide DoMintToken, Rounded, UnitsOf, TotalsAgree, MintsRounded, SupplyAfter;
    var o, mint := DoMintToken(rt, c, tx.inv, tx.call), tx.call.splMint;
    MintTokenSound(rt, c, tx.inv, tx.call);
    UnitsRound(c.tokens[mint], tx.call.amount);
    var m := Accepted(tx.call, o.c, tx.inv, TransferIn(o.actions));
    if tx.call.amount >= LARGE_TX_THRESHOLD {
      ScheduleFrame(rt, c, tx.inv, tx.call);
    } else {
      IssueNowFrame(rt, c, tx.inv, tx.call);
    }
    MakesRounded(m, c.tokens[mint].divisor);
    OneMoreMint(c.tokens, o.c.tokens, h.mints, tx.call.transferId, m);
  }

  lemma MakesRounded(m: MintRecord, divisor: int)
    requires m.raw >= 0 && m.amount >= 0 && 0 <= m.raw - divisor * m.amount <= divisor - 1
    ensures Rounded(m, divisor)
  {
  }

  lemma MintTokenSound(rt: Runtime, c: Controller, inv: Invocation, call: Call)
    requires call.MintToken? && DoMintToken(rt, c, inv, call).Done?
    ensures call.splMint in c.tokens && call.amount >= MIN_MINT_AMOUNT
  {
    hide MintMessage, Quorum, DailyCheck, Scaled, DoIssueNow;
  }

  lemma MintKeepsTotals(rt: Runtime, c: Controller, h: History, tx: Transaction)
    requires tx.call.Mint? && TokenInv(c, h.mints) && c.processed == h.mints.Keys
    requires DoMint(rt, c, tx.inv, tx.call).Done?
    ensures var o := DoMint(rt, c, tx.inv, tx.call); TokenInv(o.c, Observed(h, tx, o.c, o.actions).mints)
  {
    hide DoMint, Rounded, TotalsAgree, MintsRounded, SupplyAfter, Scaled;
    var o, divisor := DoMint(rt, c, tx.inv, tx.call), c.tokens[NATIVE_SOL_MINT].divisor;
    LegacyFrame(rt, c, tx.inv, tx.call);
    ScaledRounds(tx.call.amount, divisor);
    var m := Accepted(tx.call, o.c, tx.inv, TransferIn(o.actions));
    MakesRounded(m, divisor);
    OneMoreMint(c.tokens, o.c.tokens, h.mints, tx.call.transferId, m);
  }

  lemma ExecuteKeepsTotals(rt: Runtime, c: Controller, h: History, tx: Transaction)
    requires tx.call.ExecutePendingMint? && TokenInv(c, h.mints) && PendingMatches(c.pending, h.mints)
    requires DoExecutePendingMint(rt, c, tx.inv, tx.call.transferId).Done?
    ensures var o := DoExecutePendingMint(rt, c, tx.inv, tx.call.transferId);
      TokenInv(o.c, Observed(h, tx, o.c, o.actions).mints)
  {
    hide DoExecutePendingMint, Rounded, TotalsAgree, MintsRounded, SupplyAfter, NATIVE_SOL_MINT;
    var id := tx.call.transferId;
    ExecuteFrame(rt, c, tx.inv, id);
    OneSettled(c.tokens, DoExecutePendingMint(rt, c, tx.inv, id).c.tokens, h.mints, id, Issued);
  }

  predicate SameFixedFields(t: TokenInfo, u: TokenInfo) {
    && u.assetId == t.assetId && u.divisor == t.divisor
    && u.solDecimals == t.solDecimals && u.dccDecimals == t.dccDecimals
  }

  /** Totals of known tokens and their fixed fields stay; a new token starts at zero with a sound divisor. */
  predicate TotalsKept(tokens: TokenMap, later: TokenMap) {
    && (forall t :: t in tokens ==> t in later && later[t].minted == tokens[t].minted && SameFixedFields(tokens[t], later[t]))
    && (forall t :: t in later && t !in tokens ==> later[t].minted == 0 && DivisorSound(later[t]))
  }

  lemma KeptTotals(tokens: TokenMap, later: TokenMap, mints: MintMap)
    requires MintsRounded(tokens, mints) && TotalsAgree(tokens, mints) && DivisorsSound(tokens) && TotalsKept(tokens, later)
    ensures MintsRounded(later, mints) && TotalsAgree(later, mints) && DivisorsSound(later)
  {
    hide Rounded, Pow10;
    forall t | t in later ensures later[t].minted == Units(mints, t, Issued) {
      if t !in tokens {
        SumZero(mints, UnitsAs(t, Issued));
      }
    }
  }

  lemma BurnsKeepTotals(rt: Runtime, c: Controller, inv: Invocation, call: Call)
    requires NATIVE_SOL_MINT in c.tokens && LiveStep(rt, c, inv, call).Done? && (call.BurnToken? || call.Burn?)
    ensures var d := LiveStep(rt, c, inv, call).c; TotalsKept(c.tokens, d.tokens) && d.wsolAssetId == c.wsolAssetId
  {
    hide DoMintToken, DoMint, DoExecutePendingMint, DoRegisterToken, DoRegisterValidator, DoRemoveValidator, DoBurn, Burned,
         DivisorSound, Base58.Encode, NATIVE_SOL_MINT;
    if call.BurnToken? {
      BurnedFrame(rt, c, inv, call.solRecipient, call.splMint, c.tokens[call.splMint].assetId);
    } else {
      LegacyBurnFrame(rt, c, inv, call.solRecipient);
      BurnedFrame(rt, c, inv, call.solRecipient, NATIVE_SOL_MINT, c.wsolAssetId);
    }
  }

  lemma RegistryKeepsTotals(rt: Runtime, c: Controller, inv: Invocation, call: Call)
    requires NATIVE_SOL_MINT in c.tokens && LiveStep(rt, c, inv, call).Done?
    requires call.RegisterToken? || call.SetTokenEnabled? || call.CancelPendingMint?
    ensures var d := LiveStep(rt, c, inv, call).c; TotalsKept(c.tokens, d.tokens) && d.wsolAssetId == c.wsolAssetId
  {
    hide LiveStep, DivisorFor, Pow10, NATIVE_SOL_MINT;
    RegistryFrame(rt, c, inv, call);
    if call.RegisterToken? {
      DivisorIsPower(call.solDecimals - call.dccDecimals);
    }
  }

  lemma OthersKeepTotals(rt: Runtime, c: Controller, inv: Invocation, call: Call)
    requires NATIVE_SOL_MINT in c.tokens && LiveStep(rt, c, inv, call).Done?
    requires !IsMint(call) && !call.ExecutePendingMint?
    ensures var d := LiveStep(rt, c, inv, call).c; TotalsKept(c.tokens, d.tokens) && d.wsolAssetId == c.wsolAssetId
  {
    hide DoMintToken, DoMint, DoExecutePendingMint, DoRegisterToken, DoRegisterValidator, DoRemoveValidator, DoBurnToken, DoBurn,
         DivisorSound, Base58.Encode, NATIVE_SOL_MINT;
    if call.BurnToken? || call.Burn? {
      BurnsKeepTotals(rt, c, inv, call);
    } else if Administrative(call) {
      AdministrativeFrame(rt, c, inv, call);
    } else {
      RegistryKeepsTotals(rt, c, inv, call);
    }
  }

  lemma StepKeepsTotals(rt: Runtime, c: Controller, h: History, tx: Transaction)
    requires TokenInv(c, h.mints) && c.processed == h.mints.Keys && PendingMatches(c.pending, h.mints)
    requires LiveStep(rt, c, tx.inv, tx.call).Done?
    ensures var o := LiveStep(rt, c, tx.inv, tx.call); TokenInv(o.c, Observed(h, tx, o.c, o.actions).mints)
  {
    hide DoMintToken, DoMint, DoExecutePendingMint, DoBurnToken, DoBurn, SupplyAfter, MintsRounded, TotalsAgree, DivisorsSound;
    if tx.call.MintToken? {
      MintTokenKeepsTotals(rt, c, h, tx);
    } else if tx.call.Mint? {
      MintKeepsTotals(rt, c, h, tx);
    } else if tx.call.ExecutePendingMint? {
      ExecuteKeepsTotals(rt, c, h, tx);
    } else {
      var later := LiveStep(rt, c, tx.inv, tx.call).c.tokens;
      OthersKeepTotals(rt, c, tx.inv, tx.call);
      KeptTotals(c.tokens, later, h.mints);
      if tx.call.CancelPendingMint? && tx.call.transferId in c.pending {
        OneSettled(later, later, h.mints, tx.call.transferId, Cancelled);
      }
    }
  }
}
