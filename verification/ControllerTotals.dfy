/**
 * The controller's two global totals. Only the legacy `mint` and `burn` move them, while the token
 * callables mint and burn units of the same asset, so one need not cover the other.
 */
module ControllerTotals {
  import opened Bytes
  import opened Options
  import opened ControllerFrames
  import opened ControllerHistory
  import opened ControllerState

  /** Units of the native asset issued and burned, by the legacy callables and by the others. */
  datatype Flow = Flow(legacyIssued: int, tokenIssued: int, legacyBurned: int, tokenBurned: int)

  const NO_FLOW := Flow(0, 0, 0, 0)

  /** What the actions of an accepted call move. */
  function FlowOf(c: Controller, call: Call, actions: seq<Action>): Flow {
    var issued := if TransferIn(actions).Some? then TransferIn(actions).value.amount else 0;
    var burned := if actions != [] && actions[0].BurnAsset? then actions[0].amount else 0;
    match call
    case Mint(_, _, _, _, _, _) => Flow(issued, 0, 0, 0)
    case MintToken(_, _, _, _, mint, _, _) => if mint == NATIVE_SOL_MINT then Flow(0, issued, 0, 0) else NO_FLOW
    case ExecutePendingMint(id) =>
      if id in c.pending && c.pending[id].splMint == NATIVE_SOL_MINT then Flow(0, issued, 0, 0) else NO_FLOW
    case Burn(_) => Flow(0, 0, burned, 0)
    case BurnToken(_, mint) => if mint == NATIVE_SOL_MINT then Flow(0, 0, 0, burned) else NO_FLOW
    case _ => NO_FLOW
  }

  function Plus(f: Flow, g: Flow): Flow {
    Flow(f.legacyIssued + g.legacyIssued, f.tokenIssued + g.tokenIssued,
         f.legacyBurned + g.legacyBurned, f.tokenBurned + g.tokenBurned)
  }

  /** Everything the accepted calls of a run moved. */
  function Flows(rt: Runtime, txs: seq<Transaction>): Flow {
    if txs == [] then NO_FLOW
    else
      var front, tx := txs[..|txs| - 1], txs[|txs| - 1];
      var w := RunOf(rt, front);
      if w.Live? && LiveStep(rt, w.c, tx.inv, tx.call).Done? then
        Plus(Flows(rt, front), FlowOf(w.c, tx.call, LiveStep(rt, w.c, tx.inv, tx.call).actions))
      else Flows(rt, front)
  }

  /** The four counters are what moved. */
  predicate Counts(c: Controller, f: Flow) {
    && NATIVE_SOL_MINT in c.tokens
    && c.totalMinted == f.legacyIssued && c.totalBurned == f.legacyBurned
    && c.tokens[NATIVE_SOL_MINT].minted == f.legacyIssued + f.tokenIssued
    && c.tokens[NATIVE_SOL_MINT].burned == f.legacyBurned + f.tokenBurned && f.tokenBurned >= 0
  }

  predicate SameTotals(c: Controller, d: Controller) { d.totalMinted == c.totalMinted && d.totalBurned == c.totalBurned }

  lemma TransferOfIssue(asset: string, recipient: string, n: i64)
    ensures TransferIn([Reissue(asset, n), Transfer(recipient, n, asset)]) == Some(Transfer(recipient, n, asset))
    ensures TransferIn([]) == None
  {
  }

  lemma MintTokenTotals(rt: Runtime, c: Controller, inv: Invocation, call: Call)
    requires call.MintToken? && DoMintToken(rt, c, inv, call).Done?
    ensures SameTotals(c, DoMintToken(rt, c, inv, call).c)
  {
    hide MintMessage, Quorum, DailyCheck, Scaled;
  }

  lemma MintTokenCounts(rt: Runtime, c: Controller, inv: Invocation, call: Call, f: Flow)
    requires call.MintToken? && Counts(c, f) && DoMintToken(rt, c, inv, call).Done?
    ensures var o := DoMintToken(rt, c, inv, call); Counts(o.c, Plus(f, FlowOf(c, call, o.actions)))
  {
    hide DoMintToken, UnitsOf, TransferIn, NATIVE_SOL_MINT;
    MintTokenTotals(rt, c, inv, call);
    if call.amount >= LARGE_TX_THRESHOLD {
      ScheduleFrame(rt, c, inv, call);
      TransferOfIssue("", "", 0);
    } else {
      IssueNowFrame(rt, c, inv, call);
      var token := c.tokens[call.splMint];
      TransferOfIssue(token.assetId, call.recipient, UnitsOf(token, call.amount));
    }
  }

  lemma LegacyTotals(rt: Runtime, c: Controller, inv: Invocation, call: Call)
    requires call.Mint? && NATIVE_SOL_MINT in c.tokens && DoMint(rt, c, inv, call).Done?
    requires call.amount >= 0 && c.tokens[NATIVE_SOL_MINT].divisor >= 1
    ensures var d := DoMint(rt, c, inv, call).c;
      d.totalMinted == c.totalMinted + Scaled(call.amount, c.tokens[NATIVE_SOL_MINT].divisor) && d.totalBurned == c.totalBurned
  {
    hide LegacyMintMessage, Quorum, DailyCheck, Scaled;
  }

  lemma LegacyCounts(rt: Runtime, c: Controller, inv: Invocation, call: Call, f: Flow)
    requires call.Mint? && Counts(c, f) && DoMint(rt, c, inv, call).Done?
    ensures var o := DoMint(rt, c, inv, call); Counts(o.c, Plus(f, FlowOf(c, call, o.actions)))
  {
    hide DoMint, Scaled, TransferIn, NATIVE_SOL_MINT;
    LegacyFrame(rt, c, inv, call);
    LegacyTotals(rt, c, inv, call);
    TransferOfIssue(c.wsolAssetId, call.recipient, Scaled(call.amount, c.tokens[NATIVE_SOL_MINT].divisor));
  }

  lemma ExecuteTotals(rt: Runtime, c: Controller, inv: Invocation, id: string)
    requires DoExecutePendingMint(rt, c, inv, id).Done?
    ensures SameTotals(c, DoExecutePendingMint(rt, c, inv, id).c)
  {
  }

  lemma ExecuteCounts(rt: Runtime, c: Controller, inv: Invocation, call: Call, f: Flow)
    requires call.ExecutePendingMint? && Counts(c, f) && DoExecutePendingMint(rt, c, inv, call.transferId).Done?
    ensures var o := DoExecutePendingMint(rt, c, inv, call.transferId); Counts(o.c, Plus(f, FlowOf(c, call, o.actions)))
  {
    hide DoExecutePendingMint, TransferIn, NATIVE_SOL_MINT;
    ExecuteFrame(rt, c, inv, call.transferId);
    ExecuteTotals(rt, c, inv, call.transferId);
    var p := c.pending[call.transferId];
    TransferOfIssue(c.tokens[p.splMint].assetId, p.recipient, p.amount);
  }

  lemma BurnTotals(rt: Runtime, c: Controller, inv: Invocation, solRecipient: string, mint: string, asset: string)
    requires mint in c.tokens && Burned(rt, c, inv, solRecipient, mint, asset).Done?
    ensures SameTotals(c, Burned(rt, c, inv, solRecipient, mint, asset).c)
  {
    hide BurnId;
  }

  lemma BurnsCount(rt: Runtime, c: Controller, inv: Invocation, call: Call, f: Flow)
    requires (call.Burn? || call.BurnToken?) && Counts(c, f) && LiveStep(rt, c, inv, call).Done?
    ensures var o := LiveStep(rt, c, inv, call); Counts(o.c, Plus(f, FlowOf(c, call, o.actions)))
  {
    hide Burned, TransferIn, NATIVE_SOL_MINT, DoMintToken, DoMint, DoExecutePendingMint, DoRegisterToken, DoRegisterValidator,
         DoRemoveValidator;
    if call.Burn? {
      LegacyBurnFrame(rt, c, inv, call.solRecipient);
      BurnedFrame(rt, c, inv, call.solRecipient, NATIVE_SOL_MINT, c.wsolAssetId);
      BurnTotals(rt, c, inv, call.solRecipient, NATIVE_SOL_MINT, c.wsolAssetId);
    } else {
      BurnedFrame(rt, c, inv, call.solRecipient, call.splMint, c.tokens[call.splMint].assetId);
      BurnTotals(rt, c, inv, call.solRecipient, call.splMint, c.tokens[call.splMint].assetId);
    }
  }

  predicate MovesUnits(call: Call) { Mints(call) || call.BurnToken? || call.Burn? }

  lemma OtherTotals(rt: Runtime, c: Controller, inv: Invocation, call: Call)
    requires NATIVE_SOL_MINT in c.tokens && !MovesUnits(call) && LiveStep(rt, c, inv, call).Done?
    ensures SameTotals(c, LiveStep(rt, c, inv, call).c)
  {
    hide DoMintToken, DoMint, DoExecutePendingMint, DoBurnToken, DoBurn, DivisorFor, NATIVE_SOL_MINT;
  }

  lemma OthersCount(rt: Runtime, c: Controller, inv: Invocation, call: Call, f: Flow)
    requires Counts(c, f) && !MovesUnits(call) && LiveStep(rt, c, inv, call).Done?
    ensures Counts(LiveStep(rt, c, inv, call).c, f)
  {
    hide LiveStep, DivisorFor, NATIVE_SOL_MINT;
    OtherTotals(rt, c, inv, call);
    if Administrative(call) {
      AdministrativeFrame(rt, c, inv, call);
    } else if !call.Initialize? {
      RegistryFrame(rt, c, inv, call);
    } else {
      NoSecondInitialize(rt, c, inv, call);
    }
  }

  lemma NoSecondInitialize(rt: Runtime, c: Controller, inv: Invocation, call: Call)
    requires NATIVE_SOL_MINT in c.tokens && call.Initialize?
    ensures LiveStep(rt, c, inv, call) == Throw
  {
  }

  lemma StepCounts(rt: Runtime, c: Controller, inv: Invocation, call: Call, f: Flow)
    requires Counts(c, f) && LiveStep(rt, c, inv, call).Done?
    ensures var o := LiveStep(rt, c, inv, call); Counts(o.c, Plus(f, FlowOf(c, call, o.actions)))
  {
    hide Counts, TransferIn, DoMintToken, DoMint, DoExecutePendingMint, DoBurnToken, DoBurn, DoRegisterToken,
         DoRegisterValidator, DoRemoveValidator;
    if call.MintToken? {
      MintTokenCounts(rt, c, inv, call, f);
    } else if call.Mint? {
      LegacyCounts(rt, c, inv, call, f);
    } else if call.ExecutePendingMint? {
      ExecuteCounts(rt, c, inv, call, f);
    } else if call.Burn? || call.BurnToken? {
      BurnsCount(rt, c, inv, call, f);
    } else {
      OthersCount(rt, c, inv, call, f);
    }
  }

  /** In every run the four counters are the four flows. */
  lemma {:induction false} TotalsAreFlows(rt: Runtime, txs: seq<Transaction>)
    ensures match RunOf(rt, txs)
      case Fresh => Flows(rt, txs) == NO_FLOW
      case Live(c) => Counts(c, Flows(rt, txs))
  {
    hide LiveStep, FlowOf, Plus;
    if txs != [] {
      var front, tx := txs[..|txs| - 1], txs[|txs| - 1];
      TotalsAreFlows(rt, front);
      match RunOf(rt, front)
      case Fresh =>
      case Live(c) =>
        if LiveStep(rt, c, tx.inv, tx.call).Done? {
          StepCounts(rt, c, tx.inv, tx.call, Flows(rt, front));
        }
    }
  }

  // ---------------------------------------------------------------------------------------------
  // When the minted total covers the burned one
  // ---------------------------------------------------------------------------------------------

  predicate Covers(c: Controller) { c.totalMinted >= c.totalBurned }

  /** A legacy burn of more than legacy mints have left uncovered; the callable does not compare the two. */
  predicate Overburns(c: Controller, inv: Invocation, call: Call) {
    call.Burn? && inv.payments != [] && inv.payments[0].amount > c.totalMinted - c.totalBurned
  }

  lemma LegacyBurnTotals(rt: Runtime, c: Controller, inv: Invocation, solRecipient: string)
    requires NATIVE_SOL_MINT in c.tokens && DoBurn(rt, c, inv, solRecipient).Done?
    ensures inv.payments != []
    ensures var d := DoBurn(rt, c, inv, solRecipient).c;
      d.totalMinted == c.totalMinted && d.totalBurned == c.totalBurned + inv.payments[0].amount
  {
    hide Burned, NATIVE_SOL_MINT;
    LegacyBurnFrame(rt, c, inv, solRecipient);
    BurnedFrame(rt, c, inv, solRecipient, NATIVE_SOL_MINT, c.wsolAssetId);
    BurnTotals(rt, c, inv, solRecipient, NATIVE_SOL_MINT, c.wsolAssetId);
  }

  /** From a state whose minted total covers the burned one every accepted call leads to another, unless it overburns. */
  lemma CoverKept(rt: Runtime, c: Controller, inv: Invocation, call: Call)
    requires NATIVE_SOL_MINT in c.tokens && Covers(c) && LiveStep(rt, c, inv, call).Done?
    ensures Covers(LiveStep(rt, c, inv, call).c) <==> !Overburns(c, inv, call)
  {
    hide NATIVE_SOL_MINT, DoMintToken, DoMint, DoExecutePendingMint, Burned, DoBurn, DoRegisterToken, DoRegisterValidator,
         DoRemoveValidator, Scaled;
    if call.MintToken? {
      MintTokenTotals(rt, c, inv, call);
    } else if call.Mint? {
      LegacyFrame(rt, c, inv, call);
      LegacyTotals(rt, c, inv, call);
    } else if call.ExecutePendingMint? {
      ExecuteTotals(rt, c, inv, call.transferId);
    } else if call.BurnToken? {
      BurnTotals(rt, c, inv, call.solRecipient, call.splMint, c.tokens[call.splMint].assetId);
    } else if call.Burn? {
      LegacyBurnTotals(rt, c, inv, call.solRecipient);
    } else {
      OtherTotals(rt, c, inv, call);
    }
  }

  predicate WorldCovers(w: World) { w.Live? ==> Covers(w.c) }

  /** Transaction j of a run is an accepted legacy burn of more than its moment covers. */
  predicate OverburnsAt(rt: Runtime, txs: seq<Transaction>, j: nat)
    requires j < |txs|
  {
    var w, tx := RunOf(rt, txs[..j]), txs[j];
    w.Live? && LiveStep(rt, w.c, tx.inv, tx.call).Done? && Overburns(w.c, tx.inv, tx.call)
  }

  lemma CoverNext(rt: Runtime, txs: seq<Transaction>, j: nat)
    requires j < |txs| && WorldCovers(RunOf(rt, txs[..j]))
    ensures WorldCovers(RunOf(rt, txs[..j + 1])) <==> !OverburnsAt(rt, txs, j)
  {
    hide LiveStep, Covers, Overburns, NATIVE_SOL_MINT;
    assert txs[..j + 1][..j] == txs[..j];
    match RunOf(rt, txs[..j])
    case Fresh => InitialCovers(txs[j].inv);
    case Live(c) =>
      if LiveStep(rt, c, txs[j].inv, txs[j].call).Done? {
        CoverKept(rt, c, txs[j].inv, txs[j].call);
      }
  }

  lemma InitialCovers(inv: Invocation)
    ensures forall guardian, minValidators :: Covers(InitialController(inv, guardian, minValidators))
  {
  }

  lemma {:induction false} CoversUpTo(rt: Runtime, txs: seq<Transaction>, j: nat)
    requires j <= |txs| && forall i :: 0 <= i < |txs| ==> !OverburnsAt(rt, txs, i)
    ensures WorldCovers(RunOf(rt, txs[..j]))
  {
    hide LiveStep, Covers, OverburnsAt;
    if j > 0 {
      CoversUpTo(rt, txs, j - 1);
      CoverNext(rt, txs, j - 1);
    }
  }

  /**
   * Over whole runs: the global minted total covers the burned one in every state if and only if no
   * accepted legacy burn is of more than the two differ by at its moment.
   */
  lemma MintedCoversBurned(rt: Runtime, txs: seq<Transaction>)
    ensures (forall j :: 0 <= j <= |txs| ==> WorldCovers(RunOf(rt, txs[..j])))
       <==> (forall j :: 0 <= j < |txs| ==> !OverburnsAt(rt, txs, j))
  {
    hide RunOf, OverburnsAt, WorldCovers;
    if forall j :: 0 <= j < |txs| ==> !OverburnsAt(rt, txs, j) {
      forall j | 0 <= j <= |txs| ensures WorldCovers(RunOf(rt, txs[..j])) {
        CoversUpTo(rt, txs, j);
      }
    } else {
      var j :| 0 <= j < |txs| && OverburnsAt(rt, txs, j);
      if WorldCovers(RunOf(rt, txs[..j])) {
        CoverNext(rt, txs, j);
      }
    }
  }
}
