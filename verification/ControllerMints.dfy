/** Mints at most once: every transfer id is issued at most once, as recorded, and never after a cancellation. */
module ControllerMints {
  import opened Options
  import opened ControllerState
  import opened ControllerFrames
  import opened ControllerHistory
  import Base58

  type MintMap = map<string, MintRecord>
  type PendingMap = map<string, PendingMint>

  /** The controller's pending entries are exactly the mints that wait, with their data. */
  ghost predicate PendingMatches(pending: PendingMap, mints: MintMap) {
    && (forall id :: id in pending <==> id in mints && mints[id].status == Waiting)
    && (forall id :: id in pending ==>
          && pending[id].height == mints[id].height && pending[id].recipient == mints[id].recipient
          && pending[id].amount == mints[id].amount && pending[id].splMint == mints[id].splMint)
  }

  /** Accepted by mintToken at or above the threshold. */
  predicate Delayed(m: MintRecord) { !m.legacy && m.raw >= LARGE_TX_THRESHOLD }

  /** An issue carries out an accepted mint, with its recipient and amount, a delayed one not too soon, any other at once. */
  predicate CarriesOut(mints: MintMap, f: IssueFact) {
    && f.id in mints
    && var m := mints[f.id];
    && m.status == Issued && f.recipient == m.recipient && f.amount == m.amount
    && (if Delayed(m) then f.height - m.height >= LARGE_TX_DELAY_BLOCKS else f.height == m.height)
  }

  predicate IssuesMatch(mints: MintMap, issues: seq<IssueFact>) {
    forall i :: 0 <= i < |issues| ==> CarriesOut(mints, issues[i])
  }

  predicate IssuedOnce(issues: seq<IssueFact>) {
    forall i, j :: 0 <= i < j < |issues| ==> issues[i].id != issues[j].id
  }

  predicate HasIssue(issues: seq<IssueFact>, id: string) { exists i :: 0 <= i < |issues| && issues[i].id == id }

  /** No mint waits that was not to be delayed, and each issued one has its issue. */
  predicate StatusesEarned(mints: MintMap, issues: seq<IssueFact>) {
    forall id :: id in mints ==>
      && (mints[id].status == Issued ==> HasIssue(issues, id))
      && (mints[id].status != Issued ==> Delayed(mints[id]))
  }

  ghost predicate MintLedger(processed: set<string>, pending: PendingMap, nonce: int, mints: MintMap, issues: seq<IssueFact>) {
    && processed == mints.Keys
    && PendingMatches(pending, mints)
    && IssuesMatch(mints, issues)
    && IssuedOnce(issues)
    && StatusesEarned(mints, issues)
    && nonce == |issues|
  }

  ghost predicate MintInv(c: Controller, h: History) {
    MintLedger(c.processed, c.pending, c.globalNonce, h.mints, h.issues)
  }

  // ---------------------------------------------------------------------------------------------
  // What one call may do to the ledger
  // ---------------------------------------------------------------------------------------------

  lemma HasIssueMonotone(issues: seq<IssueFact>, f: IssueFact, id: string)
    requires HasIssue(issues, id) || f.id == id
    ensures HasIssue(issues + [f], id)
  {
    var all := issues + [f];
    if f.id == id {
      assert all[|issues|].id == id;
    } else {
      var i :| 0 <= i < |issues| && issues[i].id == id;
      assert all[i].id == id;
    }
  }

  /** A mint that is issued at once: its id was never seen before. */
  lemma AcceptNow(processed: set<string>, pending: PendingMap, nonce: int, mints: MintMap, issues: seq<IssueFact>,
                  m: MintRecord, f: IssueFact)
    requires MintLedger(processed, pending, nonce, mints, issues)
    requires f.id !in processed && CarriesOut(map[f.id := m], f) && !Delayed(m)
    ensures MintLedger(processed + {f.id}, pending, nonce + 1, mints[f.id := m], issues + [f])
  {
    var after, all := mints[f.id := m], issues + [f];
    forall id | id in after && after[id].status == Issued ensures HasIssue(all, id) {
      HasIssueMonotone(issues, f, id);
    }
  }

  lemma AcceptLater(processed: set<string>, pending: PendingMap, nonce: int, mints: MintMap, issues: seq<IssueFact>,
                    id: string, m: MintRecord, p: PendingMint)
    requires MintLedger(processed, pending, nonce, mints, issues)
    requires id !in processed && m.status == Waiting && Delayed(m) && PendingMatches(map[id := p], map[id := m])
    ensures MintLedger(processed + {id}, pending[id := p], nonce, mints[id := m], issues)
  {
    assert id in map[id := p];
  }

  /** A waiting mint that is issued: it was not issued before. */
  lemma IssueWaiting(processed: set<string>, pending: PendingMap, nonce: int, mints: MintMap, issues: seq<IssueFact>, f: IssueFact)
    requires MintLedger(processed, pending, nonce, mints, issues)
    requires f.id in pending && f.recipient == pending[f.id].recipient && f.amount == pending[f.id].amount
    requires f.height - pending[f.id].height >= LARGE_TX_DELAY_BLOCKS
    ensures MintLedger(processed, pending - {f.id}, nonce + 1, WithStatus(mints, f.id, Issued), issues + [f])
  {
    var after, all := WithStatus(mints, f.id, Issued), issues + [f];
    forall id | id in after && after[id].status == Issued ensures HasIssue(all, id) {
      HasIssueMonotone(issues, f, id);
    }
  }

  lemma CancelWaiting(processed: set<string>, pending: PendingMap, nonce: int, mints: MintMap, issues: seq<IssueFact>, id: string)
    requires MintLedger(processed, pending, nonce, mints, issues)
    ensures MintLedger(processed, pending - {id}, nonce, WithStatus(mints, id, Cancelled), issues)
  {
  }

  // ---------------------------------------------------------------------------------------------
  // Each callable
  // ---------------------------------------------------------------------------------------------

  lemma ScheduleKeeps(rt: Runtime, c: Controller, h: History, tx: Transaction)
    requires tx.call.MintToken? && MintInv(c, h) && DoMintToken(rt, c, tx.inv, tx.call).Done?
    requires tx.call.amount >= LARGE_TX_THRESHOLD
    ensures var o := DoMintToken(rt, c, tx.inv, tx.call); MintInv(o.c, Observed(h, tx, o.c, o.actions))
  {
    hide MintMessage, Quorum, DailyCheck, Scaled, MintLedger, DoIssueNow;
    var o, id := DoMintToken(rt, c, tx.inv, tx.call), tx.call.transferId;
    assert h.issues + [] == h.issues;
    AcceptLater(c.processed, c.pending, c.globalNonce, h.mints, h.issues, id, Accepted(tx.call, o.c, tx.inv, None),
                o.c.pending[id]);
  }

  lemma IssueNowKeeps(rt: Runtime, c: Controller, h: History, tx: Transaction)
    requires tx.call.MintToken? && MintInv(c, h) && DoMintToken(rt, c, tx.inv, tx.call).Done?
    requires tx.call.amount < LARGE_TX_THRESHOLD
    ensures var o := DoMintToken(rt, c, tx.inv, tx.call); MintInv(o.c, Observed(h, tx, o.c, o.actions))
  {
    hide MintMessage, Quorum, DailyCheck, Scaled, MintLedger;
    var o := DoMintToken(rt, c, tx.inv, tx.call);
    var transfer := TransferIn(o.actions);
    AcceptNow(c.processed, c.pending, c.globalNonce, h.mints, h.issues, Accepted(tx.call, o.c, tx.inv, transfer),
              IssuesIn(tx, transfer)[0]);
  }

  lemma MintKeeps(rt: Runtime, c: Controller, h: History, tx: Transaction)
    requires tx.call.Mint? && NATIVE_SOL_MINT in c.tokens && MintInv(c, h) && DoMint(rt, c, tx.inv, tx.call).Done?
    ensures var o := DoMint(rt, c, tx.inv, tx.call); MintInv(o.c, Observed(h, tx, o.c, o.actions))
  {
    hide LegacyMintMessage, Quorum, DailyCheck, Scaled, MintLedger;
    var o := DoMint(rt, c, tx.inv, tx.call);
    var m := Accepted(tx.call, o.c, tx.inv, TransferIn(o.actions));
    AcceptNow(c.processed, c.pending, c.globalNonce, h.mints, h.issues, m, IssuesIn(tx, TransferIn(o.actions))[0]);
  }

  lemma ExecuteKeeps(rt: Runtime, c: Controller, h: History, tx: Transaction)
    requires tx.call.ExecutePendingMint? && MintInv(c, h) && DoExecutePendingMint(rt, c, tx.inv, tx.call.transferId).Done?
    ensures var o := DoExecutePendingMint(rt, c, tx.inv, tx.call.transferId);
      MintInv(o.c, Observed(h, tx, o.c, o.actions))
  {
    hide MintLedger;
    var o := DoExecutePendingMint(rt, c, tx.inv, tx.call.transferId);
    IssueWaiting(c.processed, c.pending, c.globalNonce, h.mints, h.issues, IssuesIn(tx, TransferIn(o.actions))[0]);
  }

  predicate TouchesMints(call: Call) { IsMint(call) || call.ExecutePendingMint? || call.CancelPendingMint? }

  /** The other calls leave ids, pending entries and the nonce alone, and hand out nothing. */
  lemma OthersKeepMints(rt: Runtime, c: Controller, inv: Invocation, call: Call)
    requires !TouchesMints(call) && NATIVE_SOL_MINT in c.tokens && LiveStep(rt, c, inv, call).Done?
    ensures var o := LiveStep(rt, c, inv, call);
      && o.c.processed == c.processed && o.c.pending == c.pending && o.c.globalNonce == c.globalNonce
      && TransferIn(o.actions) == None
  {
    hide DoMintToken, DoMint, DoExecutePendingMint, DivisorFor, BurnId, Base58.Encode, NATIVE_SOL_MINT;
    if Administrative(call) {
      hide LiveStep;
      AdministrativeFrame(rt, c, inv, call);
    }
  }

  lemma OthersKeep(rt: Runtime, c: Controller, h: History, tx: Transaction)
    requires !TouchesMints(tx.call) && NATIVE_SOL_MINT in c.tokens && MintInv(c, h) && LiveStep(rt, c, tx.inv, tx.call).Done?
    ensures var o := LiveStep(rt, c, tx.inv, tx.call); MintInv(o.c, Observed(h, tx, o.c, o.actions))
  {
    hide MintLedger, LiveStep;
    assert h.issues + [] == h.issues;
    OthersKeepMints(rt, c, tx.inv, tx.call);
  }

  lemma CancelKeeps(rt: Runtime, c: Controller, h: History, tx: Transaction)
    requires tx.call.CancelPendingMint? && NATIVE_SOL_MINT in c.tokens && MintInv(c, h) && LiveStep(rt, c, tx.inv, tx.call).Done?
    ensures var o := LiveStep(rt, c, tx.inv, tx.call); MintInv(o.c, Observed(h, tx, o.c, o.actions))
  {
    hide MintLedger, DoMintToken, DoMint, DoExecutePendingMint, DoBurnToken, DoBurn;
    assert h.issues + [] == h.issues;
    CancelWaiting(c.processed, c.pending, c.globalNonce, h.mints, h.issues, tx.call.transferId);
  }

  lemma StepKeepsMints(rt: Runtime, c: Controller, h: History, tx: Transaction)
    requires NATIVE_SOL_MINT in c.tokens && MintInv(c, h) && LiveStep(rt, c, tx.inv, tx.call).Done?
    ensures var o := LiveStep(rt, c, tx.inv, tx.call); MintInv(o.c, Observed(h, tx, o.c, o.actions))
  {
    hide MintLedger, DoMintToken, DoMint, DoExecutePendingMint, DoBurnToken, DoBurn, Observed;
    match tx.call
    case MintToken(_, _, amount, _, _, _, _) =>
      if amount >= LARGE_TX_THRESHOLD { ScheduleKeeps(rt, c, h, tx); } else { IssueNowKeeps(rt, c, h, tx); }
    case Mint(_, _, _, _, _, _) => MintKeeps(rt, c, h, tx);
    case ExecutePendingMint(_) => ExecuteKeeps(rt, c, h, tx);
    case CancelPendingMint(_) => CancelKeeps(rt, c, h, tx);
    case _ => OthersKeep(rt, c, h, tx);
  }

  /**
   * At most once, over any interleaving of mint, mintToken, executePendingMint and cancelPendingMint
   * with anything else: no id is issued twice; an issue hands its mint's amount to its recipient; an id
   * is pending exactly while its mint waits, so it is processed and not yet issued; a cancelled id is
   * never issued; a delayed mint is issued no sooner than 60 blocks after its acceptance, any other at the
   * height of it; and the global nonce is the number of issues.
   */
  lemma {:induction false} MintAtMostOnce(rt: Runtime, txs: seq<Transaction>)
    ensures match RunOf(rt, txs)
      case Fresh => HistoryOf(rt, txs).mints == map[] && HistoryOf(rt, txs).issues == []
      case Live(c) => MintInv(c, HistoryOf(rt, txs))
  {
    hide LiveStep, MintLedger, Observed;
    if txs != [] {
      var front, tx := txs[..|txs| - 1], txs[|txs| - 1];
      MintAtMostOnce(rt, front);
      match RunOf(rt, front)
      case Fresh =>
        if Step(rt, Fresh, tx.inv, tx.call).Done? {
          FirstLedger();
        }
      case Live(c) =>
        if LiveStep(rt, c, tx.inv, tx.call).Done? {
          StepKeepsMints(rt, c, HistoryOf(rt, front), tx);
        }
    }
  }

  lemma FirstLedger()
    ensures MintLedger({}, map[], 0, map[], [])
  {
  }

  lemma MintsAreNew(rt: Runtime, c: Controller, inv: Invocation, call: Call)
    requires NATIVE_SOL_MINT in c.tokens && IsMint(call) && LiveStep(rt, c, inv, call).Done?
    ensures call.transferId !in c.processed
  {
    hide MintMessage, LegacyMintMessage, Quorum, DailyCheck, Scaled;
  }

  lemma StepKeepsCancelled(rt: Runtime, c: Controller, h: History, tx: Transaction, id: string)
    requires NATIVE_SOL_MINT in c.tokens && c.processed == h.mints.Keys && LiveStep(rt, c, tx.inv, tx.call).Done?
    requires id in h.mints && h.mints[id].status == Cancelled
    ensures var o := LiveStep(rt, c, tx.inv, tx.call);
      var mints := Observed(h, tx, o.c, o.actions).mints;
      id in mints && mints[id] == h.mints[id]
  {
    hide LiveStep;
    if IsMint(tx.call) {
      MintsAreNew(rt, c, tx.inv, tx.call);
    }
  }

  /** Cancelled once, cancelled for good: no later run issues it. */
  lemma {:induction false} CancelledForGood(rt: Runtime, txs: seq<Transaction>, k: nat, id: string)
    requires k <= |txs|
    requires id in HistoryOf(rt, txs[..k]).mints && HistoryOf(rt, txs[..k]).mints[id].status == Cancelled
    ensures var h := HistoryOf(rt, txs);
      && id in h.mints && h.mints[id].status == Cancelled
      && !HasIssue(h.issues, id)
  {
    hide LiveStep, Observed;
    MintAtMostOnce(rt, txs);
    if k == |txs| {
      assert txs[..k] == txs;
    } else {
      var front, tx := txs[..|txs| - 1], txs[|txs| - 1];
      assert front[..k] == txs[..k];
      CancelledForGood(rt, front, k, id);
      MintAtMostOnce(rt, front);
      var w := RunOf(rt, front);
      if w.Live? && LiveStep(rt, w.c, tx.inv, tx.call).Done? {
        StepKeepsCancelled(rt, w.c, HistoryOf(rt, front), tx, id);
      }
    }
  }

  // ---------------------------------------------------------------------------------------------
  // Which large mints wait
  // ---------------------------------------------------------------------------------------------

  /** Every issue of a mint of at least the threshold came no sooner than 60 blocks after its acceptance. */
  predicate LargeMintsWait(h: History) {
    forall i :: 0 <= i < |h.issues| && h.issues[i].id in h.mints && h.mints[h.issues[i].id].raw >= LARGE_TX_THRESHOLD ==>
      h.issues[i].height - h.mints[h.issues[i].id].height >= LARGE_TX_DELAY_BLOCKS
  }

  predicate LargeLegacy(call: Call) { call.Mint? && call.amount >= LARGE_TX_THRESHOLD }

  /** Transaction j of a run is an accepted legacy mint of at least the threshold. */
  predicate LargeLegacyAt(rt: Runtime, txs: seq<Transaction>, j: nat)
    requires j < |txs|
  {
    var w, tx := RunOf(rt, txs[..j]), txs[j];
    w.Live? && LiveStep(rt, w.c, tx.inv, tx.call).Done? && LargeLegacy(tx.call)
  }

  predicate NoLargeLegacy(mints: MintMap) {
    forall id :: id in mints ==> !(mints[id].legacy && mints[id].raw >= LARGE_TX_THRESHOLD)
  }

  lemma LegacyStep(rt: Runtime, c: Controller, h: History, tx: Transaction)
    requires NATIVE_SOL_MINT in c.tokens && c.processed == h.mints.Keys && LiveStep(rt, c, tx.inv, tx.call).Done?
    ensures var o := LiveStep(rt, c, tx.inv, tx.call);
      NoLargeLegacy(Observed(h, tx, o.c, o.actions).mints) <==> NoLargeLegacy(h.mints) && !LargeLegacy(tx.call)
  {
    hide LiveStep;
    var o := LiveStep(rt, c, tx.inv, tx.call);
    var after := Observed(h, tx, o.c, o.actions).mints;
    if IsMint(tx.call) {
      MintsAreNew(rt, c, tx.inv, tx.call);
      assert tx.call.transferId in after;
    }
    if NoLargeLegacy(after) {
      forall id | id in h.mints ensures !(h.mints[id].legacy && h.mints[id].raw >= LARGE_TX_THRESHOLD) {
        assert id in after && after[id].legacy == h.mints[id].legacy && after[id].raw == h.mints[id].raw;
      }
    }
  }

  /** The records of large legacy mints are those of accepted calls. */
  lemma {:induction false} LegacyRecorded(rt: Runtime, txs: seq<Transaction>)
    ensures NoLargeLegacy(HistoryOf(rt, txs).mints) <==> forall j :: 0 <= j < |txs| ==> !LargeLegacyAt(rt, txs, j)
  {
    hide LiveStep, Observed, NoLargeLegacy, LargeLegacy, MintLedger;
    if txs == [] {
      assert NoLargeLegacy(map[]) by { NothingLegacy(); }
    } else {
      var front, tx := txs[..|txs| - 1], txs[|txs| - 1];
      LegacyRecorded(rt, front);
      MintAtMostOnce(rt, front);
      forall j | 0 <= j < |front| ensures LargeLegacyAt(rt, txs, j) <==> LargeLegacyAt(rt, front, j) {
        assert front[..j] == txs[..j];
      }
      var w := RunOf(rt, front);
      assert txs[..|front|] == front;
      assert LargeLegacyAt(rt, txs, |front|)
        <==> w.Live? && LiveStep(rt, w.c, tx.inv, tx.call).Done? && LargeLegacy(tx.call);
      if w.Live? && LiveStep(rt, w.c, tx.inv, tx.call).Done? {
        LedgerIds(w.c, HistoryOf(rt, front));
        LegacyStep(rt, w.c, HistoryOf(rt, front), tx);
      }
    }
  }

  lemma NothingLegacy()
    ensures NoLargeLegacy(map[])
  {
  }

  lemma LedgerIds(c: Controller, h: History)
    requires MintInv(c, h)
    ensures c.processed == h.mints.Keys
  {
  }

  lemma WaitsUnlessLegacy(c: Controller, h: History)
    requires MintInv(c, h)
    ensures LargeMintsWait(h) <==> NoLargeLegacy(h.mints)
  {
    if LargeMintsWait(h) {
      forall id | id in h.mints ensures !(h.mints[id].legacy && h.mints[id].raw >= LARGE_TX_THRESHOLD) {
        if h.mints[id].legacy {
          assert HasIssue(h.issues, id);
          var i :| 0 <= i < |h.issues| && h.issues[i].id == id;
          assert CarriesOut(h.mints, h.issues[i]);
        }
      }
    } else {
      var i :| 0 <= i < |h.issues| && h.issues[i].id in h.mints && h.mints[h.issues[i].id].raw >= LARGE_TX_THRESHOLD
               && h.issues[i].height - h.mints[h.issues[i].id].height < LARGE_TX_DELAY_BLOCKS;
      assert CarriesOut(h.mints, h.issues[i]) && !Delayed(h.mints[h.issues[i].id]);
    }
  }

  /**
   * The delay of large mints, which the documentation promises of all of them: over any run it is kept if and
   * only if no accepted call of the run is a legacy mint of at least the threshold, which the callable issues at once.
   */
  lemma LargeMintsWaitExactly(rt: Runtime, txs: seq<Transaction>)
    ensures LargeMintsWait(HistoryOf(rt, txs)) <==> forall j :: 0 <= j < |txs| ==> !LargeLegacyAt(rt, txs, j)
  {
    hide RunOf, HistoryOf, MintInv, LargeLegacyAt;
    MintAtMostOnce(rt, txs);
    LegacyRecorded(rt, txs);
    match RunOf(rt, txs)
    case Fresh =>
    case Live(c) => WaitsUnlessLegacy(c, HistoryOf(rt, txs));
  }
}
