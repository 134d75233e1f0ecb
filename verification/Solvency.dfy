/**
 * Solvency of the two chains together: over any interleaving of transactions on both, the vault covers
 * what is owed on the other side, provided the attestations the two programs accepted were honest.
 */
module Solvency {
  import opened Bytes
  import opened BridgeSums
  import LS = LockState
  import LockSpec
  import LockRuns
  import LockCustody
  import LockEvents
  import LockPayouts
  import CS = ControllerState
  import Burns = ControllerBurns
  import History = ControllerHistory
  import Supply = ControllerSupply
  import Tokens = ControllerTokens
  import Hex
  import Sums

  /** What stays fixed in a run: both chains' environments, and which burn each unlock was attested for. */
  datatype Bridge = Bridge(chain: LS.Chain, start: LS.State, rt: CS.Runtime, burnOf: Naming)

  datatype Step = OnSolana(tx: LockRuns.Transaction) | OnDcc(dcc: CS.Transaction)

  function SolanaPart(steps: seq<Step>): seq<LockRuns.Transaction> {
    if steps == [] then []
    else
      var front, last := SolanaPart(steps[..|steps| - 1]), steps[|steps| - 1];
      if last.OnSolana? then front + [last.tx] else front
  }

  function DccPart(steps: seq<Step>): seq<CS.Transaction> {
    if steps == [] then []
    else
      var front, last := DccPart(steps[..|steps| - 1]), steps[|steps| - 1];
      if last.OnDcc? then front + [last.dcc] else front
  }

  function Lock(b: Bridge, steps: seq<Step>): LS.State { LockRuns.RunOf(b.chain, b.start, SolanaPart(steps)) }

  function Dcc(b: Bridge, steps: seq<Step>): (w: CS.World)
    ensures CS.Valid(w)
  {
    CS.RunOf(b.rt, DccPart(steps))
  }

  function Seen(b: Bridge, steps: seq<Step>): History.History { History.HistoryOf(b.rt, DccPart(steps)) }

  predicate MintsNative(call: CS.Call) { call.Mint? || (call.MintToken? && call.splMint == CS.NATIVE_SOL_MINT) }

  /** An accepted native mint names a native deposit made by then, with its id and amount. */
  predicate HonestMint(b: Bridge, before: seq<Step>, tx: CS.Transaction) {
    var w := Dcc(b, before);
    w.Live? && CS.LiveStep(b.rt, w.c, tx.inv, tx.call).Done? && MintsNative(tx.call) ==>
      HasDeposit(Lock(b, before).events, tx.call.transferId, tx.call.amount)
  }

  /** An accepted unlock names a native burn made by then and not named before, and pays at most ten times its amount. */
  predicate HonestUnlock(b: Bridge, before: seq<Step>, tx: LockRuns.Transaction) {
    var s := Lock(b, before);
    tx.ins.Unlock? && LockSpec.StepError(b.chain, s, tx.clock, tx.ins).None? ==>
      var p := tx.ins.unlock;
      && NamesBurn(Burns.RecordsOf(Dcc(b, before)), b.burnOf(p.transferId), p.amount)
      && forall id :: id in s.unlocks ==> b.burnOf(id) != b.burnOf(p.transferId)
  }

  predicate HonestStep(b: Bridge, before: seq<Step>, step: Step) {
    match step
    case OnSolana(tx) => HonestUnlock(b, before, tx)
    case OnDcc(tx) => HonestMint(b, before, tx)
  }

  predicate Honest(b: Bridge, steps: seq<Step>) {
    steps == [] || (Honest(b, steps[..|steps| - 1]) && HonestStep(b, steps[..|steps| - 1], steps[|steps| - 1]))
  }

  // ---------------------------------------------------------------------------------------------
  // Mints stay backed
  // ---------------------------------------------------------------------------------------------

  lemma HasDepositLater(events: seq<LS.Event>, later: seq<LS.Event>, id: string, amount: int)
    requires events <= later && HasDeposit(events, id, amount)
    ensures HasDeposit(later, id, amount)
  {
    var i :| 0 <= i < |events| && events[i].Deposited? && Hex.ToHex(events[i].transferId) == id && events[i].amount == amount;
    assert later[i] == events[i];
  }

  lemma BackedLater(events: seq<LS.Event>, later: seq<LS.Event>, mints: MintMap)
    requires events <= later && Backed(events, mints)
    ensures Backed(later, mints)
  {
    hide HasDeposit;
    forall id | id in mints && IsNative(mints[id]) ensures HasDeposit(later, id, mints[id].raw) {
      HasDepositLater(events, later, id, mints[id].raw);
    }
  }

  /** A mint on record after a call was on record before, for the same token and raw amount, or was just accepted. */
  lemma MintsAfterCall(h: History.History, tx: CS.Transaction, d: CS.Controller, actions: seq<CS.Action>, id: string)
    requires id in History.Observed(h, tx, d, actions).mints
    ensures var m := History.Observed(h, tx, d, actions).mints[id];
      || (id in h.mints && m.splMint == h.mints[id].splMint && m.raw == h.mints[id].raw)
      || (History.IsMint(tx.call) && tx.call.transferId == id && m.raw == tx.call.amount
          && (IsNative(m) <==> MintsNative(tx.call)))
  {
  }

  lemma DccKeepsBacked(b: Bridge, before: seq<Step>, tx: CS.Transaction)
    requires HonestMint(b, before, tx) && Backed(Lock(b, before).events, Seen(b, before).mints)
    ensures Backed(Lock(b, before).events, History.Extend(b.rt, Dcc(b, before), Seen(b, before), tx).mints)
  {
    hide CS.LiveStep, Lock, Dcc, Seen, History.Observed, HasDeposit;
    var w, h := Dcc(b, before), Seen(b, before);
    var mints := History.Extend(b.rt, w, h, tx).mints;
    forall id | id in mints && IsNative(mints[id]) ensures HasDeposit(Lock(b, before).events, id, mints[id].raw) {
      if w.Live? && CS.LiveStep(b.rt, w.c, tx.inv, tx.call).Done? {
        var o := CS.LiveStep(b.rt, w.c, tx.inv, tx.call);
        MintsAfterCall(h, tx, o.c, o.actions, id);
      }
    }
  }

  lemma PartsOf(steps: seq<Step>)
    requires steps != []
    ensures var front, last := steps[..|steps| - 1], steps[|steps| - 1];
      && SolanaPart(steps) == SolanaPart(front) + (if last.OnSolana? then [last.tx] else [])
      && DccPart(steps) == DccPart(front) + (if last.OnDcc? then [last.dcc] else [])
  {
  }

  /** One step moves one chain. */
  lemma Moves(b: Bridge, steps: seq<Step>)
    requires steps != []
    ensures var front, last := steps[..|steps| - 1], steps[|steps| - 1];
      && Lock(b, steps) == (if last.OnSolana? then LockSpec.Apply(b.chain, Lock(b, front), last.tx.clock, last.tx.ins)
                            else Lock(b, front))
      && Dcc(b, steps) == (if last.OnDcc? then CS.Next(b.rt, Dcc(b, front), last.dcc) else Dcc(b, front))
      && Seen(b, steps) == (if last.OnDcc? then History.Extend(b.rt, Dcc(b, front), Seen(b, front), last.dcc) else Seen(b, front))
  {
    hide LockSpec.Apply, CS.Next, History.Extend;
    var front, last := steps[..|steps| - 1], steps[|steps| - 1];
    PartsOf(steps);
    if last.OnSolana? {
      assert SolanaPart(steps)[..|SolanaPart(steps)| - 1] == SolanaPart(front);
    } else {
      assert DccPart(steps)[..|DccPart(steps)| - 1] == DccPart(front);
    }
  }

  lemma {:induction false} MintsBacked(b: Bridge, steps: seq<Step>)
    requires Honest(b, steps)
    ensures Backed(Lock(b, steps).events, Seen(b, steps).mints)
  {
    hide Lock, Dcc, Seen, Backed, LockSpec.Apply, CS.Next, History.Extend, HonestMint, HonestUnlock;
    if steps == [] {
      NothingBacked(b);
    } else {
      var front, last := steps[..|steps| - 1], steps[|steps| - 1];
      MintsBacked(b, front);
      Moves(b, steps);
      match last
      case OnSolana(tx) =>
        LockEvents.EventsGrow(b.chain, Lock(b, front), tx.clock, tx.ins);
        BackedLater(Lock(b, front).events, Lock(b, steps).events, Seen(b, front).mints);
      case OnDcc(tx) => DccKeepsBacked(b, front, tx);
    }
  }

  lemma NothingBacked(b: Bridge)
    ensures Backed(Lock(b, []).events, Seen(b, []).mints)
  {
  }

  // ---------------------------------------------------------------------------------------------
  // Unlocks stay honoured
  // ---------------------------------------------------------------------------------------------

  lemma NamesLater(records: BurnMap, later: BurnMap, burn: string, amount: int)
    requires NamesBurn(records, burn, amount) && records.Items <= later.Items
    ensures NamesBurn(later, burn, amount)
  {
    assert (burn, records[burn]) in records.Items;
  }

  lemma HonouredLater(unlocks: UnlockMap, records: BurnMap, later: BurnMap, burnOf: Naming)
    requires Honoured(unlocks, records, burnOf) && records.Items <= later.Items
    ensures Honoured(unlocks, later, burnOf)
  {
    hide NamesBurn;
    forall id | id in unlocks ensures NamesBurn(later, burnOf(id), unlocks[id].amount) {
      NamesLater(records, later, burnOf(id), unlocks[id].amount);
    }
  }

  lemma SolanaKeepsHonoured(b: Bridge, before: seq<Step>, tx: LockRuns.Transaction)
    requires HonestUnlock(b, before, tx)
    requires Honoured(Lock(b, before).unlocks, Burns.RecordsOf(Dcc(b, before)), b.burnOf)
    ensures Honoured(LockSpec.Apply(b.chain, Lock(b, before), tx.clock, tx.ins).unlocks, Burns.RecordsOf(Dcc(b, before)), b.burnOf)
  {
    hide Lock, Dcc, LockSpec.Apply, LockSpec.StepError, NamesBurn, Burns.RecordsOf;
    var s := Lock(b, before);
    var unlocks := LockSpec.Apply(b.chain, s, tx.clock, tx.ins).unlocks;
    forall id | id in unlocks
      ensures NamesBurn(Burns.RecordsOf(Dcc(b, before)), b.burnOf(id), unlocks[id].amount)
      ensures id in s.unlocks || (tx.ins.Unlock? && id == tx.ins.unlock.transferId
                                  && forall o :: o in s.unlocks ==> b.burnOf(o) != b.burnOf(id))
    {
      LockCustody.UnlocksAfter(b.chain, s, tx.clock, tx.ins, id);
    }
  }

  lemma {:induction false} UnlocksHonoured(b: Bridge, start: int, steps: seq<Step>)
    requires Honest(b, steps) && LockRuns.Initial(b.start, start) && Injective(b.rt.hash)
    ensures Honoured(Lock(b, steps).unlocks, Burns.RecordsOf(Dcc(b, steps)), b.burnOf)
  {
    hide Lock, Dcc, Seen, Honoured, LockSpec.Apply, CS.Next, History.Extend, HonestMint, HonestUnlock, Burns.RecordsOf;
    if steps == [] {
      NothingHonoured(b, start);
    } else {
      var front, last := steps[..|steps| - 1], steps[|steps| - 1];
      UnlocksHonoured(b, start, front);
      Moves(b, steps);
      match last
      case OnSolana(tx) => SolanaKeepsHonoured(b, front, tx);
      case OnDcc(tx) =>
        DccKeepsRecords(b, front, tx);
        HonouredLater(Lock(b, front).unlocks, Burns.RecordsOf(Dcc(b, front)), Burns.RecordsOf(Dcc(b, steps)), b.burnOf);
    }
  }

  lemma NothingHonoured(b: Bridge, start: int)
    requires LockRuns.Initial(b.start, start)
    ensures Honoured(Lock(b, []).unlocks, Burns.RecordsOf(Dcc(b, [])), b.burnOf)
  {
  }

  lemma DccKeepsRecords(b: Bridge, front: seq<Step>, tx: CS.Transaction)
    requires Injective(b.rt.hash)
    ensures Burns.RecordsOf(Dcc(b, front)).Items <= Burns.RecordsOf(CS.Next(b.rt, Dcc(b, front), tx)).Items
  {
    hide CS.LiveStep, Burns.BurnInv;
    var w := Dcc(b, front);
    Burns.BurnLedger(b.rt, DccPart(front));
    if w.Live? && CS.LiveStep(b.rt, w.c, tx.inv, tx.call).Done? {
      Burns.StepKeepsBurns(b.rt, w.c, tx.inv, tx.call);
    }
  }

  // ---------------------------------------------------------------------------------------------
  // The theorems
  // ---------------------------------------------------------------------------------------------

  /** The vault holds at least what native deposits brought in and payouts have not taken out. */
  lemma VaultCovers(b: Bridge, start: int, steps: seq<Step>)
    requires LockRuns.Initial(b.start, start)
    ensures var s := Lock(b, steps);
      s.vault >= LockPayouts.NativeDeposited(s.events) - Sums.SumOver(s.unlocks, LockPayouts.ExecutedAmount)
  {
    var txs := SolanaPart(steps);
    LockPayouts.VaultConservation(b.chain, b.start, start, txs);
    LockPayouts.PayoutLedger(b.chain, b.start, start, txs);
  }

  /** Mint at most what is locked: ten lamports locked for every native unit ever minted, under honest mints. */
  lemma MintedWithinLocked(b: Bridge, start: int, steps: seq<Step>)
    requires LockRuns.Initial(b.start, start) && Dcc(b, steps).Live?
    requires Injective(b.chain.hash) && Injective(b.rt.hash) && Supply.FreshAssets(DccPart(steps)) && Honest(b, steps)
    ensures CS.NATIVE_SOL_MINT in Dcc(b, steps).c.tokens
    ensures 10 * Dcc(b, steps).c.tokens[CS.NATIVE_SOL_MINT].minted <= Lock(b, steps).config.totalLocked
  {
    hide Lock, Dcc, Seen, Unminted, MintedDeposits, Honest, Sums.SumOver, Tokens.AcceptedRaw, Tokens.Units, NativeSum;
    var s, h := Lock(b, steps), Seen(b, steps);
    LockedIsDeposited(b, start, steps);
    DepositsSplit(s.events, h.mints);
    DepositsAreOnce(b, start, steps);
    MintsBacked(b, steps);
    NativeLedger(b, steps);
    MintedIsAccepted(s.events, h.mints);
  }

  lemma LockedIsDeposited(b: Bridge, start: int, steps: seq<Step>)
    requires LockRuns.Initial(b.start, start)
    ensures Lock(b, steps).config.totalLocked == LockPayouts.NativeDeposited(Lock(b, steps).events)
  {
    LockPayouts.PayoutLedger(b.chain, b.start, start, SolanaPart(steps));
  }

  /** What holders of the native asset can still claim, in its units: circulating, pending, and burned but unpaid. */
  ghost function Claims(b: Bridge, steps: seq<Step>): int
    requires Dcc(b, steps).Live?
  {
    var c, h := Dcc(b, steps).c, Seen(b, steps);
    (if c.wsolAssetId in h.supply then h.supply[c.wsolAssetId] else 0)
    + Tokens.Units(h.mints, CS.NATIVE_SOL_MINT, History.Waiting)
    + NativeSum(Unpaid(Lock(b, steps).unlocks, c.burnRecords, b.burnOf))
  }

  /** The native ledger on the other chain: accepted lamports cover ten times every unit issued or pending. */
  lemma NativeLedger(b: Bridge, steps: seq<Step>)
    requires Dcc(b, steps).Live? && Supply.FreshAssets(DccPart(steps)) && Injective(b.rt.hash)
    ensures var c, h := Dcc(b, steps).c, Seen(b, steps);
      && c.wsolAssetId in h.supply
      && Tokens.AcceptedRaw(h.mints, CS.NATIVE_SOL_MINT)
         >= 10 * (h.supply[c.wsolAssetId] + NativeSum(c.burnRecords) + Tokens.Units(h.mints, CS.NATIVE_SOL_MINT, History.Waiting))
      && CS.NATIVE_SOL_MINT in c.tokens
      && c.tokens[CS.NATIVE_SOL_MINT].minted == h.supply[c.wsolAssetId] + NativeSum(c.burnRecords)
      && forall id :: id in h.mints ==> h.mints[id].raw >= 0 && h.mints[id].amount >= 0
  {
    hide Tokens.Rounded, Tokens.Pow10, CS.LiveStep, CS.RunOf, Sums.SumOver, History.HistoryOf;
    var txs := DccPart(steps);
    Supply.TokenInvariants(b.rt, txs);
    Supply.TokenLedger(b.rt, txs, CS.NATIVE_SOL_MINT);
    Burns.BurnLedger(b.rt, txs);
    var c, h := Dcc(b, steps).c, Seen(b, steps);
    forall id | id in h.mints ensures h.mints[id].raw >= 0 && h.mints[id].amount >= 0 {
      Tokens.RoundedIsNonNegative(h.mints[id], c.tokens[h.mints[id].splMint].divisor);
    }
  }

  /**
   * Two-chain solvency. In every reachable joint state the vault's lamports cover the native deposits
   * not yet minted and ten lamports for every unit of the native asset that circulates, waits in a
   * pending mint, or was burned and not yet paid out.
   */
  lemma Solvent(b: Bridge, start: int, steps: seq<Step>)
    requires LockRuns.Initial(b.start, start)
    requires Injective(b.chain.hash) && Injective(b.rt.hash) && Supply.FreshAssets(DccPart(steps))
    requires Honest(b, steps)
    ensures Lock(b, steps).vault
         >= Unminted(Lock(b, steps).events, Seen(b, steps).mints) + if Dcc(b, steps).Live? then 10 * Claims(b, steps) else 0
  {
    hide Lock, Dcc, Seen, Unminted, MintedDeposits, Honest, Sums.SumOver, Tokens.AcceptedRaw, Tokens.Units, NativeSum, Unpaid;
    var s, h := Lock(b, steps), Seen(b, steps);
    VaultCovers(b, start, steps);
    DepositsSplit(s.events, h.mints);
    UnlocksHonoured(b, start, steps);
    if Dcc(b, steps).Live? {
      var c := Dcc(b, steps).c;
      DepositsAreOnce(b, start, steps);
      MintsBacked(b, steps);
      NativeLedger(b, steps);
      MintedIsAccepted(s.events, h.mints);
      PayoutsCovered(s.unlocks, c.burnRecords, b.burnOf);
    } else {
      PayoutsCovered(s.unlocks, map[], b.burnOf);
      NoBurns(s.unlocks, b.burnOf);
    }
  }

  lemma DepositsAreOnce(b: Bridge, start: int, steps: seq<Step>)
    requires LockRuns.Initial(b.start, start) && Injective(b.chain.hash)
    ensures LockEvents.DepositIdsOnce(Lock(b, steps).events)
  {
    LockEvents.DepositsLogged(b.chain, b.start, start, SolanaPart(steps));
  }

  lemma NoBurns(unlocks: UnlockMap, burnOf: Naming)
    ensures NativeSum(map[]) == 0 && NativeSum(Unpaid(unlocks, map[], burnOf)) == 0
  {
    assert Unpaid(unlocks, map[], burnOf) == map[];
  }
}
