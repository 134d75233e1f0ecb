/** The two sums solvency rests on: deposits against the mints they back, payouts against the burns they honour. */
module BridgeSums {
  import opened Bytes
  import opened Hex
  import opened Sums
  import opened LockState
  import ControllerBurns
  import ControllerHistory
  import ControllerMints
  import ControllerState
  import ControllerTokens
  import LockEvents
  import LockPayouts

  type MintMap = ControllerMints.MintMap
  type BurnMap = ControllerBurns.BurnMap
  type UnlockMap = LockPayouts.UnlockMap

  // ---------------------------------------------------------------------------------------------
  // Deposits and the mints they back
  // ---------------------------------------------------------------------------------------------

  predicate IsNative(m: ControllerHistory.MintRecord) { m.splMint == ControllerState.NATIVE_SOL_MINT }

  predicate NativeMinted(mints: MintMap, id: string) { id in mints && IsNative(mints[id]) }

  /** Native deposits whose transfer has not been accepted as a native mint. */
  function Unminted(events: seq<Event>, mints: MintMap): nat {
    if events == [] then 0 else
      var e := events[|events| - 1];
      Unminted(events[..|events| - 1], mints)
      + if e.Deposited? && !NativeMinted(mints, ToHex(e.transferId)) then e.amount else 0
  }

  function MintedDeposits(events: seq<Event>, mints: MintMap): nat {
    if events == [] then 0 else
      var e := events[|events| - 1];
      MintedDeposits(events[..|events| - 1], mints)
      + if e.Deposited? && NativeMinted(mints, ToHex(e.transferId)) then e.amount else 0
  }

  function DepositedUnder(events: seq<Event>, id: string): nat {
    if events == [] then 0 else
      var e := events[|events| - 1];
      DepositedUnder(events[..|events| - 1], id) + if e.Deposited? && ToHex(e.transferId) == id then e.amount else 0
  }

  predicate HasDeposit(events: seq<Event>, id: string, amount: int) {
    exists i :: 0 <= i < |events| && events[i].Deposited? && ToHex(events[i].transferId) == id && events[i].amount == amount
  }

  /** Every native mint names a native deposit with its id and amount. */
  predicate Backed(events: seq<Event>, mints: MintMap) {
    forall id :: id in mints && IsNative(mints[id]) ==> HasDeposit(events, id, mints[id].raw)
  }

  lemma {:induction false} DepositsSplit(events: seq<Event>, mints: MintMap)
    ensures LockPayouts.NativeDeposited(events) == Unminted(events, mints) + MintedDeposits(events, mints)
  {
    if events != [] {
      DepositsSplit(events[..|events| - 1], mints);
    }
  }

  lemma {:induction false} NothingMinted(events: seq<Event>)
    ensures MintedDeposits(events, map[]) == 0
  {
    if events != [] {
      NothingMinted(events[..|events| - 1]);
    }
  }

  lemma {:induction false} WithoutMint(events: seq<Event>, mints: MintMap, k: string)
    requires k in mints
    ensures MintedDeposits(events, mints)
         == MintedDeposits(events, mints - {k}) + if IsNative(mints[k]) then DepositedUnder(events, k) else 0
  {
    if events != [] {
      WithoutMint(events[..|events| - 1], mints, k);
    }
  }

  lemma {:induction false} NotUnder(events: seq<Event>, id: string)
    requires forall i :: 0 <= i < |events| && events[i].Deposited? ==> ToHex(events[i].transferId) != id
    ensures DepositedUnder(events, id) == 0
  {
    if events != [] {
      NotUnder(events[..|events| - 1], id);
    }
  }

  lemma {:induction false} UnderOnce(events: seq<Event>, id: string, amount: int)
    requires LockEvents.DepositIdsOnce(events) && HasDeposit(events, id, amount)
    ensures DepositedUnder(events, id) == amount
  {
    hide ToHex;
    var front, e := events[..|events| - 1], events[|events| - 1];
    var i :| 0 <= i < |events| && events[i].Deposited? && ToHex(events[i].transferId) == id && events[i].amount == amount;
    if i < |front| {
      assert front[i] == events[i];
      if e.Deposited? && ToHex(e.transferId) == id {
        ToHexInjective(e.transferId, events[i].transferId);
      }
      UnderOnce(front, id, amount);
    } else {
      forall j | 0 <= j < |front| && front[j].Deposited? ensures ToHex(front[j].transferId) != id {
        if ToHex(front[j].transferId) == id {
          ToHexInjective(front[j].transferId, e.transferId);
        }
      }
      NotUnder(front, id);
    }
  }

  /** What the native mints were accepted for is what the deposits behind them took in. */
  lemma {:induction false} MintedIsAccepted(events: seq<Event>, mints: MintMap)
    requires LockEvents.DepositIdsOnce(events) && Backed(events, mints)
    requires forall id :: id in mints ==> mints[id].raw >= 0 && mints[id].amount >= 0
    ensures MintedDeposits(events, mints) == ControllerTokens.AcceptedRaw(mints, ControllerState.NATIVE_SOL_MINT)
    decreases |mints|
  {
    hide MintedDeposits, DepositedUnder, HasDeposit, ToHex, ControllerState.NATIVE_SOL_MINT;
    if mints == map[] {
      NothingMinted(events);
    } else {
      var k :| k in mints;
      MintedIsAccepted(events, mints - {k});
      WithoutMint(events, mints, k);
      SumRemove(mints, ControllerTokens.RawOf(ControllerState.NATIVE_SOL_MINT), k);
      if IsNative(mints[k]) {
        UnderOnce(events, k, mints[k].raw);
      }
    }
  }

  // ---------------------------------------------------------------------------------------------
  // Payouts and the burns they honour
  // ---------------------------------------------------------------------------------------------

  /** Which burn each unlock was attested for. */
  type Naming = seq<byte> -> string

  predicate NamesBurn(records: BurnMap, burn: string, amount: int) {
    && burn in records && records[burn].splMint == ControllerState.NATIVE_SOL_MINT && records[burn].amount >= 0
    && amount <= 10 * records[burn].amount
  }

  /** Every unlock names a native burn of its own and pays at most ten times its amount. */
  predicate Honoured(unlocks: UnlockMap, records: BurnMap, burnOf: Naming) {
    && (forall id :: id in unlocks ==> NamesBurn(records, burnOf(id), unlocks[id].amount))
    && (forall id, other :: id in unlocks && other in unlocks && burnOf(id) == burnOf(other) ==> id == other)
  }

  predicate IsPaid(unlocks: UnlockMap, burnOf: Naming, burn: string) {
    exists id :: id in unlocks && unlocks[id].executed && burnOf(id) == burn
  }

  /** The burns no executed unlock names. */
  function Unpaid(unlocks: UnlockMap, records: BurnMap, burnOf: Naming): BurnMap {
    map b | b in records && !IsPaid(unlocks, burnOf, b) :: records[b]
  }

  ghost function NativeSum(records: BurnMap): nat { SumOver(records, ControllerBurns.AmountFor(ControllerState.NATIVE_SOL_MINT)) }

  lemma NativeSumRemove(records: BurnMap, b: string)
    requires b in records && records[b].splMint == ControllerState.NATIVE_SOL_MINT && records[b].amount >= 0
    ensures NativeSum(records) == NativeSum(records - {b}) + records[b].amount
  {
    SumRemove(records, ControllerBurns.AmountFor(ControllerState.NATIVE_SOL_MINT), b);
  }

  lemma UnpaidWithout(unlocks: UnlockMap, records: BurnMap, burnOf: Naming, k: seq<byte>)
    requires Honoured(unlocks, records, burnOf) && k in unlocks
    ensures Unpaid(unlocks, records, burnOf)
         == if unlocks[k].executed then Unpaid(unlocks - {k}, records - {burnOf(k)}, burnOf)
            else Unpaid(unlocks - {k}, records, burnOf)
    ensures Honoured(unlocks - {k}, records - {burnOf(k)}, burnOf) && Honoured(unlocks - {k}, records, burnOf)
  {
    hide NamesBurn;
    var rest := unlocks - {k};
    forall b ensures IsPaid(unlocks, burnOf, b) <==> IsPaid(rest, burnOf, b) || (unlocks[k].executed && b == burnOf(k)) {
      if IsPaid(unlocks, burnOf, b) {
        var id :| id in unlocks && unlocks[id].executed && burnOf(id) == b;
        assert id == k || id in rest;
      }
    }
    forall id | id in rest ensures NamesBurn(records - {burnOf(k)}, burnOf(id), rest[id].amount) {
      NamedStill(records, burnOf(k), burnOf(id), rest[id].amount);
    }
  }

  lemma NamedStill(records: BurnMap, gone: string, burn: string, amount: int)
    requires NamesBurn(records, burn, amount) && burn != gone
    ensures NamesBurn(records - {gone}, burn, amount)
  {
  }

  /** What was paid out is at most ten times the burns it was paid for: all native burns less the unpaid ones. */
  lemma {:induction false} PayoutsCovered(unlocks: UnlockMap, records: BurnMap, burnOf: Naming)
    requires Honoured(unlocks, records, burnOf)
    ensures SumOver(unlocks, LockPayouts.ExecutedAmount) <= 10 * (NativeSum(records) - NativeSum(Unpaid(unlocks, records, burnOf)))
    decreases |unlocks|
  {
    hide NativeSum, Unpaid, Honoured, IsPaid;
    if unlocks == map[] {
      AllUnpaid(unlocks, records, burnOf);
    } else {
      var k :| k in unlocks;
      UnpaidWithout(unlocks, records, burnOf, k);
      SumRemove(unlocks, LockPayouts.ExecutedAmount, k);
      if unlocks[k].executed {
        HonouredOne(unlocks, records, burnOf, k);
        PayoutsCovered(unlocks - {k}, records - {burnOf(k)}, burnOf);
        NativeSumRemove(records, burnOf(k));
      } else {
        PayoutsCovered(unlocks - {k}, records, burnOf);
      }
    }
  }

  lemma HonouredOne(unlocks: UnlockMap, records: BurnMap, burnOf: Naming, k: seq<byte>)
    requires Honoured(unlocks, records, burnOf) && k in unlocks
    ensures NamesBurn(records, burnOf(k), unlocks[k].amount)
  {
  }

  lemma AllUnpaid(unlocks: UnlockMap, records: BurnMap, burnOf: Naming)
    requires unlocks == map[]
    ensures Unpaid(unlocks, records, burnOf) == records && SumOver(unlocks, LockPayouts.ExecutedAmount) == 0
  {
  }
}
