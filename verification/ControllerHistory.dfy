/**
 * What an observer of the chain has seen of the controller: the mints it accepted, the token issues it
 * made, and the supply of each of its assets. All of it is read off accepted calls, their token actions
 * and the pending entries they left, not off the controller's own counters.
 */
module ControllerHistory {
  import opened Options
  import opened ControllerState

  datatype Status = Issued | Waiting | Cancelled

  datatype MintRecord = MintRecord(
    recipient: string, splMint: string, raw: int, amount: int, legacy: bool, height: int, status: Status)

  /** Units of an asset handed to a recipient by a mint or by the execution of a pending one. */
  datatype IssueFact = IssueFact(id: string, recipient: string, assetId: string, amount: int, height: int)

  datatype History = History(
    mints: map<string, MintRecord>,
    issues: seq<IssueFact>,
    supply: map<string, int>)

  const NOTHING := History(map[], [], map[])

  /** The transfer action of a call, if it made one. */
  function TransferIn(actions: seq<Action>): (t: Option<Action>)
    ensures t.Some? ==> t.value.Transfer?
  {
    if actions == [] then None
    else if actions[|actions| - 1].Transfer? then Some(actions[|actions| - 1])
    else TransferIn(actions[..|actions| - 1])
  }

  predicate IsMint(call: Call) { call.MintToken? || call.Mint? }

  /** An accepted mint is issued when it transfers something, and waits otherwise. */
  function Accepted(call: Call, d: Controller, inv: Invocation, transfer: Option<Action>): MintRecord
    requires IsMint(call) && (transfer.Some? ==> transfer.value.Transfer?)
  {
    var id := call.transferId;
    var amount: int := if transfer.Some? then transfer.value.amount else if id in d.pending then d.pending[id].amount else 0;
    MintRecord(call.recipient, if call.MintToken? then call.splMint else NATIVE_SOL_MINT, call.amount, amount, call.Mint?,
               inv.height, if transfer.Some? then Issued else Waiting)
  }

  function WithStatus(mints: map<string, MintRecord>, id: string, status: Status): map<string, MintRecord> {
    if id in mints && mints[id].status == Waiting then mints[id := mints[id].(status := status)] else mints
  }

  function MintsAfter(mints: map<string, MintRecord>, d: Controller, tx: Transaction, transfer: Option<Action>)
    : map<string, MintRecord>
    requires transfer.Some? ==> transfer.value.Transfer?
  {
    match tx.call
    case MintToken(id, _, _, _, _, _, _) => mints[id := Accepted(tx.call, d, tx.inv, transfer)]
    case Mint(id, _, _, _, _, _) => mints[id := Accepted(tx.call, d, tx.inv, transfer)]
    case ExecutePendingMint(id) => WithStatus(mints, id, Issued)
    case CancelPendingMint(id) => WithStatus(mints, id, Cancelled)
    case _ => mints
  }

  function IssuesIn(tx: Transaction, transfer: Option<Action>): seq<IssueFact>
    requires transfer.Some? ==> transfer.value.Transfer?
  {
    if transfer.None? then []
    else
      var id := if IsMint(tx.call) || tx.call.ExecutePendingMint? then tx.call.transferId else "";
      [IssueFact(id, transfer.value.recipient, transfer.value.assetId, transfer.value.amount, tx.inv.height)]
  }

  /** The units of each asset after token actions. */
  function SupplyAfter(supply: map<string, int>, actions: seq<Action>): map<string, int> {
    if actions == [] then supply
    else
      var before := SupplyAfter(supply, actions[..|actions| - 1]);
      match actions[|actions| - 1]
      case Issue(asset, _) => before[asset := 0]
      case Reissue(asset, n) => before[asset := (if asset in before then before[asset] else 0) + n]
      case BurnAsset(asset, n) => before[asset := (if asset in before then before[asset] else 0) - n]
      case Transfer(_, _, _) => before
  }

  function Observed(h: History, tx: Transaction, d: Controller, actions: seq<Action>): History {
    var transfer := TransferIn(actions);
    History(MintsAfter(h.mints, d, tx, transfer), h.issues + IssuesIn(tx, transfer),
            SupplyAfter(h.supply, actions))
  }

  function Extend(rt: Runtime, w: World, h: History, tx: Transaction): History
    requires Valid(w)
  {
    match Step(rt, w, tx.inv, tx.call)
    case Throw => h
    case Done(d, actions) =>
      if w.Live? then Observed(h, tx, d, actions) else h.(supply := SupplyAfter(h.supply, actions))
  }

  function HistoryOf(rt: Runtime, txs: seq<Transaction>): History {
    if txs == [] then NOTHING
    else
      var front := txs[..|txs| - 1];
      Extend(rt, RunOf(rt, front), HistoryOf(rt, front), txs[|txs| - 1])
  }
}
