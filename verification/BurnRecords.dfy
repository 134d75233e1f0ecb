/** Reading burn records back: what the API makes of the string the controller stores. */
module BurnRecords {
  import opened Bytes
  import opened Options
  import opened Text
  import opened ControllerKeys
  import opened ControllerScript
  import opened ControllerState
  import opened ControllerStore
  import Base58
  import ControllerBurns
  import ControllerRefinement

  datatype BurnRecordView = BurnRecordView(
    sender: string, solRecipient: string, splMint: string, amount: JsNumber, height: JsNumber, timestamp: JsNumber)

  /** getBurnRecord on the stored string: null unless it has at least six fields. */
  function ReadBurn(stored: string): Option<BurnRecordView> {
    var parts := Split(stored, '|');
    if |parts| < 6 then None
    else Some(BurnRecordView(parts[0], parts[1], parts[2], ParseInt(parts[3]), ParseInt(parts[4]), ParseInt(parts[5])))
  }

  /** The record as JavaScript can hold it. */
  function ViewOf(b: BurnEntry): BurnRecordView {
    BurnRecordView(b.sender, b.solRecipient, b.splMint, AsJsNumber(b.amount), AsJsNumber(b.height), AsJsNumber(b.timestamp))
  }

  predicate PipeFree(s: string) { '|' !in s }

  function Fields(b: BurnEntry): seq<string> {
    [b.sender, b.solRecipient, b.splMint, IntText(b.amount), IntText(b.height), IntText(b.timestamp)]
  }

  lemma NumbersPipeFree(b: BurnEntry)
    ensures PipeFree(IntText(b.amount)) && PipeFree(IntText(b.height)) && PipeFree(IntText(b.timestamp))
  {
  }

  /** A stored record is read back exactly when none of its text fields contains the separator. */
  lemma ReadBackExactly(b: BurnEntry)
    ensures ReadBurn(BurnText(b)) == Some(ViewOf(b)) <==> PipeFree(b.sender) && PipeFree(b.solRecipient) && PipeFree(b.splMint)
  {
    hide IntText, ParseInt, AsJsNumber;
    var parts := Split(BurnText(b), '|');
    if PipeFree(b.sender) && PipeFree(b.solRecipient) && PipeFree(b.splMint) {
      NumbersPipeFree(b);
      SplitJoin(Fields(b), '|');
      ParseIntOfText(b.amount);
      ParseIntOfText(b.height);
      ParseIntOfText(b.timestamp);
    } else if |parts| >= 6 {
      SplitWithout(BurnText(b), '|');
      assert PipeFree(parts[0]) && PipeFree(parts[1]) && PipeFree(parts[2]);
    }
  }

  lemma Base58IsPipeFree(s: string)
    requires Base58.IsBase58(s)
    ensures PipeFree(s)
  {
  }

  /**
   * End to end: after any run that confuses no pending mints, the entry under a burn's key is read back as the burn it
   * records, numbers exact below 2^53, if and only if the Solana recipient and mint it names hold
   * no separator; the recipient is only checked for its length.
   */
  lemma StoredBurnReadsBack(rt: Runtime, txs: seq<Transaction>, id: string)
    requires Injective(rt.hash) && ControllerRefinement.NothingConfused(rt, txs)
    requires RunOf(rt, txs).Live? && id in RunOf(rt, txs).c.burnRecords
    ensures var b, entry := RunOf(rt, txs).c.burnRecords[id], Get(ControllerRefinement.StoreAfter(rt, txs), BurnRecord(id));
      && entry.Some? && entry.value.StrV?
      && (ReadBurn(entry.value.s) == Some(ViewOf(b)) <==> PipeFree(b.solRecipient) && PipeFree(b.splMint))
  {
    hide RunOf, ControllerRefinement.StoreAfter, ControllerRefinement.NothingConfused, ControllerRefinement.Confusing, ReadBurn,
         BurnText, Base58.Encode;
    var c, st := RunOf(rt, txs).c, ControllerRefinement.StoreAfter(rt, txs);
    ControllerRefinement.FlatStoreRefines(rt, txs);
    ControllerBurns.BurnLedger(rt, txs);
    var b := c.burnRecords[id];
    assert ControllerBurns.Derived(rt, c.burnNonces, id, b);
    var caller: Address, nonce: i64 :| b.sender == Base58.Encode(caller) && id == BurnId(rt, caller, nonce, b.height, b.amount);
    Base58IsPlain(id);
    assert Reader(st)(BurnRecord(id)) == Lookup(c, BurnRecord(id));
    EncodedIsPipeFree(caller);
    ReadBackExactly(b);
  }

  lemma EncodedIsPipeFree(bytes: seq<byte>)
    ensures PipeFree(Base58.Encode(bytes))
  {
    Base58IsPipeFree(Base58.Encode(bytes));
  }
}
