/** Burns: one nonce per caller, records that are never overwritten and add up to what was burned. */
module ControllerBurns {
  import opened Bytes
  import opened ControllerFrames
  import opened ControllerState
  import opened Sums
  import Base58

  lemma LongBytesInjective(i: i64, j: i64)
    requires LongBytes(i) == LongBytes(j)
    ensures i == j
  {
    var a, b := ToLE(8, I64ToU64(i)), ToLE(8, I64ToU64(j));
    forall k | 0 <= k < 8 ensures a[k] == b[k] {
      assert LongBytes(i)[7 - k] == a[k] && LongBytes(j)[7 - k] == b[k];
    }
    assert a == b;
    Pow256Values();
    LEInjective(8, I64ToU64(i), I64ToU64(j));
  }

  /** A burn id determines its caller, nonce, height and amount. */
  lemma BurnIdInjective(rt: Runtime, a: Address, m: i64, h: i64, x: i64, b: Address, n: i64, k: i64, y: i64)
    requires Injective(rt.hash) && BurnId(rt, a, m, h, x) == BurnId(rt, b, n, k, y)
    ensures a == b && m == n && h == k && x == y
  {
    var s, t := a + LongBytes(m) + LongBytes(h) + LongBytes(x), b + LongBytes(n) + LongBytes(k) + LongBytes(y);
    Base58.EncodeInjective((rt.hash)(s), (rt.hash)(t));
    assert s == t;
    assert a == s[..26] == t[..26] == b;
    assert LongBytes(m) == s[26..34] == t[26..34] == LongBytes(n);
    assert LongBytes(h) == s[34..42] == t[34..42] == LongBytes(k);
    assert LongBytes(x) == s[42..] == t[42..] == LongBytes(y);
    LongBytesInjective(m, n);
    LongBytesInjective(h, k);
    LongBytesInjective(x, y);
  }

  type BurnMap = map<string, BurnEntry>

  /** The amount of a record that names the mint. */
  function AmountFor(mint: string): BurnEntry -> nat {
    (b: BurnEntry) => if b.splMint == mint && b.amount >= 0 then b.amount else 0
  }

  function OneBy(sender: string): BurnEntry -> nat {
    (b: BurnEntry) => if b.sender == sender then 1 else 0
  }

  /** The id was computed for this record, with a nonce its sender has used up. */
  ghost predicate Derived(rt: Runtime, nonces: map<string, i64>, id: string, b: BurnEntry) {
    exists caller: Address, nonce: i64 ::
      && id == BurnId(rt, caller, nonce, b.height, b.amount) && b.sender == Base58.Encode(caller)
      && b.sender in nonces && 0 <= nonce < nonces[b.sender]
  }

  ghost predicate RecordsDerived(rt: Runtime, records: BurnMap, nonces: map<string, i64>) {
    forall id :: id in records ==> Derived(rt, nonces, id, records[id])
  }

  /** Every record names a registered mint and an amount at least the minimum; a mint's records add up to its total. */
  ghost predicate BurnsTotal(records: BurnMap, tokens: map<string, TokenInfo>) {
    && (forall id :: id in records ==> records[id].splMint in tokens && records[id].amount >= MIN_MINT_AMOUNT)
    && (forall mint :: mint in tokens ==> tokens[mint].burned == SumOver(records, AmountFor(mint)))
  }

  /** A caller's nonce is its number of burns. */
  ghost predicate NoncesCount(records: BurnMap, nonces: map<string, i64>) {
    forall a :: (if a in nonces then nonces[a] else 0) == SumOver(records, OneBy(a))
  }

  ghost predicate BurnInv(rt: Runtime, c: Controller) {
    && RecordsDerived(rt, c.burnRecords, c.burnNonces)
    && BurnsTotal(c.burnRecords, c.tokens)
    && NoncesCount(c.burnRecords, c.burnNonces)
  }

  /** The id a caller's next burn computes is new, whatever height and amount it has. */
  lemma NextBurnIsNew(rt: Runtime, records: BurnMap, nonces: map<string, i64>, caller: Address, height: i64, amount: i64)
    requires Injective(rt.hash) && RecordsDerived(rt, records, nonces)
    ensures var a := Base58.Encode(caller);
      BurnId(rt, caller, if a in nonces then nonces[a] else 0, height, amount) !in records
  {
    hide BurnId, LongBytes, Base58.Encode;
    var a := Base58.Encode(caller);
    var next: i64 := if a in nonces then nonces[a] else 0;
    var id := BurnId(rt, caller, next, height, amount);
    if id in records {
      var b := records[id];
      assert Derived(rt, nonces, id, b);
      var other: Address, nonce: i64 :|
        && id == BurnId(rt, other, nonce, b.height, b.amount) && b.sender == Base58.Encode(other)
        && b.sender in nonces && 0 <= nonce < nonces[b.sender];
      BurnIdInjective(rt, caller, next, height, amount, other, nonce, b.height, b.amount);
    }
  }

  lemma DerivedLater(rt: Runtime, nonces: map<string, i64>, later: map<string, i64>, id: string, b: BurnEntry)
    requires Derived(rt, nonces, id, b)
    requires forall a :: a in nonces ==> a in later && nonces[a] <= later[a]
    ensures Derived(rt, later, id, b)
  {
  }

  // ---------------------------------------------------------------------------------------------
  // One more record, under its new id
  // ---------------------------------------------------------------------------------------------

  lemma OneMoreDerived(rt: Runtime, records: BurnMap, nonces: map<string, i64>, caller: Address, b: BurnEntry, nonce: i64)
    requires RecordsDerived(rt, records, nonces) && b.sender == Base58.Encode(caller)
    requires nonce == (if b.sender in nonces then nonces[b.sender] else 0) && nonce >= 0 && CanAdd(nonce, 1)
    ensures RecordsDerived(rt, records[BurnId(rt, caller, nonce, b.height, b.amount) := b], nonces[b.sender := nonce + 1])
  {
    hide BurnId;
    var later := nonces[b.sender := nonce + 1];
    forall j | j in records ensures Derived(rt, later, j, records[j]) {
      DerivedLater(rt, nonces, later, j, records[j]);
    }
    assert Derived(rt, later, BurnId(rt, caller, nonce, b.height, b.amount), b);
  }

  lemma OneMoreTotal(records: BurnMap, tokens: map<string, TokenInfo>, id: string, b: BurnEntry, burned: i64)
    requires BurnsTotal(records, tokens) && id !in records && b.splMint in tokens && b.amount >= MIN_MINT_AMOUNT
    requires burned == tokens[b.splMint].burned + b.amount
    ensures BurnsTotal(records[id := b], tokens[b.splMint := tokens[b.splMint].(burned := burned)])
  {
    forall mint ensures SumOver(records[id := b], AmountFor(mint)) == SumOver(records, AmountFor(mint)) + AmountFor(mint)(b) {
      SumInsert(records, AmountFor(mint), id, b);
    }
  }

  lemma OneMoreCounted(records: BurnMap, nonces: map<string, i64>, id: string, b: BurnEntry, nonce: i64)
    requires NoncesCount(records, nonces) && id !in records
    requires nonce == (if b.sender in nonces then nonces[b.sender] else 0) && CanAdd(nonce, 1)
    ensures NoncesCount(records[id := b], nonces[b.sender := nonce + 1])
  {
    forall a ensures SumOver(records[id := b], OneBy(a)) == SumOver(records, OneBy(a)) + OneBy(a)(b) {
      SumInsert(records, OneBy(a), id, b);
    }
  }

  // ---------------------------------------------------------------------------------------------
  // Each callable
  // ---------------------------------------------------------------------------------------------

  lemma BurnedKeeps(rt: Runtime, c: Controller, inv: Invocation, solRecipient: string, mint: string, asset: string)
    requires Injective(rt.hash) && BurnInv(rt, c) && mint in c.tokens
    requires Burned(rt, c, inv, solRecipient, mint, asset).Done?
    ensures var d := Burned(rt, c, inv, solRecipient, mint, asset).c; BurnInv(rt, d) && c.burnRecords.Items <= d.burnRecords.Items
  {
    hide BurnId, RecordsDerived, NoncesCount, BurnsTotal;
    var amount, caller := inv.payments[0].amount, CallerText(inv);
    var nonce := NonceOf(c, caller);
    var id := BurnId(rt, inv.caller, nonce, inv.height, amount);
    var b := BurnEntry(caller, solRecipient, mint, amount, inv.height, inv.timestamp);
    NonceNonNegative(c.burnRecords, c.burnNonces, caller);
    NextBurnIsNew(rt, c.burnRecords, c.burnNonces, inv.caller, inv.height, amount);
    OneMoreDerived(rt, c.burnRecords, c.burnNonces, inv.caller, b, nonce);
    OneMoreTotal(c.burnRecords, c.tokens, id, b, c.tokens[mint].burned + amount);
    OneMoreCounted(c.burnRecords, c.burnNonces, id, b, nonce);
    Grows(c.burnRecords, id, b);
  }

  lemma NonceNonNegative(records: BurnMap, nonces: map<string, i64>, a: string)
    requires NoncesCount(records, nonces)
    ensures (if a in nonces then nonces[a] else 0) >= 0
  {
  }

  lemma Grows(records: BurnMap, id: string, b: BurnEntry)
    requires id !in records
    ensures records.Items <= records[id := b].Items
  {
    forall item | item in records.Items ensures item in records[id := b].Items {
      assert records[id := b][item.0] == item.1;
    }
  }

  predicate IsBurn(call: Call) { call.BurnToken? || call.Burn? }

  /** Burned totals of known tokens stay, new tokens start at zero. */
  predicate BurnedTotalsKept(tokens: map<string, TokenInfo>, later: map<string, TokenInfo>) {
    && (forall t :: t in tokens ==> t in later && later[t].burned == tokens[t].burned)
    && (forall t :: t in later && t !in tokens ==> later[t].burned == 0)
  }

  lemma OthersKeepBurns(rt: Runtime, c: Controller, inv: Invocation, call: Call)
    requires !IsBurn(call) && NATIVE_SOL_MINT in c.tokens && LiveStep(rt, c, inv, call).Done?
    ensures var d := LiveStep(rt, c, inv, call).c;
      d.burnRecords == c.burnRecords && d.burnNonces == c.burnNonces && BurnedTotalsKept(c.tokens, d.tokens)
  {
    hide DoMintToken, DoMint, DoExecutePendingMint, DoRegisterToken, DoBurnToken, DoBurn, DivisorFor, Scaled, UnitsOf,
         Base58.Encode, NATIVE_SOL_MINT;
    if call.MintToken? {
      if call.amount >= LARGE_TX_THRESHOLD { ScheduleFrame(rt, c, inv, call); } else { IssueNowFrame(rt, c, inv, call); }
    } else if call.Mint? {
      LegacyFrame(rt, c, inv, call);
    } else if call.ExecutePendingMint? {
      ExecuteFrame(rt, c, inv, call.transferId);
    } else if Administrative(call) {
      AdministrativeFrame(rt, c, inv, call);
    } else {
      RegistryFrame(rt, c, inv, call);
    }
  }

  lemma TotalsKept(records: BurnMap, tokens: map<string, TokenInfo>, later: map<string, TokenInfo>)
    requires BurnsTotal(records, tokens) && BurnedTotalsKept(tokens, later)
    ensures BurnsTotal(records, later)
  {
    forall t | t in later && t !in tokens ensures SumOver(records, AmountFor(t)) == 0 {
      SumZero(records, AmountFor(t));
    }
  }

  lemma StepKeepsBurns(rt: Runtime, c: Controller, inv: Invocation, call: Call)
    requires Injective(rt.hash) && NATIVE_SOL_MINT in c.tokens && BurnInv(rt, c) && LiveStep(rt, c, inv, call).Done?
    ensures var d := LiveStep(rt, c, inv, call).c; BurnInv(rt, d) && c.burnRecords.Items <= d.burnRecords.Items
  {
    hide RecordsDerived, NoncesCount, BurnsTotal, Burned;
    if call.BurnToken? {
      BurnedKeeps(rt, c, inv, call.solRecipient, call.splMint, c.tokens[call.splMint].assetId);
    } else if call.Burn? {
      BurnedKeeps(rt, c, inv, call.solRecipient, NATIVE_SOL_MINT, c.wsolAssetId);
    } else {
      OthersKeepBurns(rt, c, inv, call);
      TotalsKept(c.burnRecords, c.tokens, LiveStep(rt, c, inv, call).c.tokens);
    }
  }

  lemma FirstBurns(rt: Runtime, inv: Invocation, guardian: string, minValidators: i64)
    ensures BurnInv(rt, InitialController(inv, guardian, minValidators))
  {
  }

  /**
   * The burn ledger in every reachable state: both burn callables take the caller's next nonce, which
   * is its number of records; records naming a mint add up to what the controller says was burned of
   * it; and each record sits under the id its own caller, nonce, height and amount hash to.
   */
  lemma {:induction false} BurnLedger(rt: Runtime, txs: seq<Transaction>)
    requires Injective(rt.hash)
    ensures RunOf(rt, txs).Live? ==> BurnInv(rt, RunOf(rt, txs).c)
  {
    hide LiveStep, BurnInv;
    if txs != [] {
      var front, tx := txs[..|txs| - 1], txs[|txs| - 1];
      BurnLedger(rt, front);
      match RunOf(rt, front)
      case Fresh => FirstBurns(rt, tx.inv, if tx.call.Initialize? then tx.call.guardian else "",
                               if tx.call.Initialize? then tx.call.minValidators else 0);
      case Live(c) => if LiveStep(rt, c, tx.inv, tx.call).Done? { StepKeepsBurns(rt, c, tx.inv, tx.call); }
    }
  }

  function RecordsOf(w: World): BurnMap { if w.Live? then w.c.burnRecords else map[] }

  /** No burn record is ever overwritten or removed. */
  lemma {:induction false} BurnRecordsKept(rt: Runtime, txs: seq<Transaction>, k: nat)
    requires Injective(rt.hash) && k <= |txs|
    ensures RecordsOf(RunOf(rt, txs[..k])).Items <= RecordsOf(RunOf(rt, txs)).Items
  {
    hide LiveStep, BurnInv;
    if k == |txs| {
      assert txs[..k] == txs;
    } else {
      var front, tx := txs[..|txs| - 1], txs[|txs| - 1];
      assert front[..k] == txs[..k];
      BurnRecordsKept(rt, front, k);
      BurnLedger(rt, front);
      var w := RunOf(rt, front);
      if w.Live? && LiveStep(rt, w.c, tx.inv, tx.call).Done? {
        StepKeepsBurns(rt, w.c, tx.inv, tx.call);
      }
    }
  }
}
