/**
 * Runs of the controller that do what one may not expect of it: twice the daily cap accepted within a
 * day, a mint that one validator signed twice, a large mint issued at once, and more units burned in
 * total than minted.
 */
module ControllerWitnesses {
  import opened Bytes
  import opened Options
  import opened ControllerHistory
  import opened ControllerLimits
  import opened ControllerMints
  import opened ControllerState
  import Base58
  import FW = FixedWindow

  const ASSET := "wSOL"

  function By(caller: Address, height: i64, payments: seq<Payment>): Invocation { Invocation(caller, height, 0, payments, ASSET) }

  /** A mint of native SOL with `n` copies of one validator's signature. */
  function Ask(id: string, recipient: string, amount: i64, signature: seq<byte>, v: seq<byte>, n: nat): Call {
    MintToken(id, recipient, amount, 0, NATIVE_SOL_MINT, seq(n, _ => signature), seq(n, _ => v))
  }

  /** The validator's signature is over the message of just this mint, to an address. */
  predicate Signed(rt: Runtime, id: string, recipient: string, amount: i64, signature: seq<byte>, v: seq<byte>) {
    && (rt.sigVerify)(MintMessage(id, recipient, amount, 0, NATIVE_SOL_MINT, DCC_CHAIN_ID), signature, v)
    && (rt.isAddress)(recipient)
  }

  /** Initialized with one validator, who has signed `issued` units' worth of mints; the cap is `cap`. */
  predicate Open(c: Controller, a: Address, v: seq<byte>, needed: i64, cap: i64, issued: i64) {
    && !c.paused && c.admin == Base58.Encode(a) && c.minValidators == needed && c.maxDailyMint == cap
    && c.validatorActive == map[Base58.Encode(v) := true] && c.maxSingleMint == MAX_SINGLE_MINT
    && c.wsolAssetId == ASSET && c.totalMinted == 0 && c.totalBurned == 0 && 0 <= c.globalNonce <= 10
    && c.burnNonces == map[]
    && c.tokens == map[NATIVE_SOL_MINT := TokenInfo(ASSET, "SOL", 9, 8, 10, true, issued, 0)]
  }

  lemma OneMore(rt: Runtime, txs: seq<Transaction>, tx: Transaction, c: Controller)
    requires RunOf(rt, txs) == Live(c) && NATIVE_SOL_MINT in c.tokens && LiveStep(rt, c, tx.inv, tx.call).Done?
    ensures RunOf(rt, txs + [tx]) == Live(LiveStep(rt, c, tx.inv, tx.call).c)
    ensures MintTicks(rt, txs + [tx]) == FW.Extend(MintTicks(rt, txs), MintTick(c, tx.inv, tx.call))
  {
    hide LiveStep, NATIVE_SOL_MINT, MintTick;
    assert (txs + [tx])[..|txs + [tx]| - 1] == txs;
  }

  function Opening(a: Address, v: seq<byte>, needed: i64): seq<Transaction> {
    [Transaction(By(a, 0, []), Initialize("", needed))] + [Transaction(By(a, 0, []), RegisterValidator(Base58.Encode(v)))]
  }

  lemma FirstRun(rt: Runtime, a: Address, needed: i64)
    requires needed >= 1
    ensures var tx := Transaction(By(a, 0, []), Initialize("", needed));
      RunOf(rt, [tx]) == Live(InitialController(tx.inv, "", needed)) && MintTicks(rt, [tx]) == []
  {
    var tx := Transaction(By(a, 0, []), Initialize("", needed));
    assert [tx][..0] == [] && RunOf(rt, []) == Fresh;
  }

  lemma Opens(rt: Runtime, a: Address, v: seq<byte>, needed: i64)
    requires needed >= 1
    ensures var txs := Opening(a, v, needed);
      && RunOf(rt, txs).Live? && Open(RunOf(rt, txs).c, a, v, needed, MAX_DAILY_MINT, 0) && MintTicks(rt, txs) == []
      && RunOf(rt, txs).c.processed == {} && RunOf(rt, txs).c.dailyMinted == 0 && RunOf(rt, txs).c.dailyResetHeight == 0
      && RunOf(rt, txs).c.globalNonce == 0
  {
    hide RunOf, MintTicks, Base58.Encode, NATIVE_SOL_MINT;
    FirstRun(rt, a, needed);
    var first, second := Transaction(By(a, 0, []), Initialize("", needed)),
                         Transaction(By(a, 0, []), RegisterValidator(Base58.Encode(v)));
    OneMore(rt, [first], second, InitialController(first.inv, "", needed));
  }

  lemma QuorumOfOne(rt: Runtime, v: seq<byte>, message: string, signature: seq<byte>, n: nat, needed: i64)
    requires (rt.sigVerify)(message, signature, v) && needed <= n <= 20
    ensures Quorum(rt, map[Base58.Encode(v) := true], message, seq(n, _ => signature), seq(n, _ => v), needed)
  {
    hide Base58.Encode;
  }

  /** The daily breaker has room for the amount. */
  predicate Room(c: Controller, height: i64, amount: i64) {
    && c.dailyMinted >= 0 && 0 <= c.dailyResetHeight <= height && 0 <= amount && c.maxDailyMint <= MAX_DAILY_MINT
    && FW.Roll(RATE_LIMIT_WINDOW, FW.Window(c.dailyMinted, c.dailyResetHeight), height).count + amount <= c.maxDailyMint
  }

  lemma RoomPasses(c: Controller, height: i64, amount: i64)
    requires Room(c, height, amount)
    ensures var w := FW.After(RATE_LIMIT_WINDOW, FW.Window(c.dailyMinted, c.dailyResetHeight), FW.Tick(height, amount, Cap(c)));
      var daily := DailyCheck(c.dailyMinted, c.dailyResetHeight, c.maxDailyMint, height, amount);
      daily.Some? && daily.value.0 == w.count && daily.value.1 == w.last
  {
  }

  lemma Tenth(amount: i64)
    requires amount >= 0
    ensures Scaled(amount, 10) == amount as int / 10
  {
  }

  lemma IssuesNow(rt: Runtime, c: Controller, a: Address, v: seq<byte>, needed: i64, cap: i64, issued: i64, call: Call,
                  units: i64, daily: (i64, i64))
    requires call.MintToken? && call.splMint == NATIVE_SOL_MINT && (rt.isAddress)(call.recipient)
    requires Open(c, a, v, needed, cap, issued) && 0 <= issued <= LARGE_TX_THRESHOLD && 0 <= units <= LARGE_TX_THRESHOLD
    ensures var o := DoIssueNow(rt, c, call, units, daily);
      && o.Done? && Open(o.c.(globalNonce := c.globalNonce), a, v, needed, cap, issued + units)
      && o.c.globalNonce == c.globalNonce + 1 && o.c.processed == c.processed + {call.transferId}
      && o.c.dailyMinted == daily.0 && o.c.dailyResetHeight == daily.1
  {
    hide Base58.Encode, NATIVE_SOL_MINT;
  }

  lemma AskedIsIssued(rt: Runtime, c: Controller, a: Address, v: seq<byte>, needed: i64, cap: i64, issued: i64, inv: Invocation,
                      call: Call)
    requires call.MintToken? && call.splMint == NATIVE_SOL_MINT && (rt.isAddress)(call.recipient)
    requires Open(c, a, v, needed, cap, issued) && 0 <= issued <= LARGE_TX_THRESHOLD && Room(c, inv.height, call.amount)
    requires MIN_MINT_AMOUNT <= call.amount < LARGE_TX_THRESHOLD
    requires MayMint(rt, c, call.transferId, call.amount,
                     MintMessage(call.transferId, call.recipient, call.amount, call.solSlot, NATIVE_SOL_MINT, DCC_CHAIN_ID),
                     call.signatures, call.pubkeys)
    ensures var o := DoMintToken(rt, c, inv, call);
      var w := FW.After(RATE_LIMIT_WINDOW, FW.Window(c.dailyMinted, c.dailyResetHeight), FW.Tick(inv.height, call.amount, Cap(c)));
      && o.Done? && Open(o.c.(globalNonce := c.globalNonce), a, v, needed, cap, issued + call.amount as int / 10)
      && o.c.globalNonce == c.globalNonce + 1 && o.c.processed == c.processed + {call.transferId}
      && o.c.dailyMinted == w.count && o.c.dailyResetHeight == w.last
  {
    hide DoIssueNow, MayMint, DailyCheck, Scaled, MintMessage, Base58.Encode, NATIVE_SOL_MINT, FW.After, FW.Roll, Room;
    RoomPasses(c, inv.height, call.amount);
    Tenth(call.amount);
    var daily := DailyCheck(c.dailyMinted, c.dailyResetHeight, c.maxDailyMint, inv.height, call.amount).value;
    IssuesNow(rt, c, a, v, needed, cap, issued, call, Scaled(call.amount, 10), daily);
  }

  /** A mint of less than the threshold by n signatures of the one validator is accepted. */
  lemma AskAccepted(rt: Runtime, c: Controller, a: Address, v: seq<byte>, needed: i64, cap: i64, issued: i64, height: i64,
                    id: string, recipient: string, amount: i64, signature: seq<byte>, n: nat)
    requires Open(c, a, v, needed, cap, issued) && needed <= n <= 20 && id !in c.processed
    requires Signed(rt, id, recipient, amount, signature, v) && MIN_MINT_AMOUNT <= amount < LARGE_TX_THRESHOLD
    requires 0 <= issued <= LARGE_TX_THRESHOLD && c.globalNonce < 10 && Room(c, height, amount)
    ensures var o := LiveStep(rt, c, By(a, height, []), Ask(id, recipient, amount, signature, v, n));
      var w := FW.After(RATE_LIMIT_WINDOW, FW.Window(c.dailyMinted, c.dailyResetHeight), FW.Tick(height, amount, Cap(c)));
      && o.Done? && Open(o.c, a, v, needed, cap, issued + amount as int / 10) && o.c.processed == c.processed + {id}
      && o.c.globalNonce == c.globalNonce + 1 && o.c.dailyMinted == w.count && o.c.dailyResetHeight == w.last
  {
    hide DoMintToken, MintMessage, Quorum, Base58.Encode, NATIVE_SOL_MINT, FW.After, FW.Roll, Room, DoMint, DoExecutePendingMint,
         DoBurnToken, DoBurn, DoRegisterToken, DoRegisterValidator, DoRemoveValidator;
    QuorumOfOne(rt, v, MintMessage(id, recipient, amount, 0, NATIVE_SOL_MINT, DCC_CHAIN_ID), signature, n, needed);
    AskedIsIssued(rt, c, a, v, needed, cap, issued, By(a, height, []), Ask(id, recipient, amount, signature, v, n));
  }

  // ---------------------------------------------------------------------------------------------
  // Twice the cap
  // ---------------------------------------------------------------------------------------------

  lemma CapLowered(rt: Runtime, c: Controller, a: Address, v: seq<byte>, needed: i64, cap: i64)
    requires Open(c, a, v, needed, MAX_DAILY_MINT, 0) && cap > 0
    ensures var o := LiveStep(rt, c, By(a, 0, []), UpdateMaxDailyMint(cap));
      && o.Done? && Open(o.c, a, v, needed, cap, 0) && o.c.processed == c.processed && o.c.globalNonce == c.globalNonce
      && o.c.dailyMinted == c.dailyMinted && o.c.dailyResetHeight == c.dailyResetHeight
  {
    hide Base58.Encode, NATIVE_SOL_MINT, DoMintToken, DoMint, DoExecutePendingMint, DoBurnToken, DoBurn, DoRegisterToken,
         DoRegisterValidator, DoRemoveValidator;
  }

  function Limited(a: Address, v: seq<byte>, cap: i64): seq<Transaction> {
    Opening(a, v, 1) + [Transaction(By(a, 0, []), UpdateMaxDailyMint(cap))]
  }

  function MintingTwice(a: Address, v: seq<byte>, cap: i64, recipient: string, ids: (string, string),
                        signatures: (seq<byte>, seq<byte>)): seq<Transaction>
  {
    Limited(a, v, cap) + [Transaction(By(a, 1439, []), Ask(ids.0, recipient, cap, signatures.0, v, 1))]
                       + [Transaction(By(a, 1440, []), Ask(ids.1, recipient, cap, signatures.1, v, 1))]
  }

  lemma LimitedRun(rt: Runtime, a: Address, v: seq<byte>, cap: i64)
    requires cap > 0
    ensures var txs := Limited(a, v, cap);
      && RunOf(rt, txs).Live? && Open(RunOf(rt, txs).c, a, v, 1, cap, 0) && MintTicks(rt, txs) == []
      && RunOf(rt, txs).c.processed == {} && RunOf(rt, txs).c.dailyMinted == 0 && RunOf(rt, txs).c.dailyResetHeight == 0
      && RunOf(rt, txs).c.globalNonce == 0
  {
    hide RunOf, MintTicks, LiveStep, Base58.Encode, NATIVE_SOL_MINT, Opening;
    Opens(rt, a, v, 1);
    var c := RunOf(rt, Opening(a, v, 1)).c;
    CapLowered(rt, c, a, v, 1, cap);
    OneMore(rt, Opening(a, v, 1), Transaction(By(a, 0, []), UpdateMaxDailyMint(cap)), c);
  }

  lemma TicksOfTwo(t: FW.Tick, u: FW.Tick, from: int, to: int)
    requires from <= t.time < to && from <= u.time < to
    ensures FW.SumIn([t, u], from, to) == t.amount + u.amount
  {
    assert [t, u][..1] == [t] && [t][..0] == [];
    assert FW.SumIn([t], from, to) == t.amount;
  }

  /**
   * Twice the cap is accepted on the controller too, for every cap below the delay threshold: two mints a
   * block apart, the first just before the counter is reset and the second just after.
   */
  lemma TwiceTheDailyCapIsMinted(rt: Runtime, a: Address, v: seq<byte>, cap: i64, recipient: string, ids: (string, string),
                                 signatures: (seq<byte>, seq<byte>))
    requires MIN_MINT_AMOUNT <= cap < LARGE_TX_THRESHOLD && ids.0 != ids.1
    requires Signed(rt, ids.0, recipient, cap, signatures.0, v) && Signed(rt, ids.1, recipient, cap, signatures.1, v)
    ensures var txs := MintingTwice(a, v, cap, recipient, ids, signatures);
      && Chronological(txs) && RunOf(rt, txs).Live?
      && MintTicks(rt, txs) == [FW.Tick(1439, cap, cap), FW.Tick(1440, cap, cap)]
      && FW.CapsWithin(MintTicks(rt, txs), 1439, 1439 + RATE_LIMIT_WINDOW, cap)
      && FW.SumIn(MintTicks(rt, txs), 1439, 1439 + RATE_LIMIT_WINDOW) == 2 * cap as int
  {
    hide RunOf, MintTicks, LiveStep, Limited, Signed, Base58.Encode, NATIVE_SOL_MINT, FW.SumIn;
    var first, second := Transaction(By(a, 1439, []), Ask(ids.0, recipient, cap, signatures.0, v, 1)),
                         Transaction(By(a, 1440, []), Ask(ids.1, recipient, cap, signatures.1, v, 1));
    var zero := Limited(a, v, cap);
    LimitedRun(rt, a, v, cap);
    var c := RunOf(rt, zero).c;
    AskAccepted(rt, c, a, v, 1, cap, 0, 1439, ids.0, recipient, cap, signatures.0, 1);
    OneMore(rt, zero, first, c);
    var d := RunOf(rt, zero + [first]).c;
    AskAccepted(rt, d, a, v, 1, cap, cap as int / 10, 1440, ids.1, recipient, cap, signatures.1, 1);
    OneMore(rt, zero + [first], second, d);
    var t, u := FW.Tick(1439, cap, cap), FW.Tick(1440, cap, cap);
    assert MintTicks(rt, zero + [first]) == [] + [t] == [t] && [t] + [u] == [t, u];
    TicksOfTwo(t, u, 1439, 1439 + RATE_LIMIT_WINDOW);
    HeightsOf(a, v, cap, first, second);
  }

  lemma HeightsOf(a: Address, v: seq<byte>, cap: i64, first: Transaction, second: Transaction)
    requires first.inv.height == 1439 && second.inv.height == 1440
    ensures Chronological(Limited(a, v, cap) + [first] + [second])
  {
    hide Base58.Encode;
    var txs := Limited(a, v, cap) + [first] + [second];
    assert |txs| == 5 && txs[0].inv.height == txs[1].inv.height == txs[2].inv.height == 0 && txs[3] == first && txs[4] == second;
  }

  // ---------------------------------------------------------------------------------------------
  // One validator twice
  // ---------------------------------------------------------------------------------------------

  /**
   * Two signatures are asked for, one validator is registered, and a mint with its signature given twice
   * is accepted.
   */
  lemma OneValidatorSignsTwice(rt: Runtime, a: Address, v: seq<byte>, id: string, recipient: string, amount: i64,
                               signature: seq<byte>)
    requires Signed(rt, id, recipient, amount, signature, v) && MIN_MINT_AMOUNT <= amount < LARGE_TX_THRESHOLD
    ensures var w, call := RunOf(rt, Opening(a, v, 2)), Ask(id, recipient, amount, signature, v, 2);
      && w.Live? && w.c.minValidators == 2 && w.c.validatorActive == map[Base58.Encode(v) := true]
      && call.pubkeys == [v, v] && LiveStep(rt, w.c, By(a, 0, []), call).Done?
  {
    hide RunOf, LiveStep, Signed, Opening, Base58.Encode, NATIVE_SOL_MINT;
    Opens(rt, a, v, 2);
    AskAccepted(rt, RunOf(rt, Opening(a, v, 2)).c, a, v, 2, MAX_DAILY_MINT, 0, 0, id, recipient, amount, signature, 2);
  }

  // ---------------------------------------------------------------------------------------------
  // A large mint at once
  // ---------------------------------------------------------------------------------------------

  lemma LegacyAccepted(rt: Runtime, c: Controller, a: Address, v: seq<byte>, inv: Invocation, call: Call)
    requires Open(c, a, v, 1, MAX_DAILY_MINT, 0) && call.Mint? && (rt.isAddress)(call.recipient)
    requires MIN_MINT_AMOUNT <= call.amount <= MAX_SINGLE_MINT && Room(c, inv.height, call.amount)
    requires MayMint(rt, c, call.transferId, call.amount,
                     LegacyMintMessage(call.transferId, call.recipient, call.amount, call.solSlot, DCC_CHAIN_ID),
                     call.signatures, call.pubkeys)
    ensures DoMint(rt, c, inv, call).Done?
  {
    hide MayMint, DailyCheck, Scaled, LegacyMintMessage, Base58.Encode, NATIVE_SOL_MINT, FW.After, FW.Roll, Room;
    RoomPasses(c, inv.height, call.amount);
    Tenth(call.amount);
  }

  /**
   * For every amount from the delay threshold up to the largest single mint, a run that accepts it by the
   * legacy `mint`, so that not every large mint of the run has waited.
   */
  lemma LargeMintIssuedAtOnce(rt: Runtime, a: Address, v: seq<byte>, id: string, recipient: string, amount: i64,
                              signature: seq<byte>)
    requires LARGE_TX_THRESHOLD <= amount <= MAX_SINGLE_MINT && (rt.isAddress)(recipient)
    requires (rt.sigVerify)(LegacyMintMessage(id, recipient, amount, 0, DCC_CHAIN_ID), signature, v)
    ensures var txs := Opening(a, v, 1)
                       + [Transaction(By(a, 0, []), Mint(id, recipient, amount, 0, seq(1, _ => signature), seq(1, _ => v)))];
      |txs| == 3 && LargeLegacyAt(rt, txs, 2) && !LargeMintsWait(HistoryOf(rt, txs))
  {
    hide RunOf, HistoryOf, LargeMintsWait, DoMint, LegacyMintMessage, Quorum, Base58.Encode, NATIVE_SOL_MINT, DoMintToken,
         DoExecutePendingMint, DoBurnToken, DoBurn, DoRegisterToken, DoRegisterValidator, DoRemoveValidator;
    var call := Mint(id, recipient, amount, 0, seq(1, _ => signature), seq(1, _ => v));
    var zero := Opening(a, v, 1);
    var txs := zero + [Transaction(By(a, 0, []), call)];
    assert txs[..2] == zero;
    Opens(rt, a, v, 1);
    QuorumOfOne(rt, v, LegacyMintMessage(id, recipient, amount, 0, DCC_CHAIN_ID), signature, 1, 1);
    LegacyAccepted(rt, RunOf(rt, zero).c, a, v, By(a, 0, []), call);
    LargeMintsWaitExactly(rt, txs);
  }

  // ---------------------------------------------------------------------------------------------
  // More burned than minted
  // ---------------------------------------------------------------------------------------------

  lemma BurnAccepted(rt: Runtime, c: Controller, a: Address, v: seq<byte>, needed: i64, cap: i64, issued: i64, caller: Address,
                     solRecipient: string, units: i64)
    requires Open(c, a, v, needed, cap, issued) && ValidSolanaAddress(solRecipient) && MIN_MINT_AMOUNT <= units
    ensures var o := LiveStep(rt, c, By(caller, 0, [Payment(Some(ASSET), units)]), Burn(solRecipient));
      && o.Done? && o.c.totalMinted == 0 && o.c.totalBurned == units && NATIVE_SOL_MINT in o.c.tokens
      && o.c.tokens[NATIVE_SOL_MINT].minted == issued && o.c.tokens[NATIVE_SOL_MINT].burned == units
  {
    hide Base58.Encode, NATIVE_SOL_MINT, BurnId, DoMintToken, DoMint, DoExecutePendingMint, DoBurnToken, DoRegisterToken,
         DoRegisterValidator, DoRemoveValidator;
  }

  /**
   * Units issued by mintToken and burned by the legacy `burn`: the global totals say that some were burned
   * and none was minted, while no more were burned than issued.
   */
  lemma BurnedExceedsMinted(rt: Runtime, a: Address, v: seq<byte>, id: string, recipient: string, amount: i64, signature: seq<byte>,
                            caller: Address, solRecipient: string)
    requires Signed(rt, id, recipient, amount, signature, v) && 10 * MIN_MINT_AMOUNT <= amount < LARGE_TX_THRESHOLD
    requires ValidSolanaAddress(solRecipient)
    ensures var units := amount as int / 10;
      var txs := Opening(a, v, 1) + [Transaction(By(a, 0, []), Ask(id, recipient, amount, signature, v, 1))]
                 + [Transaction(By(caller, 0, [Payment(Some(ASSET), units)]), Burn(solRecipient))];
      && RunOf(rt, txs).Live? && NATIVE_SOL_MINT in RunOf(rt, txs).c.tokens
      && var c := RunOf(rt, txs).c;
      && c.totalMinted == 0 < c.totalBurned && c.tokens[NATIVE_SOL_MINT].burned <= c.tokens[NATIVE_SOL_MINT].minted
  {
    hide RunOf, MintTicks, LiveStep, Signed, Opening, Base58.Encode, NATIVE_SOL_MINT;
    var units := amount as int / 10;
    Opens(rt, a, v, 1);
    var zero, mint := Opening(a, v, 1), Transaction(By(a, 0, []), Ask(id, recipient, amount, signature, v, 1));
    var c := RunOf(rt, zero).c;
    AskAccepted(rt, c, a, v, 1, MAX_DAILY_MINT, 0, 0, id, recipient, amount, signature, 1);
    OneMore(rt, zero, mint, c);
    var d := RunOf(rt, zero + [mint]).c;
    BurnAccepted(rt, d, a, v, 1, MAX_DAILY_MINT, units, caller, solRecipient, units);
    OneMore(rt, zero + [mint], Transaction(By(caller, 0, [Payment(Some(ASSET), units)]), Burn(solRecipient)), d);
  }
}
