/**
 * Every callable on the flat store does to it exactly what the same step does to the records it
 * stands for, over any run in which no accepted call writes one pending mint over another.
 */
module ControllerRefinement {
  import opened Bytes
  import opened Options
  import opened ControllerKeys
  import opened ControllerState
  import opened ControllerScript
  import opened ControllerStore
  import Base58

  /** Both throw, or the same actions and entries that account for every change of the records. */
  ghost predicate Matches(c: Controller, r: Result, o: Outcome) {
    match (r, o)
    case (Throws, Throw) => true
    case (Entries(writes, actions), Done(d, acts)) =>
      actions == acts && Changes(c, d, writes) && NATIVE_SOL_MINT in d.tokens
    case (_, _) => false
  }

  // ---------------------------------------------------------------------------------------------
  // What each group of entries changes
  // ---------------------------------------------------------------------------------------------

  lemma CountedChanges(c: Controller, id: string, daily: (i64, i64))
    ensures Changes(c, Counted(c, id, daily), CountedEntries(id, daily))
  {
    hide Canonical, PendingValue, BurnText, TokenValue;
    MostKeysArePlain();
  }

  lemma MintedChanges(c: Controller, mint: string, amount: i64)
    requires mint in c.tokens && CanAdd(c.tokens[mint].minted, amount) && CanAdd(c.globalNonce, 1)
    ensures Changes(c, ControllerState.Minted(c, mint, amount),
                    IssuedEntries(mint, c.tokens[mint].minted + amount, c.globalNonce + 1))
  {
    hide Canonical, PendingValue, BurnText;
    MostKeysArePlain();
  }

  lemma IssueChanges(c: Controller, id: string, daily: (i64, i64), mint: string, amount: i64)
    requires mint in c.tokens && CanAdd(c.tokens[mint].minted, amount) && CanAdd(c.globalNonce, 1)
    ensures Changes(c, ControllerState.Minted(Counted(c, id, daily), mint, amount),
                    CountedEntries(id, daily) + IssuedEntries(mint, c.tokens[mint].minted + amount, c.globalNonce + 1))
  {
    hide Lookup, Changes, CountedEntries, IssuedEntries;
    var counted := Counted(c, id, daily);
    CountedChanges(c, id, daily);
    MintedChanges(counted, mint, amount);
    ChangesCompose(c, counted, ControllerState.Minted(counted, mint, amount), CountedEntries(id, daily),
                   IssuedEntries(mint, c.tokens[mint].minted + amount, c.globalNonce + 1));
  }

  lemma FlagIsPlain(id: string)
    requires Plain(id)
    ensures PlainKey(Pending(id, Flag))
  {
  }

  lemma PendingChanges(c: Controller, id: string, p: PendingMint)
    requires Plain(id)
    ensures Changes(c, c.(pending := c.pending[id := p]), PendingEntries(id, p.height, p.recipient, p.amount, p.splMint))
  {
    hide FixedLookup, Canonical, TokenValue, BurnText;
    MostKeysArePlain();
    FlagIsPlain(id);
    FixedFrame(c, c.(pending := c.pending[id := p]));
  }

  lemma PendingDeletesAre(id: string, k: Key)
    ensures k in PendingDeletes(id) <==> k.Pending? && k.transferId == id
    ensures k in PendingDeletes(id) ==> PendingDeletes(id)[k] == None
  {
    if k.Pending? && k.transferId == id {
      assert k == Pending(id, k.field);
      match k.field {
        case Flag => assert Pending(id, Flag) in PendingDeletes(id);
        case Height => assert Pending(id, Height) in PendingDeletes(id);
        case Recipient => assert Pending(id, Recipient) in PendingDeletes(id);
        case Amount => assert Pending(id, Amount) in PendingDeletes(id);
        case SplMint => assert Pending(id, SplMint) in PendingDeletes(id);
      }
    }
  }

  lemma DeletesChange(c: Controller, id: string)
    requires Plain(id)
    ensures Changes(c, c.(pending := c.pending - {id}), PendingDeletes(id))
  {
    hide FixedLookup, Canonical, TokenValue, PendingValue, BurnText, PendingDeletes, Plain;
    forall k ensures k in PendingDeletes(id) <==> k.Pending? && k.transferId == id
             ensures k in PendingDeletes(id) ==> PendingDeletes(id)[k] == None {
      PendingDeletesAre(id, k);
    }
    MostKeysArePlain();
    FlagIsPlain(id);
    FixedFrame(c, c.(pending := c.pending - {id}));
  }

  lemma TotalMintedChanges(c: Controller, total: i64)
    ensures Changes(c, c.(totalMinted := total), map[K(TotalMinted) := Put(IntV(total))])
  {
    hide Canonical, PendingValue, BurnText, TokenValue;
    MostKeysArePlain();
  }

  lemma TotalBurnedChanges(c: Controller, total: i64)
    ensures Changes(c, c.(totalBurned := total), map[K(TotalBurned) := Put(IntV(total))])
  {
    hide Canonical, PendingValue, BurnText, TokenValue;
    MostKeysArePlain();
  }

  lemma RecordAdded(c: Controller, id: string, b: BurnEntry)
    requires PlainKey(BurnRecord(id))
    ensures Changes(c, c.(burnRecords := c.burnRecords[id := b]), map[BurnRecord(id) := Put(StrV(BurnText(b)))])
  {
    hide FixedLookup, Canonical, PendingValue, TokenValue, BurnText;
    MostKeysArePlain();
    FixedFrame(c, c.(burnRecords := c.burnRecords[id := b]));
  }

  lemma TotalChanged(c: Controller, mint: string, burned: i64)
    requires mint in c.tokens
    ensures Changes(c, c.(tokens := c.tokens[mint := c.tokens[mint].(burned := burned)]),
                    map[Token(mint, TokenField.Burned) := Put(IntV(burned))])
  {
    hide FixedLookup, Canonical, PendingValue, BurnText;
    MostKeysArePlain();
    FixedFrame(c, c.(tokens := c.tokens[mint := c.tokens[mint].(burned := burned)]));
  }

  lemma NonceChanged(c: Controller, caller: string, nonce: i64)
    ensures Changes(c, c.(burnNonces := c.burnNonces[caller := nonce]), map[BurnNonce(caller) := Put(IntV(nonce))])
  {
    hide FixedLookup, Canonical, PendingValue, TokenValue, BurnText;
    MostKeysArePlain();
    FixedFrame(c, c.(burnNonces := c.burnNonces[caller := nonce]));
  }

  lemma RecordEntriesAre(id: string, b: BurnEntry, burned: i64, nonce: i64)
    ensures RecordEntries(id, b, burned, nonce)
         == map[BurnRecord(id) := Put(StrV(BurnText(b)))] + map[Token(b.splMint, TokenField.Burned) := Put(IntV(burned))]
            + map[BurnNonce(b.sender) := Put(IntV(nonce))]
  {
    hide BurnText;
  }

  lemma RecordChanges(c: Controller, id: string, b: BurnEntry, burned: i64, nonce: i64)
    requires PlainKey(BurnRecord(id)) && b.splMint in c.tokens
    ensures Changes(c, c.(burnRecords := c.burnRecords[id := b],
                          tokens := c.tokens[b.splMint := c.tokens[b.splMint].(burned := burned)],
                          burnNonces := c.burnNonces[b.sender := nonce]),
                    RecordEntries(id, b, burned, nonce))
  {
    hide Changes, RecordEntries, BurnText, Canonical, PlainKey;
    var first := c.(burnRecords := c.burnRecords[id := b]);
    var second := first.(tokens := c.tokens[b.splMint := c.tokens[b.splMint].(burned := burned)]);
    var one, two, three: Writes := map[BurnRecord(id) := Put(StrV(BurnText(b)))],
                                   map[Token(b.splMint, TokenField.Burned) := Put(IntV(burned))],
                                   map[BurnNonce(b.sender) := Put(IntV(nonce))];
    RecordAdded(c, id, b);
    TotalChanged(first, b.splMint, burned);
    NonceChanged(second, b.sender, nonce);
    ChangesCompose(c, first, second, one, two);
    ChangesCompose(c, second, second.(burnNonces := c.burnNonces[b.sender := nonce]), one + two, three);
    RecordEntriesAre(id, b, burned, nonce);
  }

  lemma TokenEntriesAre(mint: string, t: TokenInfo, k: Key)
    requires t.enabled && t.minted == 0 && t.burned == 0
    ensures var w := TokenEntries(mint, t.assetId, t.name, t.solDecimals, t.dccDecimals, t.divisor);
      && (k in w <==> k.Token? && k.splMint == mint)
      && (k in w ==> w[k] == Some(TokenValue(t, k.tokenField)))
  {
  }

  lemma TokenChanges(c: Controller, mint: string, t: TokenInfo)
    requires t.enabled && t.minted == 0 && t.burned == 0
    ensures Changes(c, c.(tokens := c.tokens[mint := t]),
                    TokenEntries(mint, t.assetId, t.name, t.solDecimals, t.dccDecimals, t.divisor))
  {
    hide FixedLookup, Canonical, PendingValue, TokenValue, TokenEntries, BurnText;
    MostKeysArePlain();
    FixedFrame(c, c.(tokens := c.tokens[mint := t]));
    forall k ensures var w := TokenEntries(mint, t.assetId, t.name, t.solDecimals, t.dccDecimals, t.divisor);
      && (k in w <==> k.Token? && k.splMint == mint) && (k in w ==> w[k] == Some(TokenValue(t, k.tokenField))) {
      TokenEntriesAre(mint, t, k);
    }
  }

  lemma CountChanges(c: Controller, count: i64)
    ensures Changes(c, c.(registeredTokenCount := count), map[K(RegisteredTokenCount) := Put(IntV(count))])
  {
    hide Canonical, PendingValue, BurnText, TokenValue;
    MostKeysArePlain();
  }

  lemma EnabledChanges(c: Controller, mint: string, enabled: bool)
    requires mint in c.tokens
    ensures Changes(c, c.(tokens := c.tokens[mint := c.tokens[mint].(enabled := enabled)]),
                    map[Token(mint, Enabled) := Put(BoolV(enabled))])
  {
    hide FixedLookup, Canonical, PendingValue, BurnText;
    MostKeysArePlain();
    FixedFrame(c, c.(tokens := c.tokens[mint := c.tokens[mint].(enabled := enabled)]));
  }

  lemma ValidatorChanges(c: Controller, pubkey: string, active: bool, count: i64)
    ensures Changes(c, c.(validatorActive := c.validatorActive[pubkey := active], validatorCount := count),
                    ValidatorEntries(pubkey, active, count))
  {
    hide Canonical, PendingValue, BurnText, TokenValue;
    MostKeysArePlain();
  }

  lemma SlotChanges(c: Controller, slot: i64, pubkey: string)
    ensures Changes(c, c.(validatorSlots := c.validatorSlots[slot as int := pubkey]), map[Validator(slot) := Put(StrV(pubkey))])
  {
    hide FixedLookup, Canonical, PendingValue, TokenValue, BurnText;
    MostKeysArePlain();
    FixedFrame(c, c.(validatorSlots := c.validatorSlots[slot as int := pubkey]));
  }

  lemma PausedChanges(c: Controller, paused: bool)
    ensures Changes(c, c.(paused := paused), map[K(Paused) := Put(BoolV(paused))])
  {
    hide Canonical, PendingValue, BurnText, TokenValue;
    MostKeysArePlain();
  }

  lemma MaxDailyChanges(c: Controller, m: i64)
    ensures Changes(c, c.(maxDailyMint := m), map[K(MaxDailyMint) := Put(IntV(m))])
  {
    hide Canonical, PendingValue, BurnText, TokenValue;
    MostKeysArePlain();
  }

  lemma MaxSingleChanges(c: Controller, m: i64)
    ensures Changes(c, c.(maxSingleMint := m), map[K(MaxSingleMint) := Put(IntV(m))])
  {
    hide Canonical, PendingValue, BurnText, TokenValue;
    MostKeysArePlain();
  }

  lemma AdminProposed(c: Controller, to: string, height: i64)
    ensures Changes(c, c.(adminTransfer := Some(Handover(to, height))),
                    ProposedEntries(to, height, AdminTransfer, AdminTransferHeight))
  {
    hide Canonical, PendingValue, BurnText, TokenValue;
    MostKeysArePlain();
  }

  lemma AdminCleared(c: Controller)
    ensures Changes(c, c.(adminTransfer := None), ClearedEntries(AdminTransfer, AdminTransferHeight))
  {
    hide Canonical, PendingValue, BurnText, TokenValue;
    MostKeysArePlain();
  }

  lemma GuardianProposed(c: Controller, to: string, height: i64)
    ensures Changes(c, c.(guardianTransfer := Some(Handover(to, height))),
                    ProposedEntries(to, height, GuardianTransfer, GuardianTransferHeight))
  {
    hide Canonical, PendingValue, BurnText, TokenValue;
    MostKeysArePlain();
  }

  lemma GuardianCleared(c: Controller)
    ensures Changes(c, c.(guardianTransfer := None), ClearedEntries(GuardianTransfer, GuardianTransferHeight))
  {
    hide Canonical, PendingValue, BurnText, TokenValue;
    MostKeysArePlain();
  }

  lemma AdminChanges(c: Controller, to: string)
    ensures Changes(c, c.(admin := to), map[K(Admin) := Put(StrV(to))])
  {
    hide Canonical, PendingValue, BurnText, TokenValue;
    MostKeysArePlain();
  }

  lemma GuardianChanges(c: Controller, to: string)
    ensures Changes(c, c.(guardian := to), map[K(Guardian) := Put(StrV(to))])
  {
    hide Canonical, PendingValue, BurnText, TokenValue;
    MostKeysArePlain();
  }

  // ---------------------------------------------------------------------------------------------
  // Mints
  // ---------------------------------------------------------------------------------------------

  lemma MintAllowedAgrees(rt: Runtime, db: Getter, c: Controller, id: string, amount: i64, message: string,
                          signatures: seq<seq<byte>>, pubkeys: seq<seq<byte>>)
    requires Represents(db, c)
    ensures MintAllowed(rt, db, id, amount, message, signatures, pubkeys)
       <==> MayMint(rt, c, id, amount, message, signatures, pubkeys)
  {
    hide Represents, VerifyValidatorSignatures, Quorum, NATIVE_SOL_MINT;
    PauseRead(db, c);
    Read(db, c, ProcessedTransfer(id));
    IntRead(db, c, K(MaxSingleMint), MAX_SINGLE_MINT);
    IntRead(db, c, K(MinValidators), 0);
    SignaturesAgree(rt, db, c, message, signatures, pubkeys);
  }

  lemma IssueNowMatches(rt: Runtime, db: Getter, c: Controller, call: Call, mintAmount: i64, daily: (i64, i64))
    requires Represents(db, c) && call.MintToken? && call.splMint in c.tokens
    ensures Matches(c, IssueNow(rt, db, call, mintAmount, daily), DoIssueNow(rt, c, call, mintAmount, daily))
  {
    hide Lookup, Represents, Changes, IntOr, GetInteger, GetString, CountedEntries, IssuedEntries, NATIVE_SOL_MINT;
    var id, mint := call.transferId, call.splMint;
    NativeRegistered(db, c);
    IssueReads(db, c, mint);
    if DoIssueNow(rt, c, call, mintAmount, daily).Done? {
      IssueChanges(c, id, daily, mint, mintAmount);
    }
  }

  lemma ScheduleMatches(c: Controller, id: string, p: PendingMint, daily: (i64, i64))
    requires Plain(id) && NATIVE_SOL_MINT in c.tokens
    ensures Matches(c, Entries(CountedEntries(id, daily) + PendingEntries(id, p.height, p.recipient, p.amount, p.splMint), []),
                    Done(Counted(c, id, daily).(pending := c.pending[id := p]), []))
  {
    hide Lookup, Changes, CountedEntries, PendingEntries, NATIVE_SOL_MINT;
    var counted := Counted(c, id, daily);
    CountedChanges(c, id, daily);
    PendingChanges(counted, id, p);
    ChangesCompose(c, counted, counted.(pending := c.pending[id := p]), CountedEntries(id, daily),
                   PendingEntries(id, p.height, p.recipient, p.amount, p.splMint));
  }

  /** mintToken's way to its last branching, with what it read replaced by the records. */
  lemma MintTokenReaches(rt: Runtime, db: Getter, c: Controller, inv: Invocation, call: Call)
    requires Represents(db, c) && call.MintToken?
    ensures var id, mint, amount := call.transferId, call.splMint, call.amount;
      var daily := DailyCheck(c.dailyMinted, c.dailyResetHeight, c.maxDailyMint, inv.height, amount);
      ControllerScript.MintToken(rt, db, inv, call) ==
        if mint in c.tokens && c.tokens[mint].enabled && daily.Some?
           && MayMint(rt, c, id, amount, MintMessage(id, call.recipient, amount, call.solSlot, mint, DCC_CHAIN_ID),
                      call.signatures, call.pubkeys)
        then
          var divisor := c.tokens[mint].divisor;
          var mintAmount := if divisor > 1 then Scaled(amount, divisor) else amount;
          if mintAmount <= 0 then Throws
          else if amount >= LARGE_TX_THRESHOLD then
            Entries(CountedEntries(id, daily.value) + PendingEntries(id, inv.height, call.recipient, mintAmount, mint), [])
          else IssueNow(rt, db, call, mintAmount, daily.value)
        else Throws
  {
    hide Represents, Lookup, IntOr, GetInteger, GetBoolean, GetString, CountedEntries, PendingEntries, IssueNow, MintMessage,
         MintAllowed, MayMint, Scaled;
    var id, mint, amount := call.transferId, call.splMint, call.amount;
    TokenRegisteredRead(db, c, mint);
    TokenUseReads(db, c, mint);
    LimitReads(db, c, inv.height, amount);
    MintAllowedAgrees(rt, db, c, id, amount, MintMessage(id, call.recipient, amount, call.solSlot, mint, DCC_CHAIN_ID),
                      call.signatures, call.pubkeys);
  }

  lemma MintTokenMatches(rt: Runtime, db: Getter, c: Controller, inv: Invocation, call: Call)
    requires Represents(db, c) && call.MintToken? && (call.amount >= LARGE_TX_THRESHOLD ==> Plain(call.transferId))
    ensures Matches(c, ControllerScript.MintToken(rt, db, inv, call), DoMintToken(rt, c, inv, call))
  {
    hide Represents, Lookup, Changes, ControllerScript.MintToken, IssueNow, DoIssueNow, CountedEntries, PendingEntries,
         MintMessage, Quorum, Scaled, DailyCheck, NATIVE_SOL_MINT;
    var id, mint, amount := call.transferId, call.splMint, call.amount;
    NativeRegistered(db, c);
    MintTokenReaches(rt, db, c, inv, call);
    var daily := DailyCheck(c.dailyMinted, c.dailyResetHeight, c.maxDailyMint, inv.height, amount);
    if mint in c.tokens && amount >= MIN_MINT_AMOUNT && daily.Some? {
      var divisor := c.tokens[mint].divisor;
      var mintAmount := if divisor > 1 then Scaled(amount, divisor) else amount;
      if amount >= LARGE_TX_THRESHOLD {
        ScheduleMatches(c, id, PendingMint(inv.height, call.recipient, mintAmount, mint), daily.value);
      } else {
        IssueNowMatches(rt, db, c, call, mintAmount, daily.value);
      }
    }
  }

  /** What the legacy mint writes beside an ordinary issue: the controller's own total. */
  lemma LegacyChanges(c: Controller, id: string, daily: (i64, i64), amount: i64)
    requires NATIVE_SOL_MINT in c.tokens && CanAdd(c.tokens[NATIVE_SOL_MINT].minted, amount)
    requires CanAdd(c.globalNonce, 1) && CanAdd(c.totalMinted, amount)
    ensures Changes(c, ControllerState.Minted(Counted(c, id, daily), NATIVE_SOL_MINT, amount)
                       .(totalMinted := c.totalMinted + amount),
                    LegacyEntries(c, id, daily, amount))
  {
    hide Lookup, Changes, CountedEntries, IssuedEntries, NATIVE_SOL_MINT;
    var issued := ControllerState.Minted(Counted(c, id, daily), NATIVE_SOL_MINT, amount);
    IssueChanges(c, id, daily, NATIVE_SOL_MINT, amount);
    TotalMintedChanges(issued, c.totalMinted + amount);
    ChangesCompose(c, issued, issued.(totalMinted := c.totalMinted + amount),
                   CountedEntries(id, daily)
                   + IssuedEntries(NATIVE_SOL_MINT, c.tokens[NATIVE_SOL_MINT].minted + amount, c.globalNonce + 1),
                   map[K(TotalMinted) := Put(IntV(c.totalMinted + amount))]);
  }

  function LegacyEntries(c: Controller, id: string, daily: (i64, i64), amount: i64): Writes
    requires NATIVE_SOL_MINT in c.tokens && CanAdd(c.tokens[NATIVE_SOL_MINT].minted, amount)
    requires CanAdd(c.globalNonce, 1) && CanAdd(c.totalMinted, amount)
  {
    CountedEntries(id, daily)
    + IssuedEntries(NATIVE_SOL_MINT, c.tokens[NATIVE_SOL_MINT].minted + amount, c.globalNonce + 1)
    + map[K(TotalMinted) := Put(IntV(c.totalMinted + amount))]
  }

  lemma LegacyIssueResult(rt: Runtime, db: Getter, c: Controller, call: Call, mintAmount: i64, daily: (i64, i64))
    requires Represents(db, c) && call.Mint?
    ensures LegacyIssue(rt, db, call, mintAmount, daily) ==
            if !(rt.isAddress)(call.recipient) || !CanAdd(c.totalMinted, mintAmount)
               || !CanAdd(c.tokens[NATIVE_SOL_MINT].minted, mintAmount) || !CanAdd(c.globalNonce, 1) then Throws
            else Entries(LegacyEntries(c, call.transferId, daily, mintAmount),
                         [Reissue(c.wsolAssetId, mintAmount), Transfer(call.recipient, mintAmount, c.wsolAssetId)])
  {
    hide Represents, Lookup, IntOr, GetInteger, GetString, CountedEntries, IssuedEntries, NATIVE_SOL_MINT;
    NativeRegistered(db, c);
    IssueReads(db, c, NATIVE_SOL_MINT);
    TotalReads(db, c);
  }

  lemma LegacyIssueMatches(rt: Runtime, db: Getter, c: Controller, call: Call, mintAmount: i64, daily: (i64, i64))
    requires Represents(db, c) && call.Mint?
    ensures Matches(c, LegacyIssue(rt, db, call, mintAmount, daily), DoLegacyIssue(rt, c, call, mintAmount, daily))
  {
    hide Lookup, Changes, LegacyIssue, LegacyEntries, NATIVE_SOL_MINT;
    LegacyIssueResult(rt, db, c, call, mintAmount, daily);
    if DoLegacyIssue(rt, c, call, mintAmount, daily).Done? {
      LegacyChanges(c, call.transferId, daily, mintAmount);
    }
  }

  lemma MintReaches(rt: Runtime, db: Getter, c: Controller, inv: Invocation, call: Call)
    requires Represents(db, c) && call.Mint?
    ensures var id, amount, divisor := call.transferId, call.amount, c.tokens[NATIVE_SOL_MINT].divisor;
      var daily := DailyCheck(c.dailyMinted, c.dailyResetHeight, c.maxDailyMint, inv.height, amount);
      ControllerScript.Mint(rt, db, inv, call) ==
        if daily.Some?
           && MayMint(rt, c, id, amount, LegacyMintMessage(id, call.recipient, amount, call.solSlot, DCC_CHAIN_ID),
                      call.signatures, call.pubkeys)
           && divisor > 0 && Scaled(amount, divisor) > 0
        then LegacyIssue(rt, db, call, Scaled(amount, divisor), daily.value)
        else Throws
  {
    var id, amount := call.transferId, call.amount;
    IntRead(db, c, Token(NATIVE_SOL_MINT, Divisor), 1);
    LimitReads(db, c, inv.height, amount);
    MintAllowedAgrees(rt, db, c, id, amount, LegacyMintMessage(id, call.recipient, amount, call.solSlot, DCC_CHAIN_ID),
                      call.signatures, call.pubkeys);
  }

  lemma MintMatches(rt: Runtime, db: Getter, c: Controller, inv: Invocation, call: Call)
    requires Represents(db, c) && call.Mint?
    ensures Matches(c, ControllerScript.Mint(rt, db, inv, call), DoMint(rt, c, inv, call))
  {
    hide Represents, Lookup, Changes, ControllerScript.Mint, LegacyIssue, DoLegacyIssue, LegacyMintMessage, Quorum,
         DailyCheck, Scaled, NATIVE_SOL_MINT;
    NativeRegistered(db, c);
    var divisor := c.tokens[NATIVE_SOL_MINT].divisor;
    var daily := DailyCheck(c.dailyMinted, c.dailyResetHeight, c.maxDailyMint, inv.height, call.amount);
    MintReaches(rt, db, c, inv, call);
    if daily.Some? && call.amount >= MIN_MINT_AMOUNT && divisor > 0 {
      LegacyIssueMatches(rt, db, c, call, Scaled(call.amount, divisor), daily.value);
    }
  }

  lemma IssuePendingChanges(c: Controller, id: string, mint: string, amount: i64)
    requires Plain(id) && mint in c.tokens && CanAdd(c.tokens[mint].minted, amount) && CanAdd(c.globalNonce, 1)
    ensures Changes(c, ControllerState.Minted(c, mint, amount).(pending := c.pending - {id}),
                    PendingDeletes(id) + IssuedEntries(mint, c.tokens[mint].minted + amount, c.globalNonce + 1))
  {
    hide Lookup, Changes, PendingDeletes, IssuedEntries;
    var cleared := c.(pending := c.pending - {id});
    DeletesChange(c, id);
    MintedChanges(cleared, mint, amount);
    ChangesCompose(c, cleared, ControllerState.Minted(cleared, mint, amount), PendingDeletes(id),
                   IssuedEntries(mint, c.tokens[mint].minted + amount, c.globalNonce + 1));
  }

  lemma IssuePendingMatches(rt: Runtime, db: Getter, c: Controller, id: string, p: PendingMint)
    requires Represents(db, c) && Plain(id) && p.splMint in c.tokens
    ensures Matches(c, IssuePending(rt, db, id, p.recipient, p.amount, p.splMint), DoIssuePending(rt, c, id, p))
  {
    hide Lookup, Represents, Changes, IntOr, GetInteger, GetString, PendingDeletes, IssuedEntries, NATIVE_SOL_MINT;
    var mint := p.splMint;
    NativeRegistered(db, c);
    IssueReads(db, c, mint);
    if CanAdd(c.tokens[mint].minted, p.amount) && CanAdd(c.globalNonce, 1) {
      IssuePendingChanges(c, id, mint, p.amount);
    }
  }

  /** A pending mint of an unregistered token throws. */
  lemma IssueUnknown(rt: Runtime, db: Getter, id: string, p: PendingMint)
    requires GetString(db, Token(p.splMint, AssetId)) == None
    ensures IssuePending(rt, db, id, p.recipient, p.amount, p.splMint) == Throws
  {
  }

  lemma ExecutePendingMatches(rt: Runtime, db: Getter, c: Controller, inv: Invocation, id: string)
    requires Represents(db, c) && Plain(id)
    ensures Matches(c, ControllerScript.ExecutePendingMint(rt, db, inv, id), DoExecutePendingMint(rt, c, inv, id))
  {
    hide Represents, Lookup, GetInteger, GetString, GetBoolean, Unpaused, IssuePending, DoIssuePending;
    PauseRead(db, c);
    PendingReads(db, c, id);
    NativeRegistered(db, c);
    if id in c.pending {
      TokenRegisteredRead(db, c, c.pending[id].splMint);
      if c.pending[id].splMint in c.tokens {
        IssuePendingMatches(rt, db, c, id, c.pending[id]);
      } else {
        IssueUnknown(rt, db, id, c.pending[id]);
      }
    }
  }

  // ---------------------------------------------------------------------------------------------
  // Burns
  // ---------------------------------------------------------------------------------------------

  lemma BurnResult(rt: Runtime, db: Getter, c: Controller, inv: Invocation, solRecipient: string, mint: string, asset: string)
    requires Represents(db, c) && mint in c.tokens
    ensures BurnEntries(rt, db, inv, solRecipient, mint, asset) ==
            if inv.payments == [] || inv.payments[0].assetId != Some(asset) || inv.payments[0].amount < MIN_MINT_AMOUNT
               || !CanAdd(c.tokens[mint].burned, inv.payments[0].amount) || !CanAdd(NonceOf(c, CallerText(inv)), 1) then Throws
            else
              var amount, caller := inv.payments[0].amount, CallerText(inv);
              Entries(RecordEntries(BurnId(rt, inv.caller, NonceOf(c, caller), inv.height, amount),
                                    BurnEntry(caller, solRecipient, mint, amount, inv.height, inv.timestamp),
                                    c.tokens[mint].burned + amount, NonceOf(c, caller) + 1),
                      [BurnAsset(asset, amount)])
  {
    hide Represents, Lookup, IntOr, RecordEntries, BurnId, NonceOf;
    BurnReads(db, c, CallerText(inv), mint);
  }

  lemma BurnIdIsPlain(rt: Runtime, caller: Address, nonce: i64, height: i64, amount: i64)
    ensures PlainKey(BurnRecord(BurnId(rt, caller, nonce, height, amount)))
  {
    hide Canonical;
    Base58IsPlain(BurnId(rt, caller, nonce, height, amount));
  }

  lemma BurnEntriesMatch(rt: Runtime, db: Getter, c: Controller, inv: Invocation, solRecipient: string, mint: string, asset: string)
    requires Represents(db, c) && mint in c.tokens
    ensures Matches(c, BurnEntries(rt, db, inv, solRecipient, mint, asset),
                    ControllerState.Burned(rt, c, inv, solRecipient, mint, asset))
  {
    hide Lookup, Represents, Changes, BurnEntries, RecordEntries, BurnId, NonceOf, Base58.Encode, Canonical,
         NATIVE_SOL_MINT;
    NativeRegistered(db, c);
    BurnResult(rt, db, c, inv, solRecipient, mint, asset);
    var caller := CallerText(inv);
    if ControllerState.Burned(rt, c, inv, solRecipient, mint, asset).Done? {
      var amount, nonce := inv.payments[0].amount, NonceOf(c, caller);
      var id := BurnId(rt, inv.caller, nonce, inv.height, amount);
      BurnIdIsPlain(rt, inv.caller, nonce, inv.height, amount);
      RecordChanges(c, id, BurnEntry(caller, solRecipient, mint, amount, inv.height, inv.timestamp),
                    c.tokens[mint].burned + amount, nonce + 1);
    }
  }

  lemma BurnTokenMatches(rt: Runtime, db: Getter, c: Controller, inv: Invocation, solRecipient: string, mint: string)
    requires Represents(db, c)
    ensures Matches(c, ControllerScript.BurnToken(rt, db, inv, solRecipient, mint), DoBurnToken(rt, c, inv, solRecipient, mint))
  {
    PauseRead(db, c);
    TokenRegisteredRead(db, c, mint);
    if mint in c.tokens {
      BurnEntriesMatch(rt, db, c, inv, solRecipient, mint, c.tokens[mint].assetId);
    }
  }

  lemma LegacyBurnResult(rt: Runtime, db: Getter, c: Controller, inv: Invocation, solRecipient: string)
    requires Represents(db, c)
    ensures var r := BurnEntries(rt, db, inv, solRecipient, NATIVE_SOL_MINT, c.wsolAssetId);
      ControllerScript.Burn(rt, db, inv, solRecipient) ==
        if c.paused || !ValidSolanaAddress(solRecipient) || r.Throws? || !CanAdd(c.totalBurned, inv.payments[0].amount) then Throws
        else Entries(r.writes + map[K(TotalBurned) := Put(IntV(c.totalBurned + inv.payments[0].amount))], r.actions)
  {
    hide Represents, Lookup, BurnEntries, GetInteger, GetString, Unpaused;
    PauseRead(db, c);
    TotalReads(db, c);
  }

  lemma BurnedPays(rt: Runtime, c: Controller, inv: Invocation, solRecipient: string, mint: string, asset: string)
    requires mint in c.tokens
    ensures var o := ControllerState.Burned(rt, c, inv, solRecipient, mint, asset);
      o.Done? ==> inv.payments != [] && o.c.totalBurned == c.totalBurned && o.c.tokens.Keys == c.tokens.Keys
  {
    hide BurnId, Base58.Encode;
  }

  lemma BurnMatches(rt: Runtime, db: Getter, c: Controller, inv: Invocation, solRecipient: string)
    requires Represents(db, c)
    ensures Matches(c, ControllerScript.Burn(rt, db, inv, solRecipient), DoBurn(rt, c, inv, solRecipient))
  {
    hide Lookup, BurnEntries, ControllerScript.Burn, ControllerState.Burned;
    LegacyBurnResult(rt, db, c, inv, solRecipient);
    BurnEntriesMatch(rt, db, c, inv, solRecipient, NATIVE_SOL_MINT, c.wsolAssetId);
    BurnedPays(rt, c, inv, solRecipient, NATIVE_SOL_MINT, c.wsolAssetId);
    var r := BurnEntries(rt, db, inv, solRecipient, NATIVE_SOL_MINT, c.wsolAssetId);
    var o := ControllerState.Burned(rt, c, inv, solRecipient, NATIVE_SOL_MINT, c.wsolAssetId);
    if o.Done? && CanAdd(c.totalBurned, inv.payments[0].amount) {
      var total: i64 := c.totalBurned + inv.payments[0].amount;
      TotalBurnedChanges(o.c, total);
      ChangesCompose(c, o.c, o.c.(totalBurned := total), r.writes, map[K(TotalBurned) := Put(IntV(total))]);
    }
  }

  // ---------------------------------------------------------------------------------------------
  // Registries, switches and handovers
  // ---------------------------------------------------------------------------------------------

  lemma RegisterTokenMatches(db: Getter, c: Controller, inv: Invocation, mint: string, name: string, sol: i64, dcc: i64)
    requires Represents(db, c)
    ensures Matches(c, ControllerScript.RegisterToken(db, inv, mint, name, sol, dcc), DoRegisterToken(c, inv, mint, name, sol, dcc))
  {
    hide Lookup, Represents, Changes, GetInteger, GetString, IsAdmin, IsTokenRegistered, TokenEntries, IntOr, DivisorFor,
         Base58.Encode, NATIVE_SOL_MINT;
    NativeRegistered(db, c);
    RoleReads(db, c, inv);
    TokenRegisteredRead(db, c, mint);
    CountRead(db, c);
    if DoRegisterToken(c, inv, mint, name, sol, dcc).Done? {
      var divisor := DivisorFor(sol - dcc).value;
      var t := TokenInfo(inv.freshAsset, name, sol, dcc, divisor, true, 0, 0);
      var first := c.(tokens := c.tokens[mint := t]);
      TokenChanges(c, mint, t);
      CountChanges(first, c.registeredTokenCount + 1);
      ChangesCompose(c, first, first.(registeredTokenCount := c.registeredTokenCount + 1),
                     TokenEntries(mint, inv.freshAsset, name, sol, dcc, divisor),
                     map[K(RegisteredTokenCount) := Put(IntV(c.registeredTokenCount + 1))]);
    }
  }

  lemma SetTokenEnabledMatches(rt: Runtime, db: Getter, c: Controller, inv: Invocation, mint: string, enabled: bool)
    requires Represents(db, c)
    ensures Matches(c, ControllerScript.SetTokenEnabled(db, inv, mint, enabled),
                    LiveStep(rt, c, inv, Call.SetTokenEnabled(mint, enabled)))
  {
    NativeRegistered(db, c);
    RoleReads(db, c, inv);
    TokenRegisteredRead(db, c, mint);
    if mint in c.tokens {
      EnabledChanges(c, mint, enabled);
    }
  }

  lemma RegisteredChanges(c: Controller, pubkey: string)
    requires CanAdd(c.validatorCount, 1)
    ensures Changes(c, c.(validatorSlots := c.validatorSlots[c.validatorCount as int := pubkey],
                          validatorActive := c.validatorActive[pubkey := true],
                          validatorCount := c.validatorCount + 1),
                    ValidatorEntries(pubkey, true, c.validatorCount + 1) + map[Validator(c.validatorCount) := Put(StrV(pubkey))])
  {
    hide Lookup;
    var first := c.(validatorActive := c.validatorActive[pubkey := true], validatorCount := c.validatorCount + 1);
    ValidatorChanges(c, pubkey, true, c.validatorCount + 1);
    SlotChanges(first, c.validatorCount, pubkey);
    ChangesCompose(c, first, first.(validatorSlots := c.validatorSlots[c.validatorCount as int := pubkey]),
                   ValidatorEntries(pubkey, true, c.validatorCount + 1), map[Validator(c.validatorCount) := Put(StrV(pubkey))]);
  }

  lemma RegisterValidatorMatches(db: Getter, c: Controller, inv: Invocation, pubkey: string)
    requires Represents(db, c)
    ensures Matches(c, ControllerScript.RegisterValidator(db, inv, pubkey), DoRegisterValidator(c, inv, pubkey))
  {
    hide Lookup, Represents, Changes, GetInteger, IsAdmin, IsValidatorActive, ValidatorEntries, Base58.Encode, NATIVE_SOL_MINT;
    NativeRegistered(db, c);
    RoleReads(db, c, inv);
    ValidatorRead(db, c, pubkey);
    ValidatorReads(db, c);
    if c.validatorCount < MAX_VALIDATORS {
      RegisteredChanges(c, pubkey);
    }
  }

  lemma RemoveValidatorMatches(db: Getter, c: Controller, inv: Invocation, pubkey: string)
    requires Represents(db, c)
    ensures Matches(c, ControllerScript.RemoveValidator(db, inv, pubkey), DoRemoveValidator(c, inv, pubkey))
  {
    hide Lookup, Represents, Changes, GetInteger, IsAdmin, IsValidatorActive, ValidatorEntries, Base58.Encode, NATIVE_SOL_MINT;
    NativeRegistered(db, c);
    RoleReads(db, c, inv);
    ValidatorRead(db, c, pubkey);
    ValidatorReads(db, c);
    if DoRemoveValidator(c, inv, pubkey).Done? {
      ValidatorChanges(c, pubkey, false, c.validatorCount - 1);
    }
  }

  lemma CancelPendingMatches(rt: Runtime, db: Getter, c: Controller, inv: Invocation, id: string)
    requires Represents(db, c) && Plain(id)
    ensures Matches(c, ControllerScript.CancelPendingMint(db, inv, id), LiveStep(rt, c, inv, Call.CancelPendingMint(id)))
  {
    hide Lookup, Represents, Changes, PendingDeletes, IsAdmin, IsGuardian, DoMintToken, DoMint, DoExecutePendingMint,
         DoBurnToken, DoBurn, DoRegisterToken, DoRegisterValidator, DoRemoveValidator, NATIVE_SOL_MINT;
    NativeRegistered(db, c);
    RoleReads(db, c, inv);
    DeletesChange(c, id);
  }

  lemma SwitchesMatch(rt: Runtime, db: Getter, c: Controller, inv: Invocation, call: Call)
    requires Represents(db, c)
    requires call.EmergencyPause? || call.EmergencyResume? || call.UpdateMaxDailyMint? || call.UpdateMaxSingleMint?
    ensures Matches(c, Invoke(rt, db, inv, call), LiveStep(rt, c, inv, call))
  {
    hide Represents, Lookup, Changes, IsAdmin, IsGuardian, DoMintToken, DoMint, DoExecutePendingMint, DoBurnToken,
         DoBurn, DoRegisterToken, DoRegisterValidator, DoRemoveValidator, NATIVE_SOL_MINT;
    NativeRegistered(db, c);
    RoleReads(db, c, inv);
    PausedChanges(c, call.EmergencyPause?);
    if call.UpdateMaxDailyMint? || call.UpdateMaxSingleMint? {
      MaxDailyChanges(c, call.newMax);
      MaxSingleChanges(c, call.newMax);
    }
  }

  lemma ProposalsMatch(rt: Runtime, db: Getter, c: Controller, inv: Invocation, call: Call)
    requires Represents(db, c) && (call.ProposeAdminTransfer? || call.ProposeGuardianTransfer?)
    ensures Matches(c, Invoke(rt, db, inv, call), LiveStep(rt, c, inv, call))
  {
    hide Represents, Lookup, Changes, IsAdmin, IsGuardian, DoMintToken, DoMint, DoExecutePendingMint, DoBurnToken,
         DoBurn, DoRegisterToken, DoRegisterValidator, DoRemoveValidator, NATIVE_SOL_MINT;
    NativeRegistered(db, c);
    RoleReads(db, c, inv);
    AdminProposed(c, call.to, inv.height);
    GuardianProposed(c, call.to, inv.height);
  }

  lemma CancelsMatch(rt: Runtime, db: Getter, c: Controller, inv: Invocation, call: Call)
    requires Represents(db, c) && (call.CancelAdminTransfer? || call.CancelGuardianTransfer?)
    ensures Matches(c, Invoke(rt, db, inv, call), LiveStep(rt, c, inv, call))
  {
    hide Represents, Lookup, Changes, IsAdmin, IsGuardian, DoMintToken, DoMint, DoExecutePendingMint, DoBurnToken,
         DoBurn, DoRegisterToken, DoRegisterValidator, DoRemoveValidator, NATIVE_SOL_MINT;
    NativeRegistered(db, c);
    RoleReads(db, c, inv);
    AdminCleared(c);
    GuardianCleared(c);
  }

  lemma AdminHandoverChanges(c: Controller, to: string)
    ensures Changes(c, c.(admin := to, adminTransfer := None),
                    ClearedEntries(AdminTransfer, AdminTransferHeight) + map[K(Admin) := Put(StrV(to))])
  {
    hide Lookup;
    var cleared := c.(adminTransfer := None);
    AdminCleared(c);
    AdminChanges(cleared, to);
    ChangesCompose(c, cleared, cleared.(admin := to), ClearedEntries(AdminTransfer, AdminTransferHeight),
                   map[K(Admin) := Put(StrV(to))]);
  }

  lemma GuardianHandoverChanges(c: Controller, to: string)
    ensures Changes(c, c.(guardian := to, guardianTransfer := None),
                    ClearedEntries(GuardianTransfer, GuardianTransferHeight) + map[K(Guardian) := Put(StrV(to))])
  {
    hide Lookup;
    var cleared := c.(guardianTransfer := None);
    GuardianCleared(c);
    GuardianChanges(cleared, to);
    ChangesCompose(c, cleared, cleared.(guardian := to), ClearedEntries(GuardianTransfer, GuardianTransferHeight),
                   map[K(Guardian) := Put(StrV(to))]);
  }

  /** ExecuteHandover throws, or installs what the two entries under its keys name. */
  lemma HandoverResult(db: Getter, inv: Invocation, role: FixedKey, toKey: FixedKey, heightKey: FixedKey, h: Option<Handover>)
    requires GetString(db, K(toKey)) == if h.Some? then Some(h.value.to) else None
    requires GetInteger(db, K(heightKey)) == if h.Some? then Some(h.value.height) else None
    ensures ExecuteHandover(db, inv, role, toKey, heightKey) ==
            if HandoverDue(h, inv.height) then Entries(ClearedEntries(toKey, heightKey) + map[K(role) := Put(StrV(h.value.to))], [])
            else Throws
  {
  }

  lemma AdminHandoverMatches(rt: Runtime, db: Getter, c: Controller, inv: Invocation)
    requires Represents(db, c)
    ensures Matches(c, ExecuteHandover(db, inv, Admin, AdminTransfer, AdminTransferHeight),
                    LiveStep(rt, c, inv, ExecuteAdminTransfer))
  {
    hide Lookup, Represents;
    NativeRegistered(db, c);
    AdminTransferReads(db, c);
    HandoverResult(db, inv, Admin, AdminTransfer, AdminTransferHeight, c.adminTransfer);
    if c.adminTransfer.Some? {
      AdminHandoverChanges(c, c.adminTransfer.value.to);
    }
  }

  lemma GuardianHandoverMatches(rt: Runtime, db: Getter, c: Controller, inv: Invocation)
    requires Represents(db, c)
    ensures Matches(c, ExecuteHandover(db, inv, Guardian, GuardianTransfer, GuardianTransferHeight),
                    LiveStep(rt, c, inv, ExecuteGuardianTransfer))
  {
    hide Lookup, Represents;
    NativeRegistered(db, c);
    GuardianTransferReads(db, c);
    HandoverResult(db, inv, Guardian, GuardianTransfer, GuardianTransferHeight, c.guardianTransfer);
    if c.guardianTransfer.Some? {
      GuardianHandoverChanges(c, c.guardianTransfer.value.to);
    }
  }

  // ---------------------------------------------------------------------------------------------
  // Every callable, every run
  // ---------------------------------------------------------------------------------------------

  /** The call names no pending mint whose flag is written under another one's height. */
  predicate PlainCall(call: Call) {
    match call
    case MintToken(id, _, amount, _, _, _, _) => amount >= LARGE_TX_THRESHOLD ==> Plain(id)
    case ExecutePendingMint(id) => Plain(id)
    case CancelPendingMint(id) => Plain(id)
    case _ => true
  }

  /** No such mint is pending. */
  predicate PendingPlain(c: Controller) { forall id :: id in c.pending ==> Plain(id) }

  lemma MintTokenKeepsPlain(rt: Runtime, c: Controller, inv: Invocation, call: Call)
    requires call.MintToken? && PendingPlain(c) && DoMintToken(rt, c, inv, call).Done?
    requires call.amount >= LARGE_TX_THRESHOLD ==> Plain(call.transferId)
    ensures PendingPlain(DoMintToken(rt, c, inv, call).c)
  {
    hide Plain, Quorum, DailyCheck, MintMessage, Scaled, NATIVE_SOL_MINT;
  }

  /** No other call makes a mint wait. */
  lemma OthersKeepPlain(rt: Runtime, c: Controller, inv: Invocation, call: Call)
    requires NATIVE_SOL_MINT in c.tokens && !call.MintToken? && PendingPlain(c) && LiveStep(rt, c, inv, call).Done?
    ensures PendingPlain(LiveStep(rt, c, inv, call).c)
  {
    hide Plain, DoMintToken, DoBurnToken, DoBurn, DoRegisterToken, DoRegisterValidator, DoRemoveValidator, Quorum, DailyCheck,
         LegacyMintMessage, Scaled, Base58.Encode, NATIVE_SOL_MINT;
    RegistryKeepsPending(c, inv, call);
    if call.BurnToken? || call.Burn? {
      BurnsKeepPending(rt, c, inv, call);
    }
  }

  lemma RegistryKeepsPending(c: Controller, inv: Invocation, call: Call)
    ensures call.RegisterToken? ==>
      var o := DoRegisterToken(c, inv, call.splMint, call.tokenName, call.solDecimals, call.dccDecimals);
      o.Done? ==> o.c.pending == c.pending
    ensures call.RegisterValidator? ==>
      var o := DoRegisterValidator(c, inv, call.pubkey); o.Done? ==> o.c.pending == c.pending
    ensures call.RemoveValidator? ==> var o := DoRemoveValidator(c, inv, call.pubkey); o.Done? ==> o.c.pending == c.pending
  {
    hide DivisorFor, Base58.Encode;
  }

  lemma BurnsKeepPending(rt: Runtime, c: Controller, inv: Invocation, call: Call)
    requires NATIVE_SOL_MINT in c.tokens && (call.BurnToken? || call.Burn?) && LiveStep(rt, c, inv, call).Done?
    ensures LiveStep(rt, c, inv, call).c.pending == c.pending
  {
    hide DoMintToken, DoMint, DoExecutePendingMint, DoRegisterToken, DoRegisterValidator, DoRemoveValidator, BurnId,
         Base58.Encode, NATIVE_SOL_MINT;
  }

  lemma PendingStaysPlain(rt: Runtime, c: Controller, inv: Invocation, call: Call)
    requires NATIVE_SOL_MINT in c.tokens && PendingPlain(c) && LiveStep(rt, c, inv, call).Done?
    requires call.MintToken? && call.amount >= LARGE_TX_THRESHOLD ==> Plain(call.transferId)
    ensures PendingPlain(LiveStep(rt, c, inv, call).c)
  {
    hide Plain, PendingPlain, DoMintToken, DoMint, DoExecutePendingMint, DoBurnToken, DoBurn, DoRegisterToken,
         DoRegisterValidator, DoRemoveValidator, NATIVE_SOL_MINT;
    if call.MintToken? {
      MintTokenKeepsPlain(rt, c, inv, call);
    } else {
      OthersKeepPlain(rt, c, inv, call);
    }
  }

  lemma SecondInitialize(db: Getter, c: Controller, inv: Invocation, guardian: string, minValidators: i64)
    requires Represents(db, c)
    ensures ControllerScript.Initialize(db, inv, guardian, minValidators) == Throws && Matches(c, Throws, Throw)
  {
    hide Represents, Changes;
    Read(db, c, K(Admin));
  }

  lemma CallMatches(rt: Runtime, db: Getter, c: Controller, inv: Invocation, call: Call)
    requires Represents(db, c) && PlainCall(call)
    ensures Matches(c, Invoke(rt, db, inv, call), LiveStep(rt, c, inv, call))
  {
    hide Represents, Matches, NATIVE_SOL_MINT, ControllerScript.Initialize, ControllerScript.RegisterToken,
         ControllerScript.SetTokenEnabled,
         ControllerScript.RegisterValidator, ControllerScript.RemoveValidator, ControllerScript.MintToken, ControllerScript.Mint,
         ControllerScript.ExecutePendingMint, ControllerScript.CancelPendingMint, ControllerScript.BurnToken, ControllerScript.Burn,
         ProposeHandover, ExecuteHandover, CancelHandover, DoRegisterToken, DoRegisterValidator, DoRemoveValidator, DoMintToken,
         DoMint, DoExecutePendingMint, DoBurnToken, DoBurn;
    match call
    case Initialize(guardian, minValidators) => SecondInitialize(db, c, inv, guardian, minValidators);
    case RegisterToken(mint, name, sol, dcc) => RegisterTokenMatches(db, c, inv, mint, name, sol, dcc);
    case SetTokenEnabled(mint, enabled) => SetTokenEnabledMatches(rt, db, c, inv, mint, enabled);
    case RegisterValidator(p) => RegisterValidatorMatches(db, c, inv, p);
    case RemoveValidator(p) => RemoveValidatorMatches(db, c, inv, p);
    case MintToken(_, _, _, _, _, _, _) => MintTokenMatches(rt, db, c, inv, call);
    case Mint(_, _, _, _, _, _) => MintMatches(rt, db, c, inv, call);
    case ExecutePendingMint(id) => ExecutePendingMatches(rt, db, c, inv, id);
    case CancelPendingMint(id) => CancelPendingMatches(rt, db, c, inv, id);
    case BurnToken(r, mint) => BurnTokenMatches(rt, db, c, inv, r, mint);
    case Burn(r) => BurnMatches(rt, db, c, inv, r);
    case EmergencyPause => SwitchesMatch(rt, db, c, inv, call);
    case EmergencyResume => SwitchesMatch(rt, db, c, inv, call);
    case UpdateMaxDailyMint(_) => SwitchesMatch(rt, db, c, inv, call);
    case UpdateMaxSingleMint(_) => SwitchesMatch(rt, db, c, inv, call);
    case ProposeAdminTransfer(_) => ProposalsMatch(rt, db, c, inv, call);
    case ExecuteAdminTransfer => AdminHandoverMatches(rt, db, c, inv);
    case CancelAdminTransfer => CancelsMatch(rt, db, c, inv, call);
    case ProposeGuardianTransfer(_) => ProposalsMatch(rt, db, c, inv, call);
    case ExecuteGuardianTransfer => GuardianHandoverMatches(rt, db, c, inv);
    case CancelGuardianTransfer => CancelsMatch(rt, db, c, inv, call);
  }

  /** A callable's result and a step's outcome: both throw, or the same actions and matching entries. */
  ghost predicate Agrees(st: Store, r: Result, o: Outcome) {
    match (r, o)
    case (Throws, Throw) => true
    case (Entries(writes, actions), Done(d, acts)) => actions == acts && RepresentsWorld(Written(st, writes), Live(d))
    case (_, _) => false
  }

  /** One call on a live controller. */
  lemma LiveCallRefines(rt: Runtime, st: Store, c: Controller, inv: Invocation, call: Call)
    requires Represents(Reader(st), c) && PlainCall(call)
    ensures Agrees(st, Invoke(rt, Reader(st), inv, call), LiveStep(rt, c, inv, call))
  {
    hide Lookup, Represents, Invoke, LiveStep;
    NativeRegistered(Reader(st), c);
    CallMatches(rt, Reader(st), c, inv, call);
    match Invoke(rt, Reader(st), inv, call)
    case Throws =>
    case Entries(writes, _) => WrittenRepresents(st, c, LiveStep(rt, c, inv, call).c, writes);
  }

  // ---------------------------------------------------------------------------------------------
  // Ids that start with "height_"
  // ---------------------------------------------------------------------------------------------

  /** Both throw, or both succeed with the same token actions. */
  predicate SameVerdict(r: Result, o: Outcome) {
    match (r, o)
    case (Throws, Throw) => true
    case (Entries(_, actions), Done(_, acts)) => actions == acts
    case (_, _) => false
  }

  /** The pending mint whose height is written where this one's flag is. */
  function OtherOf(id: string): string
    requires !Plain(id)
  {
    id[7..]
  }

  lemma SharedKey(st: Store, id: string)
    requires !Plain(id)
    ensures OtherOf(id) != id && PlainKey(Pending(OtherOf(id), Height))
    ensures Canonical(Pending(id, Flag)) == Pending(OtherOf(id), Height)
    ensures KeyString(Pending(id, Flag)) == KeyString(Pending(OtherOf(id), Height))
    ensures Get(st, Pending(id, Flag)) == Get(st, Pending(OtherOf(id), Height))
  {
    hide KeyString;
    KeyStringExactly(Pending(id, Flag), Pending(OtherOf(id), Height));
  }

  /** A large mint is scheduled or refused alike, whatever its id. */
  lemma LargeMintVerdict(rt: Runtime, db: Getter, c: Controller, inv: Invocation, call: Call)
    requires Represents(db, c) && call.MintToken? && call.amount >= LARGE_TX_THRESHOLD
    ensures SameVerdict(ControllerScript.MintToken(rt, db, inv, call), DoMintToken(rt, c, inv, call))
    ensures DoMintToken(rt, c, inv, call).Done? ==>
      exists daily, amount, mint :: ControllerScript.MintToken(rt, db, inv, call)
        == Entries(CountedEntries(call.transferId, daily)
                   + PendingEntries(call.transferId, inv.height, call.recipient, amount, mint), [])
  {
    hide Represents, Lookup, CountedEntries, PendingEntries, IssueNow, DoIssueNow, MintMessage, MayMint, Scaled, DailyCheck,
         ControllerScript.MintToken;
    MintTokenReaches(rt, db, c, inv, call);
  }

  /** Where a height or nothing stands no flag is read, so the execution throws, as it does on the records. */
  lemma HeightExecuteThrows(rt: Runtime, st: Store, c: Controller, inv: Invocation, id: string)
    requires Represents(Reader(st), c) && PendingPlain(c) && !Plain(id)
    ensures ControllerScript.ExecutePendingMint(rt, Reader(st), inv, id) == Throws
    ensures DoExecutePendingMint(rt, c, inv, id) == Throw
  {
    hide KeyString, Canonical, IssuePending, DoIssuePending, NATIVE_SOL_MINT;
    SharedKey(st, id);
    Read(Reader(st), c, Pending(OtherOf(id), Height));
  }

  /** Entries that only delete. */
  lemma DeletedEntry(st: Store, writes: Writes, k: Key)
    requires forall j :: j in writes ==> writes[j] == None
    ensures Get(Written(st, writes), k) == if Touches(writes, KeyString(k)) then None else Get(st, k)
  {
    hide KeyString;
  }

  /** Which plain keys a cancellation deletes. */
  lemma DeletedKeys(id: string, k: Key)
    requires PlainKey(k) && !Plain(id)
    ensures Touches(PendingDeletes(id), KeyString(k))
       <==> k == Pending(OtherOf(id), Height) || (k.Pending? && k.transferId == id && k.field != Flag)
  {
    hide KeyString;
    if Touches(PendingDeletes(id), KeyString(k)) {
      var j :| j in PendingDeletes(id) && KeyString(j) == KeyString(k);
      KeyStringExactly(j, k);
    }
    SharedKey(map[], id);
    assert Pending(id, Flag) in PendingDeletes(id);
    if k.Pending? && k.transferId == id {
      assert k in PendingDeletes(id);
    }
  }

  lemma CancelsNothing(c: Controller, id: string)
    requires PendingPlain(c) && !Plain(id)
    ensures c.(pending := c.pending - {id}) == c
  {
    hide Plain;
    assert c.pending - {id} == c.pending;
  }

  lemma HeightCancelAgrees(rt: Runtime, st: Store, c: Controller, inv: Invocation, id: string)
    requires Represents(Reader(st), c) && PendingPlain(c) && !Plain(id)
    ensures var r := ControllerScript.CancelPendingMint(Reader(st), inv, id);
      var o := LiveStep(rt, c, inv, Call.CancelPendingMint(id));
      SameVerdict(r, o) && (OtherOf(id) !in c.pending ==> Agrees(st, r, o))
  {
    hide Plain, PendingPlain, Represents, OtherOf, PendingDeletes, Written, Reader, IsAdmin, IsGuardian, DoMintToken, DoMint,
         DoExecutePendingMint, DoBurnToken, DoBurn, DoRegisterToken, DoRegisterValidator, DoRemoveValidator, NATIVE_SOL_MINT;
    NativeRegistered(Reader(st), c);
    RoleReads(Reader(st), c, inv);
    CancelsNothing(c, id);
    if OtherOf(id) !in c.pending {
      DeletesNothing(st, c, id);
    }
  }

  lemma DeletesNothing(st: Store, c: Controller, id: string)
    requires Represents(Reader(st), c) && PendingPlain(c) && !Plain(id) && OtherOf(id) !in c.pending
    ensures Represents(Reader(Written(st, PendingDeletes(id))), c)
  {
    hide KeyString, Written, Touches;
    forall k | PlainKey(k) ensures Get(Written(st, PendingDeletes(id)), k) == Lookup(c, k) {
      DeletedEntry(st, PendingDeletes(id), k);
      DeletedKeys(id, k);
      Read(Reader(st), c, k);
    }
  }

  /** The cancellation of an id that is not pending takes away the height of one that is. */
  lemma HeightCancelBreaks(st: Store, c: Controller, id: string)
    requires !Plain(id) && OtherOf(id) in c.pending
    ensures !Represents(Reader(Written(st, PendingDeletes(id))), c.(pending := c.pending - {id}))
  {
    hide KeyString, Written, Touches, Canonical;
    var k := Pending(OtherOf(id), Height);
    SharedKey(st, id);
    DeletedEntry(st, PendingDeletes(id), k);
    DeletedKeys(id, k);
    assert Reader(Written(st, PendingDeletes(id)))(k) == None;
    assert Lookup(c.(pending := c.pending - {id}), k).Some?;
  }

  /** The flag of a scheduled mint is what is found where the other one's height belongs. */
  lemma FlagWritten(st: Store, id: string, daily: (i64, i64), height: i64, recipient: string, amount: i64, mint: string)
    requires !Plain(id)
    ensures Get(Written(st, CountedEntries(id, daily) + PendingEntries(id, height, recipient, amount, mint)),
                Pending(OtherOf(id), Height)) == Some(BoolV(true))
  {
    hide KeyString, Canonical;
    var writes, k := CountedEntries(id, daily) + PendingEntries(id, height, recipient, amount, mint), Pending(OtherOf(id), Height);
    SharedKey(st, id);
    assert Pending(id, Flag) in writes && Touches(writes, KeyString(k));
    forall j | j in writes && KeyString(j) == KeyString(k) ensures j == Pending(id, Flag) {
      OnlyTheFlag(id, daily, height, recipient, amount, mint, j);
    }
  }

  lemma OnlyTheFlag(id: string, daily: (i64, i64), height: i64, recipient: string, amount: i64, mint: string, j: Key)
    requires !Plain(id) && j in CountedEntries(id, daily) + PendingEntries(id, height, recipient, amount, mint)
    requires KeyString(j) == KeyString(Pending(OtherOf(id), Height))
    ensures j == Pending(id, Flag)
  {
    hide KeyString;
    KeyStringExactly(j, Pending(OtherOf(id), Height));
  }

  lemma HeightMintBreaks(st: Store, d: Controller, id: string, daily: (i64, i64), height: i64, recipient: string, amount: i64,
                         mint: string)
    requires !Plain(id)
    ensures !Represents(Reader(Written(st, CountedEntries(id, daily) + PendingEntries(id, height, recipient, amount, mint))), d)
  {
    hide KeyString, Written, CountedEntries, PendingEntries, Canonical;
    var writes, k := CountedEntries(id, daily) + PendingEntries(id, height, recipient, amount, mint), Pending(OtherOf(id), Height);
    SharedKey(st, id);
    FlagWritten(st, id, daily, height, recipient, amount, mint);
    assert Reader(Written(st, writes))(k) == Some(BoolV(true));
    assert Lookup(d, k) != Some(BoolV(true));
  }

  // ---------------------------------------------------------------------------------------------
  // The empty account
  // ---------------------------------------------------------------------------------------------

  /** What any callable but initialize asks for first. */
  lemma FreshReads(st: Store, inv: Invocation)
    requires RepresentsWorld(st, Fresh)
    ensures var db := Reader(st); !IsAdmin(db, inv) && !IsGuardian(db, inv) && !Unpaused(db)
    ensures forall mint :: !IsTokenRegistered(Reader(st), mint)
    ensures GetString(Reader(st), K(AdminTransfer)) == None && GetString(Reader(st), K(GuardianTransfer)) == None
  {
    hide KeyString, Canonical;
    MostKeysArePlain();
    assert Get(st, K(Admin)) == None && Get(st, K(Guardian)) == None && Get(st, K(Paused)) == None;
    assert Get(st, K(AdminTransfer)) == None && Get(st, K(GuardianTransfer)) == None;
    forall mint ensures !IsTokenRegistered(Reader(st), mint) {
      assert Get(st, Token(mint, AssetId)) == None;
    }
  }

  /** On the empty account only initialize does not throw. */
  lemma FreshThrows(rt: Runtime, st: Store, inv: Invocation, call: Call)
    requires RepresentsWorld(st, Fresh) && !call.Initialize?
    ensures Invoke(rt, Reader(st), inv, call) == Throws
  {
    hide KeyString, Canonical, RepresentsWorld, Reader, IsAdmin, IsGuardian, Unpaused, IsTokenRegistered, GetString, GetInteger,
         GetBoolean, DivisorFor, MintMessage, LegacyMintMessage, Base58.Encode, NATIVE_SOL_MINT;
    FreshReads(st, inv);
  }

  function FirstEntries(inv: Invocation, guardian: string, minValidators: i64): Writes {
    InitialEntries(inv, guardian, minValidators) + TokenEntries(NATIVE_SOL_MINT, inv.freshAsset, "SOL", 9, 8, 10)
  }

  lemma FirstRoles(inv: Invocation, guardian: string, minValidators: i64, f: FixedKey)
    ensures var w := RoleEntries(inv, guardian);
      && (Fixed(f) in w <==> f.Admin? || f.Guardian? || f.Paused? || f.WsolAssetId?)
      && (Fixed(f) in w ==> w[Fixed(f)] == FixedLookup(InitialController(inv, guardian, minValidators), f))
  {
  }

  lemma FirstCounters(inv: Invocation, guardian: string, minValidators: i64, f: FixedKey)
    ensures var w := CounterEntries();
      && (Fixed(f) in w <==> f.TotalMinted? || f.TotalBurned? || f.GlobalNonce? || f.ValidatorCount? || f.DailyMinted?)
      && (Fixed(f) in w ==> w[Fixed(f)] == FixedLookup(InitialController(inv, guardian, minValidators), f))
  {
  }

  lemma FirstLimits(inv: Invocation, guardian: string, minValidators: i64, f: FixedKey)
    ensures var w := LimitEntries(inv, minValidators);
      && (Fixed(f) in w <==>
          f.MinValidators? || f.DailyResetHeight? || f.MaxDailyMint? || f.MaxSingleMint? || f.RegisteredTokenCount?)
      && (Fixed(f) in w ==> w[Fixed(f)] == FixedLookup(InitialController(inv, guardian, minValidators), f))
  {
  }

  lemma FirstFixed(inv: Invocation, guardian: string, minValidators: i64, f: FixedKey)
    ensures var w := InitialEntries(inv, guardian, minValidators);
      FixedLookup(InitialController(inv, guardian, minValidators), f) == if Fixed(f) in w then w[Fixed(f)] else None
  {
    hide RoleEntries, CounterEntries, LimitEntries;
    FirstRoles(inv, guardian, minValidators, f);
    FirstCounters(inv, guardian, minValidators, f);
    FirstLimits(inv, guardian, minValidators, f);
  }

  lemma FirstToken(inv: Invocation, mint: string, f: TokenField)
    ensures var w := TokenEntries(mint, inv.freshAsset, "SOL", 9, 8, 10);
      Token(mint, f) in w && w[Token(mint, f)] == Some(TokenValue(TokenInfo(inv.freshAsset, "SOL", 9, 8, 10, true, 0, 0), f))
  {
  }

  lemma FixedKeysFirst(inv: Invocation, guardian: string, minValidators: i64, k: Key)
    ensures k in InitialEntries(inv, guardian, minValidators) ==> k.Fixed?
  {
  }

  lemma TokenKeysFirst(inv: Invocation, mint: string, k: Key)
    ensures k in TokenEntries(mint, inv.freshAsset, "SOL", 9, 8, 10) ==> k.Token? && k.splMint == mint
  {
  }

  /** The kinds of keys written at the start. */
  lemma FirstKinds(inv: Invocation, guardian: string, minValidators: i64, k: Key)
    ensures k in InitialEntries(inv, guardian, minValidators) ==> k.Fixed?
    ensures k in TokenEntries(NATIVE_SOL_MINT, inv.freshAsset, "SOL", 9, 8, 10) ==> k.Token? && k.splMint == NATIVE_SOL_MINT
  {
    hide InitialEntries, TokenEntries;
    FixedKeysFirst(inv, guardian, minValidators, k);
    TokenKeysFirst(inv, NATIVE_SOL_MINT, k);
  }

  lemma FirstPlain(inv: Invocation, guardian: string, minValidators: i64)
    ensures PlainKeys(FirstEntries(inv, guardian, minValidators))
  {
    hide InitialEntries, TokenEntries;
    forall k | k in FirstEntries(inv, guardian, minValidators) ensures PlainKey(k) {
      FirstKinds(inv, guardian, minValidators, k);
    }
  }

  lemma FirstLookup(inv: Invocation, guardian: string, minValidators: i64, k: Key)
    ensures var w := FirstEntries(inv, guardian, minValidators);
      Lookup(InitialController(inv, guardian, minValidators), k) == if k in w then w[k] else None
  {
    hide InitialEntries, TokenEntries, TokenValue, FixedLookup;
    FirstKinds(inv, guardian, minValidators, k);
    if k.Fixed? {
      FirstFixed(inv, guardian, minValidators, k.fixed);
    } else if k.Token? {
      FirstToken(inv, NATIVE_SOL_MINT, k.tokenField);
    }
  }

  lemma FreshCallRefines(rt: Runtime, st: Store, inv: Invocation, call: Call)
    requires RepresentsWorld(st, Fresh)
    ensures Agrees(st, Invoke(rt, Reader(st), inv, call), Step(rt, Fresh, inv, call))
  {
    hide KeyString, Written, Represents, InitialEntries, TokenEntries;
    if !call.Initialize? {
      FreshThrows(rt, st, inv, call);
    } else {
      assert Get(st, K(Admin)) == None;
      if call.minValidators >= 1 {
        FirstRepresents(st, inv, call.guardian, call.minValidators);
      }
    }
  }

  lemma FirstRepresents(st: Store, inv: Invocation, guardian: string, minValidators: i64)
    requires RepresentsWorld(st, Fresh)
    ensures RepresentsWorld(Written(st, FirstEntries(inv, guardian, minValidators)),
                            Live(InitialController(inv, guardian, minValidators)))
  {
    hide Lookup, KeyString, FirstEntries, Written;
    FirstPlain(inv, guardian, minValidators);
    var w, c := FirstEntries(inv, guardian, minValidators), InitialController(inv, guardian, minValidators);
    forall k | PlainKey(k) ensures Get(Written(st, w), k) == Lookup(c, k) {
      WrittenEntry(st, w, k);
      FirstLookup(inv, guardian, minValidators, k);
    }
  }

  /** The store after a run of calls on the empty account. */
  ghost function StoreAfter(rt: Runtime, txs: seq<Transaction>): Store {
    if txs == [] then map[]
    else Called(rt, StoreAfter(rt, txs[..|txs| - 1]), txs[|txs| - 1].inv, txs[|txs| - 1].call)
  }

  /**
   * An accepted call that writes one pending mint over another: it schedules an id that starts with
   * "height_", or cancels one while the mint named by the rest of it is pending.
   */
  predicate Confusing(rt: Runtime, w: World, tx: Transaction)
    requires Valid(w)
  {
    && w.Live? && LiveStep(rt, w.c, tx.inv, tx.call).Done?
    && match tx.call
       case MintToken(id, _, amount, _, _, _, _) => amount >= LARGE_TX_THRESHOLD && !Plain(id)
       case CancelPendingMint(id) => !Plain(id) && OtherOf(id) in w.c.pending
       case _ => false
  }

  predicate NothingConfused(rt: Runtime, txs: seq<Transaction>) {
    forall i :: 0 <= i < |txs| ==> !Confusing(rt, RunOf(rt, txs[..i]), txs[i])
  }

  predicate PlainWorld(w: World) { w.Live? ==> PendingPlain(w.c) }

  lemma VerdictOfAgrees(st: Store, r: Result, o: Outcome)
    requires Agrees(st, r, o)
    ensures SameVerdict(r, o)
  {
    hide RepresentsWorld;
  }

  /** A call with an id that starts with "height_". */
  lemma HeightCall(rt: Runtime, st: Store, c: Controller, tx: Transaction)
    requires Represents(Reader(st), c) && PendingPlain(c) && !PlainCall(tx.call)
    ensures SameVerdict(Invoke(rt, Reader(st), tx.inv, tx.call), LiveStep(rt, c, tx.inv, tx.call))
    ensures !Confusing(rt, Live(c), tx) ==> Agrees(st, Invoke(rt, Reader(st), tx.inv, tx.call), LiveStep(rt, c, tx.inv, tx.call))
  {
    hide Lookup, Represents, Plain, ControllerScript.MintToken, DoMintToken, ControllerScript.ExecutePendingMint,
         DoExecutePendingMint, ControllerScript.CancelPendingMint, DoMint, DoBurnToken, DoBurn, DoRegisterToken,
         DoRegisterValidator, DoRemoveValidator;
    NativeRegistered(Reader(st), c);
    if tx.call.MintToken? {
      LargeMintVerdict(rt, Reader(st), c, tx.inv, tx.call);
    } else if tx.call.ExecutePendingMint? {
      HeightExecuteThrows(rt, st, c, tx.inv, tx.call.transferId);
    } else {
      HeightCancelAgrees(rt, st, c, tx.inv, tx.call.transferId);
    }
  }

  /** Any call at all, on a store that stands for the records. */
  lemma CallRefines(rt: Runtime, st: Store, w: World, tx: Transaction)
    requires Valid(w) && RepresentsWorld(st, w) && PlainWorld(w)
    ensures SameVerdict(Invoke(rt, Reader(st), tx.inv, tx.call), Step(rt, w, tx.inv, tx.call))
    ensures !Confusing(rt, w, tx) ==> Agrees(st, Invoke(rt, Reader(st), tx.inv, tx.call), Step(rt, w, tx.inv, tx.call))
  {
    hide Lookup, Represents, Invoke, LiveStep, PlainCall, Confusing, Agrees, SameVerdict, PendingPlain;
    match w
    case Fresh =>
      FreshCallRefines(rt, st, tx.inv, tx.call);
      VerdictOfAgrees(st, Invoke(rt, Reader(st), tx.inv, tx.call), Step(rt, w, tx.inv, tx.call));
    case Live(c) =>
      if PlainCall(tx.call) {
        LiveCallRefines(rt, st, c, tx.inv, tx.call);
        VerdictOfAgrees(st, Invoke(rt, Reader(st), tx.inv, tx.call), LiveStep(rt, c, tx.inv, tx.call));
      } else {
        HeightCall(rt, st, c, tx);
      }
  }

  /** After a call that confuses nothing the store stands for the records again. */
  lemma NextRefines(rt: Runtime, st: Store, w: World, tx: Transaction)
    requires Valid(w) && RepresentsWorld(st, w) && PlainWorld(w) && !Confusing(rt, w, tx)
    ensures RepresentsWorld(Called(rt, st, tx.inv, tx.call), Next(rt, w, tx)) && PlainWorld(Next(rt, w, tx))
  {
    hide Lookup, Represents, Invoke, LiveStep, Plain;
    CallRefines(rt, st, w, tx);
    if w.Live? && LiveStep(rt, w.c, tx.inv, tx.call).Done? {
      PendingStaysPlain(rt, w.c, tx.inv, tx.call);
    }
  }

  /** After one that does it never stands for them. */
  lemma ConfusingBreaks(rt: Runtime, st: Store, w: World, tx: Transaction)
    requires Valid(w) && RepresentsWorld(st, w) && Confusing(rt, w, tx)
    ensures !RepresentsWorld(Called(rt, st, tx.inv, tx.call), Next(rt, w, tx))
  {
    hide Lookup, Represents, Plain, ControllerScript.MintToken, DoMintToken, IsAdmin, IsGuardian, PendingDeletes, Written,
         CountedEntries, PendingEntries, DoMint, DoExecutePendingMint, DoBurnToken, DoBurn, DoRegisterToken,
         DoRegisterValidator, DoRemoveValidator;
    var id, d := tx.call.transferId, LiveStep(rt, w.c, tx.inv, tx.call).c;
    if tx.call.MintToken? {
      LargeMintVerdict(rt, Reader(st), w.c, tx.inv, tx.call);
      var daily, amount, mint :| ControllerScript.MintToken(rt, Reader(st), tx.inv, tx.call)
        == Entries(CountedEntries(id, daily) + PendingEntries(id, tx.inv.height, tx.call.recipient, amount, mint), []);
      HeightMintBreaks(st, d, id, daily, tx.inv.height, tx.call.recipient, amount, mint);
    } else {
      RoleReads(Reader(st), w.c, tx.inv);
      HeightCancelBreaks(st, w.c, id);
    }
  }

  /**
   * Flat-store refinement. After every run in which no accepted call writes one pending mint over
   * another the flat store stands for exactly the records after the same run. The next call, whatever
   * it is, gives the same verdict and the same token actions, and, unless it is the first of that kind,
   * again matching entries. No other id, key, mint or address is restricted.
   */
  lemma {:induction false} FlatStoreRefines(rt: Runtime, txs: seq<Transaction>)
    requires NothingConfused(rt, txs)
    ensures RepresentsWorld(StoreAfter(rt, txs), RunOf(rt, txs)) && PlainWorld(RunOf(rt, txs))
    ensures forall tx: Transaction ::
      var r, o := Invoke(rt, Reader(StoreAfter(rt, txs)), tx.inv, tx.call), Step(rt, RunOf(rt, txs), tx.inv, tx.call);
      SameVerdict(r, o) && (!Confusing(rt, RunOf(rt, txs), tx) ==> Agrees(StoreAfter(rt, txs), r, o))
  {
    hide Represents, Invoke, Step, PlainWorld, RepresentsWorld, Confusing, SameVerdict, Agrees, Called;
    if txs == [] {
      EmptyIsFresh();
    } else {
      var front := txs[..|txs| - 1];
      forall i | 0 <= i < |front| ensures !Confusing(rt, RunOf(rt, front[..i]), front[i]) {
        assert front[..i] == txs[..i];
      }
      FlatStoreRefines(rt, front);
      NextRefines(rt, StoreAfter(rt, front), RunOf(rt, front), txs[|txs| - 1]);
    }
    forall tx: Transaction
      ensures var r, o := Invoke(rt, Reader(StoreAfter(rt, txs)), tx.inv, tx.call), Step(rt, RunOf(rt, txs), tx.inv, tx.call);
        SameVerdict(r, o) && (!Confusing(rt, RunOf(rt, txs), tx) ==> Agrees(StoreAfter(rt, txs), r, o)) {
      CallRefines(rt, StoreAfter(rt, txs), RunOf(rt, txs), tx);
    }
  }

  lemma EmptyIsFresh()
    ensures RepresentsWorld(map[], Fresh) && PlainWorld(Fresh)
  {
  }

  /** The store stands for the records after every part of the run. */
  ghost predicate AlwaysRepresents(rt: Runtime, txs: seq<Transaction>) {
    forall k :: 0 <= k <= |txs| ==> RepresentsWorld(StoreAfter(rt, txs[..k]), RunOf(rt, txs[..k]))
  }

  lemma NothingConfusedEarlier(rt: Runtime, txs: seq<Transaction>, k: nat)
    requires NothingConfused(rt, txs) && k <= |txs|
    ensures NothingConfused(rt, txs[..k])
  {
    hide Confusing, RunOf;
    forall i | 0 <= i < k ensures !Confusing(rt, RunOf(rt, txs[..k][..i]), txs[..k][i]) {
      assert txs[..k][..i] == txs[..i];
    }
  }

  lemma StoreNext(rt: Runtime, txs: seq<Transaction>, k: nat)
    requires k < |txs|
    ensures StoreAfter(rt, txs[..k + 1]) == Called(rt, StoreAfter(rt, txs[..k]), txs[k].inv, txs[k].call)
    ensures RunOf(rt, txs[..k + 1]) == Next(rt, RunOf(rt, txs[..k]), txs[k])
  {
    hide Called, Next;
    assert txs[..k + 1][..k] == txs[..k];
  }

  lemma {:induction false} NothingConfusedUpTo(rt: Runtime, txs: seq<Transaction>, k: nat)
    requires AlwaysRepresents(rt, txs) && k <= |txs|
    ensures NothingConfused(rt, txs[..k])
  {
    hide Confusing, RunOf, StoreAfter, RepresentsWorld, Called, Next;
    if k > 0 {
      NothingConfusedUpTo(rt, txs, k - 1);
      StoreNext(rt, txs, k - 1);
      if Confusing(rt, RunOf(rt, txs[..k - 1]), txs[k - 1]) {
        ConfusingBreaks(rt, StoreAfter(rt, txs[..k - 1]), RunOf(rt, txs[..k - 1]), txs[k - 1]);
      }
      forall i | 0 <= i < k ensures !Confusing(rt, RunOf(rt, txs[..k][..i]), txs[..k][i]) {
        assert txs[..k][..i] == txs[..i];
        if i < k - 1 {
          assert txs[..k - 1][..i] == txs[..i];
          assert txs[..k - 1][i] == txs[i];
        }
      }
    }
  }

  /**
   * And only then: the store stands for the records all along a run if and only if no accepted call of it
   * writes one pending mint over another.
   */
  lemma FlatStoreExactly(rt: Runtime, txs: seq<Transaction>)
    ensures AlwaysRepresents(rt, txs) <==> NothingConfused(rt, txs)
  {
    hide NothingConfused, RunOf, StoreAfter, RepresentsWorld;
    assert txs[..|txs|] == txs;
    if AlwaysRepresents(rt, txs) {
      NothingConfusedUpTo(rt, txs, |txs|);
    }
    if NothingConfused(rt, txs) {
      forall k | 0 <= k <= |txs| ensures RepresentsWorld(StoreAfter(rt, txs[..k]), RunOf(rt, txs[..k])) {
        NothingConfusedEarlier(rt, txs, k);
        FlatStoreRefines(rt, txs[..k]);
      }
    }
  }

  /** Schedules and cancels pending mints under hexadecimal ids only. */
  predicate HexCall(call: Call) {
    match call
    case MintToken(id, _, amount, _, _, _, _) => amount >= LARGE_TX_THRESHOLD ==> IsHex(id)
    case CancelPendingMint(id) => IsHex(id)
    case _ => true
  }

  /** With hexadecimal transfer ids, as those of the lock program are written, store and records never come apart. */
  lemma HexNeverConfused(rt: Runtime, txs: seq<Transaction>)
    requires forall i :: 0 <= i < |txs| ==> HexCall(txs[i].call)
    ensures AlwaysRepresents(rt, txs)
  {
    hide RunOf, LiveStep, AlwaysRepresents, IsHex, Plain;
    forall i | 0 <= i < |txs| ensures !Confusing(rt, RunOf(rt, txs[..i]), txs[i]) {
      var call := txs[i].call;
      if (call.MintToken? && call.amount >= LARGE_TX_THRESHOLD) || call.CancelPendingMint? {
        HexIsPlain(call.transferId);
      }
    }
    FlatStoreExactly(rt, txs);
  }
}
