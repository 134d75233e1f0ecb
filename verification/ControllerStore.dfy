/**
 * What it means for the controller's flat store to stand for a set of records: under every plain key
 * it holds exactly the entry the records call for. Reading a key reads a record, and writing entries
 * changes exactly those.
 */
module ControllerStore {
  import opened Bytes
  import opened Options
  import opened ControllerKeys
  import opened ControllerState
  import opened ControllerScript
  import Base58

  function FixedLookup(c: Controller, k: FixedKey): Option<Value> {
    match k
    case Admin => Some(StrV(c.admin))
    case Guardian => Some(StrV(c.guardian))
    case Paused => Some(BoolV(c.paused))
    case WsolAssetId => Some(StrV(c.wsolAssetId))
    case TotalMinted => Some(IntV(c.totalMinted))
    case TotalBurned => Some(IntV(c.totalBurned))
    case GlobalNonce => Some(IntV(c.globalNonce))
    case ValidatorCount => Some(IntV(c.validatorCount))
    case MinValidators => Some(IntV(c.minValidators))
    case DailyMinted => Some(IntV(c.dailyMinted))
    case DailyResetHeight => Some(IntV(c.dailyResetHeight))
    case MaxDailyMint => Some(IntV(c.maxDailyMint))
    case MaxSingleMint => Some(IntV(c.maxSingleMint))
    case RegisteredTokenCount => Some(IntV(c.registeredTokenCount))
    case AdminTransfer => if c.adminTransfer.Some? then Some(StrV(c.adminTransfer.value.to)) else None
    case AdminTransferHeight => if c.adminTransfer.Some? then Some(IntV(c.adminTransfer.value.height)) else None
    case GuardianTransfer => if c.guardianTransfer.Some? then Some(StrV(c.guardianTransfer.value.to)) else None
    case GuardianTransferHeight => if c.guardianTransfer.Some? then Some(IntV(c.guardianTransfer.value.height)) else None
  }

  function PendingValue(p: PendingMint, f: PendingField): Value {
    match f
    case Flag => BoolV(true)
    case Height => IntV(p.height)
    case Recipient => StrV(p.recipient)
    case Amount => IntV(p.amount)
    case SplMint => StrV(p.splMint)
  }

  function TokenValue(t: TokenInfo, f: TokenField): Value {
    match f
    case AssetId => StrV(t.assetId)
    case Name => StrV(t.name)
    case SolDecimals => IntV(t.solDecimals)
    case DccDecimals => IntV(t.dccDecimals)
    case Divisor => IntV(t.divisor)
    case Enabled => BoolV(t.enabled)
    case Minted => IntV(t.minted)
    case Burned => IntV(t.burned)
  }

  /** The entry the records call for under a key. */
  function Lookup(c: Controller, k: Key): Option<Value> {
    match k
    case Fixed(f) => FixedLookup(c, f)
    case Validator(i) => if i in c.validatorSlots then Some(StrV(c.validatorSlots[i])) else None
    case ValidatorActive(p) => if p in c.validatorActive then Some(BoolV(c.validatorActive[p])) else None
    case ProcessedTransfer(id) => if id in c.processed then Some(BoolV(true)) else None
    case Pending(id, f) => if id in c.pending then Some(PendingValue(c.pending[id], f)) else None
    case BurnRecord(id) => if id in c.burnRecords then Some(StrV(BurnText(c.burnRecords[id]))) else None
    case BurnNonce(a) => if a in c.burnNonces then Some(IntV(c.burnNonces[a])) else None
    case Token(mint, f) => if mint in c.tokens then Some(TokenValue(c.tokens[mint], f)) else None
  }

  /** The getters return, for every plain key, what the records call for. */
  ghost predicate Represents(db: Getter, c: Controller) {
    && NATIVE_SOL_MINT in c.tokens
    && forall k {:trigger db(k)} :: PlainKey(k) ==> db(k) == Lookup(c, k)
  }

  /** The store stands for the world: the records of a live controller, or nothing at all. */
  ghost predicate RepresentsWorld(st: Store, w: World) {
    match w
    case Fresh => forall k :: PlainKey(k) ==> Get(st, k) == None
    case Live(c) => Represents(Reader(st), c)
  }

  // ---------------------------------------------------------------------------------------------
  // Writing entries
  // ---------------------------------------------------------------------------------------------

  predicate PlainKeys(writes: Writes) { forall k :: k in writes ==> PlainKey(k) }

  /** Under a plain key, a plain set of entries writes exactly its own entry for that key. */
  lemma WrittenEntry(st: Store, writes: Writes, k: Key)
    requires PlainKeys(writes) && PlainKey(k)
    ensures Get(Written(st, writes), k) == if k in writes then writes[k] else Get(st, k)
  {
    var s := KeyString(k);
    if Touches(writes, s) {
      forall j | j in writes && KeyString(j) == s ensures j == k {
        KeyStringInjective(j, k);
      }
    }
  }

  /** The records after a step differ from those before exactly in the written entries, all under plain keys. */
  ghost predicate Changes(c: Controller, d: Controller, writes: Writes) {
    && PlainKeys(writes)
    && forall k {:trigger Lookup(d, k)} :: PlainKey(k) ==> Lookup(d, k) == if k in writes then writes[k] else Lookup(c, k)
  }

  /** Records that differ in none of the fixed entries. */
  predicate SameFixed(c: Controller, d: Controller) {
    && d.admin == c.admin && d.guardian == c.guardian && d.paused == c.paused && d.wsolAssetId == c.wsolAssetId
    && d.totalMinted == c.totalMinted && d.totalBurned == c.totalBurned && d.globalNonce == c.globalNonce
    && d.validatorCount == c.validatorCount && d.minValidators == c.minValidators && d.dailyMinted == c.dailyMinted
    && d.dailyResetHeight == c.dailyResetHeight && d.maxDailyMint == c.maxDailyMint && d.maxSingleMint == c.maxSingleMint
    && d.registeredTokenCount == c.registeredTokenCount && d.adminTransfer == c.adminTransfer
    && d.guardianTransfer == c.guardianTransfer
  }

  lemma FixedFrame(c: Controller, d: Controller)
    requires SameFixed(c, d)
    ensures forall f {:trigger FixedLookup(d, f)} :: FixedLookup(d, f) == FixedLookup(c, f)
  {
  }

  /** Two sets of entries one after the other. */
  lemma ChangesCompose(c: Controller, d: Controller, e: Controller, first: Writes, second: Writes)
    requires Changes(c, d, first) && Changes(d, e, second)
    ensures Changes(c, e, first + second)
  {
    forall k | PlainKey(k) ensures Lookup(e, k) == if k in first + second then (first + second)[k] else Lookup(c, k) {
      assert Lookup(d, k) == if k in first then first[k] else Lookup(c, k);
    }
  }

  lemma WrittenRepresents(st: Store, c: Controller, d: Controller, writes: Writes)
    requires Represents(Reader(st), c) && Changes(c, d, writes) && NATIVE_SOL_MINT in d.tokens
    ensures Represents(Reader(Written(st, writes)), d)
  {
    forall k | PlainKey(k) ensures Get(Written(st, writes), k) == Lookup(d, k) {
      WrittenEntry(st, writes, k);
      assert Reader(st)(k) == Lookup(c, k);
    }
  }

  // ---------------------------------------------------------------------------------------------
  // Reads
  // ---------------------------------------------------------------------------------------------

  lemma Read(db: Getter, c: Controller, k: Key)
    requires Represents(db, c) && PlainKey(k)
    ensures db(k) == Lookup(c, k)
  {
  }

  lemma RoleReads(db: Getter, c: Controller, inv: Invocation)
    requires Represents(db, c)
    ensures IsAdmin(db, inv) <==> CallerText(inv) == c.admin
    ensures IsGuardian(db, inv) <==> CallerText(inv) == c.guardian
  {
    Read(db, c, K(Admin));
    Read(db, c, K(Guardian));
  }

  lemma PauseRead(db: Getter, c: Controller)
    requires Represents(db, c)
    ensures Unpaused(db) <==> !c.paused
  {
    Read(db, c, K(Paused));
  }

  lemma IntRead(db: Getter, c: Controller, k: Key, default: i64)
    requires Represents(db, c) && PlainKey(k) && (Lookup(c, k).Some? ==> Lookup(c, k).value.IntV?)
    ensures GetInteger(db, k) == if Lookup(c, k).Some? then Some(Lookup(c, k).value.i) else None
    ensures IntOr(db, k, default) == if Lookup(c, k).Some? then Lookup(c, k).value.i else default
  {
    Read(db, c, k);
  }

  lemma TokenRegisteredRead(db: Getter, c: Controller, mint: string)
    requires Represents(db, c)
    ensures GetString(db, Token(mint, AssetId)) == if mint in c.tokens then Some(c.tokens[mint].assetId) else None
    ensures IsTokenRegistered(db, mint) <==> mint in c.tokens
  {
    Read(db, c, Token(mint, AssetId));
  }

  lemma NativeRegistered(db: Getter, c: Controller)
    requires Represents(db, c)
    ensures NATIVE_SOL_MINT in c.tokens
  {
  }

  /** What an issue of a token reads: its total and asset, and the global nonce. */
  lemma IssueReads(db: Getter, c: Controller, mint: string)
    requires Represents(db, c) && mint in c.tokens
    ensures IntOr(db, Token(mint, Minted), 0) == c.tokens[mint].minted
    ensures GetInteger(db, K(GlobalNonce)) == Some(c.globalNonce)
    ensures GetString(db, Token(mint, AssetId)) == Some(c.tokens[mint].assetId)
  {
    Read(db, c, Token(mint, Minted));
    Read(db, c, K(GlobalNonce));
    Read(db, c, Token(mint, AssetId));
  }

  lemma TotalReads(db: Getter, c: Controller)
    requires Represents(db, c)
    ensures GetInteger(db, K(TotalMinted)) == Some(c.totalMinted)
    ensures GetInteger(db, K(TotalBurned)) == Some(c.totalBurned)
    ensures GetString(db, K(WsolAssetId)) == Some(c.wsolAssetId)
  {
    Read(db, c, K(TotalMinted));
    Read(db, c, K(TotalBurned));
    Read(db, c, K(WsolAssetId));
  }

  /** What a burn reads: the token's total and the caller's nonce. */
  lemma BurnReads(db: Getter, c: Controller, caller: string, mint: string)
    requires Represents(db, c) && mint in c.tokens
    ensures IntOr(db, Token(mint, TokenField.Burned), 0) == c.tokens[mint].burned
    ensures IntOr(db, BurnNonce(caller), 0) == NonceOf(c, caller)
  {
    Read(db, c, Token(mint, TokenField.Burned));
    Read(db, c, BurnNonce(caller));
  }

  lemma ValidatorReads(db: Getter, c: Controller)
    requires Represents(db, c)
    ensures GetInteger(db, K(ValidatorCount)) == Some(c.validatorCount)
    ensures GetInteger(db, K(MinValidators)) == Some(c.minValidators)
  {
    Read(db, c, K(ValidatorCount));
    Read(db, c, K(MinValidators));
  }

  lemma AdminTransferReads(db: Getter, c: Controller)
    requires Represents(db, c)
    ensures GetString(db, K(AdminTransfer)) == if c.adminTransfer.Some? then Some(c.adminTransfer.value.to) else None
    ensures GetInteger(db, K(AdminTransferHeight)) == if c.adminTransfer.Some? then Some(c.adminTransfer.value.height) else None
  {
    Read(db, c, K(AdminTransfer));
    Read(db, c, K(AdminTransferHeight));
  }

  lemma GuardianTransferReads(db: Getter, c: Controller)
    requires Represents(db, c)
    ensures GetString(db, K(GuardianTransfer)) == if c.guardianTransfer.Some? then Some(c.guardianTransfer.value.to) else None
    ensures GetInteger(db, K(GuardianTransferHeight))
         == if c.guardianTransfer.Some? then Some(c.guardianTransfer.value.height) else None
  {
    Read(db, c, K(GuardianTransfer));
    Read(db, c, K(GuardianTransferHeight));
  }

  lemma PendingReads(db: Getter, c: Controller, id: string)
    requires Represents(db, c) && Plain(id)
    ensures GetBoolean(db, Pending(id, Flag)) == if id in c.pending then Some(true) else None
    ensures id in c.pending ==>
      && GetInteger(db, Pending(id, Height)) == Some(c.pending[id].height)
      && GetString(db, Pending(id, Recipient)) == Some(c.pending[id].recipient)
      && GetInteger(db, Pending(id, Amount)) == Some(c.pending[id].amount)
      && GetString(db, Pending(id, SplMint)) == Some(c.pending[id].splMint)
  {
    Read(db, c, Pending(id, Flag));
    Read(db, c, Pending(id, Height));
    Read(db, c, Pending(id, Recipient));
    Read(db, c, Pending(id, Amount));
    Read(db, c, Pending(id, SplMint));
  }

  lemma CountRead(db: Getter, c: Controller)
    requires Represents(db, c)
    ensures IntOr(db, K(RegisteredTokenCount), 0) == c.registeredTokenCount
  {
    Read(db, c, K(RegisteredTokenCount));
  }

  /** What a mint reads of its token beside the total: the switch and the divisor. */
  lemma TokenUseReads(db: Getter, c: Controller, mint: string)
    requires Represents(db, c)
    ensures IsTokenEnabled(db, mint) <==> mint in c.tokens && c.tokens[mint].enabled
    ensures IntOr(db, Token(mint, Divisor), 1) == if mint in c.tokens then c.tokens[mint].divisor else 1
  {
    Read(db, c, Token(mint, Enabled));
    Read(db, c, Token(mint, Divisor));
  }

  lemma LimitReads(db: Getter, c: Controller, height: i64, amount: i64)
    requires Represents(db, c)
    ensures CheckDailyLimit(db, height, amount) == DailyCheck(c.dailyMinted, c.dailyResetHeight, c.maxDailyMint, height, amount)
  {
    hide Represents, DailyCheck, NATIVE_SOL_MINT;
    IntRead(db, c, K(DailyMinted), 0);
    IntRead(db, c, K(DailyResetHeight), 0);
    IntRead(db, c, K(MaxDailyMint), MAX_DAILY_MINT);
  }

  lemma ValidatorRead(db: Getter, c: Controller, pubkey: string)
    requires Represents(db, c)
    ensures IsValidatorActive(db, pubkey) <==> pubkey in c.validatorActive && c.validatorActive[pubkey]
  {
    Read(db, c, ValidatorActive(pubkey));
  }

  // ---------------------------------------------------------------------------------------------
  // Signatures
  // ---------------------------------------------------------------------------------------------

  /** One turn of the fold: a position is counted when its signature is by an active validator, otherwise it throws. */
  lemma FoldTurn(rt: Runtime, db: Getter, c: Controller, message: string, signatures: seq<seq<byte>>, pubkeys: seq<seq<byte>>,
                 idx: nat, acc: nat)
    requires Represents(db, c) && |signatures| == |pubkeys| && idx < 20 && idx < |signatures|
    ensures FoldSignatures(rt, db, message, signatures, pubkeys, idx, acc) ==
            if SignedBy(rt, c.validatorActive, message, signatures[idx], pubkeys[idx])
            then FoldSignatures(rt, db, message, signatures, pubkeys, idx + 1, acc + 1) else None
  {
    var p := Base58.Encode(pubkeys[idx]);
    ValidatorRead(db, c, p);
  }

  predicate AllSigned(rt: Runtime, active: map<string, bool>, message: string, signatures: seq<seq<byte>>, pubkeys: seq<seq<byte>>,
                      idx: nat)
    requires |signatures| == |pubkeys|
  {
    forall i :: idx <= i < MinOf(|signatures|, 20) ==> SignedBy(rt, active, message, signatures[i], pubkeys[i])
  }

  /** From position idx on, the fold counts every remaining signature or throws at a bad one. */
  lemma {:induction false} FoldCounts(rt: Runtime, db: Getter, c: Controller, message: string, signatures: seq<seq<byte>>,
                                      pubkeys: seq<seq<byte>>, idx: nat, acc: nat)
    requires Represents(db, c) && |signatures| == |pubkeys| && idx <= 20
    ensures var n := MinOf(|signatures|, 20);
      FoldSignatures(rt, db, message, signatures, pubkeys, idx, acc)
      == if AllSigned(rt, c.validatorActive, message, signatures, pubkeys, idx)
         then Some(acc + (if idx <= n then n - idx else 0)) else None
    decreases 20 - idx
  {
    hide Represents, IsValidatorActive, SignedBy;
    if idx < 20 {
      if idx < |signatures| {
        FoldTurn(rt, db, c, message, signatures, pubkeys, idx, acc);
        FoldCounts(rt, db, c, message, signatures, pubkeys, idx + 1, acc + 1);
      } else {
        FoldCounts(rt, db, c, message, signatures, pubkeys, idx + 1, acc);
      }
    }
  }

  lemma SignaturesAgree(rt: Runtime, db: Getter, c: Controller, message: string,
                        signatures: seq<seq<byte>>, pubkeys: seq<seq<byte>>)
    requires Represents(db, c)
    ensures VerifyValidatorSignatures(rt, db, message, signatures, pubkeys, c.minValidators)
       <==> Quorum(rt, c.validatorActive, message, signatures, pubkeys, c.minValidators)
  {
    if |signatures| == |pubkeys| {
      FoldCounts(rt, db, c, message, signatures, pubkeys, 0, 0);
    }
  }
}
