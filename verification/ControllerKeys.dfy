/**
 * The keys of the bridge controller's flat data store, and which of them share a string: every key is
 * a list of words joined by underscores, and what is put into keys may hold underscores too.
 */
module ControllerKeys {
  import opened Options
  import opened Text
  import Base58

  datatype FixedKey =
    | Admin | Guardian | Paused | WsolAssetId | TotalMinted | TotalBurned | GlobalNonce | ValidatorCount
    | MinValidators | DailyMinted | DailyResetHeight | MaxDailyMint | MaxSingleMint | RegisteredTokenCount
    | AdminTransfer | AdminTransferHeight | GuardianTransfer | GuardianTransferHeight

  datatype PendingField = Flag | Height | Recipient | Amount | SplMint

  datatype TokenField = AssetId | Name | SolDecimals | DccDecimals | Divisor | Enabled | Minted | Burned

  datatype Key =
    | Fixed(fixed: FixedKey)
    | Validator(index: int)
    | ValidatorActive(pubkey: string)
    | ProcessedTransfer(transferId: string)
    | Pending(transferId: string, field: PendingField)
    | BurnRecord(burnId: string)
    | BurnNonce(address: string)
    | Token(splMint: string, tokenField: TokenField)

  function FixedWords(k: FixedKey): seq<string> {
    match k
    case Admin => ["admin"]
    case Guardian => ["guardian"]
    case Paused => ["paused"]
    case WsolAssetId => ["sol", "asset", "id"]
    case TotalMinted => ["total", "minted"]
    case TotalBurned => ["total", "burned"]
    case GlobalNonce => ["global", "nonce"]
    case ValidatorCount => ["validator", "count"]
    case MinValidators => ["min", "validators"]
    case DailyMinted => ["daily", "minted"]
    case DailyResetHeight => ["daily", "reset", "height"]
    case MaxDailyMint => ["max", "daily", "mint"]
    case MaxSingleMint => ["max", "single", "mint"]
    case RegisteredTokenCount => ["registered", "token", "count"]
    case AdminTransfer => ["pending", "admin", "transfer"]
    case AdminTransferHeight => ["pending", "admin", "transfer", "height"]
    case GuardianTransfer => ["pending", "guardian", "transfer"]
    case GuardianTransferHeight => ["pending", "guardian", "transfer", "height"]
  }

  function PendingFront(f: PendingField): seq<string> {
    match f
    case Flag => ["pending", "large"]
    case Height => ["pending", "large", "height"]
    case Recipient => ["pending", "recipient"]
    case Amount => ["pending", "amount"]
    case SplMint => ["pending", "spl", "mint"]
  }

  function TokenBack(f: TokenField): seq<string> {
    match f
    case AssetId => ["asset", "id"]
    case Name => ["name"]
    case SolDecimals => ["sol", "decimals"]
    case DccDecimals => ["dcc", "decimals"]
    case Divisor => ["divisor"]
    case Enabled => ["enabled"]
    case Minted => ["total", "minted"]
    case Burned => ["total", "burned"]
  }

  /** The words before a key's variable part; a key without one has no others. */
  function Front(k: Key): (words: seq<string>)
    ensures |words| >= 1
  {
    match k
    case Fixed(f) => FixedWords(f)
    case Validator(i) => ["validator", IntText(i)]
    case ValidatorActive(_) => ["validator", "active"]
    case ProcessedTransfer(_) => ["processed"]
    case Pending(_, f) => PendingFront(f)
    case BurnRecord(_) => ["burn"]
    case BurnNonce(_) => ["burn", "nonce"]
    case Token(_, _) => ["token"]
  }

  /** The variable part: an id, an address, a key or a mint. */
  function Part(k: Key): Option<string> {
    match k
    case Fixed(_) => None
    case Validator(_) => None
    case ValidatorActive(p) => Some(p)
    case ProcessedTransfer(id) => Some(id)
    case Pending(id, _) => Some(id)
    case BurnRecord(id) => Some(id)
    case BurnNonce(a) => Some(a)
    case Token(mint, _) => Some(mint)
  }

  function Back(k: Key): seq<string> { if k.Token? then TokenBack(k.tokenField) else [] }

  function Words(k: Key): (words: seq<string>)
    ensures |words| >= 1
  {
    Front(k) + (if Part(k).Some? then [Part(k).value] else []) + Back(k)
  }

  /** The string the source's key functions build. */
  function KeyString(k: Key): string { Join(Words(k), '_') }

  // ---------------------------------------------------------------------------------------------
  // Which keys share a string
  // ---------------------------------------------------------------------------------------------

  const HEIGHT_PREFIX := "height" + "_"
  const NONCE_PREFIX := "nonce" + "_"

  /**
   * The key a string is taken for. The flag of a pending mint whose id starts with "height_" is written
   * under the key that holds the height of another one, and a burn whose id starts with "nonce_" under
   * somebody's burn nonce; every other key is its own.
   */
  function Canonical(k: Key): Key {
    if k.Pending? && k.field == Flag && HEIGHT_PREFIX <= k.transferId then Pending(k.transferId[7..], Height)
    else if k.BurnRecord? && NONCE_PREFIX <= k.burnId then BurnNonce(k.burnId[6..])
    else k
  }

  /** Of the keys with one string, the one it is taken for. */
  predicate PlainKey(k: Key) { Canonical(k) == k }

  /** Only flags and burn records can fail to be plain. */
  lemma MostKeysArePlain()
    ensures forall k: Key {:trigger PlainKey(k)} :: !(k.Pending? && k.field == Flag) && !k.BurnRecord? ==> PlainKey(k)
  {
  }

  /** An id whose keys are all plain. */
  predicate Plain(id: string) { !(HEIGHT_PREFIX <= id) }

  predicate IsHex(s: string) {
    forall c :: c in s ==> '0' <= c <= '9' || 'a' <= c <= 'f' || 'A' <= c <= 'F'
  }

  lemma PrefixChar(prefix: string, s: string, i: nat)
    requires prefix <= s && i < |prefix|
    ensures prefix[i] in s
  {
    assert s[i] == prefix[i];
  }

  lemma HexIsPlain(s: string)
    requires IsHex(s)
    ensures Plain(s)
  {
    if HEIGHT_PREFIX <= s {
      PrefixChar(HEIGHT_PREFIX, s, 0);
    }
  }

  /** Ids of burns, being base58, never run into a nonce. */
  lemma Base58IsPlain(s: string)
    requires Base58.IsBase58(s)
    ensures Plain(s) && PlainKey(BurnRecord(s))
  {
    if HEIGHT_PREFIX <= s {
      PrefixChar(HEIGHT_PREFIX, s, 6);
    } else if NONCE_PREFIX <= s {
      PrefixChar(NONCE_PREFIX, s, 5);
    }
  }

  /** A key's words with those of its variable part. */
  function AllWords(k: Key): (words: seq<string>)
    ensures |words| >= 1
  {
    Front(k) + (if Part(k).Some? then Split(Part(k).value, '_') else []) + Back(k)
  }

  lemma JoinMiddle(front: seq<string>, part: string, back: seq<string>)
    requires |front| >= 1
    ensures Join(front + [part] + back, '_') == Join(front + Split(part, '_') + back, '_')
  {
    hide Join, Split;
    var words := Split(part, '_');
    JoinSplit(part, '_');
    JoinOne(part);
    JoinConcat(front, [part], '_');
    JoinConcat(front, words, '_');
    if back == [] {
      assert front + [part] + back == front + [part] && front + words + back == front + words;
    } else {
      JoinConcat(front + [part], back, '_');
      JoinConcat(front + words, back, '_');
    }
  }

  lemma JoinOne(part: string)
    ensures Join([part], '_') == part
  {
  }

  lemma FixedWordsPlain(f: FixedKey)
    ensures Without(FixedWords(f), '_')
  {
  }

  lemma PendingFrontPlain(f: PendingField)
    ensures Without(PendingFront(f), '_')
  {
  }

  lemma TokenBackPlain(f: TokenField)
    ensures Without(TokenBack(f), '_')
  {
  }

  lemma FrontPlain(k: Key)
    ensures Without(Front(k), '_') && Without(Back(k), '_')
  {
    hide FixedWords, PendingFront, TokenBack;
    match k
    case Fixed(f) => FixedWordsPlain(f);
    case Validator(i) => assert '_' !in IntText(i);
    case Pending(_, f) => PendingFrontPlain(f);
    case Token(_, f) => TokenBackPlain(f);
    case _ =>
  }

  /** A key's string is its words joined, none of which holds a separator. */
  lemma StringOfWords(k: Key)
    ensures KeyString(k) == Join(AllWords(k), '_') && Without(AllWords(k), '_')
  {
    hide Join, Split, Front, Back, Part;
    FrontPlain(k);
    if Part(k).Some? {
      JoinMiddle(Front(k), Part(k).value, Back(k));
      SplitWithout(Part(k).value, '_');
    }
  }

  /** Reads a key's words back. */
  function KeyOf(w: seq<string>): Option<Key> {
    if |w| == 0 then None
    else if |w| == 1 then Some(Fixed(if w[0] == "admin" then Admin else if w[0] == "guardian" then Guardian else Paused))
    else if w[0] == "processed" then Some(ProcessedTransfer(Join(w[1..], '_')))
    else if w[0] == "validator" then
      if w[1] == "count" then Some(Fixed(ValidatorCount))
      else if w[1] == "active" && |w| > 2 then Some(ValidatorActive(Join(w[2..], '_')))
      else Some(Validator(IntValue(w[1])))
    else if w[0] == "burn" then
      if w[1] == "nonce" && |w| > 2 then Some(BurnNonce(Join(w[2..], '_'))) else Some(BurnRecord(Join(w[1..], '_')))
    else if w[0] == "pending" then PendingOf(w)
    else if w[0] == "token" then TokenOf(w)
    else Some(Fixed(FixedOf(w)))
  }

  /** The fixed keys of two and three words that no other key begins like. */
  function FixedOf(w: seq<string>): FixedKey
    requires |w| >= 2
  {
    if w[0] == "sol" then WsolAssetId
    else if w[0] == "total" then (if w[1] == "minted" then TotalMinted else TotalBurned)
    else if w[0] == "global" then GlobalNonce
    else if w[0] == "min" then MinValidators
    else if w[0] == "daily" then (if w[1] == "minted" then DailyMinted else DailyResetHeight)
    else if w[0] == "max" then (if w[1] == "daily" then MaxDailyMint else MaxSingleMint)
    else RegisteredTokenCount
  }

  function PendingOf(w: seq<string>): Option<Key> {
    if |w| < 3 then None
    else if w[1] == "admin" then Some(Fixed(if |w| == 3 then AdminTransfer else AdminTransferHeight))
    else if w[1] == "guardian" then Some(Fixed(if |w| == 3 then GuardianTransfer else GuardianTransferHeight))
    else if w[1] == "large" then
      if w[2] == "height" && |w| > 3 then Some(Pending(Join(w[3..], '_'), Height)) else Some(Pending(Join(w[2..], '_'), Flag))
    else if w[1] == "recipient" then Some(Pending(Join(w[2..], '_'), Recipient))
    else if w[1] == "amount" then Some(Pending(Join(w[2..], '_'), Amount))
    else if |w| > 3 then Some(Pending(Join(w[3..], '_'), SplMint))
    else None
  }

  function TokenOf(w: seq<string>): Option<Key> {
    var n := |w|;
    if n < 3 then None
    else if w[n - 1] == "name" || w[n - 1] == "divisor" || w[n - 1] == "enabled" then
      Some(Token(Join(w[1..n - 1], '_'), if w[n - 1] == "name" then Name else if w[n - 1] == "divisor" then Divisor else Enabled))
    else if n < 4 then None
    else
      Some(Token(Join(w[1..n - 2], '_'),
                 if w[n - 2] == "asset" then AssetId else if w[n - 2] == "sol" then SolDecimals
                 else if w[n - 2] == "dcc" then DccDecimals else if w[n - 1] == "minted" then Minted else Burned))
  }

  lemma FixedKeyOfWords(f: FixedKey)
    ensures KeyOf(FixedWords(f)) == Some(Fixed(f))
  {
    hide Join, IntValue;
  }

  lemma ValidatorKeyOfWords(i: int)
    ensures KeyOf(Front(Validator(i))) == Some(Validator(i))
  {
    hide Join, IntValue;
    IntTextValue(i);
    assert "count"[0] == 'c' && "active"[0] == 'a';
    assert IntText(i)[0] in IntText(i);
  }

  lemma SplitOfPrefix(word: string, id: string)
    requires '_' !in word
    ensures word + "_" <= id ==> Split(id, '_') == [word] + Split(id[|word| + 1..], '_')
    ensures |Split(id, '_')| > 1 && Split(id, '_')[0] == word ==> word + "_" <= id
  {
    if word + "_" <= id {
      var rest := id[|word| + 1..];
      assert id == word + "_" + rest;
      SplitFirst(word, rest, '_');
    }
    var words := Split(id, '_');
    if |words| > 1 && words[0] == word {
      JoinSplit(id, '_');
      assert id == word + "_" + Join(words[1..], '_');
    }
  }

  lemma PendingKeyOfWords(id: string, f: PendingField)
    ensures PendingOf(PendingFront(f) + Split(id, '_')) == Some(Canonical(Pending(id, f)))
  {
    hide Split, Join;
    var words := Split(id, '_');
    var w := PendingFront(f) + words;
    JoinSplit(id, '_');
    assert w[|PendingFront(f)|..] == words;
    if f == Flag {
      SplitOfPrefix("height", id);
      if HEIGHT_PREFIX <= id {
        JoinSplit(id[7..], '_');
        assert w[3..] == words[1..] == Split(id[7..], '_');
      }
    }
  }

  lemma BurnKeyOfWords(id: string)
    ensures KeyOf(["burn"] + Split(id, '_')) == Some(Canonical(BurnRecord(id)))
  {
    hide Split, Join, PendingOf, TokenOf, FixedOf;
    var words := Split(id, '_');
    var w := ["burn"] + words;
    JoinSplit(id, '_');
    assert w[1..] == words;
    SplitOfPrefix("nonce", id);
    if NONCE_PREFIX <= id {
      JoinSplit(id[6..], '_');
      assert w[2..] == words[1..] == Split(id[6..], '_');
    }
  }

  lemma TokenKeyOfWords(mint: string, f: TokenField)
    ensures TokenOf(["token"] + Split(mint, '_') + TokenBack(f)) == Some(Token(mint, f))
  {
    hide Split, Join;
    var words := Split(mint, '_');
    var w := ["token"] + words + TokenBack(f);
    JoinSplit(mint, '_');
    assert w[1..|w| - |TokenBack(f)|] == words;
  }

  lemma PlainPartOfWords(front: seq<string>, part: string)
    ensures (front + Split(part, '_'))[|front|..] == Split(part, '_') && Join(Split(part, '_'), '_') == part
  {
    hide Split, Join;
    JoinSplit(part, '_');
  }

  /** A key's words are read back as the key its string is taken for. */
  lemma KeyOfWords(k: Key)
    ensures KeyOf(AllWords(k)) == Some(Canonical(k))
  {
    hide Split, Join, FixedWords, PendingOf, TokenOf, FixedOf, TokenBack;
    match k
    case Fixed(f) => assert AllWords(k) == FixedWords(f); FixedKeyOfWords(f);
    case Validator(i) => assert AllWords(k) == Front(k); ValidatorKeyOfWords(i);
    case ValidatorActive(p) =>
      PlainPartOfWords(["validator", "active"], p);
      assert AllWords(k) == ["validator", "active"] + Split(p, '_');
    case ProcessedTransfer(id) => PlainPartOfWords(["processed"], id); assert AllWords(k) == ["processed"] + Split(id, '_');
    case Pending(id, f) => PendingKeyOfWords(id, f); assert AllWords(k) == PendingFront(f) + Split(id, '_');
    case BurnRecord(id) => BurnKeyOfWords(id); assert AllWords(k) == ["burn"] + Split(id, '_');
    case BurnNonce(a) => PlainPartOfWords(["burn", "nonce"], a); assert AllWords(k) == ["burn", "nonce"] + Split(a, '_');
    case Token(mint, f) => TokenKeyOfWords(mint, f);
  }

  /** A key is written like the key it is taken for. */
  lemma CanonicalString(k: Key)
    ensures KeyString(k) == KeyString(Canonical(k))
  {
    if k.Pending? && k.field == Flag && HEIGHT_PREFIX <= k.transferId {
      UnderscoreCollides(k.transferId[7..]);
      assert k.transferId == "height" + "_" + k.transferId[7..];
    } else if k.BurnRecord? && NONCE_PREFIX <= k.burnId {
      NonceCollides(k.burnId[6..]);
      assert k.burnId == "nonce" + "_" + k.burnId[6..];
    }
  }

  /**
   * Which keys share a string, whatever the ids, addresses, keys and mints in them: exactly those that
   * are taken for the same key.
   */
  lemma KeyStringExactly(j: Key, k: Key)
    ensures KeyString(j) == KeyString(k) <==> Canonical(j) == Canonical(k)
  {
    hide KeyString, AllWords, Canonical, KeyOf, Join;
    CanonicalString(j);
    CanonicalString(k);
    if KeyString(j) == KeyString(k) {
      StringOfWords(j);
      StringOfWords(k);
      JoinInjective(AllWords(j), AllWords(k), '_');
      KeyOfWords(j);
      KeyOfWords(k);
    }
  }

  /** The key functions are injective and pairwise disjoint on plain keys. */
  lemma KeyStringInjective(j: Key, k: Key)
    requires PlainKey(j) && PlainKey(k) && KeyString(j) == KeyString(k)
    ensures j == k
  {
    hide KeyString;
    KeyStringExactly(j, k);
  }

  // ---------------------------------------------------------------------------------------------
  // The strings as the source writes them
  // ---------------------------------------------------------------------------------------------

  function FixedText(f: FixedKey): string {
    match f
    case Admin => "admin"
    case Guardian => "guardian"
    case Paused => "paused"
    case WsolAssetId => "sol" + "_" + "asset" + "_" + "id"
    case TotalMinted => "total" + "_" + "minted"
    case TotalBurned => "total" + "_" + "burned"
    case GlobalNonce => "global" + "_" + "nonce"
    case ValidatorCount => "validator" + "_" + "count"
    case MinValidators => "min" + "_" + "validators"
    case DailyMinted => "daily" + "_" + "minted"
    case DailyResetHeight => "daily" + "_" + "reset" + "_" + "height"
    case MaxDailyMint => "max" + "_" + "daily" + "_" + "mint"
    case MaxSingleMint => "max" + "_" + "single" + "_" + "mint"
    case RegisteredTokenCount => "registered" + "_" + "token" + "_" + "count"
    case AdminTransfer => "pending" + "_" + "admin" + "_" + "transfer"
    case AdminTransferHeight => "pending" + "_" + "admin" + "_" + "transfer" + "_" + "height"
    case GuardianTransfer => "pending" + "_" + "guardian" + "_" + "transfer"
    case GuardianTransferHeight => "pending" + "_" + "guardian" + "_" + "transfer" + "_" + "height"
  }

  function PendingText(id: string, f: PendingField): string {
    match f
    case Flag => "pending" + "_" + "large" + "_" + id
    case Height => "pending" + "_" + "large" + "_" + "height" + "_" + id
    case Recipient => "pending" + "_" + "recipient" + "_" + id
    case Amount => "pending" + "_" + "amount" + "_" + id
    case SplMint => "pending" + "_" + "spl" + "_" + "mint" + "_" + id
  }

  function TokenText(mint: string, f: TokenField): string {
    match f
    case AssetId => "token" + "_" + mint + "_" + "asset" + "_" + "id"
    case Name => "token" + "_" + mint + "_" + "name"
    case SolDecimals => "token" + "_" + mint + "_" + "sol" + "_" + "decimals"
    case DccDecimals => "token" + "_" + mint + "_" + "dcc" + "_" + "decimals"
    case Divisor => "token" + "_" + mint + "_" + "divisor"
    case Enabled => "token" + "_" + mint + "_" + "enabled"
    case Minted => "token" + "_" + mint + "_" + "total" + "_" + "minted"
    case Burned => "token" + "_" + mint + "_" + "total" + "_" + "burned"
  }

  function KeyText(k: Key): string {
    match k
    case Fixed(f) => FixedText(f)
    case Validator(i) => "validator" + "_" + IntText(i)
    case ValidatorActive(pubkey) => "validator" + "_" + "active" + "_" + pubkey
    case ProcessedTransfer(id) => "processed" + "_" + id
    case Pending(id, f) => PendingText(id, f)
    case BurnRecord(id) => "burn" + "_" + id
    case BurnNonce(address) => "burn" + "_" + "nonce" + "_" + address
    case Token(mint, f) => TokenText(mint, f)
  }

  lemma JoinTwo(a: string, b: string)
    ensures Join([a, b], '_') == a + "_" + b
  {
    assert [a, b][1..] == [b];
  }

  lemma JoinThree(a: string, b: string, c: string)
    ensures Join([a, b, c], '_') == a + "_" + b + "_" + c
  {
    assert [a, b, c][1..] == [b, c];
    JoinTwo(b, c);
  }

  lemma JoinFour(a: string, b: string, c: string, d: string)
    ensures Join([a, b, c, d], '_') == a + "_" + b + "_" + c + "_" + d
  {
    assert [a, b, c, d][1..] == [b, c, d];
    JoinThree(b, c, d);
  }

  lemma FixedTexts(f: FixedKey)
    ensures Join(FixedWords(f), '_') == FixedText(f)
  {
    hide Join;
    match f
    case Admin => JoinOne("admin");
    case Guardian => JoinOne("guardian");
    case Paused => JoinOne("paused");
    case WsolAssetId => JoinThree("sol", "asset", "id");
    case TotalMinted => JoinTwo("total", "minted");
    case TotalBurned => JoinTwo("total", "burned");
    case GlobalNonce => JoinTwo("global", "nonce");
    case ValidatorCount => JoinTwo("validator", "count");
    case MinValidators => JoinTwo("min", "validators");
    case DailyMinted => JoinTwo("daily", "minted");
    case DailyResetHeight => JoinThree("daily", "reset", "height");
    case MaxDailyMint => JoinThree("max", "daily", "mint");
    case MaxSingleMint => JoinThree("max", "single", "mint");
    case RegisteredTokenCount => JoinThree("registered", "token", "count");
    case AdminTransfer => JoinThree("pending", "admin", "transfer");
    case AdminTransferHeight => JoinFour("pending", "admin", "transfer", "height");
    case GuardianTransfer => JoinThree("pending", "guardian", "transfer");
    case GuardianTransferHeight => JoinFour("pending", "guardian", "transfer", "height");
  }

  lemma PendingTexts(id: string, f: PendingField)
    ensures Join(PendingFront(f) + [id], '_') == PendingText(id, f)
  {
    hide Join;
    match f
    case Flag =>
      assert PendingFront(f) + [id] == ["pending", "large", id];
      JoinThree("pending", "large", id);
    case Height =>
      assert PendingFront(f) + [id] == ["pending", "large", "height", id];
      JoinFour("pending", "large", "height", id);
    case Recipient =>
      assert PendingFront(f) + [id] == ["pending", "recipient", id];
      JoinThree("pending", "recipient", id);
    case Amount =>
      assert PendingFront(f) + [id] == ["pending", "amount", id];
      JoinThree("pending", "amount", id);
    case SplMint =>
      assert PendingFront(f) + [id] == ["pending", "spl", "mint", id];
      JoinFour("pending", "spl", "mint", id);
  }

  lemma TokenTexts(mint: string, f: TokenField)
    ensures Join(["token", mint] + TokenBack(f), '_') == TokenText(mint, f)
  {
    hide Join;
    match f
    case AssetId =>
      assert ["token", mint] + TokenBack(f) == ["token", mint, "asset", "id"];
      JoinFour("token", mint, "asset", "id");
    case Name =>
      assert ["token", mint] + TokenBack(f) == ["token", mint, "name"];
      JoinThree("token", mint, "name");
    case SolDecimals =>
      assert ["token", mint] + TokenBack(f) == ["token", mint, "sol", "decimals"];
      JoinFour("token", mint, "sol", "decimals");
    case DccDecimals =>
      assert ["token", mint] + TokenBack(f) == ["token", mint, "dcc", "decimals"];
      JoinFour("token", mint, "dcc", "decimals");
    case Divisor =>
      assert ["token", mint] + TokenBack(f) == ["token", mint, "divisor"];
      JoinThree("token", mint, "divisor");
    case Enabled =>
      assert ["token", mint] + TokenBack(f) == ["token", mint, "enabled"];
      JoinThree("token", mint, "enabled");
    case Minted =>
      assert ["token", mint] + TokenBack(f) == ["token", mint, "total", "minted"];
      JoinFour("token", mint, "total", "minted");
    case Burned =>
      assert ["token", mint] + TokenBack(f) == ["token", mint, "total", "burned"];
      JoinFour("token", mint, "total", "burned");
  }

  /** Every key is the string its key function, or the literal in its place, builds in the source. */
  lemma KeyTexts(k: Key)
    ensures KeyString(k) == KeyText(k)
  {
    hide Join, IntText, FixedText, PendingText, TokenText, FixedWords, PendingFront, TokenBack;
    match k
    case Fixed(f) =>
      assert Words(k) == FixedWords(f);
      FixedTexts(f);
    case Validator(i) =>
      assert Words(k) == ["validator", IntText(i)];
      JoinTwo("validator", IntText(i));
    case ValidatorActive(pubkey) =>
      assert Words(k) == ["validator", "active", pubkey];
      JoinThree("validator", "active", pubkey);
    case ProcessedTransfer(id) =>
      assert Words(k) == ["processed", id];
      JoinTwo("processed", id);
    case Pending(id, f) =>
      assert Words(k) == PendingFront(f) + [id];
      PendingTexts(id, f);
    case BurnRecord(id) =>
      assert Words(k) == ["burn", id];
      JoinTwo("burn", id);
    case BurnNonce(address) =>
      assert Words(k) == ["burn", "nonce", address];
      JoinThree("burn", "nonce", address);
    case Token(mint, f) =>
      assert Words(k) == ["token", mint] + TokenBack(f);
      TokenTexts(mint, f);
  }

  /** A pending mint's flag under another one's height. */
  lemma UnderscoreCollides(id: string)
    ensures KeyString(Pending("height" + "_" + id, Flag)) == KeyString(Pending(id, Height))
  {
    assert Words(Pending("height" + "_" + id, Flag)) == ["pending", "large", "height" + "_" + id];
    assert Words(Pending(id, Height)) == ["pending", "large", "height", id];
    JoinThree("pending", "large", "height" + "_" + id);
    JoinFour("pending", "large", "height", id);
  }

  /** A burn record under a burn nonce, were there such a burn id. */
  lemma NonceCollides(address: string)
    ensures KeyString(BurnRecord("nonce" + "_" + address)) == KeyString(BurnNonce(address))
  {
    assert Words(BurnRecord("nonce" + "_" + address)) == ["burn", "nonce" + "_" + address];
    assert Words(BurnNonce(address)) == ["burn", "nonce", address];
    JoinTwo("burn", "nonce" + "_" + address);
    JoinThree("burn", "nonce", address);
  }
}
