/**
 * The controller's records read back from the calls it accepted: every setting, token, validator, proposal,
 * pending mint and burn record is what the latest accepted call about it said.
 */
module ControllerRecords {
  import opened Bytes
  import opened Options
  import opened ControllerAcceptance
  import opened ControllerFrames
  import opened ControllerState
  import Base58
  import ControllerBurns
  import ControllerTokens

  predicate AcceptedAt(rt: Runtime, txs: seq<Transaction>, k: nat)
    requires k < |txs|
  {
    Step(rt, RunOf(rt, txs[..k]), txs[k].inv, txs[k].call).Done?
  }

  /** What the latest accepted call that said something about it said, or what there was at first. */
  function Latest<T>(rt: Runtime, txs: seq<Transaction>, said: (World, Invocation, Call) -> Option<T>, first: T): T {
    if txs == [] then first else
      var front, tx := txs[..|txs| - 1], txs[|txs| - 1];
      var before := RunOf(rt, front);
      if Step(rt, before, tx.inv, tx.call).Done? && said(before, tx.inv, tx.call).Some? then said(before, tx.inv, tx.call).value
      else Latest(rt, front, said, first)
  }

  /** An accepted call brings what is said of it, and leaves everything else. */
  ghost predicate Follows<T(!new)>(rt: Runtime, view: World -> T, said: (World, Invocation, Call) -> Option<T>) {
    forall w, inv, call :: Valid(w) && Step(rt, w, inv, call).Done? ==>
      view(Live(Step(rt, w, inv, call).c)) == if said(w, inv, call).Some? then said(w, inv, call).value else view(w)
  }

  lemma {:induction false} LatestHolds<T(!new)>(rt: Runtime, txs: seq<Transaction>, view: World -> T,
                                                said: (World, Invocation, Call) -> Option<T>)
    requires Follows(rt, view, said)
    ensures view(RunOf(rt, txs)) == Latest(rt, txs, said, view(Fresh))
  {
    hide Step;
    if txs != [] {
      LatestHolds(rt, txs[..|txs| - 1], view, said);
    }
  }

  /** What is not as it was at first was said by an accepted call. */
  lemma {:induction false} LatestOrigin<T>(rt: Runtime, txs: seq<Transaction>, said: (World, Invocation, Call) -> Option<T>,
                                           first: T) returns (k: nat)
    requires Latest(rt, txs, said, first) != first
    ensures k < |txs| && AcceptedAt(rt, txs, k)
    ensures said(RunOf(rt, txs[..k]), txs[k].inv, txs[k].call) == Some(Latest(rt, txs, said, first))
  {
    hide Step, Next;
    var front, tx := txs[..|txs| - 1], txs[|txs| - 1];
    var before := RunOf(rt, front);
    if Step(rt, before, tx.inv, tx.call).Done? && said(before, tx.inv, tx.call).Some? {
      k := |front|;
    } else {
      k := LatestOrigin(rt, front, said, first);
      assert front[..k] == txs[..k];
    }
  }

  // ---------------------------------------------------------------------------------------------
  // Settings
  // ---------------------------------------------------------------------------------------------

  datatype Setting =
    | Admin | Guardian | Paused | MaxDaily | MaxSingle | MinValidators | NativeAsset | AdminProposal | GuardianProposal

  datatype Value = Text(s: string) | Flag(b: bool) | Number(i: int) | Proposal(h: Option<Handover>)

  function SettingOf(w: World, f: Setting): Option<Value> {
    if w.Fresh? then None
    else match f
      case Admin => Some(Text(w.c.admin))
      case Guardian => Some(Text(w.c.guardian))
      case Paused => Some(Flag(w.c.paused))
      case MaxDaily => Some(Number(w.c.maxDailyMint))
      case MaxSingle => Some(Number(w.c.maxSingleMint))
      case MinValidators => Some(Number(w.c.minValidators))
      case NativeAsset => Some(Text(w.c.wsolAssetId))
      case AdminProposal => Some(Proposal(w.c.adminTransfer))
      case GuardianProposal => Some(Proposal(w.c.guardianTransfer))
  }

  /** What a call makes of a setting. */
  function SaidOfSetting(f: Setting): (World, Invocation, Call) -> Option<Option<Value>> {
    (w: World, inv: Invocation, call: Call) =>
      match (call, f)
      case (Initialize(_, _), Admin) => Some(Some(Text(Base58.Encode(inv.caller))))
      case (Initialize(guardian, _), Guardian) => Some(Some(Text(guardian)))
      case (Initialize(_, _), Paused) => Some(Some(Flag(false)))
      case (Initialize(_, _), MaxDaily) => Some(Some(Number(1_000_000_000_000)))
      case (Initialize(_, _), MaxSingle) => Some(Some(Number(100_000_000_000)))
      case (Initialize(_, n), MinValidators) => Some(Some(Number(n)))
      case (Initialize(_, _), NativeAsset) => Some(Some(Text(inv.freshAsset)))
      case (Initialize(_, _), AdminProposal) => Some(Some(Proposal(None)))
      case (Initialize(_, _), GuardianProposal) => Some(Some(Proposal(None)))
      case (EmergencyPause, Paused) => Some(Some(Flag(true)))
      case (EmergencyResume, Paused) => Some(Some(Flag(false)))
      case (UpdateMaxDailyMint(m), MaxDaily) => Some(Some(Number(m)))
      case (UpdateMaxSingleMint(m), MaxSingle) => Some(Some(Number(m)))
      case (ProposeAdminTransfer(to), AdminProposal) => Some(Some(Proposal(Some(Handover(to, inv.height)))))
      case (CancelAdminTransfer, AdminProposal) => Some(Some(Proposal(None)))
      case (ExecuteAdminTransfer, AdminProposal) => Some(Some(Proposal(None)))
      case (ExecuteAdminTransfer, Admin) =>
        if w.Live? && w.c.adminTransfer.Some? then Some(Some(Text(w.c.adminTransfer.value.to))) else None
      case (ProposeGuardianTransfer(to), GuardianProposal) => Some(Some(Proposal(Some(Handover(to, inv.height)))))
      case (CancelGuardianTransfer, GuardianProposal) => Some(Some(Proposal(None)))
      case (ExecuteGuardianTransfer, GuardianProposal) => Some(Some(Proposal(None)))
      case (ExecuteGuardianTransfer, Guardian) =>
        if w.Live? && w.c.guardianTransfer.Some? then Some(Some(Text(w.c.guardianTransfer.value.to))) else None
      case (_, _) => None
  }

  predicate Sets(call: Call) { (Administrative(call) && !call.RegisterValidator? && !call.RemoveValidator?) || call.Initialize? }

  lemma BurnsKeepSettings(rt: Runtime, c: Controller, inv: Invocation, call: Call, f: Setting)
    requires NATIVE_SOL_MINT in c.tokens && (call.BurnToken? || call.Burn?) && LiveStep(rt, c, inv, call).Done?
    ensures SettingOf(Live(LiveStep(rt, c, inv, call).c), f) == SettingOf(Live(c), f)
  {
    hide BurnId, Base58.Encode, NATIVE_SOL_MINT;
  }

  lemma MintsKeepSetting(rt: Runtime, c: Controller, inv: Invocation, call: Call, f: Setting)
    requires NATIVE_SOL_MINT in c.tokens && Mints(call) && LiveStep(rt, c, inv, call).Done?
    ensures SettingOf(Live(LiveStep(rt, c, inv, call).c), f) == SettingOf(Live(c), f)
  {
    hide LiveStep;
    MintsKeepSettings(rt, c, inv, call);
  }

  lemma OthersKeepSetting(rt: Runtime, c: Controller, inv: Invocation, call: Call, f: Setting)
    requires NATIVE_SOL_MINT in c.tokens && !Sets(call) && LiveStep(rt, c, inv, call).Done?
    ensures SettingOf(Live(LiveStep(rt, c, inv, call).c), f) == SettingOf(Live(c), f)
  {
    if Mints(call) {
      hide LiveStep;
      MintsKeepSetting(rt, c, inv, call, f);
    } else if call.BurnToken? || call.Burn? {
      hide LiveStep;
      BurnsKeepSettings(rt, c, inv, call, f);
    } else {
      RegistersKeepSetting(rt, c, inv, call, f);
    }
  }

  lemma RegistersKeepSetting(rt: Runtime, c: Controller, inv: Invocation, call: Call, f: Setting)
    requires NATIVE_SOL_MINT in c.tokens && !Sets(call) && !Mints(call) && !call.BurnToken? && !call.Burn?
    requires LiveStep(rt, c, inv, call).Done?
    ensures SettingOf(Live(LiveStep(rt, c, inv, call).c), f) == SettingOf(Live(c), f)
  {
    hide Base58.Encode, NATIVE_SOL_MINT, DivisorFor;
  }

  lemma NothingSaid(w: World, inv: Invocation, call: Call, f: Setting)
    requires !Sets(call)
    ensures SaidOfSetting(f)(w, inv, call) == None
  {
  }

  lemma SwitchSets(rt: Runtime, c: Controller, inv: Invocation, call: Call, f: Setting)
    requires NATIVE_SOL_MINT in c.tokens && LiveStep(rt, c, inv, call).Done?
    requires call.EmergencyPause? || call.EmergencyResume? || call.UpdateMaxDailyMint? || call.UpdateMaxSingleMint?
    ensures var said := SaidOfSetting(f)(Live(c), inv, call);
      SettingOf(Live(LiveStep(rt, c, inv, call).c), f) == if said.Some? then said.value else SettingOf(Live(c), f)
  {
    hide DoMintToken, DoMint, DoExecutePendingMint, DoBurnToken, DoBurn, DoRegisterToken, DoRegisterValidator, DoRemoveValidator,
         Base58.Encode, NATIVE_SOL_MINT;
  }

  lemma AdminHandoverSets(rt: Runtime, c: Controller, inv: Invocation, call: Call, f: Setting)
    requires NATIVE_SOL_MINT in c.tokens && LiveStep(rt, c, inv, call).Done?
    requires call.ProposeAdminTransfer? || call.ExecuteAdminTransfer? || call.CancelAdminTransfer?
    ensures var said := SaidOfSetting(f)(Live(c), inv, call);
      SettingOf(Live(LiveStep(rt, c, inv, call).c), f) == if said.Some? then said.value else SettingOf(Live(c), f)
  {
    hide DoMintToken, DoMint, DoExecutePendingMint, DoBurnToken, DoBurn, DoRegisterToken, DoRegisterValidator, DoRemoveValidator,
         Base58.Encode, NATIVE_SOL_MINT;
  }

  lemma GuardianHandoverSets(rt: Runtime, c: Controller, inv: Invocation, call: Call, f: Setting)
    requires NATIVE_SOL_MINT in c.tokens && LiveStep(rt, c, inv, call).Done?
    requires call.ProposeGuardianTransfer? || call.ExecuteGuardianTransfer? || call.CancelGuardianTransfer?
    ensures var said := SaidOfSetting(f)(Live(c), inv, call);
      SettingOf(Live(LiveStep(rt, c, inv, call).c), f) == if said.Some? then said.value else SettingOf(Live(c), f)
  {
    hide DoMintToken, DoMint, DoExecutePendingMint, DoBurnToken, DoBurn, DoRegisterToken, DoRegisterValidator, DoRemoveValidator,
         Base58.Encode, NATIVE_SOL_MINT;
  }

  lemma SetterStep(rt: Runtime, c: Controller, inv: Invocation, call: Call, f: Setting)
    requires NATIVE_SOL_MINT in c.tokens && Sets(call) && LiveStep(rt, c, inv, call).Done?
    ensures var said := SaidOfSetting(f)(Live(c), inv, call);
      SettingOf(Live(LiveStep(rt, c, inv, call).c), f) == if said.Some? then said.value else SettingOf(Live(c), f)
  {
    hide SaidOfSetting, SettingOf, LiveStep, NATIVE_SOL_MINT;
    if call.EmergencyPause? || call.EmergencyResume? || call.UpdateMaxDailyMint? || call.UpdateMaxSingleMint? {
      SwitchSets(rt, c, inv, call, f);
    } else if call.ProposeAdminTransfer? || call.ExecuteAdminTransfer? || call.CancelAdminTransfer? {
      AdminHandoverSets(rt, c, inv, call, f);
    } else if call.Initialize? {
      NoSecondStart(rt, c, inv, call);
    } else {
      GuardianHandoverSets(rt, c, inv, call, f);
    }
  }

  lemma NoSecondStart(rt: Runtime, c: Controller, inv: Invocation, call: Call)
    requires NATIVE_SOL_MINT in c.tokens && call.Initialize?
    ensures LiveStep(rt, c, inv, call).Throw?
  {
  }

  lemma FirstStep(rt: Runtime, inv: Invocation, call: Call, f: Setting)
    requires Step(rt, Fresh, inv, call).Done?
    ensures SaidOfSetting(f)(Fresh, inv, call) == Some(SettingOf(Live(Step(rt, Fresh, inv, call).c), f))
  {
    hide Base58.Encode, NATIVE_SOL_MINT;
  }

  lemma SettingStep(rt: Runtime, w: World, inv: Invocation, call: Call, f: Setting)
    requires Valid(w) && Step(rt, w, inv, call).Done?
    ensures var said := SaidOfSetting(f)(w, inv, call);
      SettingOf(Live(Step(rt, w, inv, call).c), f) == if said.Some? then said.value else SettingOf(w, f)
  {
    hide SaidOfSetting, SettingOf, LiveStep, Sets;
    match w
    case Fresh => FirstStep(rt, inv, call, f);
    case Live(c) =>
      if Sets(call) {
        SetterStep(rt, c, inv, call, f);
      } else {
        NothingSaid(w, inv, call, f);
        OthersKeepSetting(rt, c, inv, call, f);
      }
  }

  /** In every run each setting is what the latest accepted call about it made it, from initialization on. */
  lemma SettingsAsLastSaid(rt: Runtime, txs: seq<Transaction>, f: Setting)
    ensures SettingOf(RunOf(rt, txs), f) == Latest(rt, txs, SaidOfSetting(f), None)
  {
    hide Step, RunOf, SettingOf, NATIVE_SOL_MINT;
    var view := (w: World) => SettingOf(w, f);
    forall w, inv, call | Valid(w) && Step(rt, w, inv, call).Done? {
      SettingStep(rt, w, inv, call, f);
    }
    assert SettingOf(Fresh, f) == None by { FreshHasNone(f); }
    LatestHolds(rt, txs, view, SaidOfSetting(f));
  }

  lemma FreshHasNone(f: Setting)
    ensures SettingOf(Fresh, f) == None
  {
  }

  // ---------------------------------------------------------------------------------------------
  // Tokens and validators
  // ---------------------------------------------------------------------------------------------

  /** A token but for its totals. */
  datatype TokenCard = TokenCard(assetId: string, name: string, solDecimals: int, dccDecimals: int, divisor: int, enabled: bool)

  function CardOf(t: TokenInfo): TokenCard { TokenCard(t.assetId, t.name, t.solDecimals, t.dccDecimals, t.divisor, t.enabled) }

  function TokenOf(w: World, mint: string): Option<TokenCard> {
    if w.Live? && mint in w.c.tokens then Some(CardOf(w.c.tokens[mint])) else None
  }

  /** Native SOL is registered by initialization, any other token by its registration; either is only switched later. */
  function SaidOfToken(mint: string): (World, Invocation, Call) -> Option<Option<TokenCard>> {
    (w: World, inv: Invocation, call: Call) =>
      match call
      case Initialize(_, _) =>
        if mint == NATIVE_SOL_MINT then Some(Some(TokenCard(inv.freshAsset, "SOL", 9, 8, 10, true))) else None
      case RegisterToken(m, name, sol, dcc) =>
        if m != mint then None
        else Some(Some(TokenCard(inv.freshAsset, name, sol, dcc, ControllerTokens.Pow10(ControllerTokens.Excess(sol, dcc)), true)))
      case SetTokenEnabled(m, enabled) =>
        if m == mint && TokenOf(w, mint).Some? then Some(Some(TokenOf(w, mint).value.(enabled := enabled))) else None
      case _ => None
  }

  predicate SameCards(c: Controller, d: Controller) {
    d.tokens.Keys == c.tokens.Keys && forall m :: m in c.tokens ==> CardOf(d.tokens[m]) == CardOf(c.tokens[m])
  }

  lemma MovesKeepCards(rt: Runtime, c: Controller, inv: Invocation, call: Call)
    requires NATIVE_SOL_MINT in c.tokens && (Mints(call) || call.BurnToken? || call.Burn?) && LiveStep(rt, c, inv, call).Done?
    ensures SameCards(c, LiveStep(rt, c, inv, call).c)
  {
    hide DoMintToken, DoMint, DoExecutePendingMint, Scaled, UnitsOf, BurnId, Base58.Encode, NATIVE_SOL_MINT;
    if call.MintToken? {
      if call.amount >= LARGE_TX_THRESHOLD { ScheduleFrame(rt, c, inv, call); } else { IssueNowFrame(rt, c, inv, call); }
    } else if call.Mint? {
      LegacyFrame(rt, c, inv, call);
    } else if call.ExecutePendingMint? {
      ExecuteFrame(rt, c, inv, call.transferId);
    }
  }

  lemma TokenStep(rt: Runtime, w: World, inv: Invocation, call: Call, mint: string)
    requires Valid(w) && Step(rt, w, inv, call).Done?
    ensures var said := SaidOfToken(mint)(w, inv, call);
      TokenOf(Live(Step(rt, w, inv, call).c), mint) == if said.Some? then said.value else TokenOf(w, mint)
  {
    hide DoMintToken, DoMint, DoExecutePendingMint, DoBurnToken, DoBurn, DoRegisterValidator, DoRemoveValidator, DivisorFor,
         ControllerTokens.Pow10, Base58.Encode, NATIVE_SOL_MINT;
    if call.RegisterToken? {
      ControllerTokens.DivisorIsPower(call.solDecimals - call.dccDecimals);
    } else if w.Live? && (Mints(call) || call.BurnToken? || call.Burn?) {
      MovesKeepCards(rt, w.c, inv, call);
    } else if w.Live? && Administrative(call) {
      AdministrativeFrame(rt, w.c, inv, call);
    }
  }

  lemma TokensAsLastSaid(rt: Runtime, txs: seq<Transaction>, mint: string)
    ensures TokenOf(RunOf(rt, txs), mint) == Latest(rt, txs, SaidOfToken(mint), None)
  {
    hide Step, RunOf, NATIVE_SOL_MINT, CardOf;
    var view := (w: World) => TokenOf(w, mint);
    forall w, inv, call | Valid(w) && Step(rt, w, inv, call).Done? {
      TokenStep(rt, w, inv, call, mint);
    }
    LatestHolds(rt, txs, view, SaidOfToken(mint));
  }

  function ActiveOf(w: World, key: string): Option<bool> {
    if w.Live? && key in w.c.validatorActive then Some(w.c.validatorActive[key]) else None
  }

  function SaidOfValidator(key: string): (World, Invocation, Call) -> Option<Option<bool>> {
    (w: World, inv: Invocation, call: Call) =>
      match call
      case RegisterValidator(k) => if k == key then Some(Some(true)) else None
      case RemoveValidator(k) => if k == key then Some(Some(false)) else None
      case _ => None
  }

  lemma OthersKeepActive(rt: Runtime, c: Controller, inv: Invocation, call: Call)
    requires NATIVE_SOL_MINT in c.tokens && !call.RegisterValidator? && !call.RemoveValidator? && LiveStep(rt, c, inv, call).Done?
    ensures LiveStep(rt, c, inv, call).c.validatorActive == c.validatorActive
    ensures LiveStep(rt, c, inv, call).c.validatorSlots == c.validatorSlots
  {
    hide DoMintToken, DoMint, DoExecutePendingMint, DivisorFor, BurnId, Base58.Encode, NATIVE_SOL_MINT;
    if Mints(call) {
      MintsKeepSettings(rt, c, inv, call);
    }
  }

  lemma RegistrationsSet(rt: Runtime, c: Controller, inv: Invocation, call: Call)
    requires NATIVE_SOL_MINT in c.tokens && (call.RegisterValidator? || call.RemoveValidator?) && LiveStep(rt, c, inv, call).Done?
    ensures LiveStep(rt, c, inv, call).c.validatorActive == c.validatorActive[call.pubkey := call.RegisterValidator?]
    ensures LiveStep(rt, c, inv, call).c.validatorSlots
         == if call.RegisterValidator? then c.validatorSlots[c.validatorCount as int := call.pubkey] else c.validatorSlots
  {
    hide DoMintToken, DoMint, DoExecutePendingMint, DoBurnToken, DoBurn, DoRegisterToken, Base58.Encode, NATIVE_SOL_MINT;
  }

  lemma FirstValidators(rt: Runtime, inv: Invocation, call: Call, key: string)
    requires Step(rt, Fresh, inv, call).Done?
    ensures ActiveOf(Live(Step(rt, Fresh, inv, call).c), key) == None == ActiveOf(Fresh, key)
    ensures !call.RegisterValidator? && !call.RemoveValidator?
    ensures Step(rt, Fresh, inv, call).c.validatorSlots == map[]
  {
    hide Base58.Encode, NATIVE_SOL_MINT;
  }

  lemma ValidatorStep(rt: Runtime, w: World, inv: Invocation, call: Call, key: string)
    requires Valid(w) && Step(rt, w, inv, call).Done?
    ensures var said := SaidOfValidator(key)(w, inv, call);
      ActiveOf(Live(Step(rt, w, inv, call).c), key) == if said.Some? then said.value else ActiveOf(w, key)
  {
    hide LiveStep, InitialController, NATIVE_SOL_MINT;
    if w.Fresh? {
      FirstValidators(rt, inv, call, key);
    } else if call.RegisterValidator? || call.RemoveValidator? {
      RegistrationsSet(rt, w.c, inv, call);
    } else {
      OthersKeepActive(rt, w.c, inv, call);
    }
  }

  lemma ValidatorsAsLastSaid(rt: Runtime, txs: seq<Transaction>, key: string)
    ensures ActiveOf(RunOf(rt, txs), key) == Latest(rt, txs, SaidOfValidator(key), None)
  {
    hide Step, RunOf, NATIVE_SOL_MINT, SaidOfValidator;
    var view := (w: World) => ActiveOf(w, key);
    forall w, inv, call | Valid(w) && Step(rt, w, inv, call).Done? {
      ValidatorStep(rt, w, inv, call, key);
    }
    LatestHolds(rt, txs, view, SaidOfValidator(key));
  }

  function SlotOf(w: World, index: int): Option<string> {
    if w.Live? && index in w.c.validatorSlots then Some(w.c.validatorSlots[index]) else None
  }

  /** A registration takes the slot numbered by the count of its moment. */
  function SaidOfSlot(index: int): (World, Invocation, Call) -> Option<Option<string>> {
    (w: World, inv: Invocation, call: Call) =>
      if call.RegisterValidator? && w.Live? && w.c.validatorCount == index then Some(Some(call.pubkey)) else None
  }

  lemma SlotStep(rt: Runtime, w: World, inv: Invocation, call: Call, index: int)
    requires Valid(w) && Step(rt, w, inv, call).Done?
    ensures var said := SaidOfSlot(index)(w, inv, call);
      SlotOf(Live(Step(rt, w, inv, call).c), index) == if said.Some? then said.value else SlotOf(w, index)
  {
    hide LiveStep, InitialController, NATIVE_SOL_MINT;
    if w.Fresh? {
      FirstValidators(rt, inv, call, "");
    } else if call.RegisterValidator? || call.RemoveValidator? {
      RegistrationsSet(rt, w.c, inv, call);
    } else {
      OthersKeepActive(rt, w.c, inv, call);
    }
  }

  lemma SlotsAsLastSaid(rt: Runtime, txs: seq<Transaction>, index: int)
    ensures SlotOf(RunOf(rt, txs), index) == Latest(rt, txs, SaidOfSlot(index), None)
  {
    hide Step, RunOf, NATIVE_SOL_MINT, SaidOfSlot;
    var view := (w: World) => SlotOf(w, index);
    forall w, inv, call | Valid(w) && Step(rt, w, inv, call).Done? {
      SlotStep(rt, w, inv, call, index);
    }
    LatestHolds(rt, txs, view, SaidOfSlot(index));
  }

  // ---------------------------------------------------------------------------------------------
  // Pending mints
  // ---------------------------------------------------------------------------------------------

  datatype Waiting = Waiting(height: int, recipient: string, amount: int, mint: string)

  function WaitingOf(w: World, id: string): Option<Waiting> {
    if w.Live? && id in w.c.pending then
      var p := w.c.pending[id]; Some(Waiting(p.height, p.recipient, p.amount, p.splMint))
    else None
  }

  /** A large mint waits with what its call named, until it is executed or cancelled. */
  function SaidOfPending(id: string): (World, Invocation, Call) -> Option<Option<Waiting>> {
    (w: World, inv: Invocation, call: Call) =>
      match call
      case MintToken(i, recipient, amount, _, mint, _, _) =>
        if i == id && amount >= 50_000_000_000 && w.Live? && mint in w.c.tokens then
          Some(Some(Waiting(inv.height, recipient, Units(w.c.tokens[mint], amount), mint)))
        else None
      case ExecutePendingMint(i) => if i == id then Some(None) else None
      case CancelPendingMint(i) => if i == id then Some(None) else None
      case _ => None
  }

  lemma LargeMintWaits(rt: Runtime, c: Controller, inv: Invocation, call: Call)
    requires call.MintToken? && DoMintToken(rt, c, inv, call).Done?
    ensures call.splMint in c.tokens && call.amount >= 0
    ensures var d, units := DoMintToken(rt, c, inv, call).c, Units(c.tokens[call.splMint], call.amount);
      if call.amount >= 50_000_000_000 then
        Fits(units) && d.pending == c.pending[call.transferId := PendingMint(inv.height, call.recipient, units, call.splMint)]
      else d.pending == c.pending
  {
    hide MintMessage, Quorum, DailyCheck, Base58.Encode, NATIVE_SOL_MINT;
  }

  lemma OthersKeepPending(rt: Runtime, c: Controller, inv: Invocation, call: Call)
    requires NATIVE_SOL_MINT in c.tokens && !call.MintToken? && LiveStep(rt, c, inv, call).Done?
    ensures var d := LiveStep(rt, c, inv, call).c;
      d.pending == if call.ExecutePendingMint? || call.CancelPendingMint? then c.pending - {call.transferId} else c.pending
  {
    hide LegacyMintMessage, Quorum, DailyCheck, Scaled, DivisorFor, BurnId, Base58.Encode, NATIVE_SOL_MINT;
  }

  lemma PendingStep(rt: Runtime, w: World, inv: Invocation, call: Call, id: string)
    requires Valid(w) && Step(rt, w, inv, call).Done?
    ensures var said := SaidOfPending(id)(w, inv, call);
      WaitingOf(Live(Step(rt, w, inv, call).c), id) == if said.Some? then said.value else WaitingOf(w, id)
  {
    hide DoMintToken, DoMint, DoExecutePendingMint, DoBurnToken, DoBurn, DoRegisterToken, DoRegisterValidator, DoRemoveValidator,
         Units, Base58.Encode, NATIVE_SOL_MINT;
    if w.Live? {
      if call.MintToken? {
        LargeMintWaits(rt, w.c, inv, call);
      } else {
        OthersKeepPending(rt, w.c, inv, call);
      }
    }
  }

  lemma PendingAsLastSaid(rt: Runtime, txs: seq<Transaction>, id: string)
    ensures WaitingOf(RunOf(rt, txs), id) == Latest(rt, txs, SaidOfPending(id), None)
  {
    hide Step, RunOf, NATIVE_SOL_MINT;
    var view := (w: World) => WaitingOf(w, id);
    forall w, inv, call | Valid(w) && Step(rt, w, inv, call).Done? {
      PendingStep(rt, w, inv, call, id);
    }
    LatestHolds(rt, txs, view, SaidOfPending(id));
  }

  // ---------------------------------------------------------------------------------------------
  // Burn records
  // ---------------------------------------------------------------------------------------------

  predicate IsBurn(call: Call) { call.BurnToken? || call.Burn? }

  /** The mint a burn is of. */
  function BurntMint(call: Call): string
    requires IsBurn(call)
  {
    if call.BurnToken? then call.splMint else NATIVE_SOL_MINT
  }

  /** Call k is an accepted burn, and b its record: caller, recipient and mint it named, its payment, height and time. */
  predicate BurntAt(rt: Runtime, txs: seq<Transaction>, k: nat, id: string, b: BurnEntry) {
    && k < |txs| && IsBurn(txs[k].call) && AcceptedAt(rt, txs, k) && RunOf(rt, txs[..k]).Live?
    && var inv, call := txs[k].inv, txs[k].call;
    && inv.payments != []
    && b == BurnEntry(Base58.Encode(inv.caller), call.solRecipient, BurntMint(call), inv.payments[0].amount, inv.height,
                      inv.timestamp)
    && id == BurnId(rt, inv.caller, NonceOf(RunOf(rt, txs[..k]).c, Base58.Encode(inv.caller)), inv.height, inv.payments[0].amount)
  }

  function RecordOf(w: World, id: string): Option<BurnEntry> {
    if w.Live? && id in w.c.burnRecords then Some(w.c.burnRecords[id]) else None
  }

  function SaidOfBurn(rt: Runtime, id: string): (World, Invocation, Call) -> Option<Option<BurnEntry>> {
    (w: World, inv: Invocation, call: Call) =>
      if !IsBurn(call) || w.Fresh? || inv.payments == [] then None
      else
        var caller, amount := Base58.Encode(inv.caller), inv.payments[0].amount;
        if id != BurnId(rt, inv.caller, NonceOf(w.c, caller), inv.height, amount) then None
        else Some(Some(BurnEntry(caller, call.solRecipient, BurntMint(call), amount, inv.height, inv.timestamp)))
  }

  lemma BurnStep(rt: Runtime, w: World, inv: Invocation, call: Call, id: string)
    requires Valid(w) && Step(rt, w, inv, call).Done?
    ensures var said := SaidOfBurn(rt, id)(w, inv, call);
      RecordOf(Live(Step(rt, w, inv, call).c), id) == if said.Some? then said.value else RecordOf(w, id)
    ensures IsBurn(call) ==> w.Live? && inv.payments != []
  {
    hide DoMintToken, DoMint, DoExecutePendingMint, DoRegisterToken, DoRegisterValidator, DoRemoveValidator, BurnId,
         Base58.Encode, NATIVE_SOL_MINT;
    if w.Live? && !IsBurn(call) {
      ControllerBurns.OthersKeepBurns(rt, w.c, inv, call);
    }
  }

  lemma BurnsAsSaid(rt: Runtime, txs: seq<Transaction>, id: string)
    ensures RecordOf(RunOf(rt, txs), id) == Latest(rt, txs, SaidOfBurn(rt, id), None)
  {
    hide Step, RunOf, NATIVE_SOL_MINT, BurnId, Base58.Encode;
    var view := (w: World) => RecordOf(w, id);
    forall w, inv, call | Valid(w) && Step(rt, w, inv, call).Done? {
      BurnStep(rt, w, inv, call, id);
    }
    LatestHolds(rt, txs, view, SaidOfBurn(rt, id));
  }

  /** Behind every burn record of a run stands an accepted burn that named its recipient and mint. */
  lemma BurnOrigin(rt: Runtime, txs: seq<Transaction>, id: string) returns (k: nat)
    requires RunOf(rt, txs).Live? && id in RunOf(rt, txs).c.burnRecords
    ensures BurntAt(rt, txs, k, id, RunOf(rt, txs).c.burnRecords[id])
  {
    hide Step, RunOf, Latest, NATIVE_SOL_MINT, BurnId, Base58.Encode;
    BurnsAsSaid(rt, txs, id);
    k := LatestOrigin(rt, txs, SaidOfBurn(rt, id), None);
  }

  /** And every accepted burn leaves such a record for good. */
  lemma BurnRecorded(rt: Runtime, txs: seq<Transaction>, k: nat) returns (id: string)
    requires Injective(rt.hash) && k < |txs| && IsBurn(txs[k].call) && AcceptedAt(rt, txs, k)
    ensures RunOf(rt, txs).Live? && id in RunOf(rt, txs).c.burnRecords
    ensures BurntAt(rt, txs, k, id, RunOf(rt, txs).c.burnRecords[id])
  {
    hide Step, NATIVE_SOL_MINT, BurnId, Base58.Encode;
    var before, inv, call := RunOf(rt, txs[..k]), txs[k].inv, txs[k].call;
    assert txs[..k + 1][..k] == txs[..k];
    BurnStep(rt, before, inv, call, "");
    id := BurnId(rt, inv.caller, NonceOf(before.c, Base58.Encode(inv.caller)), inv.height, inv.payments[0].amount);
    BurnStep(rt, before, inv, call, id);
    var after := RunOf(rt, txs[..k + 1]);
    assert RecordOf(after, id).Some?;
    ControllerBurns.BurnRecordsKept(rt, txs, k + 1);
    assert (id, RecordOf(after, id).value) in ControllerBurns.RecordsOf(after).Items;
    assert (id, RecordOf(after, id).value) in ControllerBurns.RecordsOf(RunOf(rt, txs)).Items;
  }
}
