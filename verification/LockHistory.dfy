/**
 * The lock program's accounts read back from the instructions it accepted: every setting, pending change,
 * validator entry and record is what the latest accepted instruction about it said, and the log of events is
 * what each accepted instruction announced, in order.
 */
module LockHistory {
  import opened Bytes
  import opened Options
  import opened LockState
  import opened LockSpec
  import opened LockRuns
  import opened LockAcceptance
  import LockCustody
  import LockPayouts

  /** What the latest accepted instruction that said something about it said, or what there was at first. */
  function Latest<T>(chain: Chain, s: State, txs: seq<Transaction>, said: (State, Clock, Instruction) -> Option<T>, first: T): T {
    if txs == [] then first else
      var front, tx := txs[..|txs| - 1], txs[|txs| - 1];
      var before := RunOf(chain, s, front);
      if StepError(chain, before, tx.clock, tx.ins).None? && said(before, tx.clock, tx.ins).Some? then
        said(before, tx.clock, tx.ins).value
      else Latest(chain, s, front, said, first)
  }

  /** An accepted step brings what is said of it, and leaves everything else. */
  ghost predicate Follows<T(!new)>(chain: Chain, view: State -> T, said: (State, Clock, Instruction) -> Option<T>) {
    forall b, clock, ins :: StepError(chain, b, clock, ins).None? ==>
      view(StepEffect(chain, b, clock, ins)) == if said(b, clock, ins).Some? then said(b, clock, ins).value else view(b)
  }

  lemma {:induction false} LatestHolds<T(!new)>(chain: Chain, s: State, txs: seq<Transaction>, view: State -> T,
                                          said: (State, Clock, Instruction) -> Option<T>)
    requires Follows(chain, view, said)
    ensures view(RunOf(chain, s, txs)) == Latest(chain, s, txs, said, view(s))
  {
    hide StepError, StepEffect;
    if txs != [] {
      LatestHolds(chain, s, txs[..|txs| - 1], view, said);
    }
  }

  /** What is not as it was at first was said by an accepted instruction. */
  lemma {:induction false} LatestOrigin<T>(chain: Chain, s: State, txs: seq<Transaction>,
                                           said: (State, Clock, Instruction) -> Option<T>, first: T) returns (k: nat)
    requires Latest(chain, s, txs, said, first) != first
    ensures k < |txs| && AcceptedAt(chain, s, txs, k)
    ensures said(RunOf(chain, s, txs[..k]), txs[k].clock, txs[k].ins) == Some(Latest(chain, s, txs, said, first))
  {
    hide StepError, Apply;
    var front, tx := txs[..|txs| - 1], txs[|txs| - 1];
    var before := RunOf(chain, s, front);
    if StepError(chain, before, tx.clock, tx.ins).None? && said(before, tx.clock, tx.ins).Some? {
      k := |front|;
    } else {
      k := LatestOrigin(chain, s, front, said, first);
      assert front[..k] == txs[..k];
    }
  }

  // ---------------------------------------------------------------------------------------------
  // Settings
  // ---------------------------------------------------------------------------------------------

  datatype Setting =
    | MinDeposit | MaxDeposit | DailyCap | HourlyCap | UnlockLimit | Confirmations | LargeDelay | LargeThreshold
    | MinValidators | MaxValidators | DccChain | SolanaChain | Authority | Guardian | Paused

  datatype Value = Number(i: int) | Key(key: Pubkey) | Flag(b: bool)

  function SettingOf(c: Config, f: Setting): Value {
    match f
    case MinDeposit => Number(c.minDeposit)
    case MaxDeposit => Number(c.maxDeposit)
    case DailyCap => Number(c.maxDailyOutflow)
    case HourlyCap => Number(c.maxHourlyOutflow)
    case UnlockLimit => Number(c.maxUnlockAmount)
    case Confirmations => Number(c.requiredConfirmations)
    case LargeDelay => Number(c.largeWithdrawalDelay)
    case LargeThreshold => Number(c.largeWithdrawalThreshold)
    case MinValidators => Number(c.minValidators)
    case MaxValidators => Number(c.maxValidators)
    case DccChain => Number(c.dccChainId)
    case SolanaChain => Number(c.solanaChainId)
    case Authority => Key(c.authority)
    case Guardian => Key(c.guardian)
    case Paused => Flag(c.paused)
  }

  /** What a setting is initialized to. */
  function InitialValue(authority: Pubkey, p: InitializeParams, f: Setting): Value {
    match f
    case MinDeposit => Number(p.minDeposit)
    case MaxDeposit => Number(p.maxDeposit)
    case DailyCap => Number(p.maxDailyOutflow)
    case HourlyCap => Number(p.maxHourlyOutflow)
    case UnlockLimit => Number(p.maxUnlockAmount)
    case Confirmations => Number(p.requiredConfirmations)
    case LargeDelay => Number(p.largeWithdrawalDelay)
    case LargeThreshold => Number(p.largeWithdrawalThreshold)
    case MinValidators => Number(p.minValidators)
    case MaxValidators => Number(p.maxValidators)
    case DccChain => Number(p.dccChainId)
    case SolanaChain => Number(p.solanaChainId)
    case Authority => Key(authority)
    case Guardian => Key(p.guardian)
    case Paused => Flag(false)
  }

  function Asks(o: Option<int>): Option<Value> { if o.Some? then Some(Number(o.value)) else None }

  /** What a direct update asks of a setting. */
  function AskedOf(u: UpdateConfigParams, f: Setting): Option<Value> {
    match f
    case MinDeposit => Asks(u.minDeposit)
    case MaxDeposit => Asks(u.maxDeposit)
    case DailyCap => Asks(u.maxDailyOutflow)
    case HourlyCap => Asks(u.maxHourlyOutflow)
    case UnlockLimit => Asks(u.maxUnlockAmount)
    case Confirmations => Asks(u.requiredConfirmations)
    case LargeDelay => Asks(u.largeWithdrawalDelay)
    case LargeThreshold => Asks(u.largeWithdrawalThreshold)
    case MinValidators => Asks(u.minValidators)
    case _ => None
  }

  /** What the execution of a change makes of a setting. */
  function ChangedTo(t: ConfigChangeType, value: Bytes32, f: Setting): Option<Value> {
    match (t, f)
    case (AuthorityTransfer, Authority) => Some(Key(value))
    case (GuardianTransfer, Guardian) => Some(Key(value))
    case (MinValidatorsDecrease, MinValidators) => Some(Number(value[0]))
    case (MaxDailyOutflowIncrease, DailyCap) => Some(Number(FirstEight(value)))
    case (_, _) => None
  }

  function SaidOfSetting(f: Setting): (State, Clock, Instruction) -> Option<Value> {
    (before: State, clock: Clock, ins: Instruction) =>
      match ins
      case UpdateConfig(_, u) => AskedOf(u, f)
      case ExecuteConfigChange(t) => if t in before.pending then ChangedTo(t, before.pending[t].newValue, f) else None
      case EmergencyPause(_) => if f == Paused then Some(Flag(true)) else None
      case EmergencyResume(_) => if f == Paused then Some(Flag(false)) else None
      case _ => None
  }

  lemma UpdateAsks(s: State, u: UpdateConfigParams, f: Setting)
    ensures var asked := AskedOf(u, f);
      SettingOf(UpdateConfigEffect(s, u).config, f) == if asked.Some? then asked.value else SettingOf(s.config, f)
  {
    match f {
      case MinDeposit =>
      case MaxDeposit =>
      case DailyCap =>
      case HourlyCap =>
      case UnlockLimit =>
      case Confirmations =>
      case LargeDelay =>
      case LargeThreshold =>
      case MinValidators =>
      case _ =>
    }
  }

  /** The counters and breakers of d, and the rest of c. */
  function WithCounters(c: Config, d: Config): Config {
    c.(globalNonce := d.globalNonce, totalLocked := d.totalLocked, totalUnlocked := d.totalUnlocked,
       validatorCount := d.validatorCount, currentDailyOutflow := d.currentDailyOutflow, lastDailyReset := d.lastDailyReset,
       currentHourlyOutflow := d.currentHourlyOutflow, lastHourlyReset := d.lastHourlyReset)
  }

  predicate SetsSomething(ins: Instruction) {
    ins.UpdateConfig? || ins.ExecuteConfigChange? || ins.EmergencyPause? || ins.EmergencyResume?
  }

  lemma OthersMoveCounters(chain: Chain, s: State, clock: Clock, ins: Instruction)
    requires !SetsSomething(ins)
    ensures var d := StepEffect(chain, s, clock, ins).config; d == WithCounters(s.config, d)
  {
    hide Paid, ToLE, UpdateConfigEffect, ExecuteConfigChangeEffect;
  }

  lemma CountersAreNoSettings(c: Config, d: Config, f: Setting)
    requires d == WithCounters(c, d)
    ensures SettingOf(d, f) == SettingOf(c, f)
  {
  }

  lemma ExecutionChanges(s: State, t: ConfigChangeType, f: Setting)
    requires t in s.pending
    ensures var changed := ChangedTo(t, s.pending[t].newValue, f);
      SettingOf(ExecuteConfigChangeEffect(s, t).config, f) == if changed.Some? then changed.value else SettingOf(s.config, f)
  {
    hide FromLE;
    match t {
      case AuthorityTransfer =>
      case GuardianTransfer =>
      case MinValidatorsDecrease =>
      case MaxDailyOutflowIncrease =>
    }
  }

  lemma SettingStep(chain: Chain, s: State, clock: Clock, ins: Instruction, f: Setting)
    ensures var said := SaidOfSetting(f)(s, clock, ins);
      SettingOf(StepEffect(chain, s, clock, ins).config, f) == if said.Some? then said.value else SettingOf(s.config, f)
  {
    hide ChangedTo, AskedOf, WithCounters, UpdateConfigEffect, UnlockEffect, ExecuteScheduledUnlockEffect,
         DepositEffect, DepositSplEffect, RegisterValidatorEffect, RemoveValidatorEffect, ProposeConfigChangeEffect;
    if ins.UpdateConfig? {
      UpdateAsks(s, ins.update, f);
    } else if ins.ExecuteConfigChange? && ins.changeType in s.pending {
      ExecutionChanges(s, ins.changeType, f);
    } else if !SetsSomething(ins) {
      OthersMoveCounters(chain, s, clock, ins);
      CountersAreNoSettings(s.config, StepEffect(chain, s, clock, ins).config, f);
    }
  }

  /** In every state of every run each setting is as initialized, or as the latest accepted instruction made it. */
  lemma SettingsAsLastSaid(chain: Chain, authority: Pubkey, p: InitializeParams, now: int, vault: nat, txs: seq<Transaction>,
                           f: Setting)
    ensures var s := InitialState(authority, p, now, vault);
      SettingOf(RunOf(chain, s, txs).config, f) == Latest(chain, s, txs, SaidOfSetting(f), InitialValue(authority, p, f))
  {
    hide StepError, StepEffect, RunOf;
    var view := (t: State) => SettingOf(t.config, f);
    forall b, clock, ins {
      SettingStep(chain, b, clock, ins, f);
    }
    LatestHolds(chain, InitialState(authority, p, now, vault), txs, view, SaidOfSetting(f));
  }

  // ---------------------------------------------------------------------------------------------
  // Pending changes and validators
  // ---------------------------------------------------------------------------------------------

  function Entry<K, V>(m: map<K, V>, k: K): Option<V> { if k in m then Some(m[k]) else None }

  /** A proposal stands until its change is executed or cancelled. */
  function SaidOfChange(t: ConfigChangeType): (State, Clock, Instruction) -> Option<Option<PendingConfigChange>> {
    (before: State, clock: Clock, ins: Instruction) =>
      match ins
      case ProposeConfigChange(signer, u, value) =>
        if u == t then Some(Some(PendingConfigChange(t, value, clock.now, clock.now + DelaySeconds(t), signer))) else None
      case ExecuteConfigChange(u) => if u == t then Some(None) else None
      case CancelConfigChange(_, u) => if u == t then Some(None) else None
      case _ => None
  }

  lemma ChangeStep(chain: Chain, s: State, clock: Clock, ins: Instruction, t: ConfigChangeType)
    ensures var said := SaidOfChange(t)(s, clock, ins);
      Entry(StepEffect(chain, s, clock, ins).pending, t) == if said.Some? then said.value else Entry(s.pending, t)
  {
    hide ToLE, FromLE, Paid;
  }

  lemma ChangesAsLastSaid(chain: Chain, s: State, txs: seq<Transaction>, t: ConfigChangeType)
    ensures Entry(RunOf(chain, s, txs).pending, t) == Latest(chain, s, txs, SaidOfChange(t), Entry(s.pending, t))
  {
    hide StepError, StepEffect, Entry;
    var view := (b: State) => Entry(b.pending, t);
    forall b, clock, ins {
      ChangeStep(chain, b, clock, ins, t);
    }
    LatestHolds(chain, s, txs, view, SaidOfChange(t));
  }

  /** A validator is registered active, with nothing counted, and stays so until it is removed. */
  function SaidOfValidator(v: Pubkey): (State, Clock, Instruction) -> Option<Option<ValidatorEntry>> {
    (before: State, clock: Clock, ins: Instruction) =>
      match ins
      case RegisterValidator(_, w) => if w == v then Some(Some(ValidatorEntry(v, true, clock.now, 0, 0))) else None
      case RemoveValidator(_, w) => if w == v then Some(None) else None
      case _ => None
  }

  lemma ValidatorStep(chain: Chain, s: State, clock: Clock, ins: Instruction, v: Pubkey)
    ensures var said := SaidOfValidator(v)(s, clock, ins);
      Entry(StepEffect(chain, s, clock, ins).validators, v) == if said.Some? then said.value else Entry(s.validators, v)
  {
    hide ToLE, FromLE, Paid;
  }

  lemma ValidatorsAsLastSaid(chain: Chain, s: State, txs: seq<Transaction>, v: Pubkey)
    ensures Entry(RunOf(chain, s, txs).validators, v) == Latest(chain, s, txs, SaidOfValidator(v), Entry(s.validators, v))
  {
    hide StepError, StepEffect, Entry;
    var view := (b: State) => Entry(b.validators, v);
    forall b, clock, ins {
      ValidatorStep(chain, b, clock, ins, v);
    }
    LatestHolds(chain, s, txs, view, SaidOfValidator(v));
  }

  // ---------------------------------------------------------------------------------------------
  // Records
  // ---------------------------------------------------------------------------------------------

  /** A deposit's record is what its instruction named, under the sender's nonce of that moment. */
  function SaidOfDeposit(id: seq<byte>): (State, Clock, Instruction) -> Option<Option<DepositRecord>> {
    (before: State, clock: Clock, ins: Instruction) =>
      if (ins.Deposit? || ins.DepositSpl?) && ins.deposit.transferId == id then
        var p := ins.deposit;
        Some(Some(DepositRecord(id, ins.sender, p.recipientDcc, p.amount, NextNonce(before, ins.sender), clock.slot, clock.now,
                                false)))
      else None
  }

  lemma DepositStep(chain: Chain, s: State, clock: Clock, ins: Instruction, id: seq<byte>)
    ensures var said := SaidOfDeposit(id)(s, clock, ins);
      Entry(StepEffect(chain, s, clock, ins).deposits, id) == if said.Some? then said.value else Entry(s.deposits, id)
  {
    hide ToLE, FromLE, Paid;
  }

  /** In every state of every run each deposit record, or its absence, is what the accepted deposits said. */
  lemma DepositsAsSaid(chain: Chain, s: State, txs: seq<Transaction>, id: seq<byte>)
    ensures Entry(RunOf(chain, s, txs).deposits, id) == Latest(chain, s, txs, SaidOfDeposit(id), Entry(s.deposits, id))
  {
    hide StepError, StepEffect, Entry;
    var view := (b: State) => Entry(b.deposits, id);
    forall b, clock, ins {
      DepositStep(chain, b, clock, ins, id);
    }
    LatestHolds(chain, s, txs, view, SaidOfDeposit(id));
  }

  /** Transaction k is an accepted deposit, in order at its moment, and d is its record. */
  predicate DepositedAt(chain: Chain, s: State, txs: seq<Transaction>, k: nat, d: DepositRecord) {
    && k < |txs| && AcceptedAt(chain, s, txs, k) && (txs[k].ins.Deposit? || txs[k].ins.DepositSpl?)
    && var before, ins, p := RunOf(chain, s, txs[..k]), txs[k].ins, txs[k].ins.deposit;
    && DepositInOrder(chain, before, ins.sender, p)
    && d == DepositRecord(p.transferId, ins.sender, p.recipientDcc, p.amount, NextNonce(before, ins.sender),
                          txs[k].clock.slot, txs[k].clock.now, false)
    && before.config.minDeposit <= d.amount <= before.config.maxDeposit && d.recipientDcc != DEFAULT_KEY
  }

  /** Behind every deposit record of a run stands an accepted deposit within the bounds of its moment. */
  lemma DepositOrigin(chain: Chain, s: State, start: int, txs: seq<Transaction>, id: seq<byte>) returns (k: nat)
    requires Initial(s, start) && id in RunOf(chain, s, txs).deposits
    ensures DepositedAt(chain, s, txs, k, RunOf(chain, s, txs).deposits[id])
  {
    hide StepError, RunOf, Latest;
    DepositsAsSaid(chain, s, txs, id);
    k := LatestOrigin(chain, s, txs, SaidOfDeposit(id), None);
    DepositExactly(chain, RunOf(chain, s, txs[..k]), txs[k].clock, txs[k].ins);
  }

  /** And every accepted deposit leaves its record for good. */
  lemma {:induction false} DepositRecorded(chain: Chain, s: State, txs: seq<Transaction>, k: nat)
    requires k < |txs| && AcceptedAt(chain, s, txs, k) && (txs[k].ins.Deposit? || txs[k].ins.DepositSpl?)
    ensures var id, t := txs[k].ins.deposit.transferId, RunOf(chain, s, txs);
      id in t.deposits && DepositedAt(chain, s, txs, k, t.deposits[id])
  {
    hide StepError, StepEffect, ToLE;
    var front, tx, id := txs[..|txs| - 1], txs[|txs| - 1], txs[k].ins.deposit.transferId;
    var before := RunOf(chain, s, front);
    assert front[..if k < |front| then k else |front|] == txs[..k];
    if k < |front| {
      DepositRecorded(chain, s, front, k);
      if StepError(chain, before, tx.clock, tx.ins).None? {
        DepositStep(chain, before, tx.clock, tx.ins, id);
        if tx.ins.Deposit? || tx.ins.DepositSpl? {
          DepositExactly(chain, before, tx.clock, tx.ins);
        }
      }
    } else {
      DepositStep(chain, before, tx.clock, tx.ins, id);
      DepositExactly(chain, before, tx.clock, tx.ins);
    }
  }

  /** An unlock's record is what its parameters name: paid at once, or promised for after the delay, then paid. */
  function SaidOfUnlock(id: seq<byte>): (State, Clock, Instruction) -> Option<Option<UnlockRecord>> {
    (before: State, clock: Clock, ins: Instruction) =>
      if ins.Unlock? && ins.unlock.transferId == id then
        var p, large := ins.unlock, ins.unlock.amount >= before.config.largeWithdrawalThreshold;
        Some(Some(UnlockRecord(id, p.recipient, p.amount, clock.now, p.burnTxHash, !large,
                               if large then clock.now + before.config.largeWithdrawalDelay else 0)))
      else if ins.ExecuteScheduledUnlock? && ins.record == id && id in before.unlocks then
        Some(Some(before.unlocks[id].(executed := true)))
      else None
  }

  lemma UnlockStep(chain: Chain, s: State, clock: Clock, ins: Instruction, id: seq<byte>)
    ensures var said := SaidOfUnlock(id)(s, clock, ins);
      Entry(StepEffect(chain, s, clock, ins).unlocks, id) == if said.Some? then said.value else Entry(s.unlocks, id)
  {
    hide ToLE, FromLE, Paid, DepositEffect, DepositSplEffect, UpdateConfigEffect, RegisterValidatorEffect,
         RemoveValidatorEffect, ProposeConfigChangeEffect, ExecuteConfigChangeEffect;
    if LockPayouts.Administrative(ins) {
      LockPayouts.AdministrativeFrame(chain, s, clock, ins);
    } else if ins.Deposit? || ins.DepositSpl? {
      LockPayouts.DepositsLeaveUnlocks(chain, s, clock, ins);
    }
  }

  lemma UnlocksAsSaid(chain: Chain, s: State, txs: seq<Transaction>, id: seq<byte>)
    ensures Entry(RunOf(chain, s, txs).unlocks, id) == Latest(chain, s, txs, SaidOfUnlock(id), Entry(s.unlocks, id))
  {
    hide StepError, StepEffect, Entry;
    var view := (b: State) => Entry(b.unlocks, id);
    forall b, clock, ins {
      UnlockStep(chain, b, clock, ins, id);
    }
    LatestHolds(chain, s, txs, view, SaidOfUnlock(id));
  }

  /** Transaction k is an accepted unlock, in order at its moment, and r is its record. */
  predicate OrderedAt(chain: Chain, s: State, txs: seq<Transaction>, k: nat, r: UnlockRecord) {
    && k < |txs| && AcceptedAt(chain, s, txs, k) && txs[k].ins.Unlock?
    && var before, now, p := RunOf(chain, s, txs[..k]), txs[k].clock.now, txs[k].ins.unlock;
    && UnlockInOrder(before, txs[k].clock, txs[k].ins) && QuorumInOrder(before, txs[k].ins)
    && r.transferId == p.transferId && r.recipient == p.recipient && r.amount == p.amount && r.burnTxHash == p.burnTxHash
    && r.timestamp == now
    && if p.amount >= before.config.largeWithdrawalThreshold then
         r.scheduledTime == now + before.config.largeWithdrawalDelay
       else r.scheduledTime == 0 && r.executed
  }

  /** Every accepted unlock leaves its record for good. */
  lemma UnlockRecorded(chain: Chain, s: State, txs: seq<Transaction>, k: nat)
    requires k < |txs| && AcceptedAt(chain, s, txs, k) && txs[k].ins.Unlock?
    ensures var id, t := txs[k].ins.unlock.transferId, RunOf(chain, s, txs);
      id in t.unlocks && OrderedAt(chain, s, txs, k, t.unlocks[id])
  {
    hide StepError, StepEffect, RunOf, QuorumInOrder, UnlockInOrder;
    var before, tx := RunOf(chain, s, txs[..k]), txs[k];
    AcceptedStep(chain, s, txs, k);
    UnlockStep(chain, before, tx.clock, tx.ins, tx.ins.unlock.transferId);
    UnlockExactly(chain, before, tx.clock, tx.ins);
    LockPayouts.RecordsKept(chain, s, txs, k + 1);
  }

  /** And behind every unlock record of a run stands an accepted unlock, new, in time and for this chain. */
  lemma UnlockOrigin(chain: Chain, s: State, start: int, txs: seq<Transaction>, id: seq<byte>) returns (k: nat)
    requires Initial(s, start) && id in RunOf(chain, s, txs).unlocks
    ensures OrderedAt(chain, s, txs, k, RunOf(chain, s, txs).unlocks[id])
  {
    hide StepError, RunOf, OrderedAt;
    k := LockCustody.RecordOrigin(chain, s, start, txs, id);
    UnlockRecorded(chain, s, txs, k);
  }

  // ---------------------------------------------------------------------------------------------
  // Events
  // ---------------------------------------------------------------------------------------------

  /** What an accepted instruction announces; a large unlock announces nothing until it is executed. */
  function Announced(s: State, clock: Clock, ins: Instruction): seq<Event> {
    match ins
    case Deposit(sender, p) =>
      [Deposited(p.transferId, sender, p.recipientDcc, p.amount, NextNonce(s, sender), clock.slot, clock.now,
                 s.config.solanaChainId)]
    case DepositSpl(sender, mint, p) =>
      [DepositedSpl(p.transferId, sender, p.recipientDcc, mint, p.amount, NextNonce(s, sender), clock.slot, clock.now,
                    s.config.solanaChainId)]
    case Unlock(p, _, _, _) =>
      if p.amount >= s.config.largeWithdrawalThreshold then []
      else [Unlocked(p.transferId, p.recipient, p.amount, p.burnTxHash, clock.now, |p.attestations|)]
    case ExecuteScheduledUnlock(id, _) =>
      if id !in s.unlocks then []
      else [ScheduledUnlockExecuted(s.unlocks[id].transferId, s.unlocks[id].recipient, s.unlocks[id].amount, clock.now)]
    case _ => []
  }

  function Announcements(chain: Chain, s: State, txs: seq<Transaction>): seq<Event> {
    if txs == [] then [] else
      var front, tx := txs[..|txs| - 1], txs[|txs| - 1];
      var before := RunOf(chain, s, front);
      Announcements(chain, s, front)
      + if StepError(chain, before, tx.clock, tx.ins).None? then Announced(before, tx.clock, tx.ins) else []
  }

  lemma EventStep(chain: Chain, s: State, clock: Clock, ins: Instruction)
    ensures StepEffect(chain, s, clock, ins).events == s.events + Announced(s, clock, ins)
  {
    hide ToLE, FromLE, Paid;
  }

  /** Over every run the log holds the announcements of the accepted instructions, in order, and nothing else. */
  lemma {:induction false} EventsAreAnnouncements(chain: Chain, s: State, txs: seq<Transaction>)
    ensures RunOf(chain, s, txs).events == s.events + Announcements(chain, s, txs)
  {
    hide StepError, StepEffect, Announced;
    if txs != [] {
      var front, tx := txs[..|txs| - 1], txs[|txs| - 1];
      EventsAreAnnouncements(chain, s, front);
      EventStep(chain, RunOf(chain, s, front), tx.clock, tx.ins);
    }
  }
}
