/** The money side of the lock program: totals against events and records, payouts at most once, the vault balance. */
module LockPayouts {
  import opened Bytes
  import opened LockState
  import opened LockSpec
  import opened LockGuards
  import opened LockRuns
  import opened Sums

  predicate IsPayout(e: Event) { e.Unlocked? || e.ScheduledUnlockExecuted? }

  predicate IsDeposit(e: Event) { e.Deposited? || e.DepositedSpl? }

  function NativeDeposited(events: seq<Event>): nat {
    if events == [] then 0 else
      var e := events[|events| - 1];
      NativeDeposited(events[..|events| - 1]) + if e.Deposited? then e.amount else 0
  }

  function PaidOut(events: seq<Event>): nat {
    if events == [] then 0 else
      var e := events[|events| - 1];
      PaidOut(events[..|events| - 1]) + if IsPayout(e) then e.amount else 0
  }

  /** Payouts whose recipient is the vault itself. */
  function PaidToVault(chain: Chain, events: seq<Event>): nat {
    if events == [] then 0 else
      var e := events[|events| - 1];
      PaidToVault(chain, events[..|events| - 1]) + if IsPayout(e) && e.recipient == chain.vaultKey then e.amount else 0
  }

  function ExecutedAmount(r: UnlockRecord): nat { if r.executed then r.amount else 0 }

  type UnlockMap = map<seq<byte>, UnlockRecord>

  /** A payout event agrees with its executed record; a scheduled one comes no earlier than its schedule. */
  predicate Matches(unlocks: UnlockMap, e: Event)
    requires IsPayout(e)
  {
    && e.transferId in unlocks
    && var r := unlocks[e.transferId];
    && r.executed && r.amount == e.amount && r.recipient == e.recipient
    && (if e.Unlocked? then r.scheduledTime == 0 else 0 < r.scheduledTime <= e.timestamp)
  }

  predicate PayoutsMatch(unlocks: UnlockMap, events: seq<Event>) {
    forall i :: 0 <= i < |events| && IsPayout(events[i]) ==> Matches(unlocks, events[i])
  }

  predicate PaidAtMostOnce(events: seq<Event>) {
    forall i, j :: 0 <= i < j < |events| && IsPayout(events[i]) && IsPayout(events[j]) ==>
      events[i].transferId != events[j].transferId
  }

  predicate HasPayout(events: seq<Event>, id: seq<byte>) {
    exists i :: 0 <= i < |events| && IsPayout(events[i]) && events[i].transferId == id
  }

  predicate RecordsPaid(unlocks: UnlockMap, events: seq<Event>) {
    forall id :: id in unlocks ==> unlocks[id].transferId == id && (unlocks[id].executed ==> HasPayout(events, id))
  }

  ghost predicate UnlockLedger(unlocks: UnlockMap, events: seq<Event>) {
    PayoutsMatch(unlocks, events) && PaidAtMostOnce(events) && RecordsPaid(unlocks, events)
  }

  ghost predicate PayoutInv(s: State) {
    && UnlockLedger(s.unlocks, s.events)
    && s.config.totalLocked == NativeDeposited(s.events)
    && s.config.totalUnlocked == PaidOut(s.events)
    && s.config.totalUnlocked == SumOver(s.unlocks, ExecutedAmount)
  }

  // ---------------------------------------------------------------------------------------------
  // One step
  // ---------------------------------------------------------------------------------------------

  lemma Appended(chain: Chain, events: seq<Event>, e: Event)
    ensures NativeDeposited(events + [e]) == NativeDeposited(events) + if e.Deposited? then e.amount else 0
    ensures PaidOut(events + [e]) == PaidOut(events) + if IsPayout(e) then e.amount else 0
    ensures PaidToVault(chain, events + [e]) ==
            PaidToVault(chain, events) + if IsPayout(e) && e.recipient == chain.vaultKey then e.amount else 0
  {
    assert (events + [e])[..|events + [e]| - 1] == events;
  }

  lemma HasPayoutMonotone(events: seq<Event>, e: Event, id: seq<byte>)
    requires HasPayout(events, id)
    ensures HasPayout(events + [e], id)
  {
    var i :| 0 <= i < |events| && IsPayout(events[i]) && events[i].transferId == id;
    assert (events + [e])[i] == events[i];
  }

  /** Paying an id that has no executed record, and recording it as executed. */
  lemma OnePayout(unlocks: UnlockMap, events: seq<Event>, r: UnlockRecord, e: Event)
    requires UnlockLedger(unlocks, events) && IsPayout(e)
    requires r.transferId in unlocks ==> !unlocks[r.transferId].executed
    requires r.executed && r.transferId == e.transferId && Matches(map[r.transferId := r], e)
    ensures UnlockLedger(unlocks[r.transferId := r], events + [e])
  {
    var all := events + [e];
    assert all[|events|] == e;
    forall id | id in unlocks && unlocks[id].executed ensures HasPayout(all, id) {
      HasPayoutMonotone(events, e, id);
    }
  }

  /** A scheduled record promises but does not pay. */
  lemma OnePromise(unlocks: UnlockMap, events: seq<Event>, r: UnlockRecord)
    requires UnlockLedger(unlocks, events)
    requires r.transferId !in unlocks && !r.executed
    ensures UnlockLedger(unlocks[r.transferId := r], events)
  {
  }

  lemma OneDeposit(unlocks: UnlockMap, events: seq<Event>, e: Event)
    requires UnlockLedger(unlocks, events) && IsDeposit(e)
    ensures UnlockLedger(unlocks, events + [e])
  {
    forall id | id in unlocks && unlocks[id].executed ensures HasPayout(events + [e], id) {
      HasPayoutMonotone(events, e, id);
    }
  }

  lemma DepositsKeepInv(chain: Chain, s: State, clock: Clock, ins: Instruction)
    requires PayoutInv(s) && (ins.Deposit? || ins.DepositSpl?)
    ensures PayoutInv(StepEffect(chain, s, clock, ins))
  {
    hide UnlockLedger, NativeDeposited, PaidOut, PaidToVault;
    var t := StepEffect(chain, s, clock, ins);
    var e := t.events[|s.events|];
    assert t.events == s.events + [e];
    Appended(chain, s.events, e);
    OneDeposit(s.unlocks, s.events, e);
  }

  lemma ScheduleKeepsInv(chain: Chain, s: State, clock: Clock, p: UnlockParams)
    requires PayoutInv(s) && p.transferId !in s.unlocks && p.amount >= s.config.largeWithdrawalThreshold
    ensures PayoutInv(SettleEffect(chain, s, clock, p))
  {
    var r := SettleEffect(chain, s, clock, p).unlocks[p.transferId];
    SumInsert(s.unlocks, ExecutedAmount, p.transferId, r);
    OnePromise(s.unlocks, s.events, r);
  }

  lemma PaymentKeepsInv(chain: Chain, s: State, clock: Clock, p: UnlockParams)
    requires PayoutInv(s) && p.transferId !in s.unlocks && p.amount < s.config.largeWithdrawalThreshold
    ensures PayoutInv(SettleEffect(chain, s, clock, p))
  {
    var t := SettleEffect(chain, s, clock, p);
    var r, e := t.unlocks[p.transferId], t.events[|s.events|];
    assert t.unlocks == s.unlocks[p.transferId := r] && t.events == s.events + [e];
    SumInsert(s.unlocks, ExecutedAmount, p.transferId, r);
    Appended(chain, s.events, e);
    OnePayout(s.unlocks, s.events, r, e);
  }

  lemma UnlockKeepsInv(chain: Chain, s: State, clock: Clock, p: UnlockParams)
    requires PayoutInv(s) && p.transferId !in s.unlocks
    ensures PayoutInv(UnlockEffect(chain, s, clock, p))
  {
    var rolled := s.(config := RolledConfig(s.config, clock.now, p.amount));
    if p.amount >= s.config.largeWithdrawalThreshold {
      ScheduleKeepsInv(chain, rolled, clock, p);
    } else {
      PaymentKeepsInv(chain, rolled, clock, p);
    }
  }

  lemma ExecutionKeepsInv(chain: Chain, s: State, clock: Clock, id: seq<byte>)
    requires PayoutInv(s) && Payable(s, clock, id)
    ensures PayoutInv(ExecuteScheduledUnlockEffect(chain, s, clock, id))
  {
    var t := ExecuteScheduledUnlockEffect(chain, s, clock, id);
    var r, e := t.unlocks[id], t.events[|s.events|];
    assert t.events == s.events + [e];
    SumUpdate(s.unlocks, ExecutedAmount, id, r);
    Appended(chain, s.events, e);
    OnePayout(s.unlocks, s.events, r, e);
  }

  /** Instructions that move no money. */
  predicate Administrative(ins: Instruction) {
    && !ins.Deposit? && !ins.DepositSpl? && !ins.Unlock? && !ins.ExecuteScheduledUnlock?
  }

  lemma AdministrativeFrame(chain: Chain, s: State, clock: Clock, ins: Instruction)
    requires Administrative(ins)
    ensures var t := StepEffect(chain, s, clock, ins);
      && t.unlocks == s.unlocks && t.events == s.events
      && t.config.totalLocked == s.config.totalLocked && t.config.totalUnlocked == s.config.totalUnlocked
      && t.vault == s.vault + (if ins.Donate? then ins.lamports else 0)
  {
  }

  lemma AdministrativeKeepsInv(chain: Chain, s: State, clock: Clock, ins: Instruction)
    requires PayoutInv(s) && Administrative(ins)
    ensures PayoutInv(StepEffect(chain, s, clock, ins))
  {
    hide StepEffect, UnlockLedger;
    AdministrativeFrame(chain, s, clock, ins);
  }

  lemma StepKeepsInv(chain: Chain, s: State, clock: Clock, ins: Instruction)
    requires PayoutInv(s)
    ensures PayoutInv(Apply(chain, s, clock, ins))
  {
    hide PayoutInv, StepError, UnlockEffect, ExecuteScheduledUnlockEffect, DepositEffect, DepositSplEffect, UpdateConfigEffect,
         RegisterValidatorEffect, RemoveValidatorEffect, ProposeConfigChangeEffect, ExecuteConfigChangeEffect, Payable;
    if StepError(chain, s, clock, ins).None? {
      if ins.Unlock? {
        UnlockIsNew(chain, s, clock, ins);
        UnlockKeepsInv(chain, s, clock, ins.unlock);
      } else if ins.ExecuteScheduledUnlock? {
        ExecutionAccepted(chain, s, clock, ins);
        ExecutionKeepsInv(chain, s, clock, ins.record);
      } else if Administrative(ins) {
        AdministrativeKeepsInv(chain, s, clock, ins);
      } else {
        DepositsKeepInv(chain, s, clock, ins);
      }
    }
  }

  /** The ledger in every reachable state. */
  lemma {:induction false} PayoutLedger(chain: Chain, s: State, start: int, txs: seq<Transaction>)
    requires Initial(s, start)
    ensures PayoutInv(RunOf(chain, s, txs))
  {
    hide Apply;
    if txs == [] {
    } else {
      var front, tx := txs[..|txs| - 1], txs[|txs| - 1];
      PayoutLedger(chain, s, start, front);
      StepKeepsInv(chain, RunOf(chain, s, front), tx.clock, tx.ins);
    }
  }

  // ---------------------------------------------------------------------------------------------
  // The vault
  // ---------------------------------------------------------------------------------------------

  function Donated(txs: seq<Transaction>): nat {
    if txs == [] then 0 else
      var tx := txs[|txs| - 1];
      Donated(txs[..|txs| - 1]) + if tx.ins.Donate? then tx.ins.lamports else 0
  }

  /** The vault moved by what was deposited, given, or paid to somebody else. */
  predicate Balanced(chain: Chain, s: State, t: State, given: nat) {
    t.vault + t.config.totalUnlocked + PaidToVault(chain, s.events) + s.config.totalLocked
    == s.vault + s.config.totalUnlocked + PaidToVault(chain, t.events) + t.config.totalLocked + given
  }

  lemma DepositsBalance(chain: Chain, s: State, clock: Clock, ins: Instruction)
    requires ins.Deposit? || ins.DepositSpl?
    ensures Balanced(chain, s, StepEffect(chain, s, clock, ins), 0)
  {
    var t := StepEffect(chain, s, clock, ins);
    assert t.events == s.events + [t.events[|s.events|]];
    Appended(chain, s.events, t.events[|s.events|]);
  }

  lemma UnlockBalances(chain: Chain, s: State, clock: Clock, p: UnlockParams)
    requires SettleError(s, clock.now, p.amount).None?
    ensures Balanced(chain, s, UnlockEffect(chain, s, clock, p), 0)
  {
    var t := UnlockEffect(chain, s, clock, p);
    if p.amount < s.config.largeWithdrawalThreshold {
      assert t.events == s.events + [t.events[|s.events|]];
      Appended(chain, s.events, t.events[|s.events|]);
    }
  }

  lemma ExecutionBalances(chain: Chain, s: State, clock: Clock, id: seq<byte>)
    requires id in s.unlocks && s.unlocks[id].amount <= s.vault
    ensures Balanced(chain, s, ExecuteScheduledUnlockEffect(chain, s, clock, id), 0)
  {
    var t := ExecuteScheduledUnlockEffect(chain, s, clock, id);
    assert t.events == s.events + [t.events[|s.events|]];
    Appended(chain, s.events, t.events[|s.events|]);
  }

  lemma AdministrativeBalances(chain: Chain, s: State, clock: Clock, ins: Instruction)
    requires Administrative(ins)
    ensures Balanced(chain, s, StepEffect(chain, s, clock, ins), if ins.Donate? then ins.lamports else 0)
  {
    hide StepEffect;
    AdministrativeFrame(chain, s, clock, ins);
  }

  /** What a payout or a deposit that is accepted does to the balance. */
  lemma MovementBalances(chain: Chain, s: State, clock: Clock, ins: Instruction)
    requires !Administrative(ins) && StepError(chain, s, clock, ins).None?
    ensures Balanced(chain, s, StepEffect(chain, s, clock, ins), 0)
  {
    hide StepError, Balanced, UnlockEffect, ExecuteScheduledUnlockEffect, DepositEffect, DepositSplEffect, UpdateConfigEffect,
         RegisterValidatorEffect, RemoveValidatorEffect, ProposeConfigChangeEffect, ExecuteConfigChangeEffect,
         UnlockRequestError, QuorumError, OutflowError, SettleError, DailyGuard;
    if ins.Unlock? {
      UnlockAccepted(chain, s, clock, ins);
      UnlockBalances(chain, s, clock, ins.unlock);
    } else if ins.ExecuteScheduledUnlock? {
      ExecutionAccepted(chain, s, clock, ins);
      ExecutionBalances(chain, s, clock, ins.record);
    } else {
      DepositsBalance(chain, s, clock, ins);
    }
  }

  lemma NothingBalances(chain: Chain, s: State)
    ensures Balanced(chain, s, s, 0)
  {
  }

  lemma DonationAccepted(chain: Chain, s: State, clock: Clock, ins: Instruction)
    requires ins.Donate?
    ensures StepError(chain, s, clock, ins).None?
  {
  }

  lemma VaultStep(chain: Chain, s: State, clock: Clock, ins: Instruction)
    ensures Balanced(chain, s, Apply(chain, s, clock, ins), if ins.Donate? then ins.lamports else 0)
  {
    hide StepError, StepEffect, Balanced;
    if StepError(chain, s, clock, ins).Some? {
      NothingBalances(chain, s);
      assert !ins.Donate? by {
        if ins.Donate? { DonationAccepted(chain, s, clock, ins); }
      }
    } else if Administrative(ins) {
      AdministrativeBalances(chain, s, clock, ins);
    } else {
      MovementBalances(chain, s, clock, ins);
    }
  }

  /**
   * Conservation over any run: what the vault holds and what was paid out is what it started with,
   * was given and took in deposits, except that a payout addressed to the vault itself moves nothing.
   */
  lemma {:induction false} VaultConservation(chain: Chain, s: State, start: int, txs: seq<Transaction>)
    requires Initial(s, start)
    ensures var t := RunOf(chain, s, txs);
      t.vault + t.config.totalUnlocked == s.vault + Donated(txs) + t.config.totalLocked + PaidToVault(chain, t.events)
  {
    hide Apply;
    if txs == [] {
    } else {
      var front, tx := txs[..|txs| - 1], txs[|txs| - 1];
      VaultConservation(chain, s, start, front);
      VaultStep(chain, RunOf(chain, s, front), tx.clock, tx.ins);
    }
  }

  // ---------------------------------------------------------------------------------------------
  // Scheduled withdrawals
  // ---------------------------------------------------------------------------------------------

  /** A record after some time: as it was, or executed if it had a schedule. */
  predicate SameOrExecuted(r: UnlockRecord, later: UnlockRecord) {
    later == r || (r.scheduledTime > 0 && later == r.(executed := true))
  }

  predicate KeepsRecords(s: State, t: State) {
    forall id :: id in s.unlocks ==> id in t.unlocks && SameOrExecuted(s.unlocks[id], t.unlocks[id])
  }

  lemma StepKeepsRecords(chain: Chain, s: State, clock: Clock, ins: Instruction)
    ensures KeepsRecords(s, Apply(chain, s, clock, ins))
  {
    hide StepError, Payable, UnlockEffect, ExecuteScheduledUnlockEffect, DepositEffect, DepositSplEffect, UpdateConfigEffect,
         RegisterValidatorEffect, RemoveValidatorEffect, ProposeConfigChangeEffect, ExecuteConfigChangeEffect;
    if StepError(chain, s, clock, ins).None? {
      if ins.Unlock? {
        UnlockIsNew(chain, s, clock, ins);
        UnlockKeepsRecords(chain, s, clock, ins.unlock);
      } else if ins.ExecuteScheduledUnlock? {
        ExecutionAccepted(chain, s, clock, ins);
        ExecutionKeepsRecords(chain, s, clock, ins.record);
      } else if Administrative(ins) {
        AdministrativeFrame(chain, s, clock, ins);
      } else {
        DepositsLeaveUnlocks(chain, s, clock, ins);
      }
    }
  }

  lemma DepositsLeaveUnlocks(chain: Chain, s: State, clock: Clock, ins: Instruction)
    requires ins.Deposit? || ins.DepositSpl?
    ensures StepEffect(chain, s, clock, ins).unlocks == s.unlocks
  {
    hide UnlockEffect, ExecuteScheduledUnlockEffect, UpdateConfigEffect, RegisterValidatorEffect, RemoveValidatorEffect,
         ProposeConfigChangeEffect, ExecuteConfigChangeEffect;
  }

  lemma UnlockKeepsRecords(chain: Chain, s: State, clock: Clock, p: UnlockParams)
    requires p.transferId !in s.unlocks
    ensures KeepsRecords(s, UnlockEffect(chain, s, clock, p))
  {
  }

  lemma ExecutionKeepsRecords(chain: Chain, s: State, clock: Clock, id: seq<byte>)
    requires Payable(s, clock, id)
    ensures KeepsRecords(s, ExecuteScheduledUnlockEffect(chain, s, clock, id))
  {
  }

  /** Records are never removed and never change, except that a scheduled one becomes executed. */
  lemma {:induction false} RecordsKept(chain: Chain, s: State, txs: seq<Transaction>, k: nat)
    requires k <= |txs|
    ensures KeepsRecords(RunOf(chain, s, txs[..k]), RunOf(chain, s, txs))
  {
    hide Apply;
    if k == |txs| {
      assert txs[..k] == txs;
    } else {
      var front, tx := txs[..|txs| - 1], txs[|txs| - 1];
      assert front[..k] == txs[..k];
      RecordsKept(chain, s, front, k);
      StepKeepsRecords(chain, RunOf(chain, s, front), tx.clock, tx.ins);
    }
  }

  /** What an accepted large unlock leaves behind. */
  lemma ScheduledRecord(chain: Chain, s: State, clock: Clock, p: UnlockParams)
    requires p.amount >= s.config.largeWithdrawalThreshold
    ensures var t := UnlockEffect(chain, s, clock, p);
      p.transferId in t.unlocks
      && t.unlocks[p.transferId] == UnlockRecord(p.transferId, p.recipient, p.amount, clock.now, p.burnTxHash, false,
                                                 clock.now + s.config.largeWithdrawalDelay)
  {
  }

  /**
   * A withdrawal accepted at position k for at least the threshold then in force is paid, if ever,
   * with the accepted amount and recipient, and no sooner than the delay then in force after it.
   */
  lemma ScheduledNotBeforeDelay(chain: Chain, s: State, start: int, txs: seq<Transaction>, k: nat, e: Event)
    requires Initial(s, start)
    requires k < |txs| && AcceptedAt(chain, s, txs, k) && txs[k].ins.Unlock?
    requires txs[k].ins.unlock.amount >= RunOf(chain, s, txs[..k]).config.largeWithdrawalThreshold
    requires e in RunOf(chain, s, txs).events && IsPayout(e) && e.transferId == txs[k].ins.unlock.transferId
    ensures e.timestamp >= txs[k].clock.now + RunOf(chain, s, txs[..k]).config.largeWithdrawalDelay
    ensures e.amount == txs[k].ins.unlock.amount && e.recipient == txs[k].ins.unlock.recipient
  {
    hide RunOf, PayoutInv, StepError, UnlockEffect, ExecuteScheduledUnlockEffect, DepositEffect, DepositSplEffect,
         UpdateConfigEffect, RegisterValidatorEffect, RemoveValidatorEffect, ProposeConfigChangeEffect,
         ExecuteConfigChangeEffect;
    var before, after, p := RunOf(chain, s, txs[..k]), RunOf(chain, s, txs), txs[k].ins.unlock;
    AcceptedStep(chain, s, txs, k);
    ScheduledRecord(chain, before, txs[k].clock, p);
    RecordsKept(chain, s, txs, k + 1);
    PayoutLedger(chain, s, start, txs);
    PayoutMatches(after, e);
  }

  lemma PayoutMatches(s: State, e: Event)
    requires PayoutInv(s) && e in s.events && IsPayout(e)
    ensures Matches(s.unlocks, e)
  {
  }
}
