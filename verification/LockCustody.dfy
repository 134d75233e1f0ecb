/** How lamports leave the vault: only for an attested unlock, and not at all while the bridge is paused. */
module LockCustody {
  import opened Bytes
  import opened LockAcceptance
  import opened LockState
  import opened LockSpec
  import opened LockGuards
  import opened LockRuns
  import Ed25519
  import LockPayouts
  import LockQuorum

  /** The part of an unlock record that never changes. */
  predicate SameOrder(r: UnlockRecord, amount: nat, recipient: Pubkey) { r.amount == amount && r.recipient == recipient }

  lemma UnlockRecords(chain: Chain, s: State, clock: Clock, p: UnlockParams, id: seq<byte>)
    requires id in UnlockEffect(chain, s, clock, p).unlocks
    ensures var r := UnlockEffect(chain, s, clock, p).unlocks[id];
      (id in s.unlocks && r == s.unlocks[id]) || (id == p.transferId && SameOrder(r, p.amount, p.recipient))
  {
    hide RolledConfig, Paid;
  }

  lemma ExecutionRecords(chain: Chain, s: State, clock: Clock, record: seq<byte>, id: seq<byte>)
    requires id in ExecuteScheduledUnlockEffect(chain, s, clock, record).unlocks
    ensures id in s.unlocks
    ensures SameOrder(ExecuteScheduledUnlockEffect(chain, s, clock, record).unlocks[id], s.unlocks[id].amount,
                      s.unlocks[id].recipient)
  {
    hide Paid;
  }

  /** After a transaction an unlock record was there before, for the same order, or an accepted unlock made it. */
  lemma UnlocksAfter(chain: Chain, s: State, clock: Clock, ins: Instruction, id: seq<byte>)
    requires id in Apply(chain, s, clock, ins).unlocks
    ensures var r := Apply(chain, s, clock, ins).unlocks[id];
      || (id in s.unlocks && SameOrder(r, s.unlocks[id].amount, s.unlocks[id].recipient))
      || (StepError(chain, s, clock, ins).None? && ins.Unlock? && ins.unlock.transferId == id
          && SameOrder(r, ins.unlock.amount, ins.unlock.recipient))
  {
    hide StepError, UnlockEffect, ExecuteScheduledUnlockEffect, DepositEffect, DepositSplEffect, UpdateConfigEffect,
         RegisterValidatorEffect, RemoveValidatorEffect, ProposeConfigChangeEffect, ExecuteConfigChangeEffect;
    if StepError(chain, s, clock, ins).None? {
      if ins.Unlock? {
        UnlockRecords(chain, s, clock, ins.unlock, id);
      } else if ins.ExecuteScheduledUnlock? {
        ExecutionRecords(chain, s, clock, ins.record, id);
      } else if LockPayouts.Administrative(ins) {
        LockPayouts.AdministrativeFrame(chain, s, clock, ins);
      } else {
        LockPayouts.DepositsLeaveUnlocks(chain, s, clock, ins);
      }
    }
  }

  /** Transaction k is an accepted unlock of this order. */
  predicate Ordered(chain: Chain, s: State, txs: seq<Transaction>, k: nat, id: seq<byte>, r: UnlockRecord) {
    && k < |txs| && AcceptedAt(chain, s, txs, k) && txs[k].ins.Unlock? && txs[k].ins.unlock.transferId == id
    && SameOrder(r, txs[k].ins.unlock.amount, txs[k].ins.unlock.recipient)
  }

  lemma OrderedEarlier(chain: Chain, s: State, txs: seq<Transaction>, k: nat, id: seq<byte>, r: UnlockRecord, later: UnlockRecord)
    requires txs != [] && Ordered(chain, s, txs[..|txs| - 1], k, id, r) && SameOrder(later, r.amount, r.recipient)
    ensures Ordered(chain, s, txs, k, id, later)
  {
    hide StepError, RunOf;
    assert txs[..|txs| - 1][..k] == txs[..k];
  }

  /** Every unlock record goes back to an accepted unlock. */
  lemma {:induction false} RecordOrigin(chain: Chain, s: State, start: int, txs: seq<Transaction>, id: seq<byte>) returns (k: nat)
    requires Initial(s, start) && id in RunOf(chain, s, txs).unlocks
    ensures Ordered(chain, s, txs, k, id, RunOf(chain, s, txs).unlocks[id])
  {
    hide Apply, StepError;
    var front, tx := txs[..|txs| - 1], txs[|txs| - 1];
    var before, r := RunOf(chain, s, front), RunOf(chain, s, txs).unlocks[id];
    UnlocksAfter(chain, before, tx.clock, tx.ins, id);
    if id in before.unlocks && SameOrder(r, before.unlocks[id].amount, before.unlocks[id].recipient) {
      k := RecordOrigin(chain, s, start, front, id);
      OrderedEarlier(chain, s, txs, k, id, before.unlocks[id], r);
    } else {
      k := |txs| - 1;
      assert txs[..k] == front;
    }
  }

  /**
   * Lamports leave the vault only for an attested unlock: behind every payout of a run, at once or
   * delayed, stands an accepted unlock of that id, amount and recipient, in time, for this chain and
   * within the limit of its moment, whose quorum of pairwise distinct validators signed the message of
   * just those parameters.
   */
  lemma EveryPayoutAttested(chain: Chain, s: State, start: int, txs: seq<Transaction>, e: Event,
                            verifies: (seq<byte>, seq<byte>, seq<byte>) -> bool) returns (k: nat)
    requires Initial(s, start) && e in RunOf(chain, s, txs).events && LockPayouts.IsPayout(e)
    requires forall i :: 0 <= i < |txs| && txs[i].ins.Unlock? ==> Ed25519.PrecompilePassed(txs[i].ins.preceding, verifies)
    ensures k < |txs| && AcceptedAt(chain, s, txs, k) && txs[k].ins.Unlock?
    ensures var p, before := txs[k].ins.unlock, RunOf(chain, s, txs[..k]);
      && p.transferId == e.transferId && p.amount == e.amount && p.recipient == e.recipient == txs[k].ins.recipient
      && txs[k].clock.now < p.expiration && p.dccChainId == before.config.dccChainId
      && p.amount <= before.config.maxUnlockAmount && !before.config.paused
      && LockQuorum.QuorumMet(before, p.attestations, MessageOf(p), txs[k].ins.remaining, verifies)
  {
    hide RunOf, StepError, MessageOf, QuorumInOrder, DailyRoom, HourlyRoom, Settles, LockQuorum.QuorumMet;
    var t := RunOf(chain, s, txs);
    LockPayouts.PayoutLedger(chain, s, start, txs);
    LockPayouts.PayoutMatches(t, e);
    k := RecordOrigin(chain, s, start, txs, e.transferId);
    UnlockExactly(chain, RunOf(chain, s, txs[..k]), txs[k].clock, txs[k].ins);
    LockQuorum.AcceptedUnlockHasQuorum(chain, s, start, txs, k, verifies);
  }

  // ---------------------------------------------------------------------------------------------
  // Pause
  // ---------------------------------------------------------------------------------------------

  predicate Moves(ins: Instruction) { ins.Deposit? || ins.DepositSpl? || ins.Unlock? || ins.ExecuteScheduledUnlock? }

  lemma PausedRefusesDeposits(chain: Chain, s: State, sender: Pubkey, p: DepositParams)
    requires s.config.paused
    ensures DepositGuards(chain, s, sender, p).Some?
  {
    hide TransferId, SenderState;
  }

  lemma PausedRefuses(chain: Chain, s: State, clock: Clock, ins: Instruction)
    requires s.config.paused && Moves(ins)
    ensures StepError(chain, s, clock, ins).Some?
  {
    hide StepError, DepositGuards, CounterGuards, DailyGuard;
    if StepError(chain, s, clock, ins).None? {
      if ins.Unlock? {
        UnlockIsNew(chain, s, clock, ins);
      } else if ins.ExecuteScheduledUnlock? {
        ExecutionAccepted(chain, s, clock, ins);
      } else {
        DepositAccepted(chain, s, clock, ins);
        PausedRefusesDeposits(chain, s, ins.sender, ins.deposit);
      }
    }
  }

  /** What stands still while the bridge is paused; the vault can only be given more. */
  predicate StandsStill(s: State, t: State, given: nat) {
    && t.config.paused && t.deposits == s.deposits && t.users == s.users && t.unlocks == s.unlocks && t.events == s.events
    && t.vault == s.vault + given
  }

  lemma PausedStep(chain: Chain, s: State, clock: Clock, ins: Instruction)
    requires s.config.paused && !ins.EmergencyResume?
    ensures StandsStill(s, Apply(chain, s, clock, ins), if ins.Donate? then ins.lamports else 0)
  {
    if Moves(ins) {
      hide StepError, StepEffect;
      PausedRefuses(chain, s, clock, ins);
    } else {
      OthersStandStill(chain, s, clock, ins);
    }
  }

  lemma OthersStandStill(chain: Chain, s: State, clock: Clock, ins: Instruction)
    requires s.config.paused && !ins.EmergencyResume? && !Moves(ins)
    ensures StandsStill(s, Apply(chain, s, clock, ins), if ins.Donate? then ins.lamports else 0)
  {
    hide StepError;
    if ins.Donate? {
      LockPayouts.DonationAccepted(chain, s, clock, ins);
    }
  }

  /** A pause halts all deposits and all payouts, from any state, until a resume. */
  lemma {:induction false} PauseHalts(chain: Chain, s: State, txs: seq<Transaction>)
    requires s.config.paused && forall i :: 0 <= i < |txs| ==> !txs[i].ins.EmergencyResume?
    ensures StandsStill(s, RunOf(chain, s, txs), LockPayouts.Donated(txs))
  {
    hide Apply;
    if txs != [] {
      var front, tx := txs[..|txs| - 1], txs[|txs| - 1];
      PauseHalts(chain, s, front);
      PausedStep(chain, RunOf(chain, s, front), tx.clock, tx.ins);
    }
  }
}
