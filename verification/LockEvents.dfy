/** The lock program's log of events against its records: what validators and indexers may rely on. */
module LockEvents {
  import opened Bytes
  import opened LockState
  import opened LockSpec
  import opened LockRuns
  import LockDeposits
  import LockPayouts

  /** No two deposits, native or not, have the same id. */
  predicate DepositIdsOnce(events: seq<Event>) {
    forall i, j :: 0 <= i < j < |events| && LockPayouts.IsDeposit(events[i]) && LockPayouts.IsDeposit(events[j]) ==>
      events[i].transferId != events[j].transferId
  }

  /** A deposit event and a record tell the same deposit. */
  predicate Tells(e: Event, d: DepositRecord)
    requires LockPayouts.IsDeposit(e)
  {
    && e.transferId == d.transferId && e.sender == d.sender && e.recipientDcc == d.recipientDcc && e.amount == d.amount
    && e.nonce == d.nonce && e.slot == d.slot && e.timestamp == d.timestamp
  }

  predicate EventsRecorded(deposits: map<seq<byte>, DepositRecord>, events: seq<Event>) {
    forall i :: 0 <= i < |events| && LockPayouts.IsDeposit(events[i]) ==>
      events[i].transferId in deposits && Tells(events[i], deposits[events[i].transferId])
  }

  predicate HasDepositEvent(events: seq<Event>, id: seq<byte>) {
    exists i :: 0 <= i < |events| && LockPayouts.IsDeposit(events[i]) && events[i].transferId == id
  }

  predicate RecordsLogged(deposits: map<seq<byte>, DepositRecord>, events: seq<Event>) {
    forall id :: id in deposits ==> HasDepositEvent(events, id)
  }

  /** Deposit events and deposit records are the same deposits, each once. */
  predicate DepositLog(deposits: map<seq<byte>, DepositRecord>, events: seq<Event>) {
    DepositIdsOnce(events) && EventsRecorded(deposits, events) && RecordsLogged(deposits, events)
  }

  lemma OneDepositLogged(deposits: map<seq<byte>, DepositRecord>, events: seq<Event>, e: Event, d: DepositRecord)
    requires DepositLog(deposits, events) && LockPayouts.IsDeposit(e) && Tells(e, d) && d.transferId !in deposits
    ensures DepositLog(deposits[d.transferId := d], events + [e])
  {
    hide Tells;
    TellsId(e, d);
    var all := events + [e];
    assert all[|events|] == e;
    forall id | id in deposits[d.transferId := d] ensures HasDepositEvent(all, id) {
      if id in deposits {
        EventStays(events, e, id);
      } else {
        assert LockPayouts.IsDeposit(all[|events|]) && all[|events|].transferId == id;
      }
    }
  }

  lemma TellsId(e: Event, d: DepositRecord)
    requires LockPayouts.IsDeposit(e) && Tells(e, d)
    ensures e.transferId == d.transferId
  {
  }

  lemma EventStays(events: seq<Event>, e: Event, id: seq<byte>)
    requires HasDepositEvent(events, id)
    ensures HasDepositEvent(events + [e], id)
  {
    var i :| 0 <= i < |events| && LockPayouts.IsDeposit(events[i]) && events[i].transferId == id;
    assert (events + [e])[i] == events[i];
  }

  lemma OnePayoutLogged(deposits: map<seq<byte>, DepositRecord>, events: seq<Event>, e: Event)
    requires DepositLog(deposits, events) && LockPayouts.IsPayout(e)
    ensures DepositLog(deposits, events + [e])
  {
    hide Tells;
    forall id | id in deposits ensures HasDepositEvent(events + [e], id) {
      EventStays(events, e, id);
    }
  }

  lemma OtherEvents(chain: Chain, s: State, clock: Clock, ins: Instruction)
    requires !ins.Deposit? && !ins.DepositSpl?
    ensures var t := StepEffect(chain, s, clock, ins);
      t.events == s.events || (|t.events| > 0 && t.events == s.events + [t.events[|t.events| - 1]]
                               && LockPayouts.IsPayout(t.events[|t.events| - 1]))
  {
    if LockPayouts.Administrative(ins) {
      LockPayouts.AdministrativeFrame(chain, s, clock, ins);
    }
  }

  lemma DepositEvent(chain: Chain, s: State, clock: Clock, ins: Instruction)
    requires ins.Deposit? || ins.DepositSpl?
    ensures var t, id := StepEffect(chain, s, clock, ins), ins.deposit.transferId;
      && |t.events| > 0 && t.events == s.events + [t.events[|t.events| - 1]]
      && id in t.deposits && t.deposits == s.deposits[id := t.deposits[id]] && t.deposits[id].transferId == id
      && LockPayouts.IsDeposit(t.events[|t.events| - 1]) && Tells(t.events[|t.events| - 1], t.deposits[id])
  {
  }

  /** Events are only ever appended. */
  lemma EventsGrow(chain: Chain, s: State, clock: Clock, ins: Instruction)
    ensures s.events <= Apply(chain, s, clock, ins).events
  {
    hide StepError, StepEffect;
    if ins.Deposit? || ins.DepositSpl? {
      DepositEvent(chain, s, clock, ins);
    } else {
      OtherEvents(chain, s, clock, ins);
    }
  }

  lemma StepKeepsLog(chain: Chain, s: State, clock: Clock, ins: Instruction)
    requires Injective(chain.hash) && LockDeposits.DepositInv(chain, s) && DepositLog(s.deposits, s.events)
    ensures var t := Apply(chain, s, clock, ins); DepositLog(t.deposits, t.events)
  {
    hide StepError, StepEffect, LockDeposits.DepositInv, DepositLog, Tells;
    if StepError(chain, s, clock, ins).None? {
      var t := StepEffect(chain, s, clock, ins);
      if ins.Deposit? || ins.DepositSpl? {
        AcceptedDepositIsNew(chain, s, clock, ins);
        DepositEvent(chain, s, clock, ins);
        OneDepositLogged(s.deposits, s.events, t.events[|t.events| - 1], t.deposits[ins.deposit.transferId]);
      } else {
        LockDeposits.OthersLeaveDeposits(chain, s, clock, ins);
        OtherEvents(chain, s, clock, ins);
        if t.events != s.events {
          OnePayoutLogged(s.deposits, s.events, t.events[|t.events| - 1]);
        }
      }
    }
  }

  lemma AcceptedDepositIsNew(chain: Chain, s: State, clock: Clock, ins: Instruction)
    requires Injective(chain.hash) && LockDeposits.DepositInv(chain, s)
    requires (ins.Deposit? || ins.DepositSpl?) && StepError(chain, s, clock, ins).None?
    ensures ins.deposit.transferId !in s.deposits
  {
    hide LockDeposits.DepositInv;
    LockDeposits.FreshDeposit(chain, s, ins.sender, ins.deposit);
  }

  /**
   * In every reachable state the deposit events are exactly the deposit records, field by field, and
   * no id was emitted twice.
   */
  lemma {:induction false} DepositsLogged(chain: Chain, s: State, start: int, txs: seq<Transaction>)
    requires Injective(chain.hash) && Initial(s, start)
    ensures var t := RunOf(chain, s, txs); DepositLog(t.deposits, t.events)
  {
    hide Apply, Tells;
    if txs != [] {
      var front, tx := txs[..|txs| - 1], txs[|txs| - 1];
      DepositsLogged(chain, s, start, front);
      LockDeposits.GapFreeNonces(chain, s, start, front);
      StepKeepsLog(chain, RunOf(chain, s, front), tx.clock, tx.ins);
    }
  }
}
