/** Deposit nonces and ids: gap-free per sender, globally counted, never reused. */
module LockDeposits {
  import opened Bytes
  import opened LockState
  import opened LockSpec
  import opened LockGuards
  import opened LockRuns
  import opened Sums

  /** Distinct (sender, nonce) pairs have distinct ids. */
  lemma TransferIdInjective(chain: Chain, a: Pubkey, m: nat, b: Pubkey, n: nat)
    requires Injective(chain.hash) && m <= MAX_U64 && n <= MAX_U64
    requires TransferId(chain, a, m) == TransferId(chain, b, n)
    ensures a == b && m == n
  {
    var x, y := a + ToLE(8, m), b + ToLE(8, n);
    assert x == y;
    assert a == x[..32] == y[..32] == b;
    assert ToLE(8, m) == x[32..] == y[32..] == ToLE(8, n);
    Pow256Values();
    LEInjective(8, m, n);
  }

  function NonceOf(u: UserState): nat { u.nextNonce }

  /** The sum of the amounts recorded under `sender`'s nonces below n. */
  function DepositedBy(chain: Chain, deposits: map<seq<byte>, DepositRecord>, sender: Pubkey, n: nat): nat {
    if n == 0 then 0 else
      var id := TransferId(chain, sender, n - 1);
      DepositedBy(chain, deposits, sender, n - 1) + if id in deposits then deposits[id].amount else 0
  }

  type UserMap = map<Pubkey, UserState>
  type DepositMap = map<seq<byte>, DepositRecord>

  /** Every nonce a sender has used has its record. */
  ghost predicate NoGaps(chain: Chain, users: UserMap, deposits: DepositMap) {
    forall u, n: nat :: u in users && n < users[u].nextNonce ==>
      var id := TransferId(chain, u, n);
      id in deposits && deposits[id].sender == u && deposits[id].nonce == n
  }

  /** Every record carries a used nonce of its sender, and the id made from them. */
  ghost predicate NoStrays(chain: Chain, users: UserMap, deposits: DepositMap) {
    forall id :: id in deposits ==>
      var d := deposits[id];
      d.transferId == id && d.sender in users && d.nonce < users[d.sender].nextNonce
      && id == TransferId(chain, d.sender, d.nonce)
  }

  /** Each account holds its own key, has deposited at least once, and totals its recorded amounts. */
  ghost predicate AccountsTotal(chain: Chain, users: UserMap, deposits: DepositMap) {
    forall u :: u in users ==>
      && users[u].user == u
      && 1 <= users[u].nextNonce <= MAX_U64
      && users[u].totalDeposited == DepositedBy(chain, deposits, u, users[u].nextNonce)
  }

  ghost predicate Counted(users: UserMap, deposits: DepositMap, globalNonce: nat) {
    globalNonce == |deposits| == SumOver(users, NonceOf)
  }

  ghost predicate DepositInv(chain: Chain, s: State) {
    && NoGaps(chain, s.users, s.deposits)
    && NoStrays(chain, s.users, s.deposits)
    && AccountsTotal(chain, s.users, s.deposits)
    && Counted(s.users, s.deposits, s.config.globalNonce)
  }

  /** A sender's sum does not see a record with another id. */
  lemma {:induction false} DepositedByFrame(chain: Chain, deposits: map<seq<byte>, DepositRecord>, id: seq<byte>,
                                            d: DepositRecord, sender: Pubkey, n: nat)
    requires forall k: nat :: k < n ==> TransferId(chain, sender, k) != id
    ensures DepositedBy(chain, deposits[id := d], sender, n) == DepositedBy(chain, deposits, sender, n)
  {
    if n == 0 {
    } else {
      DepositedByFrame(chain, deposits, id, d, sender, n - 1);
    }
  }

  /**
   * The id a sender is expected to use next is free, so the id check and the record creation never
   * contradict each other. The one exception is the all-zero key, whose account the handler takes
   * for a new one each time: its second deposit is refused for good.
   */
  lemma NextIdUnused(chain: Chain, s: State, sender: Pubkey)
    requires Injective(chain.hash) && DepositInv(chain, s)
    ensures TransferId(chain, sender, SenderState(s, sender).nextNonce) in s.deposits
       <==> sender == DEFAULT_KEY && sender in s.users
  {
    var next := SenderState(s, sender).nextNonce;
    var id := TransferId(chain, sender, next);
    if id in s.deposits {
      var d := s.deposits[id];
      TransferIdInjective(chain, sender, next, d.sender, d.nonce);
    }
    if sender == DEFAULT_KEY && sender in s.users {
      assert 0 < s.users[sender].nextNonce;
      assert TransferId(chain, sender, 0) in s.deposits;
    }
  }

  /** An accepted deposit uses a new id and, for a known sender, that sender's account as stored. */
  lemma FreshDeposit(chain: Chain, s: State, sender: Pubkey, p: DepositParams)
    requires Injective(chain.hash) && DepositInv(chain, s) && DepositGuards(chain, s, sender, p).None?
    ensures p.transferId !in s.deposits
    ensures p.transferId == TransferId(chain, sender, SenderState(s, sender).nextNonce)
    ensures sender in s.users ==> SenderState(s, sender) == s.users[sender]
    ensures SenderState(s, sender).user == sender
    ensures forall u, k: nat :: u in s.users && k < s.users[u].nextNonce ==> TransferId(chain, u, k) != p.transferId
  {
    NextIdUnused(chain, s, sender);
  }

  /** A sender's account and record after one more deposit. */
  ghost predicate OneMore(chain: Chain, users: UserMap, deposits: DepositMap, user: UserState, d: DepositRecord) {
    && d.nonce == (if d.sender in users then users[d.sender].nextNonce else 0)
    && d.transferId == TransferId(chain, d.sender, d.nonce)
    && d.transferId !in deposits
    && user.user == d.sender
    && user.nextNonce == d.nonce + 1 <= MAX_U64
    && user.totalDeposited == (if d.sender in users then users[d.sender].totalDeposited else 0) + d.amount
  }

  lemma OneMoreKeepsRecords(chain: Chain, users: UserMap, deposits: DepositMap, user: UserState, d: DepositRecord)
    requires NoGaps(chain, users, deposits) && NoStrays(chain, users, deposits)
    requires OneMore(chain, users, deposits, user, d)
    ensures NoGaps(chain, users[d.sender := user], deposits[d.transferId := d])
    ensures NoStrays(chain, users[d.sender := user], deposits[d.transferId := d])
  {
    hide NoGaps, NoStrays, TransferId;
    OneMoreLeavesNoGap(chain, users, deposits, user, d);
    OneMoreIsNoStray(chain, users, deposits, user, d);
  }

  lemma OneMoreLeavesNoGap(chain: Chain, users: UserMap, deposits: DepositMap, user: UserState, d: DepositRecord)
    requires NoGaps(chain, users, deposits) && OneMore(chain, users, deposits, user, d)
    ensures NoGaps(chain, users[d.sender := user], deposits[d.transferId := d])
  {
    hide TransferId;
  }

  lemma OneMoreIsNoStray(chain: Chain, users: UserMap, deposits: DepositMap, user: UserState, d: DepositRecord)
    requires NoStrays(chain, users, deposits) && OneMore(chain, users, deposits, user, d)
    ensures NoStrays(chain, users[d.sender := user], deposits[d.transferId := d])
  {
    hide TransferId;
  }

  lemma OneMoreKeepsTotals(chain: Chain, users: UserMap, deposits: DepositMap, user: UserState, d: DepositRecord)
    requires NoGaps(chain, users, deposits) && AccountsTotal(chain, users, deposits)
    requires OneMore(chain, users, deposits, user, d)
    ensures AccountsTotal(chain, users[d.sender := user], deposits[d.transferId := d])
  {
    forall u | u in users || u == d.sender
      ensures var n := if u in users then users[u].nextNonce else 0;
        DepositedBy(chain, deposits[d.transferId := d], u, n) == if u in users then users[u].totalDeposited else 0
    {
      var n := if u in users then users[u].nextNonce else 0;
      DepositedByFrame(chain, deposits, d.transferId, d, u, n);
    }
  }

  lemma OneMoreKeepsCounts(chain: Chain, users: UserMap, deposits: DepositMap, globalNonce: nat, user: UserState, d: DepositRecord)
    requires Counted(users, deposits, globalNonce)
    requires OneMore(chain, users, deposits, user, d)
    ensures Counted(users[d.sender := user], deposits[d.transferId := d], globalNonce + 1)
  {
    if d.sender in users {
      SumUpdate(users, NonceOf, d.sender, user);
    } else {
      SumInsert(users, NonceOf, d.sender, user);
    }
  }

  /** What both deposit instructions do keeps the ledger. */
  lemma RecordedKeepsInv(chain: Chain, s: State, clock: Clock, sender: Pubkey, p: DepositParams)
    requires Injective(chain.hash) && DepositInv(chain, s)
    requires DepositGuards(chain, s, sender, p).None? && CounterGuards(s, sender, p).None?
    ensures DepositInv(chain, Recorded(s, clock, sender, p))
  {
    hide NoGaps, NoStrays, AccountsTotal, Counted, TransferId, DepositGuards;
    FreshDeposit(chain, s, sender, p);
    var t := Recorded(s, clock, sender, p);
    var user, d := t.users[sender], t.deposits[p.transferId];
    OneMoreKeepsRecords(chain, s.users, s.deposits, user, d);
    OneMoreKeepsTotals(chain, s.users, s.deposits, user, d);
    OneMoreKeepsCounts(chain, s.users, s.deposits, s.config.globalNonce, user, d);
  }

  /** The other instructions touch neither accounts nor records. */
  lemma OthersLeaveDeposits(chain: Chain, s: State, clock: Clock, ins: Instruction)
    requires !ins.Deposit? && !ins.DepositSpl?
    ensures var t := StepEffect(chain, s, clock, ins);
      t.users == s.users && t.deposits == s.deposits && t.config.globalNonce == s.config.globalNonce
  {
    hide DepositEffect, DepositSplEffect, Paid, FromLE;
  }

  /** The ledger depends on the accounts, the records and their count only. */
  predicate SameLedger(s: State, t: State) {
    t.users == s.users && t.deposits == s.deposits && t.config.globalNonce == s.config.globalNonce
  }

  lemma SameLedgerKeepsInv(chain: Chain, s: State, t: State)
    requires DepositInv(chain, s) && SameLedger(s, t)
    ensures DepositInv(chain, t)
  {
    hide NoGaps, NoStrays, AccountsTotal, Counted;
  }

  lemma DepositsRecord(chain: Chain, s: State, clock: Clock, ins: Instruction)
    requires ins.Deposit? || ins.DepositSpl?
    ensures SameLedger(Recorded(s, clock, ins.sender, ins.deposit), StepEffect(chain, s, clock, ins))
  {
    hide UnlockEffect, ExecuteScheduledUnlockEffect, UpdateConfigEffect, RegisterValidatorEffect, RemoveValidatorEffect,
         ProposeConfigChangeEffect, ExecuteConfigChangeEffect, ToLE;
  }

  lemma StepKeepsInv(chain: Chain, s: State, clock: Clock, ins: Instruction)
    requires Injective(chain.hash) && DepositInv(chain, s)
    ensures DepositInv(chain, Apply(chain, s, clock, ins))
  {
    hide DepositInv, Recorded, DepositGuards, CounterGuards, StepError, StepEffect;
    if StepError(chain, s, clock, ins).None? {
      if ins.Deposit? || ins.DepositSpl? {
        DepositAccepted(chain, s, clock, ins);
        RecordedKeepsInv(chain, s, clock, ins.sender, ins.deposit);
        DepositsRecord(chain, s, clock, ins);
        SameLedgerKeepsInv(chain, Recorded(s, clock, ins.sender, ins.deposit), StepEffect(chain, s, clock, ins));
      } else {
        OthersLeaveDeposits(chain, s, clock, ins);
        SameLedgerKeepsInv(chain, s, StepEffect(chain, s, clock, ins));
      }
    }
  }

  /** Gap-free nonces in every reachable state, whatever mix of native and SPL deposits led to it. */
  lemma {:induction false} GapFreeNonces(chain: Chain, s: State, now: int, txs: seq<Transaction>)
    requires Injective(chain.hash) && Initial(s, now)
    ensures DepositInv(chain, RunOf(chain, s, txs))
  {
    hide Apply;
    if txs == [] {
    } else {
      var tx := txs[|txs| - 1];
      GapFreeNonces(chain, s, now, txs[..|txs| - 1]);
      StepKeepsInv(chain, RunOf(chain, s, txs[..|txs| - 1]), tx.clock, tx.ins);
    }
  }
}
