/** The admin and guardian timelock of the controller. */
module ControllerHandovers {
  import opened Options
  import opened ControllerFrames
  import opened ControllerState

  datatype Role = TheAdmin | TheGuardian

  function Holder(c: Controller, role: Role): string { if role.TheAdmin? then c.admin else c.guardian }

  function Proposed(c: Controller, role: Role): Option<Handover> {
    if role.TheAdmin? then c.adminTransfer else c.guardianTransfer
  }

  predicate Proposes(call: Call, role: Role, to: string) {
    call == (if role.TheAdmin? then ProposeAdminTransfer(to) else ProposeGuardianTransfer(to))
  }

  predicate Executes(call: Call, role: Role) {
    if role.TheAdmin? then call.ExecuteAdminTransfer? else call.ExecuteGuardianTransfer?
  }

  predicate Accepted(rt: Runtime, txs: seq<Transaction>, k: nat)
    requires k < |txs|
  {
    var w := RunOf(rt, txs[..k]);
    w.Live? && LiveStep(rt, w.c, txs[k].inv, txs[k].call).Done?
  }

  /** The proposal now standing was made by the admin at position j and has stood untouched since. */
  predicate ProposedAt(rt: Runtime, txs: seq<Transaction>, role: Role, h: Handover, j: nat) {
    && j < |txs| && Accepted(rt, txs, j)
    && Proposes(txs[j].call, role, h.to) && h.height == txs[j].inv.height
    && CallerText(txs[j].inv) == RunOf(rt, txs[..j]).c.admin
    && forall i :: j < i <= |txs| ==> RunOf(rt, txs[..i]).Live? && Proposed(RunOf(rt, txs[..i]).c, role) == Some(h)
  }

  predicate RolesKept(c: Controller, d: Controller) {
    && d.admin == c.admin && d.guardian == c.guardian
    && d.adminTransfer == c.adminTransfer && d.guardianTransfer == c.guardianTransfer
  }

  predicate Registers(call: Call) {
    call.BurnToken? || call.Burn? || call.RegisterToken? || call.RegisterValidator? || call.RemoveValidator?
  }

  lemma RegistersKeepRoles(rt: Runtime, c: Controller, inv: Invocation, call: Call)
    requires NATIVE_SOL_MINT in c.tokens && Registers(call) && LiveStep(rt, c, inv, call).Done?
    ensures RolesKept(c, LiveStep(rt, c, inv, call).c)
  {
    hide DivisorFor, BurnId;
  }

  /** What one accepted call does to a role and its proposal. */
  lemma HandoverStep(rt: Runtime, c: Controller, inv: Invocation, call: Call, role: Role)
    requires NATIVE_SOL_MINT in c.tokens && LiveStep(rt, c, inv, call).Done?
    ensures var d := LiveStep(rt, c, inv, call).c;
      && (Holder(d, role) != Holder(c, role) ==>
            Executes(call, role) && HandoverDue(Proposed(c, role), inv.height) && Holder(d, role) == Proposed(c, role).value.to)
      && (Proposed(d, role) == Proposed(c, role)
          || Proposed(d, role) == None
          || (CallerText(inv) == c.admin && Proposed(d, role).Some?
              && Proposes(call, role, Proposed(d, role).value.to) && Proposed(d, role).value.height == inv.height))
  {
    hide DoMintToken, DoMint, DoExecutePendingMint, DoBurnToken, DoBurn, DoRegisterToken, DoRegisterValidator, DoRemoveValidator;
    if Mints(call) {
      MintsKeepSettings(rt, c, inv, call);
    } else if Registers(call) {
      RegistersKeepRoles(rt, c, inv, call);
    }
  }

  /** Every proposal that stands has its origin. */
  lemma {:induction false} ProposalOrigin(rt: Runtime, txs: seq<Transaction>, role: Role) returns (j: nat)
    requires RunOf(rt, txs).Live? && Proposed(RunOf(rt, txs).c, role).Some?
    ensures ProposedAt(rt, txs, role, Proposed(RunOf(rt, txs).c, role).value, j)
  {
    hide LiveStep, Proposes;
    var front, tx := txs[..|txs| - 1], txs[|txs| - 1];
    var w, h := RunOf(rt, front), Proposed(RunOf(rt, txs).c, role).value;
    assert txs[..|txs|] == txs;
    if w.Live? && LiveStep(rt, w.c, tx.inv, tx.call).Done? {
      HandoverStep(rt, w.c, tx.inv, tx.call, role);
    }
    if w.Live? && Proposed(w.c, role) == Some(h) {
      j := ProposalOrigin(rt, front, role);
      OriginKept(rt, txs, role, h, j);
    } else {
      j := |txs| - 1;
      assert w.Live? by { if w.Fresh? { FirstHasNoProposals(rt, txs, role); } }
    }
  }

  lemma FirstHasNoProposals(rt: Runtime, txs: seq<Transaction>, role: Role)
    requires txs != [] && RunOf(rt, txs).Live? && RunOf(rt, txs[..|txs| - 1]).Fresh?
    ensures Proposed(RunOf(rt, txs).c, role) == None
  {
  }

  lemma OriginKept(rt: Runtime, txs: seq<Transaction>, role: Role, h: Handover, j: nat)
    requires txs != [] && ProposedAt(rt, txs[..|txs| - 1], role, h, j)
    requires RunOf(rt, txs).Live? && Proposed(RunOf(rt, txs).c, role) == Some(h)
    ensures ProposedAt(rt, txs, role, h, j)
  {
    hide LiveStep, RunOf, Proposes;
    var front := txs[..|txs| - 1];
    assert front[..j] == txs[..j];
    forall i | j < i <= |txs| ensures RunOf(rt, txs[..i]).Live? && Proposed(RunOf(rt, txs[..i]).c, role) == Some(h) {
      if i <= |front| { assert front[..i] == txs[..i]; } else { assert txs[..i] == txs; }
    }
  }

  /**
   * The admin or guardian changes only when a proposal for that role is executed, to the address it
   * names, at least 2880 blocks after the then admin proposed it, and with no other proposal,
   * cancellation or execution for the role in between.
   */
  lemma HandoverTimelock(rt: Runtime, txs: seq<Transaction>, role: Role) returns (j: nat)
    requires txs != [] && RunOf(rt, txs[..|txs| - 1]).Live? && RunOf(rt, txs).Live?
    requires Holder(RunOf(rt, txs).c, role) != Holder(RunOf(rt, txs[..|txs| - 1]).c, role)
    ensures var front, tx := txs[..|txs| - 1], txs[|txs| - 1];
      && Executes(tx.call, role)
      && j < |front| && ProposedAt(rt, front, role, Handover(Holder(RunOf(rt, txs).c, role), front[j].inv.height), j)
      && tx.inv.height - front[j].inv.height >= TRANSFER_DELAY_BLOCKS
  {
    hide LiveStep, Proposes;
    var front, tx := txs[..|txs| - 1], txs[|txs| - 1];
    HandoverStep(rt, RunOf(rt, front).c, tx.inv, tx.call, role);
    j := ProposalOrigin(rt, front, role);
  }
}
