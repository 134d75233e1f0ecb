/** While the controller is paused nothing is minted or burned. */
module ControllerPause {
  import opened ControllerFrames
  import opened ControllerState
  import Base58

  /** No id accepted, nothing issued, nothing burned; pending mints can only be cancelled. */
  predicate MintsNothing(c: Controller, d: Controller) {
    && d.paused && d.processed == c.processed && d.globalNonce == c.globalNonce
    && d.burnRecords == c.burnRecords && d.burnNonces == c.burnNonces && d.pending.Items <= c.pending.Items
    && forall t :: t in c.tokens ==>
         t in d.tokens && d.tokens[t].minted == c.tokens[t].minted && d.tokens[t].burned == c.tokens[t].burned
  }

  function RunFrom(rt: Runtime, w: World, txs: seq<Transaction>): (end: World)
    requires Valid(w)
    ensures Valid(end)
  {
    if txs == [] then w else Next(rt, RunFrom(rt, w, txs[..|txs| - 1]), txs[|txs| - 1])
  }

  /** The token actions of all accepted calls of a run, in order. */
  function ActionsFrom(rt: Runtime, w: World, txs: seq<Transaction>): seq<Action>
    requires Valid(w)
  {
    if txs == [] then []
    else
      var front, tx := txs[..|txs| - 1], txs[|txs| - 1];
      ActionsFrom(rt, w, front) + ActionsIn(Step(rt, RunFrom(rt, w, front), tx.inv, tx.call))
  }

  function ActionsIn(o: Outcome): seq<Action> { if o.Done? then o.actions else [] }

  /** Nothing but new assets, which start with no units: no units are issued, handed over or burned. */
  predicate MovesNoUnits(actions: seq<Action>) { forall i :: 0 <= i < |actions| ==> actions[i].Issue? }

  predicate Moves(call: Call) { Mints(call) || call.BurnToken? || call.Burn? }

  lemma PausedThrows(rt: Runtime, c: Controller, inv: Invocation, call: Call)
    requires NATIVE_SOL_MINT in c.tokens && c.paused && Moves(call)
    ensures LiveStep(rt, c, inv, call) == Throw
  {
    hide Quorum, DailyCheck, Scaled, Burned, MintMessage, LegacyMintMessage, Base58.Encode, NATIVE_SOL_MINT;
  }

  lemma OthersMintNothing(rt: Runtime, c: Controller, inv: Invocation, call: Call)
    requires NATIVE_SOL_MINT in c.tokens && c.paused && !Moves(call) && !call.EmergencyResume? && LiveStep(rt, c, inv, call).Done?
    ensures MintsNothing(c, LiveStep(rt, c, inv, call).c) && MovesNoUnits(LiveStep(rt, c, inv, call).actions)
    ensures LiveStep(rt, c, inv, call).actions != [] ==> call.RegisterToken?
  {
    hide DoMintToken, DoMint, DoExecutePendingMint, DoBurnToken, DoBurn, DivisorFor, Base58.Encode, NATIVE_SOL_MINT;
    if Administrative(call) {
      AdministrativeFrame(rt, c, inv, call);
    }
  }

  lemma ItemsShrink<K, V>(a: map<K, V>, b: map<K, V>, d: map<K, V>)
    requires b.Items <= a.Items && d.Items <= b.Items
    ensures d.Items <= a.Items
  {
  }

  /**
   * A pause halts all mints and burns, from any state, until a resume: the records stand still, and no
   * accepted call issues, hands over or burns units of any asset. New tokens can be registered, without units.
   */
  lemma {:induction false} PauseHalts(rt: Runtime, c: Controller, txs: seq<Transaction>)
    requires NATIVE_SOL_MINT in c.tokens && c.paused && forall i :: 0 <= i < |txs| ==> !txs[i].call.EmergencyResume?
    ensures var w := RunFrom(rt, Live(c), txs); w.Live? && MintsNothing(c, w.c)
    ensures MovesNoUnits(ActionsFrom(rt, Live(c), txs))
  {
    hide LiveStep;
    if txs != [] {
      var front, tx := txs[..|txs| - 1], txs[|txs| - 1];
      PauseHalts(rt, c, front);
      var d := RunFrom(rt, Live(c), front).c;
      if Moves(tx.call) {
        PausedThrows(rt, d, tx.inv, tx.call);
      } else if LiveStep(rt, d, tx.inv, tx.call).Done? {
        OthersMintNothing(rt, d, tx.inv, tx.call);
        ItemsShrink(c.pending, d.pending, LiveStep(rt, d, tx.inv, tx.call).c.pending);
      }
    }
  }
}
