/** Runs of the lock program: any sequence of transactions, accepted or not, after initialization. */
module LockRuns {
  import opened LockState
  import opened LockSpec

  datatype Transaction = Transaction(clock: Clock, ins: Instruction)

  function RunOf(chain: Chain, s: State, txs: seq<Transaction>): State {
    if txs == [] then s else
      var tx := txs[|txs| - 1];
      Apply(chain, RunOf(chain, s, txs[..|txs| - 1]), tx.clock, tx.ins)
  }

  /** Clock readings never go back, and none precedes initialization. */
  predicate Chronological(start: int, txs: seq<Transaction>) {
    && (forall i :: 0 <= i < |txs| ==> start <= txs[i].clock.now)
    && (forall i, j :: 0 <= i <= j < |txs| ==> txs[i].clock.now <= txs[j].clock.now)
  }

  /** A state some successful initialization produced. */
  ghost predicate Initial(s: State, now: int) {
    exists authority, p, lamports: nat :: ValidInitialization(p) && s == InitialState(authority, p, now, lamports)
  }

  /** The transaction at position k of a run was accepted. */
  predicate AcceptedAt(chain: Chain, s: State, txs: seq<Transaction>, k: nat)
    requires k < |txs|
  {
    StepError(chain, RunOf(chain, s, txs[..k]), txs[k].clock, txs[k].ins).None?
  }

  lemma AcceptedStep(chain: Chain, s: State, txs: seq<Transaction>, k: nat)
    requires k < |txs| && AcceptedAt(chain, s, txs, k)
    ensures RunOf(chain, s, txs[..k + 1]) == StepEffect(chain, RunOf(chain, s, txs[..k]), txs[k].clock, txs[k].ins)
  {
    assert txs[..k + 1][..k] == txs[..k];
  }
}
