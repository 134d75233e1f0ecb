/**
 * Safety of the consensus engine over every interleaving of proposals, attestations, timeouts and
 * cleanups. What a round delivers is sound whatever happens; a transfer gets one outcome as long as no
 * two proposals of it wait for their signatures at the same time, and only then.
 */
module ConsensusSafety {
  import opened Messages
  import opened ConsensusState
  import opened Bytes

  /** The number of attestations that resolves a round: the check runs only after a second one arrived. */
  function Threshold(c: Config): int { if c.minValidators > 2 then c.minValidators else 2 }

  predicate DistinctNodes(attestations: seq<Attestation>) {
    forall i, j :: 0 <= i < j < |attestations| ==> attestations[i].nodeId != attestations[j].nodeId
  }

  predicate SameMessage(attestations: seq<Attestation>, message: seq<byte>) {
    forall i :: 0 <= i < |attestations| ==> attestations[i].messageHash == message
  }

  /** The proposer's own attestation first, then one each of other nodes, all over the round's canonical message. */
  predicate RoundSound(c: Config, r: Round) {
    && Writable(r.request) && r.message == CanonicalMessage(r.request)
    && 1 <= |r.attestations| <= Threshold(c)
    && r.attestations[0].nodeId == c.nodeId
    && DistinctNodes(r.attestations)
    && SameMessage(r.attestations, r.message)
    && (!r.resolved ==> |r.attestations| < Threshold(c))
  }

  predicate RoundsSound(c: Config, rounds: seq<Round>) { forall i :: 0 <= i < |rounds| ==> RoundSound(c, rounds[i]) }

  predicate IsOutcome(o: Output) { o.Reached? || o.Failed? }

  /** A reached round holds exactly the threshold, a failed one fewer; both are resolved. */
  predicate OutcomeSound(c: Config, rounds: seq<Round>, o: Output)
    requires IsOutcome(o)
  {
    && o.round < |rounds|
    && var r := rounds[o.round];
    && r.resolved && r.request.transferId == o.transferId
    && o.required == c.minValidators && o.received == |r.attestations|
    && (o.Reached? <==> |r.attestations| == Threshold(c))
  }

  predicate OutcomesSound(c: Config, rounds: seq<Round>, outputs: seq<Output>) {
    forall i :: 0 <= i < |outputs| && IsOutcome(outputs[i]) ==> OutcomeSound(c, rounds, outputs[i])
  }

  /** No round is resolved twice. */
  predicate OutcomesOnce(outputs: seq<Output>) {
    forall i, j :: 0 <= i < j < |outputs| && IsOutcome(outputs[i]) && IsOutcome(outputs[j]) ==> outputs[i].round != outputs[j].round
  }

  predicate ProposalsSound(signing: seq<Proposal>) {
    forall i :: 0 <= i < |signing| ==> Writable(signing[i].request) && signing[i].message == CanonicalMessage(signing[i].request)
  }

  /** The map leads to a round of the transfer it is asked for. */
  predicate PendingSound(e: Engine) {
    forall id :: id in e.pending ==> e.pending[id] < |e.rounds| && e.rounds[e.pending[id]].request.transferId == id
  }

  ghost predicate EngineInv(c: Config, e: Engine) {
    && RoundsSound(c, e.rounds)
    && OutcomesSound(c, e.rounds, e.outputs)
    && OutcomesOnce(e.outputs)
    && ProposalsSound(e.signing)
    && PendingSound(e)
  }

  // ---------------------------------------------------------------------------------------------
  // Every interleaving
  // ---------------------------------------------------------------------------------------------

  /** What later turns may do to the rounds: add some, and change only unresolved ones. */
  predicate RoundsKept(rounds: seq<Round>, later: seq<Round>) {
    && |rounds| <= |later|
    && forall i :: 0 <= i < |rounds| ==>
         later[i].request == rounds[i].request && (rounds[i].resolved ==> later[i] == rounds[i])
  }

  lemma OutcomesKept(c: Config, rounds: seq<Round>, later: seq<Round>, outputs: seq<Output>)
    requires OutcomesSound(c, rounds, outputs) && RoundsKept(rounds, later)
    ensures OutcomesSound(c, later, outputs)
  {
    hide Threshold;
  }

  /** One more outcome, for a round not resolved before. */
  lemma OneOutcome(c: Config, rounds: seq<Round>, later: seq<Round>, outputs: seq<Output>, o: Output)
    requires OutcomesSound(c, rounds, outputs) && OutcomesOnce(outputs) && RoundsKept(rounds, later)
    requires IsOutcome(o) && OutcomeSound(c, later, o) && o.round < |rounds| && !rounds[o.round].resolved
    ensures OutcomesSound(c, later, outputs + [o]) && OutcomesOnce(outputs + [o])
  {
    hide Threshold;
    OutcomesKept(c, rounds, later, outputs);
  }

  /** An output that is no outcome. */
  lemma OneNotice(c: Config, rounds: seq<Round>, outputs: seq<Output>, o: Output)
    requires OutcomesSound(c, rounds, outputs) && OutcomesOnce(outputs) && !IsOutcome(o)
    ensures OutcomesSound(c, rounds, outputs + [o]) && OutcomesOnce(outputs + [o])
  {
    hide OutcomeSound;
  }

  lemma ProposeKeepsInv(c: Config, e: Engine, request: Request)
    requires EngineInv(c, e)
    ensures EngineInv(c, ProposeStep(e, request)) && ProposeStep(e, request).rounds == e.rounds
  {
    hide CanonicalMessage, RoundSound, OutcomeSound;
  }

  lemma SignedKeepsInv(c: Config, e: Engine, k: nat, signature: seq<byte>, publicKey: seq<byte>, now: int)
    requires EngineInv(c, e)
    ensures EngineInv(c, SignedStep(c, e, k, signature, publicKey, now))
    ensures RoundsKept(e.rounds, SignedStep(c, e, k, signature, publicKey, now).rounds)
  {
    hide CanonicalMessage, OutcomesSound, OutcomesOnce;
    if k < |e.signing| {
      var t := SignedStep(c, e, k, signature, publicKey, now);
      OneNotice(c, e.rounds, e.outputs, t.outputs[|e.outputs|]);
      OutcomesKept(c, e.rounds, t.rounds, t.outputs);
    }
  }

  /** A further attestation, by a new node and over the round's message. */
  lemma OneAttestation(c: Config, r: Round, a: Attestation)
    requires RoundSound(c, r) && !r.resolved && !HasNode(r.attestations, a.nodeId) && r.message == a.messageHash
    ensures var later := r.(attestations := r.attestations + [a], resolved := |r.attestations| + 1 >= c.minValidators);
      RoundSound(c, later) && (later.resolved ==> |later.attestations| == Threshold(c))
  {
    hide CanonicalMessage;
    var all := r.attestations + [a];
    forall i, j | 0 <= i < j < |all| ensures all[i].nodeId != all[j].nodeId {
      if j == |r.attestations| {
        assert r.attestations[i].nodeId != a.nodeId;
      }
    }
  }

  /** The round an attestation is added to, after the check that follows it. */
  lemma ReceiveOutcome(c: Config, e: Engine, a: Attestation)
    requires Valid(e) && a.transferId in e.pending
    requires var round := e.rounds[e.pending[a.transferId]];
      !round.resolved && !HasNode(round.attestations, a.nodeId) && round.message == a.messageHash
    ensures var r, t := e.pending[a.transferId], ReceiveStep(c, e, a);
      var n := |e.rounds[r].attestations| + 1;
      var later := e.rounds[r].(attestations := e.rounds[r].attestations + [a], resolved := n >= c.minValidators);
      && t.rounds == e.rounds[r := later] && t.pending == e.pending && t.signing == e.signing
      && t.outputs == if later.resolved then e.outputs + [Reached(a.transferId, r, c.minValidators, n)] else e.outputs
  {
  }

  lemma ReceiveKeepsInv(c: Config, e: Engine, a: Attestation)
    requires Valid(e) && EngineInv(c, e)
    ensures EngineInv(c, ReceiveStep(c, e, a)) && RoundsKept(e.rounds, ReceiveStep(c, e, a).rounds)
  {
    hide RoundSound, OutcomesSound, OutcomesOnce, ProposalsSound, HasNode;
    if a.transferId in e.pending {
      var r, t := e.pending[a.transferId], ReceiveStep(c, e, a);
      var round := e.rounds[r];
      if !round.resolved && !HasNode(round.attestations, a.nodeId) {
        if round.message == a.messageHash {
          ReceiveOutcome(c, e, a);
          OneAttestation(c, round, a);
          if t.rounds[r].resolved {
            OneOutcome(c, e.rounds, t.rounds, e.outputs, t.outputs[|e.outputs|]);
          } else {
            OutcomesKept(c, e.rounds, t.rounds, e.outputs);
          }
        } else {
          OneNotice(c, e.rounds, e.outputs, ByzantineDetected(a.transferId, a));
        }
      }
    }
  }

  lemma TimeoutKeepsInv(c: Config, e: Engine, id: string)
    requires Valid(e) && EngineInv(c, e)
    ensures EngineInv(c, TimeoutStep(c, e, id)) && RoundsKept(e.rounds, TimeoutStep(c, e, id).rounds)
  {
    hide OutcomesSound, OutcomesOnce, ProposalsSound, CanonicalMessage, DistinctNodes, SameMessage;
    var t := TimeoutStep(c, e, id);
    if |t.outputs| > |e.outputs| {
      OneOutcome(c, e.rounds, t.rounds, e.outputs, t.outputs[|e.outputs|]);
    }
  }

  lemma FailureKeepsInv(c: Config, e: Engine, k: nat)
    requires EngineInv(c, e) && k < |e.signing|
    ensures EngineInv(c, e.(signing := Without(e.signing, k)))
  {
    hide RoundsSound, OutcomesSound, OutcomesOnce, CanonicalMessage;
  }

  lemma CleanupKeepsInv(c: Config, e: Engine, id: string)
    requires Valid(e) && EngineInv(c, e)
    ensures EngineInv(c, CleanupStep(e, id)) && CleanupStep(e, id).rounds == e.rounds
  {
    hide RoundsSound, OutcomesSound, OutcomesOnce, ProposalsSound;
  }

  lemma SameRoundsKept(rounds: seq<Round>)
    ensures RoundsKept(rounds, rounds)
  {
  }

  lemma StepKeepsInv(c: Config, e: Engine, input: Input)
    requires Valid(e) && EngineInv(c, e)
    ensures EngineInv(c, Step(c, e, input)) && RoundsKept(e.rounds, Step(c, e, input).rounds)
  {
    hide EngineInv, RoundsKept, SignedStep, ReceiveStep, TimeoutStep, CleanupStep, Without;
    SameRoundsKept(e.rounds);
    match input
    case Propose(request) => ProposeKeepsInv(c, e, request);
    case Signed(k, signature, publicKey, now) => SignedKeepsInv(c, e, k, signature, publicKey, now);
    case Receive(a) => ReceiveKeepsInv(c, e, a);
    case TimeoutFires(id) => TimeoutKeepsInv(c, e, id);
    case SigningFailed(k) => if k < |e.signing| { FailureKeepsInv(c, e, k); }
    case CleanupFires(id) => CleanupKeepsInv(c, e, id);
  }

  /**
   * Sound delivery, over every interleaving: each outcome is the only one of its round; a reached one
   * delivers exactly max(2, minValidators) attestations, a failed one fewer, the proposer's own first,
   * of pairwise distinct nodes, all over the proposer's canonical message for the transfer's request.
   */
  lemma {:induction false} DeliverySound(c: Config, inputs: seq<Input>)
    ensures EngineInv(c, RunOf(c, inputs))
  {
    hide EngineInv, Step;
    if inputs == [] {
      NewEngineSound(c);
    } else {
      DeliverySound(c, inputs[..|inputs| - 1]);
      StepKeepsInv(c, RunOf(c, inputs[..|inputs| - 1]), inputs[|inputs| - 1]);
    }
  }

  lemma NewEngineSound(c: Config)
    ensures EngineInv(c, NEW_ENGINE)
  {
  }

  /** A delivered result never changes afterwards, although it shares its round's attestations. */
  lemma {:induction false} DeliveredForGood(c: Config, inputs: seq<Input>, k: nat)
    requires k <= |inputs|
    ensures RoundsKept(RunOf(c, inputs[..k]).rounds, RunOf(c, inputs).rounds)
    ensures RunOf(c, inputs[..k]).outputs <= RunOf(c, inputs).outputs
  {
    hide EngineInv, Step;
    if k == |inputs| {
      assert inputs[..k] == inputs;
      SameRoundsKept(RunOf(c, inputs).rounds);
    } else {
      var front := inputs[..|inputs| - 1];
      assert front[..k] == inputs[..k];
      DeliveredForGood(c, front, k);
      DeliverySound(c, front);
      StepKeepsInv(c, RunOf(c, front), inputs[|inputs| - 1]);
      OutputsGrow(c, RunOf(c, front), inputs[|inputs| - 1]);
    }
  }

  lemma OutputsGrow(c: Config, e: Engine, input: Input)
    requires Valid(e)
    ensures e.outputs <= Step(c, e, input).outputs
  {
  }

  // ---------------------------------------------------------------------------------------------
  // One outcome a transfer, when proposals do not overlap
  // ---------------------------------------------------------------------------------------------

  /** Two proposals of one transfer wait for their signatures at the same time. */
  predicate Overlapping(e: Engine) {
    exists i, j :: 0 <= i < j < |e.signing| && e.signing[i].request.transferId == e.signing[j].request.transferId
  }

  predicate NonOverlapping(c: Config, inputs: seq<Input>) {
    && !Overlapping(RunOf(c, inputs))
    && (inputs != [] ==> NonOverlapping(c, inputs[..|inputs| - 1]))
  }

  predicate HasRound(rounds: seq<Round>, id: string) { exists i :: 0 <= i < |rounds| && rounds[i].request.transferId == id }

  predicate RoundsDistinct(rounds: seq<Round>) {
    forall i, j :: 0 <= i < j < |rounds| ==> rounds[i].request.transferId != rounds[j].request.transferId
  }

  /** A transfer with a round cannot be proposed again: it is pending or processed. */
  predicate RoundsGuarded(e: Engine) {
    forall i :: 0 <= i < |e.rounds| ==> e.rounds[i].request.transferId in e.pending || e.rounds[i].request.transferId in e.processed
  }

  /** A transfer that waits for its signature has no round yet. */
  predicate SigningFresh(e: Engine) {
    forall i :: 0 <= i < |e.signing| ==> !HasRound(e.rounds, e.signing[i].request.transferId)
  }

  predicate CleanupsProcessed(e: Engine) { forall id :: id in e.cleanups ==> id in e.processed }

  ghost predicate OnceInv(e: Engine) {
    RoundsDistinct(e.rounds) && RoundsGuarded(e) && SigningFresh(e) && CleanupsProcessed(e)
  }

  /** Apart from a second turn, the transfers that have rounds stay the same. */
  predicate SameRequests(rounds: seq<Round>, later: seq<Round>) {
    |later| == |rounds| && forall i :: 0 <= i < |rounds| ==> later[i].request == rounds[i].request
  }

  lemma SameRequestsKeep(rounds: seq<Round>, later: seq<Round>)
    requires SameRequests(rounds, later)
    ensures RoundsDistinct(rounds) ==> RoundsDistinct(later)
    ensures forall id :: HasRound(later, id) ==> HasRound(rounds, id)
  {
    forall id | HasRound(later, id) ensures HasRound(rounds, id) {
      var i :| 0 <= i < |later| && later[i].request.transferId == id;
      assert rounds[i].request.transferId == id;
    }
  }

  lemma ProposeKeepsOnce(e: Engine, request: Request)
    requires OnceInv(e)
    ensures OnceInv(ProposeStep(e, request))
  {
    hide CanonicalMessage, Writable;
  }

  lemma SignedKeepsOnce(c: Config, e: Engine, k: nat, signature: seq<byte>, publicKey: seq<byte>, now: int)
    requires Valid(e) && OnceInv(e) && !Overlapping(e)
    ensures OnceInv(SignedStep(c, e, k, signature, publicKey, now))
  {
    if k < |e.signing| {
      var t, id := SignedStep(c, e, k, signature, publicKey, now), e.signing[k].request.transferId;
      assert !HasRound(e.rounds, id);
      assert RoundsDistinct(t.rounds);
      forall i | 0 <= i < |t.signing| ensures !HasRound(t.rounds, t.signing[i].request.transferId) {
        var j := if i < k then i else i + 1;
        assert t.signing[i] == e.signing[j];
        assert e.signing[j].request.transferId != id;
        NoNewRound(e.rounds, t.rounds, e.signing[j].request.transferId);
      }
    }
  }

  lemma NoNewRound(rounds: seq<Round>, later: seq<Round>, id: string)
    requires |later| == |rounds| + 1 && later[..|rounds|] == rounds && later[|rounds|].request.transferId != id
    requires !HasRound(rounds, id)
    ensures !HasRound(later, id)
  {
    forall i | 0 <= i < |later| ensures later[i].request.transferId != id {
      if i < |rounds| {
        assert later[i] == later[..|rounds|][i];
      }
    }
  }

  /** What the inputs that open no round leave of what `OnceInv` speaks of. */
  predicate Undisturbed(e: Engine, t: Engine) {
    && SameRequests(e.rounds, t.rounds) && t.signing == e.signing && e.processed <= t.processed
    && (forall id :: id in e.pending ==> id in t.pending || id in t.processed)
    && (forall id :: id in t.cleanups ==> id in e.cleanups || id in t.processed)
  }

  lemma UndisturbedKeepsOnce(e: Engine, t: Engine)
    requires OnceInv(e) && Undisturbed(e, t)
    ensures OnceInv(t)
  {
    SameRequestsKeep(e.rounds, t.rounds);
  }

  lemma ReceiveUndisturbed(c: Config, e: Engine, a: Attestation)
    requires Valid(e)
    ensures Undisturbed(e, ReceiveStep(c, e, a))
  {
    hide HasNode;
  }

  lemma TimeoutUndisturbed(c: Config, e: Engine, id: string)
    requires Valid(e)
    ensures Undisturbed(e, TimeoutStep(c, e, id))
  {
  }

  lemma CleanupUndisturbed(e: Engine, id: string)
    requires Valid(e) && CleanupsProcessed(e)
    ensures Undisturbed(e, CleanupStep(e, id))
  {
  }

  lemma ReceiveKeepsOnce(c: Config, e: Engine, a: Attestation)
    requires Valid(e) && OnceInv(e)
    ensures OnceInv(ReceiveStep(c, e, a))
  {
    hide OnceInv, Undisturbed, ReceiveStep;
    ReceiveUndisturbed(c, e, a);
    UndisturbedKeepsOnce(e, ReceiveStep(c, e, a));
  }

  lemma TimeoutKeepsOnce(c: Config, e: Engine, id: string)
    requires Valid(e) && OnceInv(e)
    ensures OnceInv(TimeoutStep(c, e, id))
  {
    hide OnceInv, Undisturbed, TimeoutStep;
    TimeoutUndisturbed(c, e, id);
    UndisturbedKeepsOnce(e, TimeoutStep(c, e, id));
  }

  lemma CleanupKeepsOnce(e: Engine, id: string)
    requires Valid(e) && OnceInv(e)
    ensures OnceInv(CleanupStep(e, id))
  {
    hide Undisturbed, CleanupStep;
    CleanupUndisturbed(e, id);
    UndisturbedKeepsOnce(e, CleanupStep(e, id));
  }

  lemma FailureKeepsOnce(c: Config, e: Engine, k: nat)
    requires Valid(e) && OnceInv(e) && k < |e.signing|
    ensures OnceInv(e.(signing := Without(e.signing, k)))
  {
    var t := e.(signing := Without(e.signing, k));
    forall i | 0 <= i < |t.signing| ensures !HasRound(t.rounds, t.signing[i].request.transferId) {
      assert t.signing[i] == e.signing[if i < k then i else i + 1];
    }
  }

  lemma {:induction false} OneRoundEach(c: Config, inputs: seq<Input>)
    requires NonOverlapping(c, inputs)
    ensures OnceInv(RunOf(c, inputs))
  {
    hide OnceInv, Overlapping, ProposeStep, SignedStep, ReceiveStep, TimeoutStep, CleanupStep;
    if inputs == [] {
      NewEngineOnce();
    } else {
      var front, input := inputs[..|inputs| - 1], inputs[|inputs| - 1];
      var e := RunOf(c, front);
      OneRoundEach(c, front);
      DeliverySound(c, front);
      match input
      case Propose(request) => ProposeKeepsOnce(e, request);
      case Signed(k, signature, publicKey, now) => SignedKeepsOnce(c, e, k, signature, publicKey, now);
      case SigningFailed(k) => if k < |e.signing| { FailureKeepsOnce(c, e, k); }
      case Receive(a) => ReceiveKeepsOnce(c, e, a);
      case TimeoutFires(id) => TimeoutKeepsOnce(c, e, id);
      case CleanupFires(id) => CleanupKeepsOnce(e, id);
    }
  }

  lemma NewEngineOnce()
    ensures OnceInv(NEW_ENGINE)
  {
  }

  predicate OneOutcomeEach(outputs: seq<Output>) {
    forall i, j :: 0 <= i < j < |outputs| && IsOutcome(outputs[i]) && IsOutcome(outputs[j]) ==>
      outputs[i].transferId != outputs[j].transferId
  }

  /**
   * Consensus safety: over every interleaving in which proposals of one transfer do not overlap inside
   * the wait for a signature, a transfer gets at most one of consensus_reached and consensus_failed, and
   * gets it at most once.
   */
  lemma AtMostOneOutcome(c: Config, inputs: seq<Input>)
    requires NonOverlapping(c, inputs)
    ensures OneOutcomeEach(RunOf(c, inputs).outputs)
  {
    hide RunOf, NonOverlapping, RoundsSound, ProposalsSound;
    DeliverySound(c, inputs);
    OneRoundEach(c, inputs);
    var e := RunOf(c, inputs);
    forall i, j | 0 <= i < j < |e.outputs| && IsOutcome(e.outputs[i]) && IsOutcome(e.outputs[j])
      ensures e.outputs[i].transferId != e.outputs[j].transferId {
      assert OutcomeSound(c, e.rounds, e.outputs[i]) && OutcomeSound(c, e.rounds, e.outputs[j]);
    }
  }

  // ---------------------------------------------------------------------------------------------
  // And only then
  // ---------------------------------------------------------------------------------------------

  /** The second turn of a proposal followed at once by its timeout. */
  function SignedThenTimeout(k: nat, id: string): seq<Input> { [Signed(k, [], [], 0), TimeoutFires(id)] }

  lemma SignedThenFails(c: Config, e: Engine, k: nat)
    requires Valid(e) && k < |e.signing|
    ensures var id := e.signing[k].request.transferId;
      var t := TimeoutStep(c, SignedStep(c, e, k, [], [], 0), id);
      && t.signing == Without(e.signing, k)
      && |t.outputs| == |e.outputs| + 2 && t.outputs[|e.outputs| + 1] == Failed(id, |e.rounds|, c.minValidators, 1)
      && e.outputs <= t.outputs
  {
  }

  lemma RunTwo(c: Config, inputs: seq<Input>, a: Input, b: Input)
    ensures RunOf(c, inputs + [a, b]) == Step(c, Step(c, RunOf(c, inputs), a), b)
  {
    hide Step;
    var all, one := inputs + [a, b], inputs + [a];
    assert all[..|all| - 1] == one && one[..|one| - 1] == inputs;
  }

  lemma OverlapShifted(signing: seq<Proposal>, i: nat, j: nat)
    requires i < j < |signing|
    ensures j - 1 < |Without(signing, i)| && Without(signing, i)[j - 1] == signing[j]
  {
  }

  predicate TwoOutcomesOf(outputs: seq<Output>, id: string) {
    exists i, j :: 0 <= i < j < |outputs| && IsOutcome(outputs[i]) && IsOutcome(outputs[j])
      && outputs[i].transferId == id == outputs[j].transferId
  }

  lemma WaitsTwiceDoubles(c: Config, inputs: seq<Input>, i: nat, j: nat) returns (more: seq<Input>)
    requires var signing := RunOf(c, inputs).signing;
      i < j < |signing| && signing[i].request.transferId == signing[j].request.transferId
    ensures inputs <= more && TwoOutcomesOf(RunOf(c, more).outputs, RunOf(c, inputs).signing[i].request.transferId)
  {
    hide RunOf, SignedStep, TimeoutStep;
    var e := RunOf(c, inputs);
    var id := e.signing[i].request.transferId;
    var first := inputs + SignedThenTimeout(i, id);
    RunTwo(c, inputs, Signed(i, [], [], 0), TimeoutFires(id));
    SignedThenFails(c, e, i);
    OverlapShifted(e.signing, i, j);
    var t := RunOf(c, first);
    more := first + SignedThenTimeout(j - 1, id);
    RunTwo(c, first, Signed(j - 1, [], [], 0), TimeoutFires(id));
    SignedThenFails(c, t, j - 1);
    var outputs := RunOf(c, more).outputs;
    assert outputs[|e.outputs| + 1] == t.outputs[|e.outputs| + 1];
    assert IsOutcome(outputs[|e.outputs| + 1]) && IsOutcome(outputs[|t.outputs| + 1]);
  }

  /**
   * Where two proposals of a transfer do overlap, the run can go on to give that transfer two outcomes:
   * each opens a round of its own and each round times out.
   */
  lemma OverlapDoubles(c: Config, inputs: seq<Input>) returns (more: seq<Input>)
    requires Overlapping(RunOf(c, inputs))
    ensures inputs <= more && !OneOutcomeEach(RunOf(c, more).outputs)
  {
    hide RunOf;
    var e := RunOf(c, inputs);
    var i, j :| 0 <= i < j < |e.signing| && e.signing[i].request.transferId == e.signing[j].request.transferId;
    more := WaitsTwiceDoubles(c, inputs, i, j);
  }

  /**
   * And proposals do overlap: two of one transfer in a row, from any state in which the first is taken
   * up, both wait for their signatures.
   */
  lemma ProposedTwiceOverlaps(c: Config, inputs: seq<Input>, first: Request, second: Request)
    requires Writable(first) && Writable(second) && first.transferId == second.transferId
    requires first.transferId !in RunOf(c, inputs).pending && first.transferId !in RunOf(c, inputs).processed
    ensures Overlapping(RunOf(c, inputs + [Propose(first), Propose(second)]))
  {
    hide RunOf, CanonicalMessage, Writable;
    var e := RunOf(c, inputs);
    RunTwo(c, inputs, Propose(first), Propose(second));
    var t := RunOf(c, inputs + [Propose(first), Propose(second)]);
    assert t.signing[|e.signing|].request == first && t.signing[|e.signing| + 1].request == second;
  }

  /** So any transfer whatever can be given two outcomes, its very first proposal being made twice. */
  lemma TwoOutcomes(c: Config, r: Request) returns (inputs: seq<Input>)
    requires Writable(r)
    ensures [Propose(r), Propose(r)] <= inputs && TwoOutcomesOf(RunOf(c, inputs).outputs, r.transferId)
  {
    hide TwoOutcomesOf, Writable, CanonicalMessage;
    var twice := [Propose(r), Propose(r)];
    assert [] + twice == twice;
    RunTwo(c, [], Propose(r), Propose(r));
    var p := Proposal(r, CanonicalMessage(r));
    assert RunOf(c, twice).signing == [p, p];
    inputs := WaitsTwiceDoubles(c, twice, 0, 1);
  }
}
