/**
 * Where everything the consensus engine holds, broadcasts and delivers comes from, over every interleaving: the
 * proposer's attestation from the signature it asked for, every other one from a message received.
 */
module ConsensusOrigins {
  import opened Bytes
  import opened ConsensusSafety
  import opened ConsensusState
  import opened Messages
  import opened Options

  /** Input h proposed r, and input j brought the signature its proposal waited for; a is the attestation made of them. */
  predicate OpenedBy(c: Config, inputs: seq<Input>, h: nat, j: nat, k: nat, r: Request, a: Attestation) {
    && h < j < |inputs| && inputs[h] == Propose(r) && Writable(r)
    && inputs[j] == Signed(k, a.signature, a.publicKey, a.timestamp)
    && k < |RunOf(c, inputs[..j]).signing| && RunOf(c, inputs[..j]).signing[k].request == r
    && a.nodeId == c.nodeId && a.transferId == r.transferId && a.forMint == r.payload.DepositEvent?
    && a.messageHash == CanonicalMessage(r)
  }

  ghost predicate Opened(c: Config, inputs: seq<Input>, r: Request, a: Attestation) {
    exists h: nat, j: nat, k: nat :: OpenedBy(c, inputs, h, j, k, r, a)
  }

  predicate Received(inputs: seq<Input>, a: Attestation) { exists j :: 0 <= j < |inputs| && inputs[j] == Receive(a) }

  predicate Taken(inputs: seq<Input>, r: Request) { exists h :: 0 <= h < |inputs| && inputs[h] == Propose(r) }

  /** The attestations broadcast, in order. */
  function Broadcasts(outputs: seq<Output>): seq<Attestation> {
    if outputs == [] then []
    else
      var o := outputs[|outputs| - 1];
      Broadcasts(outputs[..|outputs| - 1]) + if o.Broadcast? then [o.attestation] else []
  }

  ghost predicate RoundOrigin(c: Config, inputs: seq<Input>, r: Round) {
    && r.attestations != [] && Opened(c, inputs, r.request, r.attestations[0])
    && forall m :: 0 < m < |r.attestations| ==> Received(inputs, r.attestations[m])
  }

  /** Each round has its own broadcast, of its first attestation. */
  predicate RoundsBroadcast(e: Engine) {
    && |Broadcasts(e.outputs)| == |e.rounds|
    && forall i :: 0 <= i < |e.rounds| ==> e.rounds[i].attestations != [] && e.rounds[i].attestations[0] == Broadcasts(e.outputs)[i]
  }

  ghost predicate OriginInv(c: Config, inputs: seq<Input>, e: Engine) {
    && (forall i :: 0 <= i < |e.rounds| ==> RoundOrigin(c, inputs, e.rounds[i]))
    && RoundsBroadcast(e)
    && (forall i :: 0 <= i < |e.signing| ==>
          && Taken(inputs, e.signing[i].request) && Writable(e.signing[i].request)
          && e.signing[i].message == CanonicalMessage(e.signing[i].request))
    && (forall i :: 0 <= i < |e.outputs| && e.outputs[i].ByzantineDetected? ==>
          e.outputs[i].transferId == e.outputs[i].attestation.transferId && Received(inputs, e.outputs[i].attestation))
  }

  lemma BroadcastsAppended(outputs: seq<Output>, o: Output)
    ensures Broadcasts(outputs + [o]) == Broadcasts(outputs) + if o.Broadcast? then [o.attestation] else []
  {
    assert (outputs + [o])[..|outputs|] == outputs;
  }

  // ---------------------------------------------------------------------------------------------
  // One more input
  // ---------------------------------------------------------------------------------------------

  lemma ReceivedLater(inputs: seq<Input>, input: Input, a: Attestation)
    requires Received(inputs, a)
    ensures Received(inputs + [input], a)
  {
    var j :| 0 <= j < |inputs| && inputs[j] == Receive(a);
    assert (inputs + [input])[j] == inputs[j];
  }

  lemma TakenLater(inputs: seq<Input>, input: Input, r: Request)
    requires Taken(inputs, r)
    ensures Taken(inputs + [input], r)
  {
    var h :| 0 <= h < |inputs| && inputs[h] == Propose(r);
    assert (inputs + [input])[h] == inputs[h];
  }

  lemma OpenedLater(c: Config, inputs: seq<Input>, input: Input, r: Request, a: Attestation)
    requires Opened(c, inputs, r, a)
    ensures Opened(c, inputs + [input], r, a)
  {
    hide RunOf, CanonicalMessage, Writable;
    var h: nat, j: nat, k: nat :| OpenedBy(c, inputs, h, j, k, r, a);
    assert (inputs + [input])[..j] == inputs[..j];
    assert OpenedBy(c, inputs + [input], h, j, k, r, a);
  }

  lemma RoundLater(c: Config, inputs: seq<Input>, input: Input, r: Round)
    requires RoundOrigin(c, inputs, r)
    ensures RoundOrigin(c, inputs + [input], r)
  {
    hide Opened, Received;
    OpenedLater(c, inputs, input, r.request, r.attestations[0]);
    forall m | 0 < m < |r.attestations| ensures Received(inputs + [input], r.attestations[m]) {
      ReceivedLater(inputs, input, r.attestations[m]);
    }
  }

  /** Nothing the engine holds loses its origin. */
  lemma OriginLater(c: Config, inputs: seq<Input>, input: Input, e: Engine)
    requires OriginInv(c, inputs, e)
    ensures OriginInv(c, inputs + [input], e)
  {
    hide RoundOrigin, Received, Taken, Writable, CanonicalMessage, RoundsBroadcast;
    forall i | 0 <= i < |e.rounds| ensures RoundOrigin(c, inputs + [input], e.rounds[i]) {
      RoundLater(c, inputs, input, e.rounds[i]);
    }
    forall i | 0 <= i < |e.signing| ensures Taken(inputs + [input], e.signing[i].request) {
      TakenLater(inputs, input, e.signing[i].request);
    }
    forall i | 0 <= i < |e.outputs| && e.outputs[i].ByzantineDetected?
      ensures Received(inputs + [input], e.outputs[i].attestation) {
      ReceivedLater(inputs, input, e.outputs[i].attestation);
    }
  }

  lemma ProposeOrigin(c: Config, inputs: seq<Input>, e: Engine, r: Request)
    requires OriginInv(c, inputs, e) && Taken(inputs, r)
    ensures OriginInv(c, inputs, ProposeStep(e, r))
  {
    hide RoundOrigin, Received, Taken, Writable, CanonicalMessage, RoundsBroadcast;
    assert RoundsBroadcast(ProposeStep(e, r)) by { SameBroadcasts(e, ProposeStep(e, r)); }
  }

  lemma SameBroadcasts(e: Engine, t: Engine)
    requires RoundsBroadcast(e) && t.outputs == e.outputs && t.rounds == e.rounds
    ensures RoundsBroadcast(t)
  {
  }

  lemma SignedOrigin(c: Config, inputs: seq<Input>, e: Engine, k: nat, signature: seq<byte>, publicKey: seq<byte>, now: int)
    requires Valid(e) && OriginInv(c, inputs, e) && k < |e.signing|
    requires Opened(c, inputs, e.signing[k].request, OwnAttestation(c, e.signing[k], signature, publicKey, now))
    ensures OriginInv(c, inputs, SignedStep(c, e, k, signature, publicKey, now))
  {
    hide Opened, Received, Taken, Writable, CanonicalMessage, OwnAttestation;
    var t := SignedStep(c, e, k, signature, publicKey, now);
    BroadcastsAppended(e.outputs, t.outputs[|e.outputs|]);
    forall i | 0 <= i < |t.signing| ensures t.signing[i] == e.signing[if i < k then i else i + 1] {
    }
  }

  lemma FailureOrigin(c: Config, inputs: seq<Input>, e: Engine, k: nat)
    requires OriginInv(c, inputs, e) && k < |e.signing|
    ensures OriginInv(c, inputs, e.(signing := Without(e.signing, k)))
  {
    hide RoundOrigin, Received, Taken, Writable, CanonicalMessage, RoundsBroadcast;
    var t := e.(signing := Without(e.signing, k));
    SameBroadcasts(e, t);
    forall i | 0 <= i < |t.signing| ensures t.signing[i] == e.signing[if i < k then i else i + 1] {
    }
  }

  /** A turn that gives a round at most one received attestation, and broadcasts nothing. */
  ghost predicate Extends(inputs: seq<Input>, r: Round, later: Round) {
    && later.request == r.request
    && (later.attestations == r.attestations
        || exists a :: later.attestations == r.attestations + [a] && Received(inputs, a))
  }

  lemma ExtendedOrigin(c: Config, inputs: seq<Input>, r: Round, later: Round)
    requires RoundOrigin(c, inputs, r) && Extends(inputs, r, later)
    ensures RoundOrigin(c, inputs, later) && later.attestations[0] == r.attestations[0]
  {
    hide Opened, Received;
  }

  predicate Harmless(inputs: seq<Input>, o: Output) {
    && !o.Broadcast?
    && (o.ByzantineDetected? ==> o.transferId == o.attestation.transferId && Received(inputs, o.attestation))
  }

  ghost predicate ExtendsAll(inputs: seq<Input>, e: Engine, t: Engine) {
    && t.signing == e.signing && |t.rounds| == |e.rounds|
    && (forall i :: 0 <= i < |e.rounds| ==> Extends(inputs, e.rounds[i], t.rounds[i]))
    && (t.outputs == e.outputs || exists o :: t.outputs == e.outputs + [o] && Harmless(inputs, o))
  }

  lemma ExtendedKeeps(c: Config, inputs: seq<Input>, e: Engine, t: Engine)
    requires OriginInv(c, inputs, e) && ExtendsAll(inputs, e, t)
    ensures OriginInv(c, inputs, t)
  {
    hide RoundOrigin, Extends, Received, Taken, Writable, CanonicalMessage;
    forall i | 0 <= i < |e.rounds|
      ensures RoundOrigin(c, inputs, t.rounds[i]) && t.rounds[i].attestations != []
      ensures t.rounds[i].attestations[0] == e.rounds[i].attestations[0] {
      ExtendedOrigin(c, inputs, e.rounds[i], t.rounds[i]);
      OriginNotEmpty(c, inputs, t.rounds[i]);
    }
    if t.outputs != e.outputs {
      var o :| t.outputs == e.outputs + [o] && Harmless(inputs, o);
      BroadcastsAppended(e.outputs, o);
    }
  }

  lemma OriginNotEmpty(c: Config, inputs: seq<Input>, r: Round)
    requires RoundOrigin(c, inputs, r)
    ensures r.attestations != []
  {
  }

  lemma ReceiveExtends(c: Config, inputs: seq<Input>, e: Engine, a: Attestation)
    requires Valid(e) && Received(inputs, a)
    ensures ExtendsAll(inputs, e, ReceiveStep(c, e, a))
  {
    hide HasNode, Received;
    var t := ReceiveStep(c, e, a);
    if |t.outputs| > |e.outputs| {
      assert t.outputs == e.outputs + [t.outputs[|e.outputs|]] && Harmless(inputs, t.outputs[|e.outputs|]);
    }
  }

  lemma TimeoutExtends(c: Config, inputs: seq<Input>, e: Engine, id: string)
    requires Valid(e)
    ensures ExtendsAll(inputs, e, TimeoutStep(c, e, id))
  {
    var t := TimeoutStep(c, e, id);
    if |t.outputs| > |e.outputs| {
      assert t.outputs == e.outputs + [t.outputs[|e.outputs|]] && Harmless(inputs, t.outputs[|e.outputs|]);
    }
  }

  lemma CleanupExtends(inputs: seq<Input>, e: Engine, id: string)
    requires Valid(e)
    ensures ExtendsAll(inputs, e, CleanupStep(e, id))
  {
  }

  lemma SignedOpens(c: Config, front: seq<Input>, k: nat, signature: seq<byte>, publicKey: seq<byte>, now: int)
    requires var e := RunOf(c, front); OriginInv(c, front, e) && k < |e.signing|
    ensures var p := RunOf(c, front).signing[k];
      Opened(c, front + [Signed(k, signature, publicKey, now)], p.request, OwnAttestation(c, p, signature, publicKey, now))
  {
    hide RunOf, Writable, CanonicalMessage;
    var p, inputs := RunOf(c, front).signing[k], front + [Signed(k, signature, publicKey, now)];
    var h :| 0 <= h < |front| && front[h] == Propose(p.request);
    assert inputs[..|front|] == front && inputs[h] == front[h];
    assert OpenedBy(c, inputs, h, |front|, k, p.request, OwnAttestation(c, p, signature, publicKey, now));
  }

  /**
   * Over every interleaving: each round's first attestation, which is its one broadcast, carries the node, the
   * transfer, the kind and the canonical message of a proposal made before, and the signature, key and time that
   * were brought for that very proposal; every further attestation is one received, unchanged; and every reported
   * conflict is one received.
   */
  lemma {:induction false} AttestationOrigins(c: Config, inputs: seq<Input>)
    ensures OriginInv(c, inputs, RunOf(c, inputs))
  {
    hide OriginInv, ProposeStep, SignedStep, ReceiveStep, TimeoutStep, CleanupStep, ExtendsAll, Opened, Received, Taken;
    if inputs == [] {
      assert OriginInv(c, [], NEW_ENGINE) by { NewEngineOrigin(c); }
    } else {
      var front, input := inputs[..|inputs| - 1], inputs[|inputs| - 1];
      assert inputs == front + [input];
      var e := RunOf(c, front);
      AttestationOrigins(c, front);
      OriginLater(c, front, input, e);
      match input
      case Propose(r) => LastTaken(front, r); ProposeOrigin(c, inputs, e, r);
      case Signed(k, signature, publicKey, now) =>
        if k < |e.signing| {
          SignedOpens(c, front, k, signature, publicKey, now);
          SignedOrigin(c, inputs, e, k, signature, publicKey, now);
        } else {
          NothingSigned(c, e, k, signature, publicKey, now);
        }
      case SigningFailed(k) => if k < |e.signing| { FailureOrigin(c, inputs, e, k); }
      case Receive(a) => LastReceived(front, a); ReceiveExtends(c, inputs, e, a); ExtendedKeeps(c, inputs, e, ReceiveStep(c, e, a));
      case TimeoutFires(id) => TimeoutExtends(c, inputs, e, id); ExtendedKeeps(c, inputs, e, TimeoutStep(c, e, id));
      case CleanupFires(id) => CleanupExtends(inputs, e, id); ExtendedKeeps(c, inputs, e, CleanupStep(e, id));
    }
  }

  lemma NothingSigned(c: Config, e: Engine, k: nat, signature: seq<byte>, publicKey: seq<byte>, now: int)
    requires Valid(e) && k >= |e.signing|
    ensures SignedStep(c, e, k, signature, publicKey, now) == e
  {
  }

  lemma NewEngineOrigin(c: Config)
    ensures OriginInv(c, [], NEW_ENGINE)
  {
  }

  lemma LastTaken(front: seq<Input>, r: Request)
    ensures Taken(front + [Propose(r)], r)
  {
    assert (front + [Propose(r)])[|front|] == Propose(r);
  }

  lemma LastReceived(front: seq<Input>, a: Attestation)
    ensures Received(front + [Receive(a)], a)
  {
    assert (front + [Receive(a)])[|front|] == Receive(a);
  }

  // ---------------------------------------------------------------------------------------------
  // And every signature brought opens a round
  // ---------------------------------------------------------------------------------------------

  lemma {:induction false} BroadcastsGrow(outputs: seq<Output>, later: seq<Output>)
    requires outputs <= later
    ensures Broadcasts(outputs) <= Broadcasts(later)
  {
    if outputs != later {
      var front := later[..|later| - 1];
      BroadcastsGrow(outputs, front);
    }
  }

  lemma OpensNow(c: Config, e: Engine, k: nat, signature: seq<byte>, publicKey: seq<byte>, now: int)
    requires Valid(e) && k < |e.signing|
    ensures var t := SignedStep(c, e, k, signature, publicKey, now);
      && |t.rounds| == |e.rounds| + 1 && t.rounds[|e.rounds|].request == e.signing[k].request
      && t.rounds[|e.rounds|].attestations
         == [Attestation(c.nodeId, e.signing[k].request.transferId, e.signing[k].request.payload.DepositEvent?, signature,
                         publicKey, e.signing[k].message, now)]
  {
  }

  /** A signature brought for a waiting proposal opens a round of its request, made of that signature, key and time, for good. */
  lemma SignatureOpensRound(c: Config, inputs: seq<Input>, j: nat, k: nat, signature: seq<byte>, publicKey: seq<byte>, now: int)
    returns (i: nat)
    requires j < |inputs| && inputs[j] == Signed(k, signature, publicKey, now) && k < |RunOf(c, inputs[..j]).signing|
    ensures var r, e := RunOf(c, inputs[..j]).signing[k].request, RunOf(c, inputs);
      && i < |e.rounds| && e.rounds[i].request == r && e.rounds[i].attestations != [] && Writable(r)
      && e.rounds[i].attestations[0] == Attestation(c.nodeId, r.transferId, r.payload.DepositEvent?, signature, publicKey,
                                                    CanonicalMessage(r), now)
  {
    hide RunOf, Step, SignedStep, CanonicalMessage, Writable, RoundOrigin, Received, Taken;
    var before, after, e := RunOf(c, inputs[..j]), RunOf(c, inputs[..j + 1]), RunOf(c, inputs);
    i := |before.rounds|;
    RunOne(c, inputs, j);
    assert after == SignedStep(c, before, k, signature, publicKey, now) by { StepSigned(c, before, k, signature, publicKey, now); }
    OpensNow(c, before, k, signature, publicKey, now);
    AttestationOrigins(c, inputs[..j]);
    AttestationOrigins(c, inputs[..j + 1]);
    AttestationOrigins(c, inputs);
    DeliveredForGood(c, inputs, j + 1);
    BroadcastsGrow(after.outputs, e.outputs);
    assert Broadcasts(after.outputs)[i] == Broadcasts(e.outputs)[i];
  }

  lemma RunOne(c: Config, inputs: seq<Input>, j: nat)
    requires j < |inputs|
    ensures RunOf(c, inputs[..j + 1]) == Step(c, RunOf(c, inputs[..j]), inputs[j])
  {
    hide Step;
    assert inputs[..j + 1][..j] == inputs[..j];
  }

  lemma StepSigned(c: Config, e: Engine, k: nat, signature: seq<byte>, publicKey: seq<byte>, now: int)
    requires Valid(e)
    ensures Step(c, e, Signed(k, signature, publicKey, now)) == SignedStep(c, e, k, signature, publicKey, now)
  {
  }

  // ---------------------------------------------------------------------------------------------
  // The maps
  // ---------------------------------------------------------------------------------------------

  function ReachedCount(outputs: seq<Output>, id: string): nat {
    if outputs == [] then 0
    else
      var o := outputs[|outputs| - 1];
      ReachedCount(outputs[..|outputs| - 1], id) + if o.Reached? && o.transferId == id then 1 else 0
  }

  /** The round a transfer is taken to have: the latest one opened for it, until its cleanup. */
  function LatestRound(c: Config, inputs: seq<Input>, id: string): Option<nat> {
    if inputs == [] then None
    else
      var front, input := inputs[..|inputs| - 1], inputs[|inputs| - 1];
      var e := RunOf(c, front);
      match input
      case Signed(k, _, _, _) =>
        if k < |e.signing| && e.signing[k].request.transferId == id then Some(|e.rounds|) else LatestRound(c, front, id)
      case CleanupFires(i) => if i == id && CleanupsDue(c, front, id) > 0 then None else LatestRound(c, front, id)
      case _ => LatestRound(c, front, id)
  }

  /** The cleanups a transfer is due: one for each consensus reached on it, less those that came. */
  function CleanupsDue(c: Config, inputs: seq<Input>, id: string): int {
    if inputs == [] then 0
    else
      var front, input := inputs[..|inputs| - 1], inputs[|inputs| - 1];
      CleanupsDue(c, front, id)
      + ReachedCount(RunOf(c, inputs).outputs, id) - ReachedCount(RunOf(c, front).outputs, id)
      - if input == CleanupFires(id) && CleanupsDue(c, front, id) > 0 then 1 else 0
  }

  lemma ReachedAppended(outputs: seq<Output>, o: Output, id: string)
    ensures ReachedCount(outputs + [o], id) == ReachedCount(outputs, id) + if o.Reached? && o.transferId == id then 1 else 0
  {
    assert (outputs + [o])[..|outputs|] == outputs;
  }

  /** What a turn does to what a transfer's maps hold. */
  predicate MapsMoved(e: Engine, t: Engine, input: Input, id: string) {
    && ReachedCount(t.outputs, id) >= ReachedCount(e.outputs, id)
    && t.cleanups[id] == e.cleanups[id] + ReachedCount(t.outputs, id) - ReachedCount(e.outputs, id)
                         - (if input == CleanupFires(id) && e.cleanups[id] > 0 then 1 else 0)
    && (id in t.processed <==> id in e.processed || ReachedCount(t.outputs, id) > ReachedCount(e.outputs, id))
    && if input.Signed? && input.k < |e.signing| && e.signing[input.k].request.transferId == id then
         id in t.pending && t.pending[id] == |e.rounds|
       else if input == CleanupFires(id) && e.cleanups[id] > 0 then id !in t.pending
       else (id in t.pending <==> id in e.pending) && (id in e.pending ==> t.pending[id] == e.pending[id])
  }

  lemma OneOutput(e: Engine, t: Engine, id: string)
    requires t.outputs == e.outputs || (|t.outputs| > |e.outputs| && t.outputs == e.outputs + [t.outputs[|e.outputs|]])
    ensures ReachedCount(t.outputs, id) == ReachedCount(e.outputs, id)
      + if |t.outputs| > |e.outputs| && t.outputs[|e.outputs|].Reached? && t.outputs[|e.outputs|].transferId == id then 1 else 0
  {
    hide ReachedCount;
    if t.outputs != e.outputs {
      ReachedAppended(e.outputs, t.outputs[|e.outputs|], id);
    }
  }

  lemma SignedMoves(c: Config, e: Engine, input: Input, id: string)
    requires Valid(e) && input.Signed?
    ensures MapsMoved(e, SignedStep(c, e, input.k, input.signature, input.publicKey, input.now), input, id)
  {
    hide ReachedCount, OwnAttestation, Without;
    OneOutput(e, SignedStep(c, e, input.k, input.signature, input.publicKey, input.now), id);
  }

  lemma ReceiveMoves(c: Config, e: Engine, input: Input, id: string)
    requires Valid(e) && input.Receive?
    ensures MapsMoved(e, ReceiveStep(c, e, input.attestation), input, id)
  {
    hide ReachedCount, HasNode;
    OneOutput(e, ReceiveStep(c, e, input.attestation), id);
  }

  lemma TimeoutMoves(c: Config, e: Engine, input: Input, id: string)
    requires Valid(e) && input.TimeoutFires?
    ensures MapsMoved(e, TimeoutStep(c, e, input.transferId), input, id)
  {
    hide ReachedCount;
    OneOutput(e, TimeoutStep(c, e, input.transferId), id);
  }

  lemma MapsStep(c: Config, e: Engine, input: Input, id: string)
    requires Valid(e)
    ensures MapsMoved(e, Step(c, e, input), input, id)
  {
    hide ReachedCount, SignedStep, ReceiveStep, TimeoutStep, CanonicalMessage, Writable;
    match input
    case Signed(_, _, _, _) => SignedMoves(c, e, input, id);
    case Receive(_) => ReceiveMoves(c, e, input, id);
    case TimeoutFires(_) => TimeoutMoves(c, e, input, id);
    case _ =>
  }

  /**
   * Over every interleaving a transfer is processed exactly when consensus was reached on it, pending exactly under
   * the latest round opened for it that no cleanup has dropped, and due as many cleanups as it was reached and not
   * yet dropped.
   */
  lemma {:induction false} MapsAsHappened(c: Config, inputs: seq<Input>, id: string)
    ensures var e := RunOf(c, inputs);
      && (id in e.processed <==> ReachedCount(e.outputs, id) > 0)
      && LatestRound(c, inputs, id) == (if id in e.pending then Some(e.pending[id]) else None)
      && CleanupsDue(c, inputs, id) == e.cleanups[id]
  {
    hide Step, ReachedCount;
    if inputs == [] {
      assert ReachedCount([], id) == 0 by { NoneReached(id); }
    } else {
      MapsAsHappened(c, inputs[..|inputs| - 1], id);
      MapsStep(c, RunOf(c, inputs[..|inputs| - 1]), inputs[|inputs| - 1], id);
    }
  }

  lemma NoneReached(id: string)
    ensures ReachedCount([], id) == 0
  {
  }
}
