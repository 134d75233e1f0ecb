/**
 * The consensus engine as a state machine over its atomic turns. A proposal takes two turns, with the
 * wait for the signature between them; messages, timers and cleanups may come in any order.
 *
 * The engine's round objects are entries of `rounds`, referred to by index: a delivered result holds
 * the index of its round, so that it would see any later change to the round's attestations, as a
 * holder of the shared array does.
 */
module ConsensusState {
  import opened Messages
  import opened Bytes

  datatype Config = Config(nodeId: string, minValidators: int)

  datatype Attestation = Attestation(
    nodeId: string, transferId: string, forMint: bool, signature: seq<byte>, publicKey: seq<byte>, messageHash: seq<byte>,
    timestamp: int)

  datatype Round = Round(request: Request, attestations: seq<Attestation>, message: seq<byte>, resolved: bool)

  /** A proposal that waits for its signature. */
  datatype Proposal = Proposal(request: Request, message: seq<byte>)

  datatype Output =
    | Broadcast(attestation: Attestation)
    | Reached(transferId: string, round: nat, required: int, received: nat)
    | Failed(transferId: string, round: nat, required: int, received: nat)
    | ByzantineDetected(transferId: string, attestation: Attestation)

  datatype Engine = Engine(
    pending: map<string, nat>,
    processed: set<string>,
    rounds: seq<Round>,
    signing: seq<Proposal>,
    timeouts: multiset<string>,
    cleanups: multiset<string>,
    outputs: seq<Output>)

  datatype Input =
    | Propose(request: Request)
    | Signed(k: nat, signature: seq<byte>, publicKey: seq<byte>, now: int)
    | SigningFailed(k: nat)
    | Receive(attestation: Attestation)
    | TimeoutFires(transferId: string)
    | CleanupFires(transferId: string)

  const NEW_ENGINE := Engine(map[], {}, [], [], multiset{}, multiset{}, [])

  /** The map refers to existing rounds. */
  predicate Valid(e: Engine) { forall id :: id in e.pending ==> e.pending[id] < |e.rounds| }

  predicate HasNode(attestations: seq<Attestation>, nodeId: string) {
    exists i :: 0 <= i < |attestations| && attestations[i].nodeId == nodeId
  }

  function Without<T>(s: seq<T>, k: nat): seq<T>
    requires k < |s|
  {
    s[..k] + s[k + 1..]
  }

  /** First turn of proposeAttestation: the guards, the message, the request for a signature. */
  function ProposeStep(e: Engine, request: Request): Engine {
    if request.transferId in e.processed || request.transferId in e.pending || !Writable(request) then e
    else e.(signing := e.signing + [Proposal(request, CanonicalMessage(request))])
  }

  function OwnAttestation(c: Config, p: Proposal, signature: seq<byte>, publicKey: seq<byte>, now: int): Attestation {
    Attestation(c.nodeId, p.request.transferId, p.request.payload.DepositEvent?, signature, publicKey, p.message, now)
  }

  /** Second turn: the round is opened, whatever happened to the transfer meanwhile. */
  function SignedStep(c: Config, e: Engine, k: nat, signature: seq<byte>, publicKey: seq<byte>, now: int): (next: Engine)
    requires Valid(e)
    ensures Valid(next)
  {
    if k >= |e.signing| then e
    else
      var p := e.signing[k];
      var own := OwnAttestation(c, p, signature, publicKey, now);
      e.(signing := Without(e.signing, k),
         rounds := e.rounds + [Round(p.request, [own], p.message, false)],
         pending := e.pending[p.request.transferId := |e.rounds|],
         timeouts := e.timeouts + multiset{p.request.transferId},
         outputs := e.outputs + [Broadcast(own)])
  }

  /** checkConsensus. */
  function CheckStep(c: Config, e: Engine, id: string): (next: Engine)
    requires Valid(e)
    ensures Valid(next)
  {
    if id !in e.pending || e.rounds[e.pending[id]].resolved then e
    else
      var r := e.pending[id];
      var n := |e.rounds[r].attestations|;
      if n < c.minValidators then e
      else
        e.(rounds := e.rounds[r := e.rounds[r].(resolved := true)],
           processed := e.processed + {id},
           cleanups := e.cleanups + multiset{id},
           outputs := e.outputs + [Reached(id, r, c.minValidators, n)])
  }

  function ReceiveStep(c: Config, e: Engine, a: Attestation): (next: Engine)
    requires Valid(e)
    ensures Valid(next)
  {
    var id := a.transferId;
    if id !in e.pending then e
    else
      var r := e.pending[id];
      var round := e.rounds[r];
      if round.resolved || HasNode(round.attestations, a.nodeId) then e
      else if round.message != a.messageHash then e.(outputs := e.outputs + [ByzantineDetected(id, a)])
      else CheckStep(c, e.(rounds := e.rounds[r := round.(attestations := round.attestations + [a])]), id)
  }

  /** checkConsensusTimeout, when a timer set for the transfer fires. */
  function TimeoutStep(c: Config, e: Engine, id: string): (next: Engine)
    requires Valid(e)
    ensures Valid(next)
  {
    if id !in e.timeouts then e
    else
      var fired := e.(timeouts := e.timeouts - multiset{id});
      if id !in e.pending || e.rounds[e.pending[id]].resolved then fired
      else
        var r := e.pending[id];
        fired.(rounds := e.rounds[r := e.rounds[r].(resolved := true)],
               outputs := e.outputs + [Failed(id, r, c.minValidators, |e.rounds[r].attestations|)])
  }

  function CleanupStep(e: Engine, id: string): (next: Engine)
    requires Valid(e)
    ensures Valid(next)
  {
    if id !in e.cleanups then e
    else e.(cleanups := e.cleanups - multiset{id}, pending := e.pending - {id})
  }

  function Step(c: Config, e: Engine, input: Input): (next: Engine)
    requires Valid(e)
    ensures Valid(next)
  {
    match input
    case Propose(request) => ProposeStep(e, request)
    case Signed(k, signature, publicKey, now) => SignedStep(c, e, k, signature, publicKey, now)
    case SigningFailed(k) => if k < |e.signing| then e.(signing := Without(e.signing, k)) else e
    case Receive(a) => ReceiveStep(c, e, a)
    case TimeoutFires(id) => TimeoutStep(c, e, id)
    case CleanupFires(id) => CleanupStep(e, id)
  }

  function RunOf(c: Config, inputs: seq<Input>): (e: Engine)
    ensures Valid(e)
  {
    if inputs == [] then NEW_ENGINE else Step(c, RunOf(c, inputs[..|inputs| - 1]), inputs[|inputs| - 1])
  }
}
