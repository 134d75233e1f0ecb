/** The consensus engine: its maps, updated in place, with every turn proved to be one step of the state machine. */
module ConsensusEngine {
  import opened Options
  import opened Messages
  import opened ConsensusState
  import opened Bytes

  class ConsensusEngine {
    const config: Config
    var pendingConsensus: map<string, nat>
    var processedTransfers: set<string>
    var rounds: seq<Round>
    var signing: seq<Proposal>
    var timeouts: multiset<string>
    var cleanups: multiset<string>
    var emitted: seq<Output>

    ghost function State(): Engine
      reads this
    {
      Engine(pendingConsensus, processedTransfers, rounds, signing, timeouts, cleanups, emitted)
    }

    ghost predicate Valid()
      reads this
    {
      ConsensusState.Valid(State())
    }

    constructor (config: Config)
      ensures this.config == config && Valid() && State() == NEW_ENGINE
    {
      this.config := config;
      pendingConsensus := map[];
      processedTransfers := {};
      rounds := [];
      signing := [];
      timeouts := multiset{};
      cleanups := multiset{};
      emitted := [];
    }

    /** proposeAttestation up to its await: returns whether it went on to ask for a signature. */
    method ProposeAttestation(request: Request) returns (asked: bool)
      requires Valid()
      modifies this
      ensures Valid() && State() == ProposeStep(old(State()), request)
      ensures asked <==> |signing| > |old(signing)|
    {
      hide CanonicalMessage;
      asked := false;
      if request.transferId in processedTransfers {
        return;
      }
      if request.transferId in pendingConsensus {
        return;
      }
      var message := ConstructCanonicalMessage(request);
      match message
      case None =>
      case Some(m) =>
        signing := signing + [Proposal(request, m)];
        asked := true;
    }

    /** proposeAttestation after its await. */
    method FinishProposal(k: nat, signature: seq<byte>, publicKey: seq<byte>, now: int)
      requires Valid() && k < |signing|
      modifies this
      ensures Valid() && State() == SignedStep(config, old(State()), k, signature, publicKey, now)
    {
      var p := signing[k];
      signing := signing[..k] + signing[k + 1..];
      var id := p.request.transferId;
      var local := Attestation(config.nodeId, id, p.request.payload.DepositEvent?, signature, publicKey, p.message, now);
      var round := Round(p.request, [local], p.message, false);
      pendingConsensus := pendingConsensus[id := |rounds|];
      rounds := rounds + [round];
      emitted := emitted + [Broadcast(local)];
      timeouts := timeouts + multiset{id};
    }

    /** attestations.some(a => a.nodeId === nodeId). */
    static method SomeFrom(attestations: seq<Attestation>, nodeId: string) returns (found: bool)
      ensures found <==> HasNode(attestations, nodeId)
    {
      for i := 0 to |attestations|
        invariant !HasNode(attestations[..i], nodeId)
      {
        if attestations[i].nodeId == nodeId {
          return true;
        }
        assert forall j :: 0 <= j < i ==> attestations[..i][j] == attestations[j];
        assert attestations[..i + 1] == attestations[..i] + [attestations[i]];
      }
      assert attestations[..|attestations|] == attestations;
      return false;
    }

    method ReceiveAttestation(a: Attestation)
      requires Valid()
      modifies this
      ensures Valid() && State() == ReceiveStep(config, old(State()), a)
    {
      if a.transferId !in pendingConsensus {
        return;
      }
      var r := pendingConsensus[a.transferId];
      if rounds[r].resolved {
        return;
      }
      var duplicate := SomeFrom(rounds[r].attestations, a.nodeId);
      if duplicate {
        return;
      }
      if rounds[r].message != a.messageHash {
        emitted := emitted + [ByzantineDetected(a.transferId, a)];
        return;
      }
      rounds := rounds[r := rounds[r].(attestations := rounds[r].attestations + [a])];
      CheckConsensus(a.transferId);
    }

    method CheckConsensus(id: string)
      requires Valid()
      modifies this
      ensures Valid() && State() == CheckStep(config, old(State()), id)
    {
      if id !in pendingConsensus || rounds[pendingConsensus[id]].resolved {
        return;
      }
      var r := pendingConsensus[id];
      if |rounds[r].attestations| >= config.minValidators {
        rounds := rounds[r := rounds[r].(resolved := true)];
        processedTransfers := processedTransfers + {id};
        emitted := emitted + [Reached(id, r, config.minValidators, |rounds[r].attestations|)];
        cleanups := cleanups + multiset{id};
      }
    }

    /** A timer set by a proposal fires. */
    method CheckConsensusTimeout(id: string)
      requires Valid() && id in timeouts
      modifies this
      ensures Valid() && State() == TimeoutStep(config, old(State()), id)
    {
      timeouts := timeouts - multiset{id};
      if id !in pendingConsensus || rounds[pendingConsensus[id]].resolved {
        return;
      }
      var r := pendingConsensus[id];
      emitted := emitted + [Failed(id, r, config.minValidators, |rounds[r].attestations|)];
      rounds := rounds[r := rounds[r].(resolved := true)];
    }

    /** The cleanup timer of a reached consensus fires. */
    method Cleanup(id: string)
      requires Valid() && id in cleanups
      modifies this
      ensures Valid() && State() == CleanupStep(old(State()), id)
    {
      cleanups := cleanups - multiset{id};
      pendingConsensus := pendingConsensus - {id};
    }
  }
}
