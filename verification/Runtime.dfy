/** The coordination runtime as the objects it is made of, each method proved against the pure step it performs. */
module Runtimes {
  import opened Results
  import opened Bytes
  import opened Protocol
  import opened Ordering
  import opened Matching
  import opened Proposer
  import opened RoundMachines
  import opened CoordinationLogs
  import opened Artifacts
  import opened Preimages
  import opened Runs

  /**
    A first-in, first-out queue of messages. Over the in-process bus a flush changes nothing; over any
    other transport it leaves whatever segment the network hands over for the phase.
   */
  class Transport {
    const net: Network
    var queue: seq<Message>

    constructor (net: Network)
      ensures this.net == net && queue == []
    {
      this.net := net;
      queue := [];
    }

    method Broadcast(msg: Message)
      modifies this
      ensures queue == old(queue) + [msg]
    {
      queue := queue + [msg];
    }

    method Flush(round: RoundId, phase: Phase)
      modifies this
      ensures queue == net.Deliver(round, phase, old(queue))
    {
      match net {
        case InProcess =>
        case Delivered(segment) => queue := segment(round, phase, queue);
      }
    }

    method NextOrdered() returns (msg: Option<Message>)
      modifies this
      ensures match msg
              case None => old(queue) == [] && queue == []
              case Some(m) => old(queue) == [m] + queue
    {
      if queue == [] {
        return None;
      }
      msg := Some(queue[0]);
      queue := queue[1..];
    }
  }

  class CoordinationRuntime {
    const cfg: Config
    const transport: Transport
    const machine: RoundMachine
    var log: CoordinationLog
    var historical: map<(NodeId, RoundId), CommitmentRecord>

    predicate Valid() {
      machine.topology == cfg.topology
    }

    function View(): State
      reads this, machine, log
    {
      State(machine.View(), log.View(), historical)
    }

    constructor (cfg: Config, transport: Transport)
      ensures Valid() && this.cfg == cfg && this.transport == transport
      ensures fresh(machine) && fresh(log)
      ensures View() == Initial("run-pending")
    {
      this.cfg := cfg;
      this.transport := transport;
      machine := new RoundMachine(cfg.topology, 0);
      log := new CoordinationLog("run-pending");
      historical := map[];
    }

    method Note(round: RoundId, node: NodeId, kind: Kind, code: Code)
      modifies log
      ensures View() == Runs.Note(old(View()), round, node, kind, code)
    {
      log.AddRejection(RejectionRecord(round, node, kind, code));
    }

    // -------------------------------------------------------------------
    // Draining
    // -------------------------------------------------------------------

    method HandleCommitment(round: RoundId, msg: Message)
      requires Valid()
      modifies machine, log
      ensures View() == Take(cfg.topology, CommitPhase, old(View()), round, msg)
    {
      hide CommitmentRefusal, CodeOf;
      if !msg.payload.Commitment? {
        Note(round, msg.origin, msg.payload.Kind(), OutOfPhase);
        return;
      }
      var rec := msg.payload.commitment;
      if msg.origin != rec.nodeId {
        Note(round, msg.origin, CommitmentKind, OriginMismatch);
        return;
      }
      var accepted := machine.Commit(rec);
      if accepted.Success? {
        var added := log.AddCommitment(rec);
        if !added {
          Note(round, rec.nodeId, CommitmentKind, LogDuplicate);
        }
      } else {
        Note(round, rec.nodeId, CommitmentKind, CodeOf(accepted.error));
      }
    }

    method HandleProposal(round: RoundId, msg: Message)
      requires Valid()
      modifies machine, log
      ensures View() == Take(cfg.topology, ProposePhase, old(View()), round, msg)
    {
      hide ProposalRefusal, CodeOf;
      if !msg.payload.Proposal? {
        Note(round, msg.origin, msg.payload.Kind(), OutOfPhase);
        return;
      }
      var p := msg.payload.proposal;
      if msg.origin != p.proposer {
        Note(round, msg.origin, ProposalKind, OriginMismatch);
        return;
      }
      var accepted := machine.Propose(p);
      if accepted.Success? {
        log.AddProposal(p);
      } else {
        Note(round, p.proposer, ProposalKind, CodeOf(accepted.error));
      }
    }

    method HandleProof(round: RoundId, msg: Message)
      modifies log
      ensures View() == Take(cfg.topology, ProvePhase, old(View()), round, msg)
    {
      hide ExtractCommitmentHex;
      if !msg.payload.Proof? {
        Note(round, msg.origin, msg.payload.Kind(), OutOfPhase);
        return;
      }
      var p := msg.payload.proof;
      if msg.origin != p.nodeId {
        Note(round, msg.origin, ProofKind, OriginMismatch);
        return;
      }
      if p.round != round {
        Note(round, p.nodeId, ProofKind, WrongRound);
        return;
      }
      var embedded := ExtractCommitmentHex(p.publicInputsHex);
      if p.nodeId !in machine.commitments {
        Note(round, p.nodeId, ProofKind, UnknownCommitment);
        return;
      }
      if embedded != Some(machine.commitments[p.nodeId].hex) {
        Note(round, p.nodeId, ProofKind, PublicInputsMismatch);
        return;
      }
      log.AddProof(p);
    }

    method HandleReceipt(round: RoundId, msg: Message)
      modifies log
      ensures View() == Take(cfg.topology, ReceiptPhase, old(View()), round, msg)
    {
      if !msg.payload.Receipt? {
        Note(round, msg.origin, msg.payload.Kind(), OutOfPhase);
        return;
      }
      var r := msg.payload.receipt;
      if msg.origin != r.provider {
        Note(round, msg.origin, ReceiptKind, OriginMismatch);
        return;
      }
      if r.round != round {
        Note(round, r.provider, ReceiptKind, WrongRound);
        return;
      }
      if r.signatureHex == "" {
        Note(round, r.provider, ReceiptKind, MissingSignature);
        return;
      }
      log.AddReceipt(r);
    }

    method DrainCommitments(round: RoundId)
      requires Valid()
      modifies machine, log, transport
      ensures View() == Drain(cfg.topology, CommitPhase, old(View()), round, old(transport.queue))
              && transport.queue == []
    {
      hide Take;
      var next := transport.NextOrdered();
      while next.Some?
        invariant Drain(cfg.topology, CommitPhase, View(), round, Pending(next, transport.queue))
               == Drain(cfg.topology, CommitPhase, old(View()), round, old(transport.queue))
        invariant next.None? ==> transport.queue == []
        decreases |Pending(next, transport.queue)|
      {
        HandleCommitment(round, next.value);
        next := transport.NextOrdered();
      }
    }

    method DrainProposal(round: RoundId)
      requires Valid()
      modifies machine, log, transport
      ensures View() == Drain(cfg.topology, ProposePhase, old(View()), round, old(transport.queue))
              && transport.queue == []
    {
      hide Take;
      var next := transport.NextOrdered();
      while next.Some?
        invariant Drain(cfg.topology, ProposePhase, View(), round, Pending(next, transport.queue))
               == Drain(cfg.topology, ProposePhase, old(View()), round, old(transport.queue))
        invariant next.None? ==> transport.queue == []
        decreases |Pending(next, transport.queue)|
      {
        HandleProposal(round, next.value);
        next := transport.NextOrdered();
      }
    }

    method DrainProofs(round: RoundId)
      modifies log, transport
      ensures View() == Drain(cfg.topology, ProvePhase, old(View()), round, old(transport.queue))
              && transport.queue == []
    {
      hide Take;
      var next := transport.NextOrdered();
      while next.Some?
        invariant Drain(cfg.topology, ProvePhase, View(), round, Pending(next, transport.queue))
               == Drain(cfg.topology, ProvePhase, old(View()), round, old(transport.queue))
        invariant next.None? ==> transport.queue == []
        decreases |Pending(next, transport.queue)|
      {
        HandleProof(round, next.value);
        next := transport.NextOrdered();
      }
    }

    method DrainReceipts(round: RoundId)
      modifies log, transport
      ensures View() == Drain(cfg.topology, ReceiptPhase, old(View()), round, old(transport.queue))
              && transport.queue == []
    {
      hide Take;
      var next := transport.NextOrdered();
      while next.Some?
        invariant Drain(cfg.topology, ReceiptPhase, View(), round, Pending(next, transport.queue))
               == Drain(cfg.topology, ReceiptPhase, old(View()), round, old(transport.queue))
        invariant next.None? ==> transport.queue == []
        decreases |Pending(next, transport.queue)|
      {
        HandleReceipt(round, next.value);
        next := transport.NextOrdered();
      }
    }

    // -------------------------------------------------------------------
    // Broadcasting
    // -------------------------------------------------------------------

    method BroadcastReplays(events: seq<Event>, round: RoundId)
      modifies transport
      ensures transport.queue == old(transport.queue) + Replays(events, historical, round)
    {
      assert events[..0] == [];
      for i := 0 to |events|
        invariant transport.queue + Replays(events[i..], historical, round)
               == old(transport.queue) + Replays(events, historical, round)
      {
        var e := events[i];
        assert events[i..][0] == e && events[i..][1..] == events[i + 1..];
        if e.ReplayPriorCommitment? && (e.node, e.fromRound) in historical {
          var prior := historical[(e.node, e.fromRound)];
          transport.Broadcast(Message(e.node, Commitment(Relabelled(prior, round))));
        }
      }
      assert events[|events|..] == [];
    }

    method BroadcastDoubles(events: seq<Event>)
      modifies transport
      ensures transport.queue == old(transport.queue) + Doubles(events, historical)
    {
      for i := 0 to |events|
        invariant transport.queue + Doubles(events[i..], historical)
                == old(transport.queue) + Doubles(events, historical)
      {
        var e := events[i];
        assert events[i..][0] == e && events[i..][1..] == events[i + 1..];
        if e.DoubleCommit? && (e.node, e.round) in historical {
          transport.Broadcast(Message(e.node, Commitment(historical[(e.node, e.round)])));
        }
      }
      assert events[|events|..] == [];
    }

    /** One node's turn: its replays, then silence or its commitment and the duplicates of it. */
    method BroadcastNode(node: NodeId, round: RoundId) returns (r: Result<(), RuntimeError>)
      requires Valid()
      modifies this, log, transport
      ensures log == old(log)
      ensures match NodeTurn(cfg, old(View()), node, round)
              case Success(sent) =>
                r == Success(()) && View() == sent.state && transport.queue == old(transport.queue) + sent.messages
              case Failure(e) => r == Failure(e)
    {
      hide BuildCommitment, HasDropped, Replays, Doubles;
      var events := EventsForRound(cfg.events, node, round);
      BroadcastReplays(events, round);
      if HasDropped(cfg.events, node, round) {
        Note(round, node, CommitmentKind, NodeDropped);
        return Success(());
      }
      var base := BuildCommitment(cfg, node, round);
      if base.Failure? {
        return Failure(base.error);
      }
      historical := historical[(node, round) := base.value];
      transport.Broadcast(Message(node, Commitment(base.value)));
      BroadcastDoubles(events);
      return Success(());
    }

    method BroadcastCommitments(round: RoundId) returns (r: Result<(), RuntimeError>)
      requires Valid()
      modifies this, log, transport
      ensures log == old(log)
      ensures match Runs.BroadcastCommitments(cfg, old(View()), round)
              case Success(sent) =>
                r == Success(()) && View() == sent.state && transport.queue == old(transport.queue) + sent.messages
              case Failure(e) => r == Failure(e)
    {
      hide NodeTurn, Turns, Prepend, SortedKeys;
      var nodes := SortedKeys(cfg.agents.Keys);
      ghost var whole := Turns(cfg, View(), nodes, round);
      assert transport.queue + [] == transport.queue && nodes[0..] == nodes;
      ghost var sent: seq<Message> := [];
      PrependNothing(whole);
      for i := 0 to |nodes|
        invariant log == old(log)
        invariant transport.queue == old(transport.queue) + sent
        invariant whole == Prepend(sent, Turns(cfg, View(), nodes[i..], round))
      {
        ghost var turn := NodeTurn(cfg, View(), nodes[i], round);
        TurnsStep(cfg, View(), nodes, i, round);
        r := BroadcastNode(nodes[i], round);
        if r.Failure? {
          PrependFailure(sent, r.error);
          return;
        }
        PrependMore(sent, turn.value.messages, Turns(cfg, View(), nodes[i + 1..], round));
        sent := sent + turn.value.messages;
      }
      TurnsEnd(cfg, View(), nodes, round, sent);
      return Success(());
    }

    /** Whether the round goes on to drain the propose phase. */
    method BroadcastProposal(round: RoundId) returns (r: Result<bool, RuntimeError>)
      requires Valid()
      modifies log, transport
      ensures match Runs.BroadcastProposal(cfg, old(View()), round)
              case Success(turn) =>
                r == Success(turn.proceed) && View() == turn.state
                    && transport.queue == old(transport.queue) + turn.messages
              case Failure(e) => r == Failure(e)
    {
      hide Derive, ProposerOf, SortedKeys, Others;
      var elected := machine.CurrentProposer();
      if elected.Failure? {
        return Failure(RoundFailed(elected.error));
      }
      var proposer := elected.value;
      if proposer !in cfg.agents {
        assert transport.queue + [] == transport.queue;
        return Success(true);
      }
      var requester := cfg.topology.SoleRequester();
      if requester.None? {
        return Failure(Panicked);
      }
      var id := requester.value.id;
      if id !in machine.commitments {
        Note(round, proposer, ProposalKind, CodeRequesterMissing);
        assert transport.queue + [] == transport.queue;
        return Success(false);
      }
      var providers := ProviderSnapshot(machine.View(), id);
      var candidate := DeriveCandidate(round, machine.commitments[id], providers);
      match candidate {
        case Failure(e) =>
          Note(round, proposer, ProposalKind, CandidateError(e));
          assert transport.queue + [] == transport.queue;
          return Success(false);
        case Success(None) =>
          Note(round, proposer, ProposalKind, NoFeasibleProvider);
          assert transport.queue + [] == transport.queue;
          return Success(false);
        case Success(Some(c)) =>
          var p := ProposalRecord(proposer, round, c.requester, c.provider, c.matched);
          transport.Broadcast(Message(proposer, Proposal(p)));
          return Success(true);
      }
    }

    method BroadcastProofs(round: RoundId, p: ProposalRecord) returns (r: Result<(), RuntimeError>)
      requires Valid()
      modifies transport
      ensures match ProofMessages(cfg, machine.View(), round, [p.requester, p.provider])
              case Success(msgs) => r == Success(()) && transport.queue == old(transport.queue) + msgs
              case Failure(e) => r == Failure(e)
    {
      hide ProofFor, Tampered, ProofIsTampered;
      var participants := [p.requester, p.provider];
      ghost var whole := ProofMessages(cfg, machine.View(), round, participants);
      ghost var sent: seq<Message> := [];
      assert participants[0..] == participants && transport.queue + [] == transport.queue;
      PrependNoMessages(whole);
      for i := 0 to 2
        invariant transport.queue == old(transport.queue) + sent
        invariant whole == PrependMessages(sent, ProofMessages(cfg, machine.View(), round, participants[i..]))
      {
        var node := participants[i];
        assert participants[i..][0] == node && participants[i..][1..] == participants[i + 1..];
        if node in cfg.agents {
          if node !in machine.commitments {
            return Failure(Panicked);
          }
          var artifact := BuildProofArtifact(cfg.crypto, machine.commitments[node], node, round);
          if ProofIsTampered(cfg.events, node, round) {
            artifact := artifact.(publicInputsHex := Tampered(artifact.publicInputsHex));
          }
          assert artifact == ProofOf(cfg, machine.commitments[node], node, round);
          transport.Broadcast(Message(node, Proof(artifact)));
          PrependOne(sent, Message(node, Proof(artifact)),
                     ProofMessages(cfg, machine.View(), round, participants[i + 1..]));
          sent := sent + [Message(node, Proof(artifact))];
        }
      }
      assert participants[2..] == [] && sent + [] == sent;
      return Success(());
    }

    method BroadcastReceipt(round: RoundId, p: ProposalRecord)
      modifies transport
      ensures transport.queue == old(transport.queue) + ReceiptMessages(cfg, round, p)
    {
      if p.provider !in cfg.agents {
        assert transport.queue + [] == transport.queue;
        return;
      }
      var agent := cfg.agents[p.provider];
      var message := BuildReceiptMessage(p.provider, round, p.matched);
      var signature: string;
      match SeedOf(agent) {
        case Some(seed) => signature := HexEncode(cfg.crypto.sign(seed, message));
        case None => signature := HexEncode(LegacySignature(cfg.crypto, p.provider, round, p.matched));
      }
      transport.Broadcast(Message(p.provider, Receipt(ReceiptRecord(p.provider, round, signature))));
    }

    // -------------------------------------------------------------------
    // Rounds and runs
    // -------------------------------------------------------------------

    /** From the prove phase on, for the round's logged proposal. */
    method ProveAndSettle(round: RoundId, p: ProposalRecord) returns (r: Result<bool, RuntimeError>)
      requires Valid() && transport.queue == []
      modifies machine, log, transport
      ensures match ProveRound(cfg, transport.net, old(View()), round, p)
              case Success(result) => r == Success(result.finalized) && View() == result.state && transport.queue == []
              case Failure(e) => r == Failure(e)
    {
      hide Drain, ProofMessages, ReceiptMessages, HasProof;
      var proved := BroadcastProofs(round, p);
      if proved.Failure? {
        return Failure(proved.error);
      }
      assert transport.queue == ProofMessages(cfg, machine.View(), round, [p.requester, p.provider]).value;
      transport.Flush(round, ProvePhase);
      DrainProofs(round);
      var requesterProved := HasProof(log.proofs, p.requester, round);
      var providerProved := HasProof(log.proofs, p.provider, round);
      if !(requesterProved && providerProved) {
        return Success(false);
      }
      BroadcastReceipt(round, p);
      assert transport.queue == ReceiptMessages(cfg, round, p);
      transport.Flush(round, ReceiptPhase);
      DrainReceipts(round);
      return Success(true);
    }

    method ProposeAndOn(round: RoundId) returns (r: Result<bool, RuntimeError>)
      requires Valid() && transport.queue == []
      modifies machine, log, transport
      ensures match ProposeRound(cfg, transport.net, old(View()), round)
              case Success(result) => r == Success(result.finalized) && View() == result.state && transport.queue == []
              case Failure(e) => r == Failure(e)
    {
      hide Drain, Runs.BroadcastProposal, ProveRound, LastProposal;
      var proceed := BroadcastProposal(round);
      if proceed.Failure? {
        return Failure(proceed.error);
      }
      if !proceed.value {
        StoppingSendsNothing(cfg, old(View()), round);
        return Success(false);
      }
      assert transport.queue == Runs.BroadcastProposal(cfg, old(View()), round).value.messages;
      transport.Flush(round, ProposePhase);
      DrainProposal(round);
      var landed := LastProposal(log.proposals, round);
      if landed.None? {
        return Success(false);
      }
      r := ProveAndSettle(round, landed.value);
    }

    /** Messages the transport already holds are drained with the round's commitments. */
    method RunOneRound(round: RoundId) returns (r: Result<bool, RuntimeError>)
      requires Valid() && round == machine.current
      modifies this, machine, log, transport
      ensures log == old(log)
      ensures match RunRound(cfg, Primed(transport.net, old(transport.queue), round), old(View()))
              case Success(result) => r == Success(result.finalized) && View() == result.state && transport.queue == []
              case Failure(e) => r == Failure(e)
    {
      hide Drain, Turns, ProposeRound;
      var committed := BroadcastCommitments(round);
      if committed.Failure? {
        return Failure(committed.error);
      }
      transport.Flush(round, CommitPhase);
      DrainCommitments(round);
      var requester := cfg.topology.SoleRequester();
      if requester.None? {
        return Failure(Panicked);
      }
      if requester.value.id !in machine.commitments {
        Note(round, requester.value.id, RoundKind, CodeRequesterMissing);
        return Success(false);
      }
      PrimingEndsWithCommitments(cfg, transport.net, old(transport.queue), View(), round);
      r := ProposeAndOn(round);
    }

    method AdvanceFallback() returns (r: Result<(), RuntimeError>)
      requires Valid()
      modifies machine
      ensures match Fallback(old(View()))
              case Success(s) => r == Success(()) && View() == s
              case Failure(e) => r == Failure(e)
      ensures r.Success? ==> machine.current == old(machine.current) + 1
    {
      if machine.current + 1 >= 0x1_0000_0000_0000_0000 {
        return Failure(Panicked);
      }
      var advanced := machine.Advance(machine.current + 1);
      assert advanced.Success?;
      return Success(());
    }

    /** Runs rounds until one finalizes, one fails or the bound is reached. */
    method Run(runId: string) returns (r: Result<RunOutcome, RuntimeError>)
      requires Valid() && machine.View() == NewMachine(0) && historical == map[]
      requires ConfigRefusal(cfg).None?
      modifies this, machine, log, transport
      ensures r == Runs.Run(cfg, Primed(transport.net, old(transport.queue), 0), runId)
      ensures r.Success? ==> transport.queue == if cfg.maxRounds == 0 then old(transport.queue) else []
    {
      hide RunRound, Fallback, ConfigRefusal;
      log := new CoordinationLog(runId);
      var finalized, finalRound: RoundId := false, 0;
      ghost var net := Primed(transport.net, old(transport.queue), 0);
      ghost var whole := Rounds(cfg, net, Initial(runId), 0, cfg.maxRounds);
      for i := 0 to cfg.maxRounds
        invariant fresh(log) && !finalized
        invariant transport.queue == if i == 0 then old(transport.queue) else []
        invariant machine.current == 0 <==> i == 0
        invariant Rounds(cfg, net, View(), finalRound, cfg.maxRounds - i) == whole
      {
        var round := machine.current;
        finalRound := round;
        PrimedOnce(cfg, transport.net, old(transport.queue), View());
        var outcome := RunOneRound(round);
        if outcome.Failure? {
          return Failure(outcome.error);
        }
        if outcome.value {
          finalized := true;
          break;
        }
        var advanced := AdvanceFallback();
        if advanced.Failure? {
          return Failure(advanced.error);
        }
      }
      assert whole == Success(Ending(View(), finalRound, finalized));
      log.SetFinalRound(finalRound, finalized);
      if !finalized {
        log.SetAbortReason(MaxRoundsExceeded);
      }
      return Success(RunOutcome(log.View(), finalized, finalRound));
    }

    /** The same loop again, handing the transport back for another session. */
    method RunWithTransport(runId: string) returns (r: Result<(RunOutcome, Transport), RuntimeError>)
      requires Valid() && machine.View() == NewMachine(0) && historical == map[]
      requires ConfigRefusal(cfg).None?
      modifies this, machine, log, transport
      ensures match Runs.Run(cfg, Primed(transport.net, old(transport.queue), 0), runId)
              case Success(outcome) =>
                && r == Success((outcome, transport))
                && transport.queue == if cfg.maxRounds == 0 then old(transport.queue) else []
              case Failure(e) => r == Failure(e)
    {
      hide RunRound, Fallback, ConfigRefusal;
      log := new CoordinationLog(runId);
      var finalized, finalRound: RoundId := false, 0;
      ghost var net := Primed(transport.net, old(transport.queue), 0);
      ghost var whole := Rounds(cfg, net, Initial(runId), 0, cfg.maxRounds);
      for i := 0 to cfg.maxRounds
        invariant fresh(log) && !finalized
        invariant transport.queue == if i == 0 then old(transport.queue) else []
        invariant machine.current == 0 <==> i == 0
        invariant Rounds(cfg, net, View(), finalRound, cfg.maxRounds - i) == whole
      {
        var round := machine.current;
        finalRound := round;
        PrimedOnce(cfg, transport.net, old(transport.queue), View());
        var outcome := RunOneRound(round);
        if outcome.Failure? {
          return Failure(outcome.error);
        }
        if outcome.value {
          finalized := true;
          break;
        }
        var advanced := AdvanceFallback();
        if advanced.Failure? {
          return Failure(advanced.error);
        }
      }
      assert whole == Success(Ending(View(), finalRound, finalized));
      log.SetFinalRound(finalRound, finalized);
      if !finalized {
        log.SetAbortReason(MaxRoundsExceeded);
      }
      return Success((RunOutcome(log.View(), finalized, finalRound), transport));
    }
  }

  /** The messages still to be handled once `next` has been taken off the queue. */
  function Pending(next: Option<Message>, queue: seq<Message>): seq<Message> {
    if next.None? then queue else [next.value] + queue
  }

  ghost function Prepend(sent: seq<Message>, rest: Result<Sent, RuntimeError>): Result<Sent, RuntimeError> {
    match rest
    case Success(x) => Success(Sent(x.state, sent + x.messages))
    case Failure(e) => Failure(e)
  }

  lemma PrependNothing(rest: Result<Sent, RuntimeError>)
    ensures Prepend([], rest) == rest
  {
    if rest.Success? {
      assert [] + rest.value.messages == rest.value.messages;
    }
  }

  lemma PrependFailure(sent: seq<Message>, e: RuntimeError)
    ensures Prepend(sent, Failure(e)) == Failure(e)
  {
  }

  lemma TurnsStep(cfg: Config, s: State, nodes: seq<NodeId>, i: nat, round: RoundId)
    requires i < |nodes|
    ensures Turns(cfg, s, nodes[i..], round) ==
      match NodeTurn(cfg, s, nodes[i], round)
      case Success(first) => Prepend(first.messages, Turns(cfg, first.state, nodes[i + 1..], round))
      case Failure(e) => Failure(e)
  {
    hide NodeTurn;
    assert nodes[i..][0] == nodes[i] && nodes[i..][1..] == nodes[i + 1..];
  }

  lemma TurnsEnd(cfg: Config, s: State, nodes: seq<NodeId>, round: RoundId, sent: seq<Message>)
    ensures Prepend(sent, Turns(cfg, s, nodes[|nodes|..], round)) == Success(Sent(s, sent))
  {
    assert nodes[|nodes|..] == [] && sent + [] == sent;
  }

  lemma PrependMore(sent: seq<Message>, more: seq<Message>, rest: Result<Sent, RuntimeError>)
    ensures Prepend(sent, Prepend(more, rest)) == Prepend(sent + more, rest)
  {
    if rest.Success? {
      assert sent + (more + rest.value.messages) == sent + more + rest.value.messages;
    }
  }

  ghost function PrependMessages(sent: seq<Message>, rest: Result<seq<Message>, RuntimeError>)
    : Result<seq<Message>, RuntimeError>
  {
    match rest
    case Success(x) => Success(sent + x)
    case Failure(e) => Failure(e)
  }

  lemma PrependNoMessages(rest: Result<seq<Message>, RuntimeError>)
    ensures PrependMessages([], rest) == rest
  {
    if rest.Success? {
      assert [] + rest.value == rest.value;
    }
  }

  lemma PrependOne(sent: seq<Message>, msg: Message, rest: Result<seq<Message>, RuntimeError>)
    ensures PrependMessages(sent, PrependMessages([msg], rest)) == PrependMessages(sent + [msg], rest)
  {
    if rest.Success? {
      assert sent + ([msg] + rest.value) == sent + [msg] + rest.value;
    }
  }

  lemma StoppingSendsNothing(cfg: Config, s: State, round: RoundId)
    requires Runs.BroadcastProposal(cfg, s, round).Success? && !Runs.BroadcastProposal(cfg, s, round).value.proceed
    ensures Runs.BroadcastProposal(cfg, s, round).value.messages == []
  {
    hide Derive, ProviderSnapshot, ProposerOf;
  }

  /** What the constructor checks before it builds anything. */
  method CheckConfig(cfg: Config) returns (refusal: Option<RuntimeError>)
    ensures refusal == ConfigRefusal(cfg)
  {
    if CountRole(cfg.topology.nodes, Requester) != 1 {
      return Some(NoRequester);
    }
    if CountRole(cfg.topology.nodes, Provider) == 0 {
      return Some(NoProvidersConfigured);
    }
    var ids := SortedKeys(cfg.agents.Keys);
    for i := 0 to |ids|
      invariant FirstStranger(cfg.topology, ids) == FirstStranger(cfg.topology, ids[i..])
    {
      assert ids[i..][0] == ids[i] && ids[i..][1..] == ids[i + 1..];
      if cfg.topology.Find(ids[i]).None? {
        return Some(MissingPrivateIntent(ids[i]));
      }
    }
    assert ids[|ids|..] == [];
    if cfg.agents == map[] {
      return Some(NoLocalAgent);
    }
    return None;
  }

  /** The network as it acts on a transport that already holds `pending` when round `start` begins. */
  function Primed(net: Network, pending: seq<Message>, start: RoundId): Network {
    Delivered((round: RoundId, phase: Phase, sent: seq<Message>) =>
      net.Deliver(round, phase, if round == start && phase == CommitPhase then pending + sent else sent))
  }

  /** A round depends on the network only through what it delivers in that round. */
  lemma RoundByDelivery(cfg: Config, net: Network, net': Network, s: State)
    requires forall phase, sent ::
      net.Deliver(s.machine.current, phase, sent) == net'.Deliver(s.machine.current, phase, sent)
    ensures RunRound(cfg, net, s) == RunRound(cfg, net', s)
  {
    hide Drain, Runs.BroadcastProposal, Runs.BroadcastCommitments, ProofMessages, ReceiptMessages, HasProof,
         LastProposal;
  }

  lemma {:induction false} RoundsByDelivery(cfg: Config, net: Network, net': Network, s: State, finalRound: RoundId,
                                            left: nat)
    requires forall round, phase, sent :: net.Deliver(round, phase, sent) == net'.Deliver(round, phase, sent)
    ensures Rounds(cfg, net, s, finalRound, left) == Rounds(cfg, net', s, finalRound, left)
    decreases left
  {
    hide RunRound, Fallback;
    if left > 0 {
      RoundByDelivery(cfg, net, net', s);
      var result := RunRound(cfg, net, s);
      if result.Success? && !result.value.finalized && Fallback(result.value.state).Success? {
        RoundsByDelivery(cfg, net, net', Fallback(result.value.state).value, s.machine.current, left - 1);
      }
    }
  }

  /** Past the commit phase of its round, what a transport held at the start plays no part. */
  lemma PrimingEndsWithCommitments(cfg: Config, net: Network, pending: seq<Message>, s: State, round: RoundId)
    ensures ProposeRound(cfg, Primed(net, pending, round), s, round) == ProposeRound(cfg, net, s, round)
  {
    hide Drain, Runs.BroadcastProposal, ProofMessages, ReceiptMessages, HasProof, LastProposal;
  }

  /** And past the first round neither. */
  lemma PrimedOnce(cfg: Config, net: Network, pending: seq<Message>, s: State)
    ensures var now := if s.machine.current == 0 then pending else [];
      RunRound(cfg, Primed(net, now, s.machine.current), s) == RunRound(cfg, Primed(net, pending, 0), s)
  {
    var now := if s.machine.current == 0 then pending else [];
    hide RunRound;
    forall phase, sent: seq<Message>
      ensures Primed(net, now, s.machine.current).Deliver(s.machine.current, phase, sent)
           == Primed(net, pending, 0).Deliver(s.machine.current, phase, sent)
    {
      assert [] + sent == sent;
    }
    RoundByDelivery(cfg, Primed(net, now, s.machine.current), Primed(net, pending, 0), s);
  }

  /** A transport that holds nothing acts as its network. */
  lemma PrimedWithNothing(cfg: Config, net: Network, runId: string)
    ensures Runs.Run(cfg, Primed(net, [], 0), runId) == Runs.Run(cfg, net, runId)
  {
    hide Rounds, ConfigRefusal;
    forall round, phase, sent: seq<Message>
      ensures Primed(net, [], 0).Deliver(round, phase, sent) == net.Deliver(round, phase, sent)
    {
      assert [] + sent == sent;
    }
    RoundsByDelivery(cfg, Primed(net, [], 0), net, Initial(runId), 0, cfg.maxRounds);
  }

  /** Builds a runtime over a fresh transport and runs it: the whole behaviour is the function `Runs.Run`. */
  method Coordinate(cfg: Config, net: Network, runId: string) returns (r: Result<RunOutcome, RuntimeError>)
    ensures r == Runs.Run(cfg, net, runId)
  {
    var refusal := CheckConfig(cfg);
    if refusal.Some? {
      return Failure(refusal.value);
    }
    var transport := new Transport(net);
    var runtime := new CoordinationRuntime(cfg, transport);
    r := runtime.Run(runId);
    PrimedWithNothing(cfg, net, runId);
  }
}
