/**
  Runs over the in-process bus: every log they produce is accepted by the standalone verifier,
  finalized or aborted, whatever the scenario injects.
 */
module Completeness {
  import opened Results
  import opened Bytes
  import opened Protocol
  import opened Ordering
  import opened Proposer
  import opened RoundMachines
  import opened CoordinationLogs
  import opened Artifacts
  import opened Preimages
  import opened Runs
  import opened Verifier
  import opened Coupling
  import opened Soundness

  /** The hex of a 32-byte digest, in the form the encoder writes. */
  ghost predicate Canonical(hex: string) {
    exists d: Bytes32 :: HexEncode(d) == hex
  }

  ghost predicate AllCanonical(cs: seq<CommitmentRecord>) {
    forall c :: c in cs ==> Canonical(c.hex)
  }

  /** The replay memory is filed by author and holds digests. */
  ghost predicate Filed(historical: map<(NodeId, RoundId), CommitmentRecord>) {
    forall k :: k in historical ==> historical[k].nodeId == k.0 && Canonical(historical[k].hex)
  }

  ghost predicate AllShaped(cs: seq<CommitmentRecord>, ps: seq<ProofRecord>) {
    forall p :: p in ps ==> WellShaped(cs, p)
  }

  /** What holds of an in-process state beyond coupling. */
  ghost predicate Honest(s: State) {
    Filed(s.historical) && AllCanonical(s.log.commitments) && AllShaped(s.log.commitments, s.log.proofs)
  }

  // ---------------------------------------------------------------------
  // Commit phase
  // ---------------------------------------------------------------------

  ghost predicate IsCommitmentMessage(m: Message) {
    m.payload.Commitment? && m.origin == m.payload.commitment.nodeId && Canonical(m.payload.commitment.hex)
  }

  ghost predicate CommitmentMessages(msgs: seq<Message>) {
    forall m :: m in msgs ==> IsCommitmentMessage(m)
  }

  lemma BuiltCommitment(cfg: Config, node: NodeId, round: RoundId)
    requires BuildCommitment(cfg, node, round).Success?
    ensures var b := BuildCommitment(cfg, node, round).value;
      b.nodeId == node && b.round == round && Canonical(b.hex)
  {
    hide Digest, HexEncode;
  }

  lemma {:induction false} ReplaysAreFiled(events: seq<Event>, historical: map<(NodeId, RoundId), CommitmentRecord>,
                                           round: RoundId)
    requires Filed(historical)
    ensures CommitmentMessages(Replays(events, historical, round))
  {
    hide Canonical;
    if events != [] {
      ReplaysAreFiled(events[1..], historical, round);
    }
  }

  lemma {:induction false} DoublesAreFiled(events: seq<Event>, historical: map<(NodeId, RoundId), CommitmentRecord>)
    requires Filed(historical)
    ensures CommitmentMessages(Doubles(events, historical))
  {
    hide Canonical;
    if events != [] {
      DoublesAreFiled(events[1..], historical);
    }
  }

  lemma NodeTurnIsHonest(cfg: Config, s: State, node: NodeId, round: RoundId)
    requires Filed(s.historical) && NodeTurn(cfg, s, node, round).Success?
    ensures var sent := NodeTurn(cfg, s, node, round).value;
      Filed(sent.state.historical) && CommitmentMessages(sent.messages)
  {
    var events := EventsForRound(cfg.events, node, round);
    ReplaysAreFiled(events, s.historical, round);
    if !HasDropped(cfg.events, node, round) {
      BuiltCommitment(cfg, node, round);
      hide Canonical, BuildCommitment, HasDropped;
      var base := BuildCommitment(cfg, node, round).value;
      var historical := s.historical[(node, round) := base];
      assert Filed(historical);
      DoublesAreFiled(events, historical);
    }
  }

  lemma {:induction false} TurnsAreHonest(cfg: Config, s: State, nodes: seq<NodeId>, round: RoundId)
    requires Filed(s.historical) && Turns(cfg, s, nodes, round).Success?
    ensures var sent := Turns(cfg, s, nodes, round).value;
      Filed(sent.state.historical) && CommitmentMessages(sent.messages)
    decreases |nodes|
  {
    hide NodeTurn, Filed, IsCommitmentMessage;
    if nodes != [] {
      NodeTurnIsHonest(cfg, s, nodes[0], round);
      TurnsAreHonest(cfg, NodeTurn(cfg, s, nodes[0], round).value.state, nodes[1..], round);
    }
  }

  lemma {:induction false} DrainKeepsCanonical(t: Topology, s: State, round: RoundId, msgs: seq<Message>)
    requires AllCanonical(s.log.commitments) && CommitmentMessages(msgs)
    ensures AllCanonical(Drain(t, CommitPhase, s, round, msgs).log.commitments)
    decreases |msgs|
  {
    hide Canonical, CommitmentRefusal, CodeOf;
    if msgs != [] {
      assert IsCommitmentMessage(msgs[0]);
      DrainKeepsCanonical(t, Take(t, CommitPhase, s, round, msgs[0]), round, msgs[1..]);
    }
  }

  /** A logged proof stays well shaped as commitments with other keys are added. */
  lemma ShapeSurvives(cs: seq<CommitmentRecord>, cs': seq<CommitmentRecord>, ps: seq<ProofRecord>)
    requires AllShaped(cs, ps) && AllEmbed(cs, ps)
    requires KeysUnique(cs') && forall c :: c in cs ==> c in cs'
    ensures AllShaped(cs', ps)
  {
    hide ExtractCommitmentHex, ParsePublicInputs, MarkerLegit;
    forall p | p in ps ensures WellShaped(cs', p) {
      assert WellShaped(cs, p) && Embeds(cs, p);
      var c :| c in cs && Keyed(c, p.nodeId, p.round);
      FindUnique(cs', c);
      forall d | d in cs' && Keyed(d, p.nodeId, p.round) ensures d == c {
        FindUnique(cs', d);
      }
    }
  }

  lemma {:induction false} DrainOnlyAdds(t: Topology, phase: Phase, s: State, round: RoundId, msgs: seq<Message>)
    ensures forall c :: c in s.log.commitments ==> c in Drain(t, phase, s, round, msgs).log.commitments
    decreases |msgs|
  {
    hide CommitmentRefusal, ProposalRefusal, CodeOf, ExtractCommitmentHex;
    if msgs != [] {
      DrainOnlyAdds(t, phase, Take(t, phase, s, round, msgs[0]), round, msgs[1..]);
    }
  }

  lemma CommitRoundIsHonest(cfg: Config, s: State)
    requires AtRoundStart(cfg.topology, s) && Honest(s)
    requires CommitRound(cfg, InProcess, s, s.machine.current).Success?
    ensures Honest(CommitRound(cfg, InProcess, s, s.machine.current).value)
  {
    hide Take, Filed, AllCanonical, AllShaped, AllEmbed, KeysUnique, CommitmentMessages, Before;
    hide CommitmentsLegit, HoldsRound, RemembersHexes, AllBacked, HoldsProposal, AllSigned, AllLabelled;
    var round, t := s.machine.current, cfg.topology;
    var keys := SortedKeys(cfg.agents.Keys);
    var sent := BroadcastCommitments(cfg, s, round).value;
    TurnsAreHonest(cfg, s, keys, round);
    TurnsFrame(cfg, s, keys, round);
    DrainKeepsCanonical(t, sent.state, round, sent.messages);
    DrainFrame(t, CommitPhase, sent.state, round, sent.messages);
    DrainOnlyAdds(t, CommitPhase, sent.state, round, sent.messages);
    CommitRoundCouples(cfg, InProcess, s);
    var s' := CommitRound(cfg, InProcess, s, round).value;
    ShapeSurvives(s.log.commitments, s'.log.commitments, s.log.proofs);
  }

  // ---------------------------------------------------------------------
  // Proofs
  // ---------------------------------------------------------------------

  lemma DigestOfCanonical(d: Bytes32)
    ensures DigestOf(HexEncode(d)) == d
  {
    HexRoundTrip(d);
    hide HexEncode, HexDecode;
  }

  /** An honest artifact embeds its commitment's hex and is well shaped. */
  lemma HonestProof(c: Crypto, cs: seq<CommitmentRecord>, commitment: CommitmentRecord)
    requires KeysUnique(cs) && commitment in cs && Canonical(commitment.hex)
    ensures var p := ProofFor(c, commitment, commitment.nodeId, commitment.round);
      && WellShaped(cs, p)
      && ExtractCommitmentHex(p.publicInputsHex) == Some(commitment.hex)
  {
    var d: Bytes32 :| HexEncode(d) == commitment.hex;
    DigestOfCanonical(d);
    var inputs := InputsFor(commitment, commitment.nodeId, commitment.round);
    ParseAfterLayout(inputs);
    TamperingIsVisible(inputs);
    HexRoundTrip(Attestation(c, Layout(inputs)));
    forall e | e in cs && Keyed(e, commitment.nodeId, commitment.round) ensures e == commitment {
      FindUnique(cs, e);
      FindUnique(cs, commitment);
    }
    hide HexEncode, HexDecode, Layout, DigestOf, KeysUnique, ParsePublicInputs, ExtractCommitmentHex;
  }

  /** A tampered artifact does not embed its commitment's hex. */
  lemma TamperedProof(c: Crypto, commitment: CommitmentRecord, round: RoundId)
    requires Canonical(commitment.hex)
    ensures ExtractCommitmentHex(Tampered(ProofFor(c, commitment, commitment.nodeId, round).publicInputsHex))
            != Some(commitment.hex)
  {
    var d: Bytes32 :| HexEncode(d) == commitment.hex;
    DigestOfCanonical(d);
    TamperingIsVisible(InputsFor(commitment, commitment.nodeId, round));
    hide HexEncode, HexDecode, Layout, DigestOf, ExtractCommitmentHex, Tampered;
  }

  /** Each in-process proof message comes from a local agent that has a commitment in the active round. */
  ghost predicate ProofMessage(cfg: Config, m: Machine, round: RoundId, msg: Message) {
    && msg.payload.Proof? && msg.origin in cfg.agents && msg.origin in m.commitments
    && msg.payload.proof == ProofOf(cfg, m.commitments[msg.origin], msg.origin, round)
  }

  lemma {:induction false} ProofMessagesShape(cfg: Config, m: Machine, round: RoundId, nodes: seq<NodeId>)
    requires ProofMessages(cfg, m, round, nodes).Success?
    ensures forall msg :: msg in ProofMessages(cfg, m, round, nodes).value ==> ProofMessage(cfg, m, round, msg)
  {
    hide ProofOf;
    if nodes != [] {
      ProofMessagesShape(cfg, m, round, nodes[1..]);
    }
  }

  /** What a drained in-process proof message does: logged and well shaped, or tampered and refused. */
  lemma TakeHonestProof(cfg: Config, s: State, round: RoundId, msg: Message)
    requires InRound(cfg.topology, s, round) && AllCanonical(s.log.commitments)
    requires ProofMessage(cfg, s.machine, round, msg)
    ensures var s' := Take(cfg.topology, ProvePhase, s, round, msg);
      if ProofIsTampered(cfg.events, msg.origin, round) then
        s' == Note(s, round, msg.origin, ProofKind, PublicInputsMismatch)
      else
        && s' == s.(log := s.log.(proofs := s.log.proofs + [msg.payload.proof]))
        && WellShaped(s.log.commitments, msg.payload.proof)
    ensures msg.payload.proof.nodeId == msg.origin && msg.payload.proof.round == round
  {
    hide CommitmentsLegit, RemembersHexes, AllBacked, HoldsProposal, AllEmbed, AllSigned, AllLabelled, KeysUnique,
         Before;
    hide Canonical, HexEncode, HexDecode, ExtractCommitmentHex, Tampered, WellShaped, Layout, InputsFor, Attestation;
    var commitment := s.machine.commitments[msg.origin];
    assert commitment in s.log.commitments && Keyed(commitment, msg.origin, round);
    HonestProof(cfg.crypto, s.log.commitments, commitment);
    TamperedProof(cfg.crypto, commitment, round);
  }

  lemma {:induction false} DrainHonestProofs(cfg: Config, s: State, round: RoundId, msgs: seq<Message>)
    requires InRound(cfg.topology, s, round) && AllCanonical(s.log.commitments)
    requires AllShaped(s.log.commitments, s.log.proofs)
    requires forall msg :: msg in msgs ==> ProofMessage(cfg, s.machine, round, msg)
    ensures var s' := Drain(cfg.topology, ProvePhase, s, round, msgs);
      && AllShaped(s'.log.commitments, s'.log.proofs)
      && (forall p :: p in s'.log.proofs ==> p in s.log.proofs || p.nodeId in cfg.agents)
    decreases |msgs|
  {
    hide Take, InRound, AllCanonical, ProofIsTampered, WellShaped;
    if msgs != [] {
      assert ProofMessage(cfg, s.machine, round, msgs[0]);
      TakeHonestProof(cfg, s, round, msgs[0]);
      TakeFrame(cfg.topology, ProvePhase, s, round, msgs[0]);
      TakeKeepsCoupling(cfg.topology, ProvePhase, s, round, msgs[0]);
      var s1 := Take(cfg.topology, ProvePhase, s, round, msgs[0]);
      assert s1.machine.commitments == s.machine.commitments;
      forall msg | msg in msgs[1..] ensures ProofMessage(cfg, s1.machine, round, msg) {
        assert ProofMessage(cfg, s.machine, round, msg);
      }
      DrainHonestProofs(cfg, s1, round, msgs[1..]);
    }
  }

  // ---------------------------------------------------------------------
  // Receipts
  // ---------------------------------------------------------------------

  /** In process, a round that reaches the receipt phase logs the matched provider's receipt, and only that. */
  lemma SettleLogsReceipt(cfg: Config, s: State, round: RoundId, p: ProposalRecord)
    requires SignatureShape(cfg.crypto) && p.provider in cfg.agents
    ensures var signature := SignatureHex(cfg.crypto, SeedOf(cfg.agents[p.provider]), p.provider, round, p.matched);
      SettleRound(cfg, InProcess, s, round, p) ==
      s.(log := s.log.(receipts := s.log.receipts + [ReceiptRecord(p.provider, round, signature)]))
  {
    SignatureNotEmpty(cfg.crypto, SeedOf(cfg.agents[p.provider]), p.provider, round, p.matched);
    hide SignatureHex, SignatureShape;
    var signature := SignatureHex(cfg.crypto, SeedOf(cfg.agents[p.provider]), p.provider, round, p.matched);
    var msg := Message(p.provider, Receipt(ReceiptRecord(p.provider, round, signature)));
    assert [msg][1..] == [];
    assert Drain(cfg.topology, ReceiptPhase, s, round, [msg]) == Take(cfg.topology, ReceiptPhase, s, round, msg);
  }

  /** The first receipt of its round is the one a lookup finds. */
  lemma FirstReceiptIsFound(rs: seq<ReceiptRecord>, r: ReceiptRecord)
    requires forall q :: q in rs ==> q.round != r.round
    ensures FindReceipt(rs + [r], r.round, r.provider) == Some(r)
  {
    assert forall j :: 0 <= j < |rs| ==> (rs + [r])[j] in rs;
    FindReceiptAt(rs + [r], r.round, r.provider, |rs|);
  }

  // ---------------------------------------------------------------------
  // One round, then whole runs
  // ---------------------------------------------------------------------

  /** The final receipt is the one the matched provider's agent signs. */
  ghost predicate SignedByAgent(cfg: Config, log: Log, round: RoundId) {
    var p := LastProposal(log.proposals, round);
    && p.Some? && p.value.provider in cfg.agents
    && FindReceipt(log.receipts, round, p.value.provider) ==
       Some(ReceiptRecord(p.value.provider, round,
                          SignatureHex(cfg.crypto, SeedOf(cfg.agents[p.value.provider]), p.value.provider, round,
                                       p.value.matched)))
  }

  lemma SettleIsSigned(cfg: Config, s: State, round: RoundId, p: ProposalRecord)
    requires SignatureShape(cfg.crypto) && p.provider in cfg.agents
    requires Honest(s) && s.log.receipts == [] && LastProposal(s.log.proposals, round) == Some(p)
    ensures var s' := SettleRound(cfg, InProcess, s, round, p);
      Honest(s') && SignedByAgent(cfg, s'.log, round)
  {
    SettleLogsReceipt(cfg, s, round, p);
    hide SignatureHex, SettleRound, Filed, AllCanonical, AllShaped, LastProposal, SignatureShape;
    var signature := SignatureHex(cfg.crypto, SeedOf(cfg.agents[p.provider]), p.provider, round, p.matched);
    FirstReceiptIsFound(s.log.receipts, ReceiptRecord(p.provider, round, signature));
  }

  lemma ProveRoundIsHonest(cfg: Config, s: State, round: RoundId, p: ProposalRecord)
    requires SignatureShape(cfg.crypto)
    requires InRound(cfg.topology, s, round) && Honest(s)
    requires LastProposal(s.log.proposals, round) == Some(p)
    requires forall q :: q in s.log.proofs ==> q.round != round
    requires s.log.receipts == []
    requires ProveRound(cfg, InProcess, s, round, p).Success?
    ensures var result := ProveRound(cfg, InProcess, s, round, p).value;
      && Honest(result.state)
      && (result.finalized ==> SignedByAgent(cfg, result.state.log, round))
  {
    hide InRound, Take, LastProposal, FindReceipt, SignatureHex, SignatureShape, WellShaped, AllCanonical, Filed,
         SignedByAgent, SettleRound;
    var t := cfg.topology;
    var msgs := ProofMessages(cfg, s.machine, round, [p.requester, p.provider]).value;
    ProofMessagesShape(cfg, s.machine, round, [p.requester, p.provider]);
    DrainHonestProofs(cfg, s, round, msgs);
    DrainFrame(t, ProvePhase, s, round, msgs);
    var drained := Drain(t, ProvePhase, s, round, msgs);
    if HasProof(drained.log.proofs, p.requester, round) && HasProof(drained.log.proofs, p.provider, round) {
      assert p.provider in cfg.agents;
      SettleIsSigned(cfg, drained, round, p);
    }
  }

  lemma ProposeRoundIsHonest(cfg: Config, s: State, round: RoundId)
    requires SignatureShape(cfg.crypto)
    requires InRound(cfg.topology, s, round) && Honest(s)
    requires forall q :: q in s.log.proofs ==> q.round != round
    requires s.log.receipts == []
    requires ProposeRound(cfg, InProcess, s, round).Success?
    ensures var result := ProposeRound(cfg, InProcess, s, round).value;
      && Honest(result.state)
      && (result.finalized ==> SignedByAgent(cfg, result.state.log, round))
  {
    hide InRound, Take, LastProposal, SignatureShape, BroadcastProposal, ProveRound, SignedByAgent;
    hide AllCanonical, AllShaped, Filed;
    ProposalTurnCouples(cfg, s, round);
    var turn := BroadcastProposal(cfg, s, round).value;
    if turn.proceed {
      DrainKeepsCoupling(cfg.topology, ProposePhase, turn.state, round, turn.messages);
      DrainFrame(cfg.topology, ProposePhase, turn.state, round, turn.messages);
      var drained := Drain(cfg.topology, ProposePhase, turn.state, round, turn.messages);
      var p := LastProposal(drained.log.proposals, round);
      if p.Some? {
        ProveRoundIsHonest(cfg, drained, round, p.value);
      }
    }
  }

  lemma RunRoundIsHonest(cfg: Config, s: State)
    requires SignatureShape(cfg.crypto)
    requires AtRoundStart(cfg.topology, s) && Honest(s) && s.log.receipts == []
    requires RunRound(cfg, InProcess, s).Success?
    ensures var result := RunRound(cfg, InProcess, s).value;
      && Honest(result.state)
      && (result.finalized ==> SignedByAgent(cfg, result.state.log, s.machine.current))
  {
    var round := s.machine.current;
    assert forall q :: q in s.log.proofs ==> q.round != round;
    hide InRound, AtRoundStart, SignatureShape, CommitRound, ProposeRound, SignedByAgent;
    hide AllCanonical, AllShaped, Filed;
    CommitRoundCouples(cfg, InProcess, s);
    CommitRoundIsHonest(cfg, s);
    CommitRoundLogsNoProof(cfg, InProcess, s);
    var committed := CommitRound(cfg, InProcess, s, round).value;
    if cfg.topology.SoleRequester().value.id in committed.machine.commitments {
      ProposeRoundIsHonest(cfg, committed, round);
    }
  }

  lemma CommitRoundLogsNoProof(cfg: Config, net: Network, s: State)
    requires CommitRound(cfg, net, s, s.machine.current).Success?
    ensures CommitRound(cfg, net, s, s.machine.current).value.log.proofs == s.log.proofs
  {
    hide Take;
    var round := s.machine.current;
    var keys := SortedKeys(cfg.agents.Keys);
    var sent := BroadcastCommitments(cfg, s, round).value;
    TurnsFrame(cfg, s, keys, round);
    DrainFrame(cfg.topology, CommitPhase, sent.state, round, net.Deliver(round, CommitPhase, sent.messages));
  }

  lemma {:induction false} RoundsAreHonest(cfg: Config, s: State, finalRound: RoundId, left: nat)
    requires SignatureShape(cfg.crypto)
    requires AtRoundStart(cfg.topology, s) && Honest(s) && s.log.receipts == []
    requires Rounds(cfg, InProcess, s, finalRound, left).Success?
    ensures var e := Rounds(cfg, InProcess, s, finalRound, left).value;
      && Honest(e.state)
      && (e.finalized ==> SignedByAgent(cfg, e.state.log, e.finalRound))
    decreases left
  {
    hide InRound, AtRoundStart, SignatureShape, RunRound, Fallback, SignedByAgent, AllCanonical, AllShaped, Filed;
    if left > 0 {
      RunRoundIsHonest(cfg, s);
      RunRoundCouples(cfg, InProcess, s);
      var result := RunRound(cfg, InProcess, s).value;
      if !result.finalized {
        FallbackCouples(cfg.topology, result.state, s.machine.current);
        RoundsAreHonest(cfg, Fallback(result.state).value, s.machine.current, left - 1);
      }
    }
  }

  /** The public half of an agent's signing seed, when it has one. */
  function PublicHalf(c: Crypto, seed: Option<Seed>): Option<PublicKey> {
    match seed
    case Some(s) => Some(c.publicOf(s))
    case None => None
  }

  lemma InProcessLogShape(cfg: Config, runId: string)
    requires SignatureShape(cfg.crypto) && Run(cfg, InProcess, runId).Success?
    ensures var log := Run(cfg, InProcess, runId).value.log;
      && AllShaped(log.commitments, log.proofs)
      && (log.finalized ==> SignedByAgent(cfg, log, log.finalRound))
  {
    hide Rounds, ConfigRefusal, AtRoundStart, WellShaped, SignatureShape, LastProposal, FindReceipt, SignatureHex;
    InitialIsStart(cfg.topology, runId);
    RoundsAreHonest(cfg, Initial(runId), 0, cfg.maxRounds);
  }

  /**
    An in-process log is valid exactly when, if the run finalized, the configured key of the matched
    provider accepts what that provider's agent signs.
   */
  lemma InProcessValidIff(cfg: Config, runId: string)
    requires SignatureShape(cfg.crypto) && Run(cfg, InProcess, runId).Success?
    ensures var log := Run(cfg, InProcess, runId).value.log;
      && (log.finalized ==> LastProposal(log.proposals, log.finalRound).Some?
                            && LastProposal(log.proposals, log.finalRound).value.provider in cfg.agents)
      && (Reasons(cfg.crypto, cfg.topology, log) == [] <==>
            (log.finalized ==>
               var p := LastProposal(log.proposals, log.finalRound).value;
               SignatureAccepted(cfg.crypto, KeyOf(cfg.topology, p.provider),
                                 SignatureHex(cfg.crypto, SeedOf(cfg.agents[p.provider]), p.provider, log.finalRound,
                                              p.matched),
                                 p.provider, log.finalRound, p.matched)))
  {
    hide Run, SignatureShape, LastProposal, FindReceipt, SignatureHex, SignatureAccepted, WellShaped, Reasons;
    InProcessLogShape(cfg, runId);
    ValidIffShapedAndSettled(cfg, InProcess, runId);
  }

  /** Who signs a receipt: the provider's agent, with the seed of its provider intent, or with the keyless tag. */
  lemma ReceiptIsSignedBy(cfg: Config, round: RoundId, p: ProposalRecord)
    ensures p.provider !in cfg.agents ==> ReceiptMessages(cfg, round, p) == []
    ensures p.provider in cfg.agents ==>
      |ReceiptMessages(cfg, round, p)| == 1
      && var msg := ReceiptMessages(cfg, round, p)[0];
         && msg.origin == p.provider && msg.payload.Receipt?
         && msg.payload.receipt.provider == p.provider && msg.payload.receipt.round == round
         && msg.payload.receipt.signatureHex ==
            match cfg.agents[p.provider].provider
            case Some(ProviderSecret(_, _, _, Some(seed))) =>
              HexEncode(cfg.crypto.sign(seed, ReceiptMessage(p.provider, round, p.matched)))
            case _ => HexEncode(cfg.crypto.blake2s(LegacyBytes(p.provider, round, p.matched)))
  {
    hide HexEncode, ReceiptMessage, LegacyBytes;
  }

  /** A provider this process speaks for. */
  predicate LocalProvider(cfg: Config, id: NodeId) {
    id in cfg.agents && cfg.topology.Find(id).Some? && cfg.topology.Find(id).value.role == Provider
  }

  /** Key and seed are both present or both absent. */
  predicate PairAgrees(cfg: Config, id: NodeId)
    requires id in cfg.agents
  {
    KeyOf(cfg.topology, id).Some? <==> SeedOf(cfg.agents[id]).Some?
  }

  /** A provider's seed, where the topology pins a key for it, is the seed of that key. */
  ghost predicate PairsMatch(cfg: Config) {
    forall id :: LocalProvider(cfg, id) && KeyOf(cfg.topology, id).Some? && SeedOf(cfg.agents[id]).Some? ==>
      KeyOf(cfg.topology, id).value == cfg.crypto.publicOf(SeedOf(cfg.agents[id]).value)
  }

  /** Each local provider's seed and the topology's key for it are both absent or belong together. */
  ghost predicate KeysConsistent(cfg: Config) {
    forall id :: LocalProvider(cfg, id) ==> KeyOf(cfg.topology, id) == PublicHalf(cfg.crypto, SeedOf(cfg.agents[id]))
  }

  lemma ConsistentIffPairsAgree(cfg: Config)
    ensures KeysConsistent(cfg) <==> PairsMatch(cfg) && forall id :: LocalProvider(cfg, id) ==> PairAgrees(cfg, id)
  {
  }

  /** The node a finalized run settles with is configured as a provider. */
  lemma FinalProviderProvides(cfg: Config, net: Network, runId: string)
    requires Run(cfg, net, runId).Success? && Run(cfg, net, runId).value.log.finalized
    ensures var log := Run(cfg, net, runId).value.log;
      var p := LastProposal(log.proposals, log.finalRound);
      p.Some? ==>
        var n := cfg.topology.Find(p.value.provider);
        n.Some? && n.value.role == Provider
  {
    var log := Run(cfg, net, runId).value.log;
    RunIsAccountable(cfg, net, runId);
    hide Run, Proposes, KeysUnique, HexesDistinct, AllEmbed, AllSigned, AllLabelled, Before, Proved;
    var p := LastProposal(log.proposals, log.finalRound);
    if p.Some? {
      assert Backed(cfg.topology, log.commitments, p.value);
      var req, prov :| req in log.commitments && prov in log.commitments && Supports(p.value, req, prov)
                       && prov.intent.ProviderIntent?;
      assert CommitmentLegit(cfg.topology, prov);
    }
  }

  /**
    A 64-byte signature and a 32-byte tag never pass for each other, so what an agent signs is
    accepted exactly when key and seed are present together.
   */
  lemma AcceptedIffPaired(c: Crypto, key: Option<PublicKey>, seed: Option<Seed>,
                          provider: NodeId, round: RoundId, tag: CapabilityTag)
    requires SigningLaw(c)
    requires key.Some? && seed.Some? ==> key.value == c.publicOf(seed.value)
    ensures SignatureAccepted(c, key, SignatureHex(c, seed, provider, round, tag), provider, round, tag)
            <==> (key.Some? <==> seed.Some?)
  {
    ConsistentKeysVerify(c, seed, provider, round, tag);
    var m := ReceiptMessage(provider, round, tag);
    var legacy := LegacySignature(c, provider, round, tag);
    hide ReceiptMessage, LegacySignature, HexEncode, HexDecode;
    if seed.Some? {
      assert |c.sign(seed.value, m)| == SIGNATURE_LENGTH;
      HexRoundTrip(c.sign(seed.value, m));
    }
    HexRoundTrip(legacy);
  }

  /**
    For any hash: an in-process log is valid exactly when the run aborted or the provider it settled
    with has both key and seed, or neither.
   */
  lemma ValidIffFinalPairAgrees(cfg: Config, runId: string)
    requires SigningLaw(cfg.crypto) && PairsMatch(cfg) && Run(cfg, InProcess, runId).Success?
    ensures var log := Run(cfg, InProcess, runId).value.log;
      log.finalized ==>
        LastProposal(log.proposals, log.finalRound).Some?
        && LocalProvider(cfg, LastProposal(log.proposals, log.finalRound).value.provider)
    ensures var log := Run(cfg, InProcess, runId).value.log;
      Reasons(cfg.crypto, cfg.topology, log) == [] <==>
      (log.finalized ==> PairAgrees(cfg, LastProposal(log.proposals, log.finalRound).value.provider))
  {
    hide Run, SigningLaw, SignatureShape, LastProposal, SignatureHex, SignatureAccepted, Reasons, KeyOf, SeedOf;
    assert SignatureShape(cfg.crypto) by { LawGivesShape(cfg.crypto); }
    InProcessValidIff(cfg, runId);
    var log := Run(cfg, InProcess, runId).value.log;
    if log.finalized {
      FinalProviderProvides(cfg, InProcess, runId);
      var p := LastProposal(log.proposals, log.finalRound).value;
      AcceptedIffPaired(cfg.crypto, KeyOf(cfg.topology, p.provider), SeedOf(cfg.agents[p.provider]),
                        p.provider, log.finalRound, p.matched);
    }
  }

  lemma LawGivesShape(c: Crypto)
    requires SigningLaw(c)
    ensures SignatureShape(c)
  {
  }

  /** Every in-process run of a configuration with consistent keys writes a valid log, finalized or aborted. */
  lemma EveryInProcessLogIsValid(cfg: Config, runId: string)
    requires SigningLaw(cfg.crypto) && KeysConsistent(cfg) && Run(cfg, InProcess, runId).Success?
    ensures Reasons(cfg.crypto, cfg.topology, Run(cfg, InProcess, runId).value.log) == []
  {
    hide Run, SigningLaw, LastProposal, Reasons, KeysConsistent, PairsMatch, LocalProvider, PairAgrees;
    ConsistentIffPairsAgree(cfg);
    ValidIffFinalPairAgrees(cfg, runId);
  }
}
