/**
  The winner of an in-process match, and the rejections that never occur: neither rests on anything
  assumed about the hash.
 */
module StableKeys {
  import opened Results
  import opened Protocol
  import opened Ordering
  import opened Matching
  import opened Proposer
  import opened RoundMachines
  import opened CoordinationLogs
  import opened Artifacts
  import opened Runs
  import opened Verifier
  import opened Coupling
  import opened Completeness
  import opened CommitPhases
  import opened Replicas

  // ---------------------------------------------------------------------
  // Branches never taken
  // ---------------------------------------------------------------------

  /** A rejection some run can raise. */
  predicate Reachable(r: RejectionRecord) {
    && r.code != LogDuplicate && r.code != CodeProposerError && r.code != CodeBackwardTransition
    && !r.code.CandidateError?
    && (r.code == CodeRequesterMissing ==> r.kind == RoundKind)
  }

  ghost predicate AllReachable(rs: seq<RejectionRecord>) {
    forall r :: r in rs ==> Reachable(r)
  }

  lemma NoteReaches(s: State, round: RoundId, node: NodeId, kind: Kind, code: Code)
    requires AllReachable(s.log.rejections) && Reachable(RejectionRecord(round, node, kind, code))
    ensures AllReachable(Note(s, round, node, kind, code).log.rejections)
  {
  }

  lemma RefusedCommitmentCode(t: Topology, m: Machine, rec: CommitmentRecord, round: RoundId)
    requires AcceptCommitment(t, m, rec).Failure?
    ensures Reachable(RejectionRecord(round, rec.nodeId, CommitmentKind, CodeOf(AcceptCommitment(t, m, rec).error)))
  {
  }

  lemma ProposerNeverFails(t: Topology, m: Machine, p: ProposalRecord)
    requires ValidTopology(t) && ProposalRefusal(t, m, p).Some?
    ensures !ProposalRefusal(t, m, p).value.ProposerFailed? && !ProposalRefusal(t, m, p).value.BackwardTransition?
  {
    hide ValidTopology, ProposerOf, ValidateAnnotation;
    ProposerExists(t, m.current);
  }

  lemma OrdinaryCode(e: RoundError, round: RoundId, node: NodeId)
    requires !e.ProposerFailed? && !e.BackwardTransition?
    ensures Reachable(RejectionRecord(round, node, ProposalKind, CodeOf(e)))
  {
  }

  lemma RefusedProposalCode(t: Topology, m: Machine, p: ProposalRecord, round: RoundId)
    requires ValidTopology(t) && AcceptProposal(t, m, p).Failure?
    ensures Reachable(RejectionRecord(round, p.proposer, ProposalKind, CodeOf(AcceptProposal(t, m, p).error)))
  {
    hide ValidTopology, ProposalRefusal, CodeOf, Reachable;
    ProposerNeverFails(t, m, p);
    OrdinaryCode(AcceptProposal(t, m, p).error, round, p.proposer);
  }

  lemma TakeReaches(t: Topology, phase: Phase, s: State, round: RoundId, msg: Message)
    requires ValidTopology(t) && InRound(t, s, round) && AllReachable(s.log.rejections)
    ensures AllReachable(Take(t, phase, s, round, msg).log.rejections)
  {
    hide ValidTopology, InRound, AcceptCommitment, AcceptProposal, CodeOf, AllReachable, Note, ExtractCommitmentHex,
         AppendCommitment;
    if msg.payload.Kind() != PhaseKind(phase) {
      NoteReaches(s, round, msg.origin, msg.payload.Kind(), OutOfPhase);
    } else if msg.origin != Author(msg.payload) {
      NoteReaches(s, round, msg.origin, PhaseKind(phase), OriginMismatch);
    } else {
      match msg.payload
      case Commitment(rec) =>
        var accepted := AcceptCommitment(t, s.machine, rec);
        if accepted.Success? {
          assert AppendCommitment(s.log, rec).Some?
              by { InRoundIsCoupled(t, s, round); LogDuplicateUnreachable(t, s, rec); }
          AppendKeepsRejections(s.log, rec);
        } else {
          RefusedCommitmentCode(t, s.machine, rec, round);
          NoteReaches(s, round, rec.nodeId, CommitmentKind, CodeOf(accepted.error));
        }
      case Proposal(p) =>
        var accepted := AcceptProposal(t, s.machine, p);
        if accepted.Failure? {
          RefusedProposalCode(t, s.machine, p, round);
          NoteReaches(s, round, p.proposer, ProposalKind, CodeOf(accepted.error));
        }
      case Proof(p) =>
        NoteReaches(s, round, p.nodeId, ProofKind, WrongRound);
        NoteReaches(s, round, p.nodeId, ProofKind, UnknownCommitment);
        NoteReaches(s, round, p.nodeId, ProofKind, PublicInputsMismatch);
      case Receipt(r) =>
        NoteReaches(s, round, r.provider, ReceiptKind, WrongRound);
        NoteReaches(s, round, r.provider, ReceiptKind, MissingSignature);
    }
  }

  lemma InRoundIsCoupled(t: Topology, s: State, round: RoundId)
    requires InRound(t, s, round)
    ensures Coupled(t, s.machine, s.log)
  {
  }

  lemma AppendKeepsRejections(log: Log, rec: CommitmentRecord)
    requires AppendCommitment(log, rec).Some?
    ensures AppendCommitment(log, rec).value.rejections == log.rejections
  {
  }

  lemma {:induction false} DrainReaches(t: Topology, phase: Phase, s: State, round: RoundId, msgs: seq<Message>)
    requires ValidTopology(t) && InRound(t, s, round) && AllReachable(s.log.rejections)
    ensures AllReachable(Drain(t, phase, s, round, msgs).log.rejections)
    decreases |msgs|
  {
    hide ValidTopology, InRound, AllReachable, Take;
    if msgs != [] {
      TakeReaches(t, phase, s, round, msgs[0]);
      TakeKeepsCoupling(t, phase, s, round, msgs[0]);
      DrainReaches(t, phase, Take(t, phase, s, round, msgs[0]), round, msgs[1..]);
    }
  }

  lemma {:induction false} TurnsReach(cfg: Config, s: State, nodes: seq<NodeId>, round: RoundId)
    requires Turns(cfg, s, nodes, round).Success? && AllReachable(s.log.rejections)
    ensures AllReachable(Turns(cfg, s, nodes, round).value.state.log.rejections)
    decreases |nodes|
  {
    hide BuildCommitment, HasDropped, Replays, Doubles, AllReachable, Note;
    if nodes != [] {
      NoteReaches(s, round, nodes[0], CommitmentKind, NodeDropped);
      TurnsReach(cfg, NodeTurn(cfg, s, nodes[0], round).value.state, nodes[1..], round);
    }
  }

  lemma CommitRoundReaches(cfg: Config, net: Network, s: State)
    requires ValidTopology(cfg.topology) && AtRoundStart(cfg.topology, s) && AllReachable(s.log.rejections)
    requires CommitRound(cfg, net, s, s.machine.current).Success?
    ensures AllReachable(CommitRound(cfg, net, s, s.machine.current).value.log.rejections)
  {
    hide ValidTopology, AllReachable, AtRoundStart, InRound, Turns, Drain;
    var round, keys := s.machine.current, SortedKeys(cfg.agents.Keys);
    StartIsInRound(cfg.topology, s);
    TurnsReach(cfg, s, keys, round);
    TurnsKeepCoupling(cfg, s, keys, round);
    var sent := Turns(cfg, s, keys, round).value;
    DrainReaches(cfg.topology, CommitPhase, sent.state, round, net.Deliver(round, CommitPhase, sent.messages));
  }

  /** The proposer's process only ever notes that nobody is feasible. */
  lemma BroadcastReaches(cfg: Config, s: State, round: RoundId)
    requires ValidTopology(cfg.topology) && InRound(cfg.topology, s, round) && AllReachable(s.log.rejections)
    requires cfg.topology.SoleRequester().Some? && cfg.topology.SoleRequester().value.id in s.machine.commitments
    ensures var turn := BroadcastProposal(cfg, s, round);
      && turn.Success? && AllReachable(turn.value.state.log.rejections)
      && (turn.value.proceed ==> turn.value.state == s)
  {
    hide ValidTopology, InRound, AllReachable, Derive, ProviderSnapshot, ProposerOf, Note, IsLeastMatch, Feasible;
    var q := cfg.topology.SoleRequester().value.id;
    RequesterCommitmentFits(cfg.topology, s, round);
    DeriveIsLeastMatch(round, s.machine.commitments[q], ProviderSnapshot(s.machine, q));
    ProposerExists(cfg.topology, round);
    InRoundCurrent(cfg.topology, s, round);
    var proposer := ProposerOf(cfg.topology, round).value;
    NoteReaches(s, round, proposer, ProposalKind, NoFeasibleProvider);
  }

  lemma ProveRoundReaches(cfg: Config, net: Network, s: State, round: RoundId, p: ProposalRecord)
    requires ValidTopology(cfg.topology) && InRound(cfg.topology, s, round) && AllReachable(s.log.rejections)
    requires ProveRound(cfg, net, s, round, p).Success?
    ensures AllReachable(ProveRound(cfg, net, s, round, p).value.state.log.rejections)
  {
    hide ValidTopology, InRound, AllReachable, Drain, ProofMessages, ReceiptMessages, HasProof;
    var t := cfg.topology;
    var proofs := net.Deliver(round, ProvePhase, ProofMessages(cfg, s.machine, round, [p.requester, p.provider]).value);
    DrainReaches(t, ProvePhase, s, round, proofs);
    DrainKeepsCoupling(t, ProvePhase, s, round, proofs);
    DrainReaches(t, ReceiptPhase, Drain(t, ProvePhase, s, round, proofs), round,
                 net.Deliver(round, ReceiptPhase, ReceiptMessages(cfg, round, p)));
  }

  lemma ProposeRoundReaches(cfg: Config, net: Network, s: State, round: RoundId)
    requires ValidTopology(cfg.topology) && InRound(cfg.topology, s, round) && AllReachable(s.log.rejections)
    requires cfg.topology.SoleRequester().Some? && cfg.topology.SoleRequester().value.id in s.machine.commitments
    requires ProposeRound(cfg, net, s, round).Success?
    ensures AllReachable(ProposeRound(cfg, net, s, round).value.state.log.rejections)
  {
    hide ValidTopology, InRound, AllReachable, Drain, BroadcastProposal, LastProposal, ProveRound;
    BroadcastReaches(cfg, s, round);
    var turn := BroadcastProposal(cfg, s, round).value;
    if turn.proceed {
      var msgs := net.Deliver(round, ProposePhase, turn.messages);
      DrainReaches(cfg.topology, ProposePhase, s, round, msgs);
      DrainKeepsCoupling(cfg.topology, ProposePhase, s, round, msgs);
      var drained := Drain(cfg.topology, ProposePhase, s, round, msgs);
      var p := LastProposal(drained.log.proposals, round);
      if p.Some? {
        ProveRoundReaches(cfg, net, drained, round, p.value);
      }
    }
  }

  lemma RunRoundReaches(cfg: Config, net: Network, s: State)
    requires ValidTopology(cfg.topology) && AtRoundStart(cfg.topology, s) && AllReachable(s.log.rejections)
    requires RunRound(cfg, net, s).Success?
    ensures AllReachable(RunRound(cfg, net, s).value.state.log.rejections)
  {
    hide ValidTopology, InRound, AtRoundStart, AllReachable, CommitRound, ProposeRound, Note;
    var round := s.machine.current;
    CommitRoundReaches(cfg, net, s);
    CommitRoundCouples(cfg, net, s);
    var c, q := CommitRound(cfg, net, s, round).value, cfg.topology.SoleRequester().value.id;
    if q in c.machine.commitments {
      ProposeRoundReaches(cfg, net, c, round);
    } else {
      NoteReaches(c, round, q, RoundKind, CodeRequesterMissing);
    }
  }

  lemma {:induction false} RoundsReach(cfg: Config, net: Network, s: State, finalRound: RoundId, left: nat)
    requires ValidTopology(cfg.topology) && AtRoundStart(cfg.topology, s) && AllReachable(s.log.rejections)
    requires Rounds(cfg, net, s, finalRound, left).Success?
    ensures AllReachable(Rounds(cfg, net, s, finalRound, left).value.state.log.rejections)
    decreases left
  {
    hide ValidTopology, InRound, AtRoundStart, AllReachable, RunRound, Fallback, Proved, ClosingUntouched, ReceiptsOf;
    if left > 0 {
      RunRoundReaches(cfg, net, s);
      var result := RunRound(cfg, net, s).value;
      if !result.finalized {
        RunRoundCouples(cfg, net, s);
        FallbackCouples(cfg.topology, result.state, s.machine.current);
        RoundsReach(cfg, net, Fallback(result.state).value, s.machine.current, left - 1);
      }
    }
  }

  /**
    Over any transport no run of a valid topology logs a candidate error, a disagreement between
    machine and log, a rotation error or a backward transition, and a missing requester is only ever
    noted for the round as a whole.
   */
  lemma UnreachableBranches(cfg: Config, net: Network, runId: string)
    requires ValidTopology(cfg.topology) && Run(cfg, net, runId).Success?
    ensures forall r :: r in Run(cfg, net, runId).value.log.rejections ==> Reachable(r)
  {
    hide ValidTopology, AtRoundStart, Rounds, ConfigRefusal, Reachable;
    InitialIsStart(cfg.topology, runId);
    RoundsReach(cfg, net, Initial(runId), 0, cfg.maxRounds);
  }

  // ---------------------------------------------------------------------
  // The stable-key winner
  // ---------------------------------------------------------------------

  /** The commitments a proposal chooses among: those of its round, but for the requester's. */
  ghost function Candidates(cs: seq<CommitmentRecord>, p: ProposalRecord): set<CommitmentRecord> {
    set c | c in cs && c.round == p.round && c.nodeId != p.requester
  }

  /** The proposal matches the requester with the least feasible provider, for the capability it needs. */
  ghost predicate PicksLeast(cs: seq<CommitmentRecord>, p: ProposalRecord) {
    exists req :: && req in cs && Keyed(req, p.requester, p.round) && req.intent.RequesterIntent?
                  && req.intent.required == p.matched
                  && IsLeastMatch(p.round, req.intent, Candidates(cs, p), p.provider)
  }

  ghost predicate AllPickLeast(t: Topology, log: Log) {
    forall p :: p in log.proposals ==>
      && t.SoleRequester().Some? && p.requester == t.SoleRequester().value.id
      && PicksLeast(log.commitments, p)
  }

  /** The snapshot candidate formation works on is the log's commitments of the round, but for the requester's. */
  lemma SnapshotIsLogged(t: Topology, s: State, round: RoundId, q: NodeId)
    requires InRound(t, s, round)
    ensures (set c | c in ProviderSnapshot(s.machine, q))
         == (set c | c in s.log.commitments && c.round == round && c.nodeId != q)
  {
    hide CommitmentsLegit, RemembersHexes, AllBacked, HoldsProposal, AllEmbed, AllSigned, AllLabelled, KeysUnique,
         Before, Others, SortedKeys;
    var m, keys := s.machine, SortedKeys(s.machine.commitments.Keys);
    forall c | c in ProviderSnapshot(m, q) ensures c in s.log.commitments && c.round == round && c.nodeId != q {
      OthersMembers(m.commitments, keys, q, c);
    }
    forall c | c in s.log.commitments && c.round == round && c.nodeId != q ensures c in ProviderSnapshot(m, q) {
      assert c.nodeId in keys;
      OthersMembers(m.commitments, keys, q, c);
    }
  }

  /** A local proposer's message picks the least feasible provider. */
  lemma BroadcastPicksLeast(cfg: Config, s: State, round: RoundId)
    requires ValidTopology(cfg.topology) && InRound(cfg.topology, s, round)
    requires cfg.topology.SoleRequester().Some? && cfg.topology.SoleRequester().value.id in s.machine.commitments
    requires BroadcastProposal(cfg, s, round).Success?
    ensures forall msg :: msg in BroadcastProposal(cfg, s, round).value.messages ==>
      && msg.payload.Proposal? && msg.payload.proposal.round == round
      && msg.payload.proposal.requester == cfg.topology.SoleRequester().value.id
      && PicksLeast(s.log.commitments, msg.payload.proposal)
  {
    hide ValidTopology, Derive, ProviderSnapshot, ProposerOf, IsLeastMatch, Feasible, InRound;
    var q := cfg.topology.SoleRequester().value.id;
    var req, providers := s.machine.commitments[q], ProviderSnapshot(s.machine, q);
    RequesterCommitmentFits(cfg.topology, s, round);
    DeriveIsLeastMatch(round, req, providers);
    SnapshotIsLogged(cfg.topology, s, round, q);
    HeldIsLogged(cfg.topology, s, round, q);
    var d := Derive(round, req, providers);
    if d.value.Some? {
      var p := ProposalRecord(d.value.value.requester, round, q, d.value.value.provider, d.value.value.matched);
      assert Candidates(s.log.commitments, p) == (set c | c in providers);
    }
  }

  lemma HeldIsLogged(t: Topology, s: State, round: RoundId, id: NodeId)
    requires InRound(t, s, round) && id in s.machine.commitments
    ensures s.machine.commitments[id] in s.log.commitments && Keyed(s.machine.commitments[id], id, round)
  {
  }

  lemma {:induction false} DrainedCommitmentsAreNew(t: Topology, s: State, round: RoundId, msgs: seq<Message>,
                                                    c: CommitmentRecord)
    requires c in Drain(t, CommitPhase, s, round, msgs).log.commitments
    ensures c in s.log.commitments || c.round == s.machine.current
    decreases |msgs|
  {
    if msgs != [] {
      var s1 := Take(t, CommitPhase, s, round, msgs[0]);
      TakenCommitmentIsNew(t, s, round, msgs[0]);
      TakeFrame(t, CommitPhase, s, round, msgs[0]);
      hide Take;
      DrainedCommitmentsAreNew(t, s1, round, msgs[1..], c);
    }
  }

  lemma TakenCommitmentIsNew(t: Topology, s: State, round: RoundId, msg: Message)
    ensures forall c :: c in Take(t, CommitPhase, s, round, msg).log.commitments ==>
      c in s.log.commitments || c.round == s.machine.current
  {
    hide CodeOf;
  }

  /** Commitments of a later round do not change what an earlier proposal chose among. */
  lemma PickSurvives(cs: seq<CommitmentRecord>, cs': seq<CommitmentRecord>, p: ProposalRecord, round: RoundId)
    requires (forall c :: c in cs ==> c in cs') && (forall c :: c in cs' ==> c in cs || c.round == round)
    requires p.round < round && PicksLeast(cs, p)
    ensures PicksLeast(cs', p)
  {
    hide IsLeastMatch;
    assert Candidates(cs', p) == Candidates(cs, p);
  }

  lemma CommitRoundKeepsPicks(cfg: Config, net: Network, s: State)
    requires AtRoundStart(cfg.topology, s) && AllPickLeast(cfg.topology, s.log)
    requires CommitRound(cfg, net, s, s.machine.current).Success?
    ensures AllPickLeast(cfg.topology, CommitRound(cfg, net, s, s.machine.current).value.log)
  {
    var round, t, keys := s.machine.current, cfg.topology, SortedKeys(cfg.agents.Keys);
    assert ProposalsBefore(s.log.proposals, round);
    hide AtRoundStart, Turns, Drain, PicksLeast;
    TurnsFrame(cfg, s, keys, round);
    var sent := Turns(cfg, s, keys, round).value;
    var msgs := net.Deliver(round, CommitPhase, sent.messages);
    var s' := Drain(t, CommitPhase, sent.state, round, msgs);
    DrainFrame(t, CommitPhase, sent.state, round, msgs);
    DrainOnlyAdds(t, CommitPhase, sent.state, round, msgs);
    forall c | c in s'.log.commitments ensures c in s.log.commitments || c.round == round {
      DrainedCommitmentsAreNew(t, sent.state, round, msgs, c);
    }
    forall p | p in s'.log.proposals ensures PicksLeast(s'.log.commitments, p) {
      PickSurvives(s.log.commitments, s'.log.commitments, p, round);
    }
  }

  lemma {:induction false} DrainedProposalsAreSent(t: Topology, s: State, round: RoundId, msgs: seq<Message>,
                                                   p: ProposalRecord)
    requires p in Drain(t, ProposePhase, s, round, msgs).log.proposals
    ensures p in s.log.proposals || exists msg :: msg in msgs && msg.payload == Proposal(p)
    decreases |msgs|
  {
    if msgs != [] {
      TakenProposalIsSent(t, s, round, msgs[0]);
      hide Take;
      DrainedProposalsAreSent(t, Take(t, ProposePhase, s, round, msgs[0]), round, msgs[1..], p);
    }
  }

  lemma TakenProposalIsSent(t: Topology, s: State, round: RoundId, msg: Message)
    ensures forall p :: p in Take(t, ProposePhase, s, round, msg).log.proposals ==>
      p in s.log.proposals || msg.payload == Proposal(p)
  {
    hide CodeOf, AcceptProposal;
  }

  lemma ProveRoundKeepsPicks(cfg: Config, net: Network, s: State, round: RoundId, p: ProposalRecord)
    requires ProveRound(cfg, net, s, round, p).Success?
    ensures var log := ProveRound(cfg, net, s, round, p).value.state.log;
      log.proposals == s.log.proposals && log.commitments == s.log.commitments
  {
    hide Drain, ProofMessages, ReceiptMessages, HasProof;
    var t := cfg.topology;
    var proofs := net.Deliver(round, ProvePhase, ProofMessages(cfg, s.machine, round, [p.requester, p.provider]).value);
    DrainFrame(t, ProvePhase, s, round, proofs);
    DrainFrame(t, ReceiptPhase, Drain(t, ProvePhase, s, round, proofs), round,
               net.Deliver(round, ReceiptPhase, ReceiptMessages(cfg, round, p)));
  }

  lemma ProposeRoundPicksLeast(cfg: Config, s: State, round: RoundId)
    requires ValidTopology(cfg.topology) && InRound(cfg.topology, s, round) && AllPickLeast(cfg.topology, s.log)
    requires cfg.topology.SoleRequester().Some? && cfg.topology.SoleRequester().value.id in s.machine.commitments
    requires ProposeRound(cfg, InProcess, s, round).Success?
    ensures AllPickLeast(cfg.topology, ProposeRound(cfg, InProcess, s, round).value.state.log)
  {
    hide ValidTopology, InRound, Drain, BroadcastProposal, LastProposal, ProveRound, PicksLeast, NothingToPropose;
    var t := cfg.topology;
    EarlyFallback(cfg, s, round);
    var turn := BroadcastProposal(cfg, s, round).value;
    assert turn.state.log.proposals == s.log.proposals && turn.state.log.commitments == s.log.commitments by {
      BroadcastLogsNothing(cfg, s, round);
    }
    if turn.proceed {
      BroadcastPicksLeast(cfg, s, round);
      var drained := Drain(t, ProposePhase, turn.state, round, turn.messages);
      DrainFrame(t, ProposePhase, turn.state, round, turn.messages);
      forall p | p in drained.log.proposals
        ensures p.requester == t.SoleRequester().value.id && PicksLeast(drained.log.commitments, p)
      {
        DrainedProposalsAreSent(t, turn.state, round, turn.messages, p);
      }
      var p := LastProposal(drained.log.proposals, round);
      if p.Some? {
        ProveRoundKeepsPicks(cfg, InProcess, drained, round, p.value);
      }
    }
  }

  lemma BroadcastLogsNothing(cfg: Config, s: State, round: RoundId)
    requires BroadcastProposal(cfg, s, round).Success?
    ensures var log := BroadcastProposal(cfg, s, round).value.state.log;
      log.proposals == s.log.proposals && log.commitments == s.log.commitments
  {
    hide Derive, ProviderSnapshot, ProposerOf;
  }

  lemma RunRoundPicksLeast(cfg: Config, s: State)
    requires ValidTopology(cfg.topology) && AtRoundStart(cfg.topology, s) && AllPickLeast(cfg.topology, s.log)
    requires RunRound(cfg, InProcess, s).Success?
    ensures AllPickLeast(cfg.topology, RunRound(cfg, InProcess, s).value.state.log)
  {
    hide ValidTopology, InRound, AtRoundStart, CommitRound, ProposeRound, PicksLeast;
    CommitRoundKeepsPicks(cfg, InProcess, s);
    CommitRoundCouples(cfg, InProcess, s);
    var c := CommitRound(cfg, InProcess, s, s.machine.current).value;
    if cfg.topology.SoleRequester().value.id in c.machine.commitments {
      ProposeRoundPicksLeast(cfg, c, s.machine.current);
    }
  }

  lemma {:induction false} RoundsPickLeast(cfg: Config, s: State, finalRound: RoundId, left: nat)
    requires ValidTopology(cfg.topology) && AtRoundStart(cfg.topology, s) && AllPickLeast(cfg.topology, s.log)
    requires Rounds(cfg, InProcess, s, finalRound, left).Success?
    ensures AllPickLeast(cfg.topology, Rounds(cfg, InProcess, s, finalRound, left).value.state.log)
    decreases left
  {
    hide ValidTopology, InRound, AtRoundStart, AllPickLeast, RunRound, Fallback, Proved, ClosingUntouched, ReceiptsOf;
    if left > 0 {
      RunRoundPicksLeast(cfg, s);
      var result := RunRound(cfg, InProcess, s).value;
      if !result.finalized {
        RunRoundCouples(cfg, InProcess, s);
        FallbackCouples(cfg.topology, result.state, s.machine.current);
        RoundsPickLeast(cfg, Fallback(result.state).value, s.machine.current, left - 1);
      }
    }
  }

  /**
    Every proposal an in-process run logs names the sole requester, and of the other commitments its
    log holds for that round the byte-least one that satisfies the match predicate.
   */
  lemma EveryProposalPicksLeast(cfg: Config, runId: string)
    requires ValidTopology(cfg.topology) && Run(cfg, InProcess, runId).Success?
    ensures var log := Run(cfg, InProcess, runId).value.log;
      forall p :: p in log.proposals ==>
        && cfg.topology.SoleRequester().Some? && p.requester == cfg.topology.SoleRequester().value.id
        && PicksLeast(log.commitments, p)
  {
    hide ValidTopology, AtRoundStart, Rounds, ConfigRefusal, PicksLeast;
    InitialIsStart(cfg.topology, runId);
    RoundsPickLeast(cfg, Initial(runId), 0, cfg.maxRounds);
  }
}
