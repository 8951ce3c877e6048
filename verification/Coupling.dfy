/**
  What ties the round machine to the public log after every single message, for any transport,
  any local agents and any scenario.
 */
module Coupling {
  import opened Results
  import opened Bytes
  import opened Protocol
  import opened Ordering
  import opened Matching
  import opened Proposer
  import opened RoundMachines
  import opened CoordinationLogs
  import opened Artifacts
  import opened Runs
  import opened Verifier

  ghost function Hexes(cs: seq<CommitmentRecord>): set<string> {
    set c | c in cs :: c.hex
  }

  ghost predicate HexesDistinct(cs: seq<CommitmentRecord>) {
    forall i, j :: 0 <= i < j < |cs| ==> cs[i].hex != cs[j].hex
  }

  /** The machine holds exactly the log's commitments of the active round. */
  ghost predicate HoldsRound(held: map<NodeId, CommitmentRecord>, cs: seq<CommitmentRecord>, current: RoundId) {
    && (forall id :: id in held ==> held[id] in cs && Keyed(held[id], id, current))
    && (forall c :: c in cs && c.round == current ==> c.nodeId in held && held[c.nodeId] == c)
  }

  ghost predicate CommitmentsLegit(t: Topology, cs: seq<CommitmentRecord>) {
    && (forall c :: c in cs ==> CommitmentLegit(t, c))
    && (forall c :: c in cs && c.intent.RequesterIntent? ==> c.intent.required.text != [])
  }

  /** The replay history is exactly the logged hexes, which are pairwise different. */
  ghost predicate RemembersHexes(history: set<string>, cs: seq<CommitmentRecord>) {
    history == Hexes(cs) && HexesDistinct(cs)
  }

  /** A proposal the machine let through: the right proposer, and a committed, capable pair. */
  ghost predicate Backed(t: Topology, cs: seq<CommitmentRecord>, p: ProposalRecord) {
    && Proposes(t, p.round, p.proposer)
    && exists req, prov :: req in cs && prov in cs && Supports(p, req, prov) && prov.intent.ProviderIntent?
  }

  ghost predicate AllBacked(t: Topology, cs: seq<CommitmentRecord>, ps: seq<ProposalRecord>) {
    forall p :: p in ps ==> Backed(t, cs, p)
  }

  /** At most one proposal a round, and the machine holds that of the active round. */
  ghost predicate HoldsProposal(held: Option<ProposalRecord>, ps: seq<ProposalRecord>, current: RoundId) {
    && (forall i, j :: 0 <= i < j < |ps| ==> ps[i].round < ps[j].round)
    && (forall p :: p in ps && p.round == current ==> held == Some(p))
    && (held.Some? ==> held.value in ps && held.value.round == current)
  }

  /** What the machine put away of a closed round: the log's commitments and proposal of that round. */
  ghost predicate Archives(f: FinalizedRound, cs: seq<CommitmentRecord>, ps: seq<ProposalRecord>) {
    && HoldsRound(f.commitments, cs, f.round)
    && (forall p :: p in ps && p.round == f.round ==> f.proposal == Some(p))
    && (f.proposal.Some? ==> f.proposal.value in ps && f.proposal.value.round == f.round)
  }

  /** The machine's past is every earlier round in order, as the log has it. */
  ghost predicate Archived(past: seq<FinalizedRound>, cs: seq<CommitmentRecord>, ps: seq<ProposalRecord>) {
    forall i :: 0 <= i < |past| ==> past[i].round == i && Archives(past[i], cs, ps)
  }

  /** A proof the runtime let through embeds the hex of its own node's commitment. */
  ghost predicate Embeds(cs: seq<CommitmentRecord>, p: ProofRecord) {
    exists c :: c in cs && Keyed(c, p.nodeId, p.round) && ExtractCommitmentHex(p.publicInputsHex) == Some(c.hex)
  }

  ghost predicate AllEmbed(cs: seq<CommitmentRecord>, ps: seq<ProofRecord>) {
    forall p :: p in ps ==> Embeds(cs, p)
  }

  ghost predicate AllSigned(rs: seq<ReceiptRecord>) {
    forall r :: r in rs ==> r.signatureHex != ""
  }

  ghost predicate AllLabelled(rs: seq<RejectionRecord>) {
    forall r :: r in rs ==> r.kind != NoKind && r.code != NoCode
  }

  /** Machine and log agree. */
  ghost predicate Coupled(t: Topology, m: Machine, log: Log) {
    && log.keys == KeySet(log.commitments) && KeysUnique(log.commitments)
    && CommitmentsLegit(t, log.commitments)
    && HoldsRound(m.commitments, log.commitments, m.current)
    && RemembersHexes(m.history, log.commitments)
    && AllBacked(t, log.commitments, log.proposals)
    && HoldsProposal(m.proposal, log.proposals, m.current)
    && AllEmbed(log.commitments, log.proofs)
    && AllSigned(log.receipts)
    && AllLabelled(log.rejections)
    && log.schemaVersion == 1
    && |m.past| == m.current && Archived(m.past, log.commitments, log.proposals)
  }

  // Every record is of a round before `bound`.

  ghost predicate CommitmentsBefore(cs: seq<CommitmentRecord>, bound: nat) {
    forall c :: c in cs ==> c.round < bound
  }

  ghost predicate ProposalsBefore(ps: seq<ProposalRecord>, bound: nat) {
    forall p :: p in ps ==> p.round < bound
  }

  ghost predicate ProofsBefore(ps: seq<ProofRecord>, bound: nat) {
    forall p :: p in ps ==> p.round < bound
  }

  ghost predicate ReceiptsBefore(rs: seq<ReceiptRecord>, bound: nat) {
    forall r :: r in rs ==> r.round < bound
  }

  ghost predicate RejectionsBefore(rs: seq<RejectionRecord>, bound: nat) {
    forall r :: r in rs ==> r.round < bound
  }

  ghost predicate Before(log: Log, bound: nat) {
    && CommitmentsBefore(log.commitments, bound) && ProposalsBefore(log.proposals, bound)
    && ProofsBefore(log.proofs, bound) && ReceiptsBefore(log.receipts, bound)
    && RejectionsBefore(log.rejections, bound)
  }

  /** In the middle of the machine's active round. */
  ghost predicate InRound(t: Topology, s: State, round: RoundId) {
    s.machine.current == round && Coupled(t, s.machine, s.log) && Before(s.log, round + 1)
  }

  /** Before the machine's active round. */
  ghost predicate AtRoundStart(t: Topology, s: State) {
    && Coupled(t, s.machine, s.log) && Before(s.log, s.machine.current)
    && s.machine.commitments == map[] && s.machine.proposal.None?
  }

  // ---------------------------------------------------------------------
  // One message
  // ---------------------------------------------------------------------

  lemma NoteKeepsCoupling(t: Topology, s: State, round: RoundId, node: NodeId, kind: Kind, code: Code)
    requires InRound(t, s, round) && kind != NoKind && code != NoCode
    ensures InRound(t, Note(s, round, node, kind, code), round)
  {
    hide CommitmentsLegit, HoldsRound, RemembersHexes, AllBacked, HoldsProposal, AllEmbed, AllSigned, Archived;
    hide CommitmentsBefore, ProposalsBefore, ProofsBefore, ReceiptsBefore;
  }

  /** The log never refuses what the machine accepts. */
  lemma LogDuplicateUnreachable(t: Topology, s: State, rec: CommitmentRecord)
    requires Coupled(t, s.machine, s.log)
    requires AcceptCommitment(t, s.machine, rec).Success?
    ensures AppendCommitment(s.log, rec).Some?
  {
    hide CommitmentsLegit, RemembersHexes, AllBacked, HoldsProposal, AllEmbed, AllSigned, AllLabelled;
    AppendKeepsIndex(s.log, rec);
  }

  /** What the machine has checked of a commitment it accepts. */
  lemma AcceptedCommitment(t: Topology, m: Machine, rec: CommitmentRecord)
    requires AcceptCommitment(t, m, rec).Success?
    ensures CommitmentLegit(t, rec) && rec.round == m.current
    ensures rec.nodeId !in m.commitments && rec.hex !in m.history
    ensures rec.intent.RequesterIntent? ==> rec.intent.required.text != []
    ensures AcceptCommitment(t, m, rec).value ==
            m.(history := m.history + {rec.hex}, commitments := m.commitments[rec.nodeId := rec])
  {
  }

  lemma MoreHexes(history: set<string>, cs: seq<CommitmentRecord>, rec: CommitmentRecord)
    requires RemembersHexes(history, cs) && rec.hex !in history
    ensures RemembersHexes(history + {rec.hex}, cs + [rec])
  {
    var cs' := cs + [rec];
    assert forall c :: c in cs' <==> c in cs || c == rec;
    assert Hexes(cs') == Hexes(cs) + {rec.hex};
    forall i, j | 0 <= i < j < |cs'| ensures cs'[i].hex != cs'[j].hex {
      assert cs'[i] in cs;
    }
  }

  lemma MoreCommitments(t: Topology, held: map<NodeId, CommitmentRecord>, cs: seq<CommitmentRecord>,
                        rec: CommitmentRecord)
    requires CommitmentsLegit(t, cs) && CommitmentLegit(t, rec)
    requires rec.intent.RequesterIntent? ==> rec.intent.required.text != []
    requires HoldsRound(held, cs, rec.round) && rec.nodeId !in held
    ensures CommitmentsLegit(t, cs + [rec]) && HoldsRound(held[rec.nodeId := rec], cs + [rec], rec.round)
  {
    hide CommitmentLegit;
    assert forall c :: c in cs + [rec] <==> c in cs || c == rec;
  }

  /** Logging one more commitment takes nothing away from proposals and proofs. */
  lemma MoreSupport(t: Topology, cs: seq<CommitmentRecord>, rec: CommitmentRecord,
                    ps: seq<ProposalRecord>, qs: seq<ProofRecord>)
    requires AllBacked(t, cs, ps) && AllEmbed(cs, qs)
    ensures AllBacked(t, cs + [rec], ps) && AllEmbed(cs + [rec], qs)
  {
    hide Proposes, Supports, ExtractCommitmentHex;
    assert forall c :: c in cs ==> c in cs + [rec];
    forall p | p in ps ensures Backed(t, cs + [rec], p) {
      assert Backed(t, cs, p);
    }
    forall q | q in qs ensures Embeds(cs + [rec], q) {
      assert Embeds(cs, q);
    }
  }

  lemma MoreCommitmentsBefore(cs: seq<CommitmentRecord>, rec: CommitmentRecord, bound: nat)
    requires CommitmentsBefore(cs, bound) && rec.round < bound
    ensures CommitmentsBefore(cs + [rec], bound)
  {
  }

  lemma IndexAfterAppend(log: Log, rec: CommitmentRecord)
    requires log.keys == KeySet(log.commitments) && KeysUnique(log.commitments)
    requires AppendCommitment(log, rec).Some?
    ensures var log' := AppendCommitment(log, rec).value;
      && log' == log.(keys := log'.keys, commitments := log.commitments + [rec])
      && log'.keys == KeySet(log'.commitments) && KeysUnique(log'.commitments)
  {
    AppendKeepsIndex(log, rec);
  }

  /** What is logged later is of a later round than those put away. */
  lemma MoreCommitmentsArchived(past: seq<FinalizedRound>, cs: seq<CommitmentRecord>, ps: seq<ProposalRecord>,
                                rec: CommitmentRecord)
    requires Archived(past, cs, ps) && rec.round >= |past|
    ensures Archived(past, cs + [rec], ps)
  {
    assert forall c :: c in cs + [rec] <==> c in cs || c == rec;
    forall i | 0 <= i < |past| ensures Archives(past[i], cs + [rec], ps) {
      assert past[i].round == i && Archives(past[i], cs, ps);
    }
  }

  lemma MoreProposalsArchived(past: seq<FinalizedRound>, cs: seq<CommitmentRecord>, ps: seq<ProposalRecord>,
                              p: ProposalRecord)
    requires Archived(past, cs, ps) && p.round >= |past|
    ensures Archived(past, cs, ps + [p])
  {
    hide HoldsRound;
    assert forall q :: q in ps + [p] <==> q in ps || q == p;
    forall i | 0 <= i < |past| ensures Archives(past[i], cs, ps + [p]) {
      assert past[i].round == i && Archives(past[i], cs, ps);
    }
  }

  lemma ArchiveGrows(past: seq<FinalizedRound>, f: FinalizedRound, cs: seq<CommitmentRecord>, ps: seq<ProposalRecord>)
    requires Archived(past, cs, ps) && f.round == |past| && Archives(f, cs, ps)
    ensures Archived(past + [f], cs, ps)
  {
    hide Archives;
  }

  lemma TakeCommitmentKeepsCoupling(t: Topology, s: State, round: RoundId, rec: CommitmentRecord)
    requires InRound(t, s, round)
    ensures InRound(t, TakeCommitment(t, s, round, rec), round)
  {
    hide CommitmentsLegit, HoldsRound, RemembersHexes, AllBacked, HoldsProposal, AllEmbed, AllSigned, AllLabelled;
    hide CommitmentsBefore, ProposalsBefore, ProofsBefore, ReceiptsBefore, RejectionsBefore;
    hide CommitmentLegit, CommitmentRefusal, KeysUnique, KeySet, AppendCommitment, Archived;
    var accepted := AcceptCommitment(t, s.machine, rec);
    if accepted.Success? {
      AcceptedCommitment(t, s.machine, rec);
      LogDuplicateUnreachable(t, s, rec);
      IndexAfterAppend(s.log, rec);
      MoreCommitmentsBefore(s.log.commitments, rec, round + 1);
      MoreHexes(s.machine.history, s.log.commitments, rec);
      MoreCommitments(t, s.machine.commitments, s.log.commitments, rec);
      MoreSupport(t, s.log.commitments, rec, s.log.proposals, s.log.proofs);
      MoreCommitmentsArchived(s.machine.past, s.log.commitments, s.log.proposals, rec);
    } else {
      NoteKeepsCoupling(t, s, round, rec.nodeId, CommitmentKind, CodeOf(accepted.error));
    }
  }

  /** What an accepted proposal is about. */
  lemma AcceptedProposal(t: Topology, m: Machine, cs: seq<CommitmentRecord>, p: ProposalRecord)
    requires CommitmentsLegit(t, cs) && HoldsRound(m.commitments, cs, m.current)
    requires AcceptProposal(t, m, p).Success?
    ensures Backed(t, cs, p) && p.round == m.current && m.proposal.None?
    ensures p.requester in m.commitments && p.provider in m.commitments
    ensures Supports(p, m.commitments[p.requester], m.commitments[p.provider])
    ensures AcceptProposal(t, m, p).value == m.(proposal := Some(p))
  {
    assert Supports(p, m.commitments[p.requester], m.commitments[p.provider]);
  }

  lemma MoreProposals(t: Topology, cs: seq<CommitmentRecord>, ps: seq<ProposalRecord>, p: ProposalRecord)
    requires AllBacked(t, cs, ps) && Backed(t, cs, p)
    requires HoldsProposal(None, ps, p.round) && ProposalsBefore(ps, p.round + 1)
    ensures AllBacked(t, cs, ps + [p]) && HoldsProposal(Some(p), ps + [p], p.round)
    ensures ProposalsBefore(ps + [p], p.round + 1)
  {
    hide Backed;
    assert forall q :: q in ps + [p] <==> q in ps || q == p;
    forall i | 0 <= i < |ps| ensures ps[i].round < p.round {
      assert ps[i] in ps;
    }
  }

  lemma TakeProposalKeepsCoupling(t: Topology, s: State, round: RoundId, p: ProposalRecord)
    requires InRound(t, s, round)
    ensures InRound(t, TakeProposal(t, s, round, p), round)
  {
    hide CommitmentsLegit, HoldsRound, RemembersHexes, AllBacked, HoldsProposal, AllEmbed, AllSigned, AllLabelled;
    hide CommitmentsBefore, ProposalsBefore, ProofsBefore, ReceiptsBefore, RejectionsBefore;
    hide ProposalRefusal, KeysUnique, Backed, Supports, Archived;
    var accepted := AcceptProposal(t, s.machine, p);
    if accepted.Success? {
      AcceptedProposal(t, s.machine, s.log.commitments, p);
      MoreProposals(t, s.log.commitments, s.log.proposals, p);
      MoreProposalsArchived(s.machine.past, s.log.commitments, s.log.proposals, p);
    } else {
      NoteKeepsCoupling(t, s, round, p.proposer, ProposalKind, CodeOf(accepted.error));
    }
  }

  lemma MoreProofs(held: map<NodeId, CommitmentRecord>, cs: seq<CommitmentRecord>, ps: seq<ProofRecord>, p: ProofRecord)
    requires AllEmbed(cs, ps) && ProofsBefore(ps, p.round + 1)
    requires HoldsRound(held, cs, p.round) && p.nodeId in held
    requires ExtractCommitmentHex(p.publicInputsHex) == Some(held[p.nodeId].hex)
    ensures AllEmbed(cs, ps + [p]) && ProofsBefore(ps + [p], p.round + 1)
  {
    hide ExtractCommitmentHex;
    assert Embeds(cs, p);
    assert forall q :: q in ps + [p] <==> q in ps || q == p;
  }

  lemma TakeProofKeepsCoupling(t: Topology, s: State, round: RoundId, p: ProofRecord)
    requires InRound(t, s, round)
    ensures InRound(t, TakeProof(s, round, p), round)
  {
    hide CommitmentsLegit, HoldsRound, RemembersHexes, AllBacked, HoldsProposal, AllEmbed, AllSigned, AllLabelled;
    hide CommitmentsBefore, ProposalsBefore, ProofsBefore, ReceiptsBefore, RejectionsBefore;
    hide ExtractCommitmentHex, KeysUnique, Archived;
    if p.round != round {
      NoteKeepsCoupling(t, s, round, p.nodeId, ProofKind, WrongRound);
    } else if p.nodeId !in s.machine.commitments {
      NoteKeepsCoupling(t, s, round, p.nodeId, ProofKind, UnknownCommitment);
    } else if ExtractCommitmentHex(p.publicInputsHex) != Some(s.machine.commitments[p.nodeId].hex) {
      NoteKeepsCoupling(t, s, round, p.nodeId, ProofKind, PublicInputsMismatch);
    } else {
      MoreProofs(s.machine.commitments, s.log.commitments, s.log.proofs, p);
    }
  }

  lemma TakeReceiptKeepsCoupling(t: Topology, s: State, round: RoundId, r: ReceiptRecord)
    requires InRound(t, s, round)
    ensures InRound(t, TakeReceipt(s, round, r), round)
  {
    hide CommitmentsLegit, HoldsRound, RemembersHexes, AllBacked, HoldsProposal, AllEmbed, AllLabelled;
    hide CommitmentsBefore, ProposalsBefore, ProofsBefore, RejectionsBefore, KeysUnique, Archived;
    if r.round != round {
      NoteKeepsCoupling(t, s, round, r.provider, ReceiptKind, WrongRound);
    } else if r.signatureHex == "" {
      NoteKeepsCoupling(t, s, round, r.provider, ReceiptKind, MissingSignature);
    }
  }

  /** Whatever one drained message is, machine and log stay coupled. */
  lemma TakeKeepsCoupling(t: Topology, phase: Phase, s: State, round: RoundId, msg: Message)
    requires InRound(t, s, round)
    ensures InRound(t, Take(t, phase, s, round, msg), round)
  {
    hide InRound, TakeCommitment, TakeProposal, TakeProof, TakeReceipt;
    if msg.payload.Kind() != PhaseKind(phase) {
      NoteKeepsCoupling(t, s, round, msg.origin, msg.payload.Kind(), OutOfPhase);
    } else if msg.origin != Author(msg.payload) {
      NoteKeepsCoupling(t, s, round, msg.origin, PhaseKind(phase), OriginMismatch);
    } else {
      match msg.payload
      case Commitment(rec) => TakeCommitmentKeepsCoupling(t, s, round, rec);
      case Proposal(p) => TakeProposalKeepsCoupling(t, s, round, p);
      case Proof(p) => TakeProofKeepsCoupling(t, s, round, p);
      case Receipt(r) => TakeReceiptKeepsCoupling(t, s, round, r);
    }
  }

  lemma {:induction false} DrainKeepsCoupling(t: Topology, phase: Phase, s: State, round: RoundId, msgs: seq<Message>)
    requires InRound(t, s, round)
    ensures InRound(t, Drain(t, phase, s, round, msgs), round)
    decreases |msgs|
  {
    hide InRound, Take;
    if msgs != [] {
      TakeKeepsCoupling(t, phase, s, round, msgs[0]);
      DrainKeepsCoupling(t, phase, Take(t, phase, s, round, msgs[0]), round, msgs[1..]);
    }
  }

  // ---------------------------------------------------------------------
  // What a phase leaves alone
  // ---------------------------------------------------------------------

  /** The log's closing fields are set once, after the last round. */
  ghost predicate ClosingUntouched(log: Log, log': Log) {
    && log'.runId == log.runId && log'.finalRound == log.finalRound && log'.finalized == log.finalized
    && log'.abortReason == log.abortReason && log'.schemaVersion == log.schemaVersion
  }

  /** Draining a phase leaves alone what belongs to the other phases. */
  ghost predicate PhaseFrame(phase: Phase, s: State, s': State) {
    && ClosingUntouched(s.log, s'.log)
    && s'.historical == s.historical
    && s'.machine.current == s.machine.current && s'.machine.past == s.machine.past
    && (phase != CommitPhase ==>
          && s'.machine.commitments == s.machine.commitments && s'.machine.history == s.machine.history
          && s'.log.commitments == s.log.commitments && s'.log.keys == s.log.keys)
    && (phase != ProposePhase ==> s'.log.proposals == s.log.proposals && s'.machine.proposal == s.machine.proposal)
    && (phase != ProvePhase ==> s'.log.proofs == s.log.proofs)
    && (phase != ReceiptPhase ==> s'.log.receipts == s.log.receipts)
  }

  lemma TakeFrame(t: Topology, phase: Phase, s: State, round: RoundId, msg: Message)
    ensures PhaseFrame(phase, s, Take(t, phase, s, round, msg))
  {
    hide CommitmentRefusal, ProposalRefusal, ExtractCommitmentHex, CodeOf;
  }

  lemma {:induction false} DrainFrame(t: Topology, phase: Phase, s: State, round: RoundId, msgs: seq<Message>)
    ensures PhaseFrame(phase, s, Drain(t, phase, s, round, msgs))
    decreases |msgs|
  {
    hide Take;
    if msgs != [] {
      TakeFrame(t, phase, s, round, msgs[0]);
      DrainFrame(t, phase, Take(t, phase, s, round, msgs[0]), round, msgs[1..]);
    }
  }

  /** Broadcasting commitments touches nothing but the rejections and the replay memory. */
  lemma {:induction false} TurnsFrame(cfg: Config, s: State, nodes: seq<NodeId>, round: RoundId)
    requires Turns(cfg, s, nodes, round).Success?
    ensures var s' := Turns(cfg, s, nodes, round).value.state;
      s'.machine == s.machine && s'.log == s.log.(rejections := s'.log.rejections)
    decreases |nodes|
  {
    hide BuildCommitment, HasDropped, Replays, Doubles;
    if nodes != [] {
      TurnsFrame(cfg, NodeTurn(cfg, s, nodes[0], round).value.state, nodes[1..], round);
    }
  }

  lemma {:induction false} TurnsKeepCoupling(cfg: Config, s: State, nodes: seq<NodeId>, round: RoundId)
    requires InRound(cfg.topology, s, round)
    requires Turns(cfg, s, nodes, round).Success?
    ensures InRound(cfg.topology, Turns(cfg, s, nodes, round).value.state, round)
    decreases |nodes|
  {
    hide BuildCommitment, HasDropped, Replays, Doubles, Coupled, Before;
    if nodes != [] {
      var first := NodeTurn(cfg, s, nodes[0], round).value;
      NoteKeepsCoupling(cfg.topology, s, round, nodes[0], CommitmentKind, NodeDropped);
      TurnsKeepCoupling(cfg, first.state, nodes[1..], round);
    }
  }

  // ---------------------------------------------------------------------
  // One round
  // ---------------------------------------------------------------------

  ghost predicate Proved(log: Log, round: RoundId) {
    var p := LastProposal(log.proposals, round);
    && p.Some?
    && HasProof(log.proofs, p.value.requester, round) && HasProof(log.proofs, p.value.provider, round)
  }

  /** Only the receipt phase of a finalizing round adds receipts, and they are of that round. */
  ghost predicate ReceiptsOf(receipts: seq<ReceiptRecord>, receipts': seq<ReceiptRecord>, round: RoundId) {
    && |receipts'| >= |receipts| && receipts'[..|receipts|] == receipts
    && forall i :: |receipts| <= i < |receipts'| ==> receipts'[i].round == round
  }

  /** How a round may end. */
  ghost predicate RoundEnded(t: Topology, log: Log, result: RoundResult, round: RoundId) {
    && InRound(t, result.state, round)
    && ClosingUntouched(log, result.state.log)
    && (if result.finalized then
          Proved(result.state.log, round) && ReceiptsOf(log.receipts, result.state.log.receipts, round)
        else result.state.log.receipts == log.receipts)
  }

  lemma InRoundCurrent(t: Topology, s: State, round: RoundId)
    requires InRound(t, s, round)
    ensures s.machine.current == round
  {
  }

  lemma StartIsInRound(t: Topology, s: State)
    requires AtRoundStart(t, s)
    ensures InRound(t, s, s.machine.current)
  {
    hide CommitmentsLegit, HoldsRound, RemembersHexes, AllBacked, HoldsProposal, AllEmbed, AllSigned, AllLabelled;
  }

  lemma CommitRoundCouples(cfg: Config, net: Network, s: State)
    requires AtRoundStart(cfg.topology, s) && CommitRound(cfg, net, s, s.machine.current).Success?
    ensures var s' := CommitRound(cfg, net, s, s.machine.current).value;
      && InRound(cfg.topology, s', s.machine.current)
      && s'.log.receipts == s.log.receipts && ClosingUntouched(s.log, s'.log)
      && s'.log.proposals == s.log.proposals && s'.machine.proposal.None?
  {
    hide Coupled, Before, Take;
    StartIsInRound(cfg.topology, s);
    var round := s.machine.current;
    var sent := BroadcastCommitments(cfg, s, round).value;
    var msgs := net.Deliver(round, CommitPhase, sent.messages);
    TurnsKeepCoupling(cfg, s, SortedKeys(cfg.agents.Keys), round);
    TurnsFrame(cfg, s, SortedKeys(cfg.agents.Keys), round);
    DrainKeepsCoupling(cfg.topology, CommitPhase, sent.state, round, msgs);
    DrainFrame(cfg.topology, CommitPhase, sent.state, round, msgs);
  }

  lemma {:induction false} DrainedReceipts(t: Topology, s: State, round: RoundId, msgs: seq<Message>)
    ensures ReceiptsOf(s.log.receipts, Drain(t, ReceiptPhase, s, round, msgs).log.receipts, round)
    decreases |msgs|
  {
    if msgs != [] {
      var s' := Take(t, ReceiptPhase, s, round, msgs[0]);
      DrainedReceipts(t, s', round, msgs[1..]);
      var r, r', r'' := s.log.receipts, s'.log.receipts, Drain(t, ReceiptPhase, s', round, msgs[1..]).log.receipts;
      assert |r| <= |r'| && r'[..|r|] == r && forall i :: |r| <= i < |r'| ==> r'[i].round == round;
      assert r''[..|r|] == r''[..|r'|][..|r|];
      assert forall i :: |r| <= i < |r'| ==> r''[i] == r''[..|r'|][i];
    }
  }

  lemma ProveRoundCouples(cfg: Config, net: Network, s: State, round: RoundId, p: ProposalRecord)
    requires InRound(cfg.topology, s, round) && LastProposal(s.log.proposals, round) == Some(p)
    requires ProveRound(cfg, net, s, round, p).Success?
    ensures RoundEnded(cfg.topology, s.log, ProveRound(cfg, net, s, round, p).value, round)
  {
    hide InRound, Take, ProofMessages, ReceiptMessages, HasProof, LastProposal;
    var msgs := ProofMessages(cfg, s.machine, round, [p.requester, p.provider]).value;
    var proofs := net.Deliver(round, ProvePhase, msgs);
    var drained := Drain(cfg.topology, ProvePhase, s, round, proofs);
    DrainKeepsCoupling(cfg.topology, ProvePhase, s, round, proofs);
    DrainFrame(cfg.topology, ProvePhase, s, round, proofs);
    var receipts := net.Deliver(round, ReceiptPhase, ReceiptMessages(cfg, round, p));
    DrainKeepsCoupling(cfg.topology, ReceiptPhase, drained, round, receipts);
    DrainFrame(cfg.topology, ReceiptPhase, drained, round, receipts);
    DrainedReceipts(cfg.topology, drained, round, receipts);
  }

  /** Forming a proposal message changes nothing but, at most, the rejections. */
  lemma ProposalTurnCouples(cfg: Config, s: State, round: RoundId)
    requires InRound(cfg.topology, s, round) && BroadcastProposal(cfg, s, round).Success?
    ensures var turn := BroadcastProposal(cfg, s, round).value;
      && InRound(cfg.topology, turn.state, round)
      && turn.state == s.(log := s.log.(rejections := turn.state.log.rejections))
      && (turn.proceed ==> turn.state == s)
  {
    hide InRound, Derive, ProviderSnapshot, ProposerOf;
    var turn := BroadcastProposal(cfg, s, round).value;
    if !turn.proceed {
      var r := turn.state.log.rejections[|s.log.rejections|];
      NoteKeepsCoupling(cfg.topology, s, round, r.nodeId, r.kind, r.code);
    }
  }

  lemma ProposeRoundCouples(cfg: Config, net: Network, s: State, round: RoundId)
    requires InRound(cfg.topology, s, round)
    requires ProposeRound(cfg, net, s, round).Success?
    ensures RoundEnded(cfg.topology, s.log, ProposeRound(cfg, net, s, round).value, round)
  {
    hide InRound, Take, BroadcastProposal, ProveRound, LastProposal, Proved;
    ProposalTurnCouples(cfg, s, round);
    var turn := BroadcastProposal(cfg, s, round).value;
    if turn.proceed {
      var msgs := net.Deliver(round, ProposePhase, turn.messages);
      var drained := Drain(cfg.topology, ProposePhase, turn.state, round, msgs);
      DrainKeepsCoupling(cfg.topology, ProposePhase, turn.state, round, msgs);
      DrainFrame(cfg.topology, ProposePhase, turn.state, round, msgs);
      var p := LastProposal(drained.log.proposals, round);
      if p.Some? {
        ProveRoundCouples(cfg, net, drained, round, p.value);
      }
    }
  }

  lemma RunRoundCouples(cfg: Config, net: Network, s: State)
    requires AtRoundStart(cfg.topology, s) && RunRound(cfg, net, s).Success?
    ensures RoundEnded(cfg.topology, s.log, RunRound(cfg, net, s).value, s.machine.current)
  {
    hide InRound, AtRoundStart, CommitRound, ProposeRound, Proved;
    CommitRoundCouples(cfg, net, s);
    var round := s.machine.current;
    var committed := CommitRound(cfg, net, s, round).value;
    var requester := cfg.topology.SoleRequester().value.id;
    if requester in committed.machine.commitments {
      ProposeRoundCouples(cfg, net, committed, round);
    } else {
      NoteKeepsCoupling(cfg.topology, committed, round, requester, RoundKind, CodeRequesterMissing);
    }
  }

  lemma FallbackCouples(t: Topology, s: State, round: RoundId)
    requires InRound(t, s, round) && Fallback(s).Success?
    ensures AtRoundStart(t, Fallback(s).value)
    ensures Fallback(s).value.machine.current == round + 1
    ensures Fallback(s).value.log == s.log && Fallback(s).value.historical == s.historical
  {
    hide CommitmentsLegit, RemembersHexes, AllBacked, AllEmbed, AllSigned, AllLabelled, Archived;
    var m := s.machine;
    ArchiveGrows(m.past, FinalizedRound(m.current, m.commitments, m.proposal), s.log.commitments, s.log.proposals);
  }

  // ---------------------------------------------------------------------
  // Whole runs
  // ---------------------------------------------------------------------

  /** How a run may end, whatever was delivered. */
  ghost predicate RunEnded(t: Topology, e: Ending) {
    && Coupled(t, e.state.machine, e.state.log)
    && Before(e.state.log, e.finalRound + 1)
    && (if e.finalized then
          && Proved(e.state.log, e.finalRound) && e.state.machine.current == e.finalRound
          && (forall r :: r in e.state.log.receipts ==> r.round == e.finalRound)
        else e.state.log.receipts == [])
  }

  lemma {:induction false} RoundsCouple(cfg: Config, net: Network, s: State, finalRound: RoundId, left: nat)
    requires AtRoundStart(cfg.topology, s) && Before(s.log, finalRound + 1) && s.log.receipts == []
    requires Rounds(cfg, net, s, finalRound, left).Success?
    ensures RunEnded(cfg.topology, Rounds(cfg, net, s, finalRound, left).value)
    ensures ClosingUntouched(s.log, Rounds(cfg, net, s, finalRound, left).value.state.log)
    decreases left
  {
    hide Coupled, Before, RunRound, Fallback, Proved;
    if left > 0 {
      RunRoundCouples(cfg, net, s);
      var result := RunRound(cfg, net, s).value;
      if !result.finalized {
        var round := s.machine.current;
        FallbackCouples(cfg.topology, result.state, round);
        RoundsCouple(cfg, net, Fallback(result.state).value, round, left - 1);
      }
    }
  }

  lemma InitialIsStart(t: Topology, runId: string)
    ensures AtRoundStart(t, Initial(runId))
  {
    assert KeySet([]) == {};
    assert Hexes([]) == {};
  }

  /** In every run that returns, over any transport, machine and log are coupled at the end. */
  lemma RunCouples(cfg: Config, net: Network, runId: string)
    requires Run(cfg, net, runId).Success?
    ensures RunEnded(cfg.topology, Rounds(cfg, net, Initial(runId), 0, cfg.maxRounds).value)
  {
    hide Coupled, RunRound, RunEnded, ConfigRefusal, Rounds;
    InitialIsStart(cfg.topology, runId);
    RoundsCouple(cfg, net, Initial(runId), 0, cfg.maxRounds);
  }
}
