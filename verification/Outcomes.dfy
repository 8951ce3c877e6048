/**
  What becomes of one drained message, read off the public log: it is appended, or it is refused with
  one code, and which code is decided by the log, the topology and the message alone.
 */
module Outcomes {
  import opened Results
  import opened Bytes
  import opened Protocol
  import opened Matching
  import opened Proposer
  import opened RoundMachines
  import opened CoordinationLogs
  import opened Artifacts
  import opened Runs
  import opened Verifier
  import opened Coupling
  import opened Reports

  // ---------------------------------------------------------------------
  // When a message is refused
  // ---------------------------------------------------------------------

  ghost predicate HasProposal(log: Log, round: RoundId) {
    exists p :: p in log.proposals && p.round == round
  }

  ghost predicate HexIsLogged(log: Log, hex: string) {
    exists c :: c in log.commitments && c.hex == hex
  }

  /** A commitment of a configured node that says of its round, role and author what the node is. */
  ghost predicate Labelled(t: Topology, round: RoundId, rec: CommitmentRecord) {
    && rec.round == round && rec.intent.round == round && rec.intent.nodeId == rec.nodeId
    && Configured(t, rec.nodeId) && !RoleIsWrong(t, rec)
  }

  ghost predicate RoleIsWrong(t: Topology, rec: CommitmentRecord) {
    exists n :: IsNode(t, rec.nodeId, n) && (rec.intent.RequesterIntent? <==> n.role == Provider)
  }

  ghost predicate CommitmentRefusedFor(t: Topology, log: Log, round: RoundId, rec: CommitmentRecord, code: Code) {
    if HasProposal(log, round) then code == CodeAlreadyFinalized
    else
      match code
      case CodeRoundMismatch =>
        rec.round != round || (Configured(t, rec.nodeId) && !RoleIsWrong(t, rec) && rec.intent.round != round)
      case CodeUnknownNode => rec.round == round && !Configured(t, rec.nodeId)
      case CodeRoleMismatch =>
        || (rec.round == round && RoleIsWrong(t, rec))
        || (rec.round == round && rec.intent.round == round && Configured(t, rec.nodeId)
            && rec.intent.nodeId != rec.nodeId
            && !RoleIsWrong(t, rec))
        || (Labelled(t, round, rec) && !HasCommitted(log.commitments, rec.nodeId, round) && !HexIsLogged(log, rec.hex)
            && rec.intent.RequesterIntent? && rec.intent.required.text == [])
      case CodeDuplicateCommitment => Labelled(t, round, rec) && HasCommitted(log.commitments, rec.nodeId, round)
      case CodeReplayDetected =>
        Labelled(t, round, rec) && !HasCommitted(log.commitments, rec.nodeId, round) && HexIsLogged(log, rec.hex)
      case _ => false
  }

  /** Both sides committed, and to what the proposal says of them. */
  ghost predicate PairFits(log: Log, p: ProposalRecord) {
    exists req, prov ::
      && req in log.commitments && Keyed(req, p.requester, p.round)
      && prov in log.commitments && Keyed(prov, p.provider, p.round)
      && req.intent.RequesterIntent? && req.intent.required == p.matched
      && prov.intent.ProviderIntent? && p.matched in prov.intent.claims
  }

  ghost predicate ProposalRefusedFor(t: Topology, log: Log, round: RoundId, p: ProposalRecord, code: Code) {
    if HasProposal(log, round) then code == CodeAlreadyFinalized
    else if p.round != round then code == CodeRoundMismatch
    else if ProposerOf(t, round).Failure? then code == CodeProposerError
    else if ProposerOf(t, round).value != p.proposer then code == CodeWrongProposer
    else
      var asked, offered := HasCommitted(log.commitments, p.requester, round),
          HasCommitted(log.commitments, p.provider, round);
      match code
      case CodeUnknownRequesterCommitment => !asked
      case CodeUnknownProviderCommitment => asked && !offered
      case CodeTamperedProposal => asked && offered && !PairFits(log, p)
      case _ => false
  }

  /** The artifact embeds the hash its node committed to: bytes 40 to 72 of what it decodes to. */
  ghost predicate EmbedsOwnHash(log: Log, p: ProofRecord) {
    exists c, b: seq<Byte> ::
        c in log.commitments && Keyed(c, p.nodeId, p.round) && HexDecode(p.publicInputsHex) == Some(b)
                              && |b| >= 72 && HexEncode(b[40..72]) == c.hex
  }

  ghost predicate ProofRefusedFor(log: Log, round: RoundId, p: ProofRecord, code: Code) {
    match code
    case WrongRound => p.round != round
    case UnknownCommitment => p.round == round && !HasCommitted(log.commitments, p.nodeId, round)
    case PublicInputsMismatch =>
      p.round == round && HasCommitted(log.commitments, p.nodeId, round) && !EmbedsOwnHash(log, p)
    case _ => false
  }

  ghost predicate ReceiptRefusedFor(round: RoundId, r: ReceiptRecord, code: Code) {
    match code
    case WrongRound => r.round != round
    case MissingSignature => r.round == round && r.signatureHex == ""
    case _ => false
  }

  /** The message is refused with `code` when it is drained in `phase` of `round`. */
  ghost predicate RefusedFor(t: Topology, phase: Phase, log: Log, round: RoundId, msg: Message, code: Code) {
    match (phase, msg.payload)
    case (CommitPhase, Commitment(rec)) =>
      if msg.origin != rec.nodeId then code == OriginMismatch else CommitmentRefusedFor(t, log, round, rec, code)
    case (ProposePhase, Proposal(p)) =>
      if msg.origin != p.proposer then code == OriginMismatch else ProposalRefusedFor(t, log, round, p, code)
    case (ProvePhase, Proof(p)) =>
      if msg.origin != p.nodeId then code == OriginMismatch else ProofRefusedFor(log, round, p, code)
    case (ReceiptPhase, Receipt(r)) =>
      if msg.origin != r.provider then code == OriginMismatch else ReceiptRefusedFor(round, r, code)
    case _ => code == OutOfPhase
  }

  /** A refusal names the message's origin and the kind of its payload. */
  function RefusalOf(round: RoundId, msg: Message, code: Code): RejectionRecord {
    var kind := match msg.payload
      case Commitment(_) => CommitmentKind
      case Proposal(_) => ProposalKind
      case Proof(_) => ProofKind
      case Receipt(_) => ReceiptKind;
    RejectionRecord(round, msg.origin, kind, code)
  }

  ghost predicate Refused(s: State, s': State, r: RejectionRecord) {
    s' == s.(log := s.log.(rejections := s.log.rejections + [r]))
  }

  /** The payload is the one new entry of the public log. */
  ghost predicate Appended(log: Log, log': Log, p: Payload) {
    match p
    case Commitment(rec) => log' == log.(commitments := log.commitments + [rec], keys := log'.keys)
    case Proposal(rec) => log' == log.(proposals := log.proposals + [rec])
    case Proof(rec) => log' == log.(proofs := log.proofs + [rec])
    case Receipt(rec) => log' == log.(receipts := log.receipts + [rec])
  }

  // ---------------------------------------------------------------------
  // The machine sees what the log shows
  // ---------------------------------------------------------------------

  lemma MachineShowsInLog(t: Topology, s: State, round: RoundId, id: NodeId, hex: string)
    requires InRound(t, s, round)
    ensures s.machine.current == round
    ensures s.machine.proposal.Some? <==> HasProposal(s.log, round)
    ensures id in s.machine.commitments <==> HasCommitted(s.log.commitments, id, round)
    ensures hex in s.machine.history <==> HexIsLogged(s.log, hex)
    ensures id in s.machine.commitments ==>
      var c := s.machine.commitments[id];
      c in s.log.commitments && Keyed(c, id, round) && c.intent.nodeId == id && c.intent.round == round
  {
    hide AllBacked, AllEmbed, AllSigned, AllLabelled, Before, KeysUnique, Archived, HexesDistinct;
  }

  lemma HeldIsUnique(t: Topology, s: State, round: RoundId, id: NodeId, c: CommitmentRecord)
    requires InRound(t, s, round) && c in s.log.commitments && Keyed(c, id, round)
    ensures id in s.machine.commitments && s.machine.commitments[id] == c
  {
    hide AllBacked, AllEmbed, AllSigned, AllLabelled, Before, KeysUnique, Archived, HexesDistinct, CommitmentsLegit;
  }

  lemma CommitmentRefusalShows(t: Topology, s: State, round: RoundId, rec: CommitmentRecord, code: Code)
    requires InRound(t, s, round)
    ensures CommitmentRefusedFor(t, s.log, round, rec, code) <==>
            CommitmentRefusal(t, s.machine, rec).Some? && CodeOf(CommitmentRefusal(t, s.machine, rec).value) == code
  {
    hide InRound, HasProposal, HasCommitted, HexIsLogged, Configured, RoleIsWrong;
    MachineShowsInLog(t, s, round, rec.nodeId, rec.hex);
    ConfiguredIffFound(t, rec.nodeId);
    RoleIsWrongIff(t, rec);
  }

  lemma RoleIsWrongIff(t: Topology, rec: CommitmentRecord)
    ensures RoleIsWrong(t, rec) <==> t.Find(rec.nodeId).Some? && rec.intent.Role() != t.Find(rec.nodeId).value.role
  {
    hide IsNode;
    forall n ensures t.Find(rec.nodeId) == Some(n) <==> IsNode(t, rec.nodeId, n) {
      FindNodeIsFirst(t, rec.nodeId, n);
    }
  }

  lemma PairFitsIff(t: Topology, s: State, p: ProposalRecord)
    requires InRound(t, s, p.round) && p.requester in s.machine.commitments && p.provider in s.machine.commitments
    ensures PairFits(s.log, p) <==>
      var req, prov := s.machine.commitments[p.requester].intent, s.machine.commitments[p.provider].intent;
      && req.RequesterIntent? && req.required == p.matched && prov.ProviderIntent? && p.matched in prov.claims
  {
    hide InRound, HasProposal, HasCommitted, HexIsLogged;
    MachineShowsInLog(t, s, p.round, p.requester, "");
    MachineShowsInLog(t, s, p.round, p.provider, "");
    forall c | c in s.log.commitments && (Keyed(c, p.requester, p.round) || Keyed(c, p.provider, p.round))
      ensures s.machine.commitments[c.nodeId] == c
    {
      HeldIsUnique(t, s, p.round, c.nodeId, c);
    }
  }

  /** Between committed nodes a proposal is refused only as tampered. */
  lemma PairedRefusal(t: Topology, m: Machine, p: ProposalRecord)
    requires m.proposal.None? && p.round == m.current && ProposerOf(t, m.current) == Success(p.proposer)
    requires p.requester in m.commitments && m.commitments[p.requester].intent.nodeId == p.requester
    requires p.provider in m.commitments && m.commitments[p.provider].intent.nodeId == p.provider
    ensures var req, prov := m.commitments[p.requester].intent, m.commitments[p.provider].intent;
      ProposalRefusal(t, m, p).None? <==>
      req.RequesterIntent? && req.required == p.matched && prov.ProviderIntent? && p.matched in prov.claims
    ensures ProposalRefusal(t, m, p).Some? ==> CodeOf(ProposalRefusal(t, m, p).value) == CodeTamperedProposal
  {
    hide ProposerOf;
  }

  lemma ProposalRefusalShows(t: Topology, s: State, round: RoundId, p: ProposalRecord, code: Code)
    requires InRound(t, s, round)
    ensures ProposalRefusedFor(t, s.log, round, p, code) <==>
            ProposalRefusal(t, s.machine, p).Some? && CodeOf(ProposalRefusal(t, s.machine, p).value) == code
  {
    hide InRound, HasProposal, HasCommitted, HexIsLogged, PairFits, ProposerOf, ValidateAnnotation;
    var m := s.machine;
    MachineShowsInLog(t, s, round, p.requester, "");
    MachineShowsInLog(t, s, round, p.provider, "");
    if && m.proposal.None? && p.round == round && ProposerOf(t, round) == Success(p.proposer)
       && p.requester in m.commitments && p.provider in m.commitments {
      hide ProposalRefusal, CodeOf;
      PairedRefusal(t, m, p);
      PairFitsIff(t, s, p);
    }
  }

  lemma EmbedsOwnHashIff(t: Topology, s: State, p: ProofRecord)
    requires InRound(t, s, p.round) && p.nodeId in s.machine.commitments
    ensures EmbedsOwnHash(s.log, p) <==>
            ExtractCommitmentHex(p.publicInputsHex) == Some(s.machine.commitments[p.nodeId].hex)
  {
    hide InRound, HasProposal, HasCommitted, HexIsLogged, HexDecode, HexEncode;
    MachineShowsInLog(t, s, p.round, p.nodeId, "");
    forall c | c in s.log.commitments && Keyed(c, p.nodeId, p.round) ensures s.machine.commitments[p.nodeId] == c {
      HeldIsUnique(t, s, p.round, p.nodeId, c);
    }
  }

  // ---------------------------------------------------------------------
  // The outcome
  // ---------------------------------------------------------------------

  lemma TakeCommitmentOutcome(t: Topology, s: State, round: RoundId, rec: CommitmentRecord, code: Code)
    requires InRound(t, s, round)
    ensures var s', r := TakeCommitment(t, s, round, rec), RejectionRecord(round, rec.nodeId, CommitmentKind, code);
      && (CommitmentRefusedFor(t, s.log, round, rec, code) ==> Refused(s, s', r))
      && (CommitmentRefusal(t, s.machine, rec).None? <==> Appended(s.log, s'.log, Commitment(rec)))
  {
    CommitmentRefusalShows(t, s, round, rec, code);
    if AcceptCommitment(t, s.machine, rec).Success? {
      LogDuplicateUnreachable(t, s, rec);
    }
    hide InRound, CommitmentRefusedFor, CommitmentRefusal, CodeOf;
  }

  lemma TakeProposalOutcome(t: Topology, s: State, round: RoundId, p: ProposalRecord, code: Code)
    requires InRound(t, s, round)
    ensures var s', r := TakeProposal(t, s, round, p), RejectionRecord(round, p.proposer, ProposalKind, code);
      && (ProposalRefusedFor(t, s.log, round, p, code) ==> Refused(s, s', r))
      && (ProposalRefusal(t, s.machine, p).None? <==> Appended(s.log, s'.log, Proposal(p)))
  {
    ProposalRefusalShows(t, s, round, p, code);
    hide InRound, ProposalRefusedFor, ProposalRefusal, CodeOf;
  }

  lemma TakeProofOutcome(t: Topology, s: State, round: RoundId, p: ProofRecord, code: Code)
    requires InRound(t, s, round)
    ensures var s', r := TakeProof(s, round, p), RejectionRecord(round, p.nodeId, ProofKind, code);
      && (ProofRefusedFor(s.log, round, p, code) ==> Refused(s, s', r))
      && (Appended(s.log, s'.log, Proof(p)) <==> p.round == round && HasCommitted(s.log.commitments, p.nodeId, round)
                                                 && EmbedsOwnHash(s.log, p))
  {
    hide InRound, HasProposal, HasCommitted, HexIsLogged, EmbedsOwnHash, ExtractCommitmentHex;
    MachineShowsInLog(t, s, round, p.nodeId, "");
    if p.round == round && p.nodeId in s.machine.commitments {
      EmbedsOwnHashIff(t, s, p);
    }
  }

  lemma TakeReceiptOutcome(s: State, round: RoundId, r: ReceiptRecord, code: Code)
    ensures var s', x := TakeReceipt(s, round, r), RejectionRecord(round, r.provider, ReceiptKind, code);
      && (ReceiptRefusedFor(round, r, code) ==> Refused(s, s', x))
      && (Appended(s.log, s'.log, Receipt(r)) <==> r.round == round && r.signatureHex != "")
  {
  }

  /** A refused message leaves one rejection, with the code the log calls for, and nothing else. */
  lemma RefusalIsAsDue(t: Topology, phase: Phase, s: State, round: RoundId, msg: Message, code: Code)
    requires InRound(t, s, round) && RefusedFor(t, phase, s.log, round, msg, code)
    ensures Refused(s, Take(t, phase, s, round, msg), RefusalOf(round, msg, code))
  {
    hide InRound, TakeCommitment, TakeProposal, TakeProof, TakeReceipt, CommitmentRefusedFor, ProposalRefusedFor;
    hide ProofRefusedFor, ReceiptRefusedFor;
    match msg.payload
    case Commitment(rec) => TakeCommitmentOutcome(t, s, round, rec, code);
    case Proposal(p) => TakeProposalOutcome(t, s, round, p, code);
    case Proof(p) => TakeProofOutcome(t, s, round, p, code);
    case Receipt(r) => TakeReceiptOutcome(s, round, r, code);
  }

  /** A message that no code applies to is appended, whole and alone; any other leaves the record as it was. */
  lemma AcceptedUnlessRefused(t: Topology, phase: Phase, s: State, round: RoundId, msg: Message)
    requires InRound(t, s, round)
    ensures Appended(s.log, Take(t, phase, s, round, msg).log, msg.payload) <==>
            forall code :: !RefusedFor(t, phase, s.log, round, msg, code)
  {
    hide InRound, Take, RefusedFor, Appended;
    if code :| RefusedFor(t, phase, s.log, round, msg, code) {
      RefusalIsAsDue(t, phase, s, round, msg, code);
      RefusedIsNotAppended(s, Take(t, phase, s, round, msg), RefusalOf(round, msg, code), msg.payload);
    } else if !Appended(s.log, Take(t, phase, s, round, msg).log, msg.payload) {
      var code := SomeCodeApplies(t, phase, s, round, msg);
    }
  }

  lemma RefusedIsNotAppended(s: State, s': State, r: RejectionRecord, p: Payload)
    requires Refused(s, s', r)
    ensures !Appended(s.log, s'.log, p)
  {
  }

  /** The code a message that is not appended is refused with. */
  lemma SomeCodeApplies(t: Topology, phase: Phase, s: State, round: RoundId, msg: Message) returns (code: Code)
    requires InRound(t, s, round) && !Appended(s.log, Take(t, phase, s, round, msg).log, msg.payload)
    ensures RefusedFor(t, phase, s.log, round, msg, code)
  {
    hide InRound, TakeCommitment, TakeProposal, TakeProof, TakeReceipt, CommitmentRefusedFor, ProposalRefusedFor,
         CodeOf;
    hide CommitmentRefusal, ProposalRefusal, HasCommitted, EmbedsOwnHash, Appended;
    if msg.payload.Kind() != PhaseKind(phase) {
      return OutOfPhase;
    }
    if msg.origin != Author(msg.payload) {
      return OriginMismatch;
    }
    match msg.payload {
      case Commitment(rec) =>
        TakeCommitmentOutcome(t, s, round, rec, NoCode);
        code := CodeOf(CommitmentRefusal(t, s.machine, rec).value);
        CommitmentRefusalShows(t, s, round, rec, code);
      case Proposal(p) =>
        TakeProposalOutcome(t, s, round, p, NoCode);
        code := CodeOf(ProposalRefusal(t, s.machine, p).value);
        ProposalRefusalShows(t, s, round, p, code);
      case Proof(p) =>
        TakeProofOutcome(t, s, round, p, NoCode);
        code := if p.round != round then WrongRound
                else if !HasCommitted(s.log.commitments, p.nodeId, round) then UnknownCommitment
                else PublicInputsMismatch;
      case Receipt(r) =>
        TakeReceiptOutcome(s, round, r, NoCode);
        code := if r.round != round then WrongRound else MissingSignature;
    }
  }
}
