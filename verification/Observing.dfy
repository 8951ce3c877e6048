/** What the public can see of a state, and that draining depends on nothing else. */
module Observing {
  import opened Results
  import opened Protocol
  import opened RoundMachines
  import opened CoordinationLogs
  import opened Artifacts
  import opened Runs

  function Public(log: Log): Log {
    log.(rejections := [])
  }

  /** The same but for the rejections and the replay memory. */
  ghost predicate SamePublic(s: State, s': State) {
    s.machine == s'.machine && Public(s.log) == Public(s'.log)
  }

  lemma NoteSame(s: State, s': State, round: RoundId, node: NodeId, kind: Kind, code: Code)
    requires SamePublic(s, s')
    ensures SamePublic(Note(s, round, node, kind, code), Note(s', round, node, kind, code))
  {
  }

  lemma TakeCommitmentSame(t: Topology, s: State, s': State, round: RoundId, rec: CommitmentRecord)
    requires SamePublic(s, s')
    ensures SamePublic(TakeCommitment(t, s, round, rec), TakeCommitment(t, s', round, rec))
  {
    hide AcceptCommitment, CodeOf;
  }

  lemma TakeProposalSame(t: Topology, s: State, s': State, round: RoundId, p: ProposalRecord)
    requires SamePublic(s, s')
    ensures SamePublic(TakeProposal(t, s, round, p), TakeProposal(t, s', round, p))
  {
    hide AcceptProposal, CodeOf;
    assert Public(s.log).proposals == Public(s'.log).proposals;
  }

  lemma TakeProofSame(s: State, s': State, round: RoundId, p: ProofRecord)
    requires SamePublic(s, s')
    ensures SamePublic(TakeProof(s, round, p), TakeProof(s', round, p))
  {
    hide ExtractCommitmentHex;
    assert Public(s.log).proofs == Public(s'.log).proofs;
  }

  lemma TakeReceiptSame(s: State, s': State, round: RoundId, r: ReceiptRecord)
    requires SamePublic(s, s')
    ensures SamePublic(TakeReceipt(s, round, r), TakeReceipt(s', round, r))
  {
    assert Public(s.log).receipts == Public(s'.log).receipts;
  }

  lemma TakeSame(t: Topology, phase: Phase, s: State, s': State, round: RoundId, msg: Message)
    requires SamePublic(s, s')
    ensures SamePublic(Take(t, phase, s, round, msg), Take(t, phase, s', round, msg))
  {
    hide SamePublic, Note, TakeCommitment, TakeProposal, TakeProof, TakeReceipt;
    if msg.payload.Kind() != PhaseKind(phase) {
      NoteSame(s, s', round, msg.origin, msg.payload.Kind(), OutOfPhase);
    } else if msg.origin != Author(msg.payload) {
      NoteSame(s, s', round, msg.origin, PhaseKind(phase), OriginMismatch);
    } else {
      match msg.payload
      case Commitment(rec) => TakeCommitmentSame(t, s, s', round, rec);
      case Proposal(p) => TakeProposalSame(t, s, s', round, p);
      case Proof(p) => TakeProofSame(s, s', round, p);
      case Receipt(r) => TakeReceiptSame(s, s', round, r);
    }
  }

  /** Two processes that agree and drain the same messages go on agreeing. */
  lemma {:induction false} DrainSame(t: Topology, phase: Phase, s: State, s': State, round: RoundId, msgs: seq<Message>)
    requires SamePublic(s, s')
    ensures SamePublic(Drain(t, phase, s, round, msgs), Drain(t, phase, s', round, msgs))
    decreases |msgs|
  {
    if msgs != [] {
      TakeSame(t, phase, s, s', round, msgs[0]);
      hide Take;
      DrainSame(t, phase, Take(t, phase, s, round, msgs[0]), Take(t, phase, s', round, msgs[0]), round, msgs[1..]);
    }
  }
}
