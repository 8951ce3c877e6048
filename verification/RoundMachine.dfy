/** The deterministic round state machine: what it accepts, refuses and remembers. */
module RoundMachines {
  import opened Results
  import opened Protocol
  import opened Matching
  import opened Proposer

  datatype RoundError =
    | RoundMismatch(expected: RoundId, actual: RoundId)
    | DuplicateCommitment(round: RoundId)
    | ReplayDetected
    | UnknownNode
    | RoleMismatch
    | BackwardTransition
    | ProposerFailed(error: ProposerError)
    | WrongProposer
    | UnknownRequesterCommitment
    | UnknownProviderCommitment
    | TamperedProposal(denial: Denial)
    | AlreadyFinalized

  datatype FinalizedRound =
    FinalizedRound(round: RoundId, commitments: map<NodeId, CommitmentRecord>, proposal: Option<ProposalRecord>)

  /** The machine's fields as one value. */
  datatype Machine = Machine(
    current: RoundId,
    commitments: map<NodeId, CommitmentRecord>,
    proposal: Option<ProposalRecord>,
    history: set<string>,
    past: seq<FinalizedRound>)

  function NewMachine(start: RoundId): Machine {
    Machine(start, map[], None, {}, [])
  }

  /** Why `rec` is refused in state `m`, if it is. */
  function CommitmentRefusal(t: Topology, m: Machine, rec: CommitmentRecord): Option<RoundError> {
    if m.proposal.Some? then Some(AlreadyFinalized)
    else if rec.round != m.current then Some(RoundMismatch(m.current, rec.round))
    else
      var node := t.Find(rec.nodeId);
      if node.None? then Some(UnknownNode)
      else if rec.intent.Role() != node.value.role then Some(RoleMismatch)
      else if rec.intent.round != m.current then Some(RoundMismatch(m.current, rec.intent.round))
      else if rec.intent.nodeId != rec.nodeId then Some(RoleMismatch)
      else if rec.nodeId in m.commitments then Some(DuplicateCommitment(m.current))
      else if rec.hex in m.history then Some(ReplayDetected)
      else if rec.intent.RequesterIntent? && rec.intent.required.text == [] then Some(RoleMismatch)
      else None
  }

  function AcceptCommitment(t: Topology, m: Machine, rec: CommitmentRecord): Result<Machine, RoundError> {
    var refusal := CommitmentRefusal(t, m, rec);
    if refusal.Some? then Failure(refusal.value)
    else Success(m.(history := m.history + {rec.hex}, commitments := m.commitments[rec.nodeId := rec]))
  }

  /** Why `p` is refused in state `m`, if it is. */
  function ProposalRefusal(t: Topology, m: Machine, p: ProposalRecord): Option<RoundError> {
    if m.proposal.Some? then Some(AlreadyFinalized)
    else if p.round != m.current then Some(RoundMismatch(m.current, p.round))
    else
      match ProposerOf(t, m.current)
      case Failure(e) => Some(ProposerFailed(e))
      case Success(expected) =>
        if p.proposer != expected then Some(WrongProposer)
        else if p.requester !in m.commitments then Some(UnknownRequesterCommitment)
        else if p.provider !in m.commitments then Some(UnknownProviderCommitment)
        else
          var req, prov := m.commitments[p.requester].intent, m.commitments[p.provider].intent;
          match ValidateAnnotation(p.requester, req, p.provider, prov, p.matched)
          case Some(d) => Some(TamperedProposal(d))
          case None =>
            if prov.RequesterIntent? then Some(TamperedProposal(WrongProviderRole))
            else if p.matched !in prov.claims then Some(TamperedProposal(Denial.ProviderLacksCapability))
            else None
  }

  function AcceptProposal(t: Topology, m: Machine, p: ProposalRecord): Result<Machine, RoundError> {
    var refusal := ProposalRefusal(t, m, p);
    if refusal.Some? then Failure(refusal.value)
    else Success(m.(proposal := Some(p)))
  }

  function AdvanceTo(m: Machine, next: RoundId): Result<Machine, RoundError> {
    if next <= m.current then Failure(BackwardTransition)
    else
      var closed := FinalizedRound(m.current, m.commitments, m.proposal);
      Success(Machine(next, map[], None, m.history, m.past + [closed]))
  }

  /** A mismatch names the active round and the one that was claimed instead. */
  lemma MismatchNames(t: Topology, m: Machine, rec: CommitmentRecord, p: ProposalRecord, e: RoundId, a: RoundId)
    ensures CommitmentRefusal(t, m, rec) == Some(RoundMismatch(e, a)) ==>
      e == m.current && a != e && a == if rec.round != e then rec.round else rec.intent.round
    ensures ProposalRefusal(t, m, p) == Some(RoundMismatch(e, a)) ==> e == m.current && a == p.round && a != e
    ensures CommitmentRefusal(t, m, rec) == Some(DuplicateCommitment(a)) ==> a == m.current
  {
    hide ProposerOf, ValidateAnnotation;
  }

  /** The machine moves strictly forward, starts afresh, and forgets neither a hex nor a round. */
  lemma AdvanceKeeps(m: Machine, next: RoundId)
    ensures AdvanceTo(m, next) == Failure(BackwardTransition) <==> next <= m.current
    ensures next > m.current ==>
      && AdvanceTo(m, next).Success?
      && var n := AdvanceTo(m, next).value;
         && n.current == next && n.commitments == map[] && n.proposal.None? && n.history == m.history
         && |n.past| == |m.past| + 1 && n.past[..|m.past|] == m.past
         && n.past[|m.past|].round == m.current
         && n.past[|m.past|].commitments == m.commitments && n.past[|m.past|].proposal == m.proposal
  {
  }

  class RoundMachine {
    const topology: Topology
    var current: RoundId
    var commitments: map<NodeId, CommitmentRecord>
    var proposal: Option<ProposalRecord>
    var history: set<string>
    var past: seq<FinalizedRound>

    function View(): Machine
      reads this
    {
      Machine(current, commitments, proposal, history, past)
    }

    constructor (topology: Topology, start: RoundId)
      ensures this.topology == topology && View() == NewMachine(start)
    {
      this.topology := topology;
      current := start;
      commitments := map[];
      proposal := None;
      history := {};
      past := [];
    }

    method CurrentProposer() returns (r: Result<NodeId, RoundError>)
      ensures r == match ProposerOf(topology, current)
                   case Success(p) => Success(p)
                   case Failure(e) => Failure(ProposerFailed(e))
    {
      var p := ProposerForRound(current, Ring(topology));
      match p {
        case Success(id) => r := Success(id);
        case Failure(e) => r := Failure(ProposerFailed(e));
      }
    }

    /** Validates before mutating, so a refusal leaves every field as it was. */
    method Commit(rec: CommitmentRecord) returns (r: Result<(), RoundError>)
      modifies this
      ensures match AcceptCommitment(topology, old(View()), rec)
              case Success(m) => r == Success(()) && View() == m
              case Failure(e) => r == Failure(e) && View() == old(View())
    {
      if proposal.Some? {
        return Failure(AlreadyFinalized);
      }
      if rec.round != current {
        return Failure(RoundMismatch(current, rec.round));
      }
      var node := topology.Find(rec.nodeId);
      if node.None? {
        return Failure(UnknownNode);
      }
      var expectedRole := node.value.role;
      if rec.intent.Role() != expectedRole {
        return Failure(RoleMismatch);
      }
      if rec.intent.round != current {
        return Failure(RoundMismatch(current, rec.intent.round));
      }
      if rec.intent.nodeId != rec.nodeId {
        return Failure(RoleMismatch);
      }
      if rec.nodeId in commitments {
        return Failure(DuplicateCommitment(current));
      }
      if rec.hex in history {
        return Failure(ReplayDetected);
      }
      if expectedRole == Requester && rec.intent.RequesterIntent? && rec.intent.required.text == [] {
        return Failure(RoleMismatch);
      }
      history := history + {rec.hex};
      commitments := commitments[rec.nodeId := rec];
      return Success(());
    }

    method Propose(p: ProposalRecord) returns (r: Result<(), RoundError>)
      modifies this
      ensures match AcceptProposal(topology, old(View()), p)
              case Success(m) => r == Success(()) && View() == m
              case Failure(e) => r == Failure(e) && View() == old(View())
    {
      if proposal.Some? {
        return Failure(AlreadyFinalized);
      }
      if p.round != current {
        return Failure(RoundMismatch(current, p.round));
      }
      var expected := CurrentProposer();
      if expected.Failure? {
        return Failure(expected.error);
      }
      if p.proposer != expected.value {
        return Failure(WrongProposer);
      }
      if p.requester !in commitments {
        return Failure(UnknownRequesterCommitment);
      }
      if p.provider !in commitments {
        return Failure(UnknownProviderCommitment);
      }
      var req, prov := commitments[p.requester].intent, commitments[p.provider].intent;
      var denial := ValidateAnnotation(p.requester, req, p.provider, prov, p.matched);
      if denial.Some? {
        return Failure(TamperedProposal(denial.value));
      }
      match prov {
        case ProviderIntent(_, _, claims) =>
          if p.matched !in claims {
            return Failure(TamperedProposal(Denial.ProviderLacksCapability));
          }
        case RequesterIntent(_, _, _) =>
          return Failure(TamperedProposal(WrongProviderRole));
      }
      proposal := Some(p);
      return Success(());
    }

    method Advance(next: RoundId) returns (r: Result<(), RoundError>)
      modifies this
      ensures match AdvanceTo(old(View()), next)
              case Success(m) => r == Success(()) && View() == m
              case Failure(e) => r == Failure(e) && View() == old(View())
    {
      if next <= current {
        return Failure(BackwardTransition);
      }
      past := past + [FinalizedRound(current, commitments, proposal)];
      commitments := map[];
      proposal := None;
      current := next;
      return Success(());
    }
  }
}
