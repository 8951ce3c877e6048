/**
  The coordination runtime as functions of its state: what each phase broadcasts, what a drained
  message does, how a round ends and how rounds make up a run.
 */
module Runs {
  import opened Results
  import opened Bytes
  import opened Protocol
  import opened Ordering
  import opened Matching
  import opened Proposer
  import opened RoundMachines
  import opened CoordinationLogs
  import opened Artifacts
  import opened Preimages

  datatype Config = Config(
    topology: Topology,
    agents: map<NodeId, Agent>,
    events: seq<Event>,
    maxRounds: U64,
    salt: Bytes32,
    crypto: Crypto)

  datatype RuntimeError =
    | NoRequester
    | NoProvidersConfigured
    | NoLocalAgent
    | MissingPrivateIntent(node: NodeId)
    | RoundFailed(round: RoundError)
    | CommitmentFailed(commitment: CommitmentError)
    | Panicked

  datatype State = State(
    machine: Machine,
    log: Log,
    historical: map<(NodeId, RoundId), CommitmentRecord>)

  datatype Phase = CommitPhase | ProposePhase | ProvePhase | ReceiptPhase

  /**
    What a transport hands over when a phase is drained. The in-process bus hands over what was
    broadcast, in order; any other transport that stays open may hand over any finite sequence of
    messages.
   */
  datatype Network =
    | InProcess
    | Delivered(segment: (RoundId, Phase, seq<Message>) -> seq<Message>)
  {
    function Deliver(round: RoundId, phase: Phase, sent: seq<Message>): seq<Message> {
      match this
      case InProcess => sent
      case Delivered(f) => f(round, phase, sent)
    }
  }

  function Note(s: State, round: RoundId, node: NodeId, kind: Kind, code: Code): State {
    s.(log := Reject(s.log, RejectionRecord(round, node, kind, code)))
  }

  function CodeOf(e: RoundError): Code {
    match e
    case RoundMismatch(_, _) => CodeRoundMismatch
    case DuplicateCommitment(_) => CodeDuplicateCommitment
    case ReplayDetected => CodeReplayDetected
    case UnknownNode => CodeUnknownNode
    case RoleMismatch => CodeRoleMismatch
    case BackwardTransition => CodeBackwardTransition
    case ProposerFailed(_) => CodeProposerError
    case WrongProposer => CodeWrongProposer
    case UnknownRequesterCommitment => CodeUnknownRequesterCommitment
    case UnknownProviderCommitment => CodeUnknownProviderCommitment
    case TamperedProposal(_) => CodeTamperedProposal
    case AlreadyFinalized => CodeAlreadyFinalized
  }

  // ---------------------------------------------------------------------
  // Commit phase: broadcasting
  // ---------------------------------------------------------------------

  function Digest(cfg: Config, agent: Agent, node: NodeId, round: RoundId): Result<Bytes32, RuntimeError> {
    var nonce := TestNonce(cfg.crypto, node, round, cfg.salt);
    match agent.role
    case Requester =>
      if agent.requester.None? then Failure(MissingPrivateIntent(node))
      else (
        match RequesterPreimage(agent.requester.value, nonce, round)
        case Failure(e) => Failure(CommitmentFailed(e))
        case Success(b) => Success(cfg.crypto.blake2s(b)))
    case Provider =>
      if agent.provider.None? then Failure(MissingPrivateIntent(node))
      else
        match ProviderPreimage(agent.provider.value, nonce, round)
        case Failure(e) => Failure(CommitmentFailed(e))
        case Success(b) => Success(cfg.crypto.blake2s(b))
  }

  function BuildCommitment(cfg: Config, node: NodeId, round: RoundId): Result<CommitmentRecord, RuntimeError> {
    if node !in cfg.agents then Failure(MissingPrivateIntent(node))
    else
      var agent, configured := cfg.agents[node], cfg.topology.Find(node);
      if configured.None? then Failure(Panicked)
      else
        var digest :- Digest(cfg, agent, node, round);
        if agent.role == Requester && configured.value.required.None? then Failure(Panicked)
        else
          var intent :=
            if agent.role == Requester then RequesterIntent(node, round, configured.value.required.value)
            else ProviderIntent(node, round, configured.value.claims);
          Success(CommitmentRecord(node, round, HexEncode(digest), intent))
  }

  function Relabelled(prior: CommitmentRecord, round: RoundId): CommitmentRecord {
    CommitmentRecord(prior.nodeId, round, prior.hex, prior.intent.WithRound(round))
  }

  /** The replays scheduled by `events`, for those prior commitments that were broadcast. */
  function Replays(events: seq<Event>, historical: map<(NodeId, RoundId), CommitmentRecord>, round: RoundId)
    : seq<Message>
  {
    if events == [] then []
    else
      var e := events[0];
      (if e.ReplayPriorCommitment? && (e.node, e.fromRound) in historical
       then [Message(e.node, Commitment(Relabelled(historical[(e.node, e.fromRound)], round)))]
       else [])
      + Replays(events[1..], historical, round)
  }

  function Doubles(events: seq<Event>, historical: map<(NodeId, RoundId), CommitmentRecord>): seq<Message> {
    if events == [] then []
    else
      var e := events[0];
      (if e.DoubleCommit? && (e.node, e.round) in historical
       then [Message(e.node, Commitment(historical[(e.node, e.round)]))]
       else [])
      + Doubles(events[1..], historical)
  }

  datatype Sent = Sent(state: State, messages: seq<Message>)

  /** One node's turn in the commit broadcast: replays first, then the commitment and its duplicates. */
  function NodeTurn(cfg: Config, s: State, node: NodeId, round: RoundId): Result<Sent, RuntimeError> {
    var events := EventsForRound(cfg.events, node, round);
    var replays := Replays(events, s.historical, round);
    if HasDropped(cfg.events, node, round) then
      Success(Sent(Note(s, round, node, CommitmentKind, NodeDropped), replays))
    else
      var base :- BuildCommitment(cfg, node, round);
      var historical := s.historical[(node, round) := base];
      Success(Sent(s.(historical := historical),
                   replays + [Message(node, Commitment(base))] + Doubles(events, historical)))
  }

  function Turns(cfg: Config, s: State, nodes: seq<NodeId>, round: RoundId): Result<Sent, RuntimeError>
    decreases |nodes|
  {
    if nodes == [] then Success(Sent(s, []))
    else
      var first :- NodeTurn(cfg, s, nodes[0], round);
      var rest :- Turns(cfg, first.state, nodes[1..], round);
      Success(Sent(rest.state, first.messages + rest.messages))
  }

  function BroadcastCommitments(cfg: Config, s: State, round: RoundId): Result<Sent, RuntimeError> {
    Turns(cfg, s, SortedKeys(cfg.agents.Keys), round)
  }

  // ---------------------------------------------------------------------
  // Draining
  // ---------------------------------------------------------------------

  function TakeCommitment(t: Topology, s: State, round: RoundId, rec: CommitmentRecord): State {
    match AcceptCommitment(t, s.machine, rec)
    case Failure(e) => Note(s, round, rec.nodeId, CommitmentKind, CodeOf(e))
    case Success(m) =>
      match AppendCommitment(s.log, rec)
      case None => Note(s.(machine := m), round, rec.nodeId, CommitmentKind, LogDuplicate)
      case Some(log) => s.(machine := m, log := log)
  }

  function TakeProposal(t: Topology, s: State, round: RoundId, p: ProposalRecord): State {
    match AcceptProposal(t, s.machine, p)
    case Failure(e) => Note(s, round, p.proposer, ProposalKind, CodeOf(e))
    case Success(m) => s.(machine := m, log := s.log.(proposals := s.log.proposals + [p]))
  }

  function TakeProof(s: State, round: RoundId, p: ProofRecord): State {
    if p.round != round then Note(s, round, p.nodeId, ProofKind, WrongRound)
    else if p.nodeId !in s.machine.commitments then Note(s, round, p.nodeId, ProofKind, UnknownCommitment)
    else if ExtractCommitmentHex(p.publicInputsHex) != Some(s.machine.commitments[p.nodeId].hex) then
      Note(s, round, p.nodeId, ProofKind, PublicInputsMismatch)
    else s.(log := s.log.(proofs := s.log.proofs + [p]))
  }

  function TakeReceipt(s: State, round: RoundId, r: ReceiptRecord): State {
    if r.round != round then Note(s, round, r.provider, ReceiptKind, WrongRound)
    else if r.signatureHex == "" then Note(s, round, r.provider, ReceiptKind, MissingSignature)
    else s.(log := s.log.(receipts := s.log.receipts + [r]))
  }

  function PhaseKind(phase: Phase): Kind {
    match phase
    case CommitPhase => CommitmentKind
    case ProposePhase => ProposalKind
    case ProvePhase => ProofKind
    case ReceiptPhase => ReceiptKind
  }

  /** The node a payload speaks for. */
  function Author(p: Payload): NodeId {
    match p
    case Commitment(rec) => rec.nodeId
    case Proposal(rec) => rec.proposer
    case Proof(rec) => rec.nodeId
    case Receipt(rec) => rec.provider
  }

  /** The effect of one message drained in `phase`. */
  function Take(t: Topology, phase: Phase, s: State, round: RoundId, msg: Message): State {
    if msg.payload.Kind() != PhaseKind(phase) then
      Note(s, round, msg.origin, msg.payload.Kind(), OutOfPhase)
    else if msg.origin != Author(msg.payload) then
      Note(s, round, msg.origin, PhaseKind(phase), OriginMismatch)
    else
      match msg.payload
      case Commitment(rec) => TakeCommitment(t, s, round, rec)
      case Proposal(p) => TakeProposal(t, s, round, p)
      case Proof(p) => TakeProof(s, round, p)
      case Receipt(r) => TakeReceipt(s, round, r)
  }

  function Drain(t: Topology, phase: Phase, s: State, round: RoundId, msgs: seq<Message>): State
    decreases |msgs|
  {
    if msgs == [] then s
    else Drain(t, phase, Take(t, phase, s, round, msgs[0]), round, msgs[1..])
  }

  // ---------------------------------------------------------------------
  // Propose, prove and receipt phases: broadcasting
  // ---------------------------------------------------------------------

  /** The accepted commitments in key order, leaving one node out. */
  function Others(commitments: map<NodeId, CommitmentRecord>, keys: seq<NodeId>, skip: NodeId): seq<CommitmentRecord>
    requires forall k :: k in keys ==> k in commitments
  {
    if keys == [] then []
    else (if keys[0] == skip then [] else [commitments[keys[0]]]) + Others(commitments, keys[1..], skip)
  }

  lemma {:induction false} OthersMembers(commitments: map<NodeId, CommitmentRecord>, keys: seq<NodeId>, skip: NodeId,
                                         c: CommitmentRecord)
    requires forall k :: k in keys ==> k in commitments
    ensures c in Others(commitments, keys, skip) <==> exists k :: k in keys && k != skip && commitments[k] == c
  {
    if keys != [] {
      OthersMembers(commitments, keys[1..], skip, c);
      assert forall k :: k in keys <==> k == keys[0] || k in keys[1..];
    }
  }

  function ProviderSnapshot(m: Machine, requester: NodeId): seq<CommitmentRecord> {
    Others(m.commitments, SortedKeys(m.commitments.Keys), requester)
  }

  datatype ProposalTurn = ProposalTurn(state: State, messages: seq<Message>, proceed: bool)

  function BroadcastProposal(cfg: Config, s: State, round: RoundId): Result<ProposalTurn, RuntimeError> {
    match ProposerOf(cfg.topology, s.machine.current)
    case Failure(e) => Failure(RoundFailed(ProposerFailed(e)))
    case Success(proposer) =>
      if proposer !in cfg.agents then Success(ProposalTurn(s, [], true))
      else
        var requester := cfg.topology.SoleRequester();
        if requester.None? then Failure(Panicked)
        else
          var id := requester.value.id;
          if id !in s.machine.commitments then
            Success(ProposalTurn(Note(s, round, proposer, ProposalKind, CodeRequesterMissing), [], false))
          else
            match Derive(round, s.machine.commitments[id], ProviderSnapshot(s.machine, id))
            case Failure(e) =>
              Success(ProposalTurn(Note(s, round, proposer, ProposalKind, CandidateError(e)), [], false))
            case Success(None) =>
              Success(ProposalTurn(Note(s, round, proposer, ProposalKind, NoFeasibleProvider), [], false))
            case Success(Some(c)) =>
              var p := ProposalRecord(proposer, round, c.requester, c.provider, c.matched);
              Success(ProposalTurn(s, [Message(proposer, Proposal(p))], true))
  }

  function ProofOf(cfg: Config, commitment: CommitmentRecord, node: NodeId, round: RoundId): ProofRecord {
    var honest := ProofFor(cfg.crypto, commitment, node, round);
    if ProofIsTampered(cfg.events, node, round) then honest.(publicInputsHex := Tampered(honest.publicInputsHex))
    else honest
  }

  function ProofMessages(cfg: Config, m: Machine, round: RoundId, participants: seq<NodeId>)
    : Result<seq<Message>, RuntimeError>
  {
    if participants == [] then Success([])
    else
      var node := participants[0];
      if node !in cfg.agents then ProofMessages(cfg, m, round, participants[1..])
      else if node !in m.commitments then Failure(Panicked)
      else
        var rest :- ProofMessages(cfg, m, round, participants[1..]);
        Success([Message(node, Proof(ProofOf(cfg, m.commitments[node], node, round)))] + rest)
  }

  function SeedOf(agent: Agent): Option<Seed> {
    if agent.provider.Some? then agent.provider.value.seed else None
  }

  function ReceiptMessages(cfg: Config, round: RoundId, p: ProposalRecord): seq<Message> {
    if p.provider !in cfg.agents then []
    else
      var signature := SignatureHex(cfg.crypto, SeedOf(cfg.agents[p.provider]), p.provider, round, p.matched);
      [Message(p.provider, Receipt(ReceiptRecord(p.provider, round, signature)))]
  }

  // ---------------------------------------------------------------------
  // Rounds
  // ---------------------------------------------------------------------

  datatype RoundResult = RoundResult(state: State, finalized: bool)

  function CommitRound(cfg: Config, net: Network, s: State, round: RoundId): Result<State, RuntimeError> {
    var sent :- BroadcastCommitments(cfg, s, round);
    Success(Drain(cfg.topology, CommitPhase, sent.state, round, net.Deliver(round, CommitPhase, sent.messages)))
  }

  /** From the propose phase on, once the requester's commitment is in. */
  function ProposeRound(cfg: Config, net: Network, s: State, round: RoundId): Result<RoundResult, RuntimeError> {
    var turn :- BroadcastProposal(cfg, s, round);
    if !turn.proceed then Success(RoundResult(turn.state, false))
    else
      var drained := Drain(cfg.topology, ProposePhase, turn.state, round,
                           net.Deliver(round, ProposePhase, turn.messages));
      match LastProposal(drained.log.proposals, round)
      case None => Success(RoundResult(drained, false))
      case Some(p) => ProveRound(cfg, net, drained, round, p)
  }

  function ProveRound(cfg: Config, net: Network, s: State, round: RoundId, p: ProposalRecord)
    : Result<RoundResult, RuntimeError>
  {
    var msgs :- ProofMessages(cfg, s.machine, round, [p.requester, p.provider]);
    var drained := Drain(cfg.topology, ProvePhase, s, round, net.Deliver(round, ProvePhase, msgs));
    if !(HasProof(drained.log.proofs, p.requester, round) && HasProof(drained.log.proofs, p.provider, round)) then
      Success(RoundResult(drained, false))
    else
      Success(RoundResult(SettleRound(cfg, net, drained, round, p), true))
  }

  function SettleRound(cfg: Config, net: Network, s: State, round: RoundId, p: ProposalRecord): State {
    Drain(cfg.topology, ReceiptPhase, s, round, net.Deliver(round, ReceiptPhase, ReceiptMessages(cfg, round, p)))
  }

  function RunRound(cfg: Config, net: Network, s: State): Result<RoundResult, RuntimeError> {
    var round := s.machine.current;
    var committed :- CommitRound(cfg, net, s, round);
    var requester := cfg.topology.SoleRequester();
    if requester.None? then Failure(Panicked)
    else if requester.value.id !in committed.machine.commitments then
      Success(RoundResult(Note(committed, round, requester.value.id, RoundKind, CodeRequesterMissing), false))
    else ProposeRound(cfg, net, committed, round)
  }

  /** `advance_fallback`: the next round is one later, and the counter must not overflow. */
  function Fallback(s: State): Result<State, RuntimeError> {
    if s.machine.current + 1 >= 0x1_0000_0000_0000_0000 then Failure(Panicked)
    else
      match AdvanceTo(s.machine, s.machine.current + 1)
      case Failure(e) => Failure(RoundFailed(e))
      case Success(m) => Success(s.(machine := m))
  }

  // ---------------------------------------------------------------------
  // Runs
  // ---------------------------------------------------------------------

  datatype Ending = Ending(state: State, finalRound: RoundId, finalized: bool)

  /** Up to `left` more rounds. */
  function Rounds(cfg: Config, net: Network, s: State, finalRound: RoundId, left: nat): Result<Ending, RuntimeError>
    decreases left
  {
    if left == 0 then Success(Ending(s, finalRound, false))
    else
      var round := s.machine.current;
      var result :- RunRound(cfg, net, s);
      if result.finalized then Success(Ending(result.state, round, true))
      else
        var next :- Fallback(result.state);
        Rounds(cfg, net, next, round, left - 1)
  }

  function CountRole(nodes: seq<NodeConfig>, role: Role): nat {
    if nodes == [] then 0 else (if nodes[0].role == role then 1 else 0) + CountRole(nodes[1..], role)
  }

  function FirstStranger(t: Topology, ids: seq<NodeId>): (s: Option<NodeId>)
    ensures s.None? <==> forall id :: id in ids ==> t.Find(id).Some?
  {
    if ids == [] then None
    else if t.Find(ids[0]).None? then Some(ids[0])
    else
      assert ids == [ids[0]] + ids[1..];
      FirstStranger(t, ids[1..])
  }

  /** What the constructor refuses. */
  function ConfigRefusal(cfg: Config): Option<RuntimeError> {
    if CountRole(cfg.topology.nodes, Requester) != 1 then Some(NoRequester)
    else if CountRole(cfg.topology.nodes, Provider) == 0 then Some(NoProvidersConfigured)
    else
      match FirstStranger(cfg.topology, SortedKeys(cfg.agents.Keys))
      case Some(id) => Some(MissingPrivateIntent(id))
      case None => if cfg.agents == map[] then Some(NoLocalAgent) else None
  }

  function Initial(runId: string): State {
    State(NewMachine(0), EmptyLog(runId), map[])
  }

  datatype RunOutcome = RunOutcome(log: Log, finalized: bool, finalRound: RoundId)

  function Conclude(e: Ending): RunOutcome {
    var log := e.state.log.(finalRound := e.finalRound, finalized := e.finalized);
    RunOutcome(if e.finalized then log else log.(abortReason := Some(MaxRoundsExceeded)), e.finalized, e.finalRound)
  }

  function Run(cfg: Config, net: Network, runId: string): Result<RunOutcome, RuntimeError> {
    match ConfigRefusal(cfg)
    case Some(e) => Failure(e)
    case None =>
      var e :- Rounds(cfg, net, Initial(runId), 0, cfg.maxRounds);
      Success(Conclude(e))
  }
}
