/** The protocol's public records, the topology, the agents and the scenario. */
module Protocol {
  import opened Bytes
  import opened Results

  datatype NodeId = NodeId(bytes: Bytes32)

  /** A capability label, by its ASCII bytes. */
  datatype CapabilityTag = CapabilityTag(text: seq<Byte>)

  type RoundId = U64

  datatype Role = Requester | Provider

  // ---------------------------------------------------------------------
  // Public records
  // ---------------------------------------------------------------------

  datatype PublicIntent =
    | RequesterIntent(nodeId: NodeId, round: RoundId, required: CapabilityTag)
    | ProviderIntent(nodeId: NodeId, round: RoundId, claims: seq<CapabilityTag>)
  {
    function Role(): Role {
      if RequesterIntent? then Requester else Provider
    }

    function WithRound(r: RoundId): PublicIntent {
      this.(round := r)
    }
  }

  datatype CommitmentRecord =
    CommitmentRecord(nodeId: NodeId, round: RoundId, hex: string, intent: PublicIntent)

  datatype ProposalRecord =
    ProposalRecord(proposer: NodeId, round: RoundId, requester: NodeId, provider: NodeId, matched: CapabilityTag)

  datatype ProofRecord =
    ProofRecord(nodeId: NodeId, round: RoundId, publicInputsHex: string, proofHex: string)

  datatype ReceiptRecord =
    ReceiptRecord(provider: NodeId, round: RoundId, signatureHex: string)

  /** The class of a rejected message. `NoKind` is the empty label. */
  datatype Kind = NoKind | RoundKind | CommitmentKind | ProposalKind | ProofKind | ReceiptKind

  /** Why a message or a round was refused. `NoCode` is the empty label. */
  datatype Code =
    | NoCode
    | NodeDropped | OutOfPhase | OriginMismatch | LogDuplicate
    | CodeRequesterMissing | NoFeasibleProvider | CandidateError(why: CandidateRejection)
    | WrongRound | UnknownCommitment | PublicInputsMismatch | MissingSignature
    | CodeRoundMismatch | CodeDuplicateCommitment | CodeReplayDetected | CodeUnknownNode
    | CodeRoleMismatch | CodeBackwardTransition | CodeProposerError | CodeWrongProposer
    | CodeUnknownRequesterCommitment | CodeUnknownProviderCommitment | CodeTamperedProposal
    | CodeAlreadyFinalized

  datatype RejectionRecord = RejectionRecord(round: RoundId, nodeId: NodeId, kind: Kind, code: Code)

  datatype CandidateRejection = MissingRequesterCapability | WrongRoundInRequester

  // ---------------------------------------------------------------------
  // Messages
  // ---------------------------------------------------------------------

  datatype Payload =
    | Commitment(commitment: CommitmentRecord)
    | Proposal(proposal: ProposalRecord)
    | Proof(proof: ProofRecord)
    | Receipt(receipt: ReceiptRecord)
  {
    function Kind(): Kind {
      match this
      case Commitment(_) => CommitmentKind
      case Proposal(_) => ProposalKind
      case Proof(_) => ProofKind
      case Receipt(_) => ReceiptKind
    }
  }

  datatype Message = Message(origin: NodeId, payload: Payload)

  // ---------------------------------------------------------------------
  // Topology
  // ---------------------------------------------------------------------

  type PublicKey = Bytes32
  type Seed = Bytes32

  datatype NodeConfig =
    NodeConfig(id: NodeId, role: Role, required: Option<CapabilityTag>, claims: seq<CapabilityTag>,
               signingKey: Option<PublicKey>)

  datatype Topology = Topology(nodes: seq<NodeConfig>) {

    function Find(id: NodeId): (n: Option<NodeConfig>)
      ensures n.Some? ==> n.value in nodes && n.value.id == id
      ensures n.None? ==> forall m :: m in nodes ==> m.id != id
    {
      FindNode(nodes, id)
    }

    /** The first requester in listing order; the loader makes it the only one. */
    function SoleRequester(): (n: Option<NodeConfig>)
      ensures n.Some? ==> n.value in nodes && n.value.role == Requester
      ensures n.None? ==> forall m :: m in nodes ==> m.role != Requester
    {
      FindRole(nodes, Requester)
    }
  }

  function FindNode(nodes: seq<NodeConfig>, id: NodeId): (n: Option<NodeConfig>)
    ensures n.Some? ==> n.value in nodes && n.value.id == id
    ensures n.None? ==> forall m :: m in nodes ==> m.id != id
  {
    if nodes == [] then None
    else if nodes[0].id == id then Some(nodes[0])
    else FindNode(nodes[1..], id)
  }

  function FindRole(nodes: seq<NodeConfig>, role: Role): (n: Option<NodeConfig>)
    ensures n.Some? ==> n.value in nodes && n.value.role == role
    ensures n.None? ==> forall m :: m in nodes ==> m.role != role
  {
    if nodes == [] then None
    else if nodes[0].role == role then Some(nodes[0])
    else FindRole(nodes[1..], role)
  }

  /** What the topology loader lets through. */
  ghost predicate ValidNode(n: NodeConfig) {
    match n.role
    case Requester => n.required.Some? && n.required.value.text != [] && n.claims == []
    case Provider => n.required.None? && n.claims != [] && forall c :: c in n.claims ==> c.text != []
  }

  ghost predicate UniqueIds(nodes: seq<NodeConfig>) {
    forall i, j :: 0 <= i < j < |nodes| ==> nodes[i].id != nodes[j].id
  }

  ghost predicate ValidTopology(t: Topology) {
    && UniqueIds(t.nodes)
    && (forall n :: n in t.nodes ==> ValidNode(n))
    && (exists n :: n in t.nodes && n.role == Requester)
    && (forall i, j :: 0 <= i < j < |t.nodes| ==> !(t.nodes[i].role == Requester && t.nodes[j].role == Requester))
    && (exists n :: n in t.nodes && n.role == Provider)
  }

  lemma FindIsMember(t: Topology, n: NodeConfig)
    requires UniqueIds(t.nodes) && n in t.nodes
    ensures t.Find(n.id) == Some(n)
  {
  }

  lemma RequesterIsSole(t: Topology, n: NodeConfig)
    requires ValidTopology(t) && n in t.nodes && n.role == Requester
    ensures t.SoleRequester() == Some(n)
  {
  }

  // ---------------------------------------------------------------------
  // Agents and scenarios
  // ---------------------------------------------------------------------

  datatype RequesterSecret =
    RequesterSecret(nodeId: NodeId, required: CapabilityTag, budgetCents: U64, seed: Option<Seed>)

  datatype ProviderSecret =
    ProviderSecret(nodeId: NodeId, claims: seq<CapabilityTag>, reservationCents: U64, seed: Option<Seed>)

  datatype Agent =
    Agent(nodeId: NodeId, role: Role, requester: Option<RequesterSecret>, provider: Option<ProviderSecret>)

  datatype Event =
    | DoubleCommit(node: NodeId, round: U64)
    | ReplayPriorCommitment(node: NodeId, round: U64, fromRound: U64)
    | DropNode(node: NodeId, afterRound: U64)
    | InjectInvalidProof(node: NodeId, round: U64)

  predicate Targets(e: Event, node: NodeId, round: U64) {
    !e.DropNode? && e.node == node && e.round == round
  }

  function EventsForRound(events: seq<Event>, node: NodeId, round: U64): (es: seq<Event>)
    ensures forall e :: e in es ==> Targets(e, node, round)
  {
    if events == [] then []
    else (if Targets(events[0], node, round) then [events[0]] else []) + EventsForRound(events[1..], node, round)
  }

  predicate HasDropped(events: seq<Event>, node: NodeId, round: U64) {
    exists e :: e in events && e.DropNode? && e.node == node && round > e.afterRound
  }

  predicate ProofIsTampered(events: seq<Event>, node: NodeId, round: U64) {
    InjectInvalidProof(node, round) in events
  }

  // ---------------------------------------------------------------------
  // Cryptography, kept abstract
  // ---------------------------------------------------------------------

  /** BLAKE2s-256 (RFC 7693) and Ed25519 (RFC 8032), as functions of unknown body. */
  datatype Crypto = Crypto(
    blake2s: seq<Byte> -> Bytes32,
    publicOf: Seed -> PublicKey,
    sign: (Seed, seq<Byte>) -> seq<Byte>,
    verify: (PublicKey, seq<Byte>, seq<Byte>) -> bool)

  const SIGNATURE_LENGTH := 64

  /** Signatures are never shorter or longer than 64 bytes. */
  ghost predicate SignatureShape(c: Crypto) {
    forall seed, msg :: |c.sign(seed, msg)| == SIGNATURE_LENGTH
  }

  /** Ed25519 correctness: the signer's own key accepts what the signer signs. */
  ghost predicate SigningLaw(c: Crypto) {
    && SignatureShape(c)
    && (forall seed, msg :: c.verify(c.publicOf(seed), msg, c.sign(seed, msg)))
  }
}
