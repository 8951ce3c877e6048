/** The standalone verifier: the reasons it gives for a log, and what a log without reasons is. */
module Verifier {
  import opened Results
  import opened Bytes
  import opened Protocol
  import opened Matching
  import opened Proposer
  import opened CoordinationLogs
  import opened Artifacts

  datatype Reason =
    | UnsupportedSchemaVersion(version: nat)
    | CommitmentFromUnknownNode(node: NodeId)
    | CommitmentRoleMismatch(node: NodeId)
    | CommitmentIntentNodeMismatch(node: NodeId)
    | CommitmentRoundMismatch(node: NodeId, round: RoundId)
    | DuplicateCommitment(node: NodeId, round: RoundId)
    | ProposalWrongProposer(round: RoundId)
    | ProposerRotationError(round: RoundId)
    | ProposalUnknownCommitment(round: RoundId)
    | ProposalAnnotationTampered(round: RoundId, denial: Denial)
    | ProposalProviderLacksCapability(round: RoundId)
    | ProofMalformedPublicInputs(node: NodeId)
    | ProofRoundMismatch(node: NodeId, round: RoundId)
    | ProofNodeMismatch(node: NodeId)
    | ProofNoMatchingCommitment(node: NodeId, round: RoundId)
    | ProofCommitmentMismatch(node: NodeId, round: RoundId)
    | ProofRoleByteMismatch(node: NodeId)
    | ProofHexMalformed(node: NodeId)
    | ProofMarkerUnexpected(node: NodeId)
    | FinalRoundMissingProposal
    | FinalRoundRequesterCommitmentMissing
    | FinalRoundProviderCommitmentMissing
    | FinalRoundPredicateFailed(denial: Denial)
    | FinalRoundMissingReceipt
    | FinalRoundEmptySignature
    | FinalRoundSignatureMismatch
    | FinalRoundMissingRequesterProof
    | FinalRoundMissingProviderProof
    | AbortedRunHasReceipt
    | RejectionRoundOutOfRange(node: NodeId, round: RoundId)
    | RejectionMissingFields

  datatype Report = Report(runId: string, valid: bool, finalRound: RoundId, reasons: seq<Reason>)

  // ---------------------------------------------------------------------
  // Collecting faults
  // ---------------------------------------------------------------------

  function When(condition: bool, r: Reason): seq<Reason> {
    if condition then [r] else []
  }

  /** The faults of every record, record after record. */
  function Gather<T>(xs: seq<T>, faults: T -> seq<Reason>): seq<Reason> {
    if xs == [] then [] else Gather(xs[..|xs| - 1], faults) + faults(xs[|xs| - 1])
  }

  lemma GatherNext<T>(xs: seq<T>, i: nat, faults: T -> seq<Reason>)
    requires i < |xs|
    ensures Gather(xs[..i + 1], faults) == Gather(xs[..i], faults) + faults(xs[i])
  {
    assert xs[..i + 1][..i] == xs[..i];
  }

  lemma {:induction false} GatherNothing<T>(xs: seq<T>, faults: T -> seq<Reason>)
    ensures Gather(xs, faults) == [] <==> forall x :: x in xs ==> faults(x) == []
  {
    if xs != [] {
      var front, last := xs[..|xs| - 1], xs[|xs| - 1];
      GatherNothing(front, faults);
      assert xs == front + [last];
      assert forall x :: x in xs <==> x in front || x == last;
    }
  }

  // ---------------------------------------------------------------------
  // Per-record faults
  // ---------------------------------------------------------------------

  function CommitmentFaults(t: Topology, seen: set<(NodeId, RoundId)>, c: CommitmentRecord): seq<Reason> {
    var node := t.Find(c.nodeId);
    if node.None? then [CommitmentFromUnknownNode(c.nodeId)]
    else
      When(c.intent.Role() != node.value.role, CommitmentRoleMismatch(c.nodeId))
      + When(c.intent.nodeId != c.nodeId, CommitmentIntentNodeMismatch(c.nodeId))
      + When(c.intent.round != c.round, CommitmentRoundMismatch(c.nodeId, c.round))
      + When((c.nodeId, c.round) in seen, DuplicateCommitment(c.nodeId, c.round))
  }

  /** The keys noted so far: those of the configured nodes' commitments. */
  function SeenKeys(t: Topology, cs: seq<CommitmentRecord>): set<(NodeId, RoundId)> {
    set c | c in cs && t.Find(c.nodeId).Some? :: (c.nodeId, c.round)
  }

  function AllCommitmentFaults(t: Topology, cs: seq<CommitmentRecord>): seq<Reason> {
    if cs == [] then []
    else
      var front, last := cs[..|cs| - 1], cs[|cs| - 1];
      AllCommitmentFaults(t, front) + CommitmentFaults(t, SeenKeys(t, front), last)
  }

  function ProposerFaults(t: Topology, p: ProposalRecord): seq<Reason> {
    match ProposerOf(t, p.round)
    case Success(expected) => When(expected != p.proposer, ProposalWrongProposer(p.round))
    case Failure(_) => [ProposerRotationError(p.round)]
  }

  function ReferenceFaults(cs: seq<CommitmentRecord>, p: ProposalRecord): seq<Reason> {
    var req, prov := FindCommitment(cs, p.requester, p.round), FindCommitment(cs, p.provider, p.round);
    if req.None? || prov.None? then [ProposalUnknownCommitment(p.round)]
    else
      var denial := ValidateAnnotation(p.requester, req.value.intent, p.provider, prov.value.intent, p.matched);
      (if denial.Some? then [ProposalAnnotationTampered(p.round, denial.value)] else [])
      + When(prov.value.intent.ProviderIntent? && p.matched !in prov.value.intent.claims,
             ProposalProviderLacksCapability(p.round))
  }

  function ProposalFaults(t: Topology, cs: seq<CommitmentRecord>, p: ProposalRecord): seq<Reason> {
    ProposerFaults(t, p) + ReferenceFaults(cs, p)
  }

  function AllProposalFaults(t: Topology, cs: seq<CommitmentRecord>, ps: seq<ProposalRecord>): seq<Reason> {
    Gather(ps, p => ProposalFaults(t, cs, p))
  }

  function MarkerFaults(proof: ProofRecord): seq<Reason> {
    match HexDecode(proof.proofHex)
    case None => [ProofHexMalformed(proof.nodeId)]
    case Some(b) => When(b == [] || (b[0] != 1 && b[0] != 2), ProofMarkerUnexpected(proof.nodeId))
  }

  function LabelFaults(inputs: PublicInputs, proof: ProofRecord): seq<Reason> {
    When(inputs.round != proof.round, ProofRoundMismatch(proof.nodeId, proof.round))
    + When(inputs.nodeId != proof.nodeId, ProofNodeMismatch(proof.nodeId))
  }

  function BindingFaults(c: CommitmentRecord, inputs: PublicInputs, proof: ProofRecord): seq<Reason> {
    When(HexEncode(inputs.digest) != c.hex, ProofCommitmentMismatch(proof.nodeId, proof.round))
    + When(inputs.role != RoleByte(c.intent), ProofRoleByteMismatch(proof.nodeId))
    + MarkerFaults(proof)
  }

  function ProofFaults(cs: seq<CommitmentRecord>, proof: ProofRecord): seq<Reason> {
    match ParsePublicInputs(proof.publicInputsHex)
    case None => [ProofMalformedPublicInputs(proof.nodeId)]
    case Some(inputs) =>
      LabelFaults(inputs, proof)
      + match FindCommitment(cs, proof.nodeId, proof.round)
        case None => [ProofNoMatchingCommitment(proof.nodeId, proof.round)]
        case Some(c) => BindingFaults(c, inputs, proof)
  }

  function AllProofFaults(cs: seq<CommitmentRecord>, ps: seq<ProofRecord>): seq<Reason> {
    Gather(ps, p => ProofFaults(cs, p))
  }

  function RejectionFaults(finalRound: RoundId, r: RejectionRecord): seq<Reason> {
    When(r.round > finalRound, RejectionRoundOutOfRange(r.nodeId, r.round))
    + When(r.kind == NoKind || r.code == NoCode, RejectionMissingFields)
  }

  function AllRejectionFaults(finalRound: RoundId, rs: seq<RejectionRecord>): seq<Reason> {
    Gather(rs, r => RejectionFaults(finalRound, r))
  }

  // ---------------------------------------------------------------------
  // The final round
  // ---------------------------------------------------------------------

  function PredicateFaults(log: Log, p: ProposalRecord): seq<Reason> {
    var req := FindCommitment(log.commitments, p.requester, log.finalRound);
    var prov := FindCommitment(log.commitments, p.provider, log.finalRound);
    if req.None? then [FinalRoundRequesterCommitmentMissing]
    else if prov.None? then [FinalRoundProviderCommitmentMissing]
    else
      match MatchPredicate(req.value.intent, prov.value.intent, log.finalRound)
      case Some(d) => [FinalRoundPredicateFailed(d)]
      case None => []
  }

  function KeyOf(t: Topology, node: NodeId): Option<PublicKey> {
    match t.Find(node)
    case Some(n) => n.signingKey
    case None => None
  }

  function SignatureFaults(c: Crypto, t: Topology, log: Log, p: ProposalRecord, r: ReceiptRecord): seq<Reason> {
    if r.signatureHex == "" then [FinalRoundEmptySignature]
    else
      When(!SignatureAccepted(c, KeyOf(t, p.provider), r.signatureHex, p.provider, log.finalRound, p.matched),
           FinalRoundSignatureMismatch)
  }

  /** Section four; `last` says that the report ends here, without a look at the rejections. */
  datatype FinalCheck = FinalCheck(reasons: seq<Reason>, last: bool)

  function CheckFinal(c: Crypto, t: Topology, log: Log): FinalCheck {
    if !log.finalized then
      FinalCheck(When(exists r :: r in log.receipts && r.round == log.finalRound, AbortedRunHasReceipt), false)
    else
      match LastProposal(log.proposals, log.finalRound)
      case None => FinalCheck([FinalRoundMissingProposal], true)
      case Some(p) =>
        match FindReceipt(log.receipts, log.finalRound, p.provider)
        case None => FinalCheck(PredicateFaults(log, p) + [FinalRoundMissingReceipt], true)
        case Some(r) =>
          FinalCheck(
            PredicateFaults(log, p) + SignatureFaults(c, t, log, p, r)
            + When(!HasProof(log.proofs, p.requester, log.finalRound), FinalRoundMissingRequesterProof)
            + When(!HasProof(log.proofs, p.provider, log.finalRound), FinalRoundMissingProviderProof),
            false)
  }

  /** The reasons of sections one to three. */
  function RecordReasons(t: Topology, log: Log): seq<Reason> {
    When(log.schemaVersion != 1, UnsupportedSchemaVersion(log.schemaVersion))
    + AllCommitmentFaults(t, log.commitments)
    + AllProposalFaults(t, log.commitments, log.proposals)
    + AllProofFaults(log.commitments, log.proofs)
  }

  function WithFinal(t: Topology, log: Log, final: FinalCheck): seq<Reason> {
    RecordReasons(t, log) + final.reasons
    + if final.last then [] else AllRejectionFaults(log.finalRound, log.rejections)
  }

  /** Every reason, in the order the verifier reports them. */
  function Reasons(c: Crypto, t: Topology, log: Log): seq<Reason> {
    WithFinal(t, log, CheckFinal(c, t, log))
  }

  // ---------------------------------------------------------------------
  // The verifier itself
  // ---------------------------------------------------------------------

  class StandaloneVerifier {
    const topology: Topology
    const crypto: Crypto

    constructor (crypto: Crypto, topology: Topology)
      ensures this.crypto == crypto && this.topology == topology
    {
      this.crypto := crypto;
      this.topology := topology;
    }

    method CheckCommitment(seen: set<(NodeId, RoundId)>, c: CommitmentRecord)
      returns (faults: seq<Reason>, seenNow: set<(NodeId, RoundId)>)
      ensures faults == CommitmentFaults(topology, seen, c)
      ensures seenNow == if topology.Find(c.nodeId).Some? then seen + {(c.nodeId, c.round)} else seen
    {
      faults, seenNow := [], seen;
      var node := topology.Find(c.nodeId);
      if node.None? {
        return [CommitmentFromUnknownNode(c.nodeId)], seen;
      }
      if c.intent.Role() != node.value.role {
        faults := faults + [CommitmentRoleMismatch(c.nodeId)];
      }
      if c.intent.nodeId != c.nodeId {
        faults := faults + [CommitmentIntentNodeMismatch(c.nodeId)];
      }
      if c.intent.round != c.round {
        faults := faults + [CommitmentRoundMismatch(c.nodeId, c.round)];
      }
      if (c.nodeId, c.round) in seen {
        faults := faults + [DuplicateCommitment(c.nodeId, c.round)];
      }
      seenNow := seen + {(c.nodeId, c.round)};
    }

    method CheckProposer(p: ProposalRecord) returns (faults: seq<Reason>)
      ensures faults == ProposerFaults(topology, p)
    {
      var expected := ProposerForRound(p.round, Ring(topology));
      match expected {
        case Success(id) =>
          if id != p.proposer {
            return [ProposalWrongProposer(p.round)];
          }
          return [];
        case Failure(_) =>
          return [ProposerRotationError(p.round)];
      }
    }

    method CheckReferences(log: Log, p: ProposalRecord) returns (faults: seq<Reason>)
      ensures faults == ReferenceFaults(log.commitments, p)
    {
      faults := [];
      var req := FindCommitment(log.commitments, p.requester, p.round);
      var prov := FindCommitment(log.commitments, p.provider, p.round);
      if req.None? || prov.None? {
        return [ProposalUnknownCommitment(p.round)];
      }
      var denial := ValidateAnnotation(p.requester, req.value.intent, p.provider, prov.value.intent, p.matched);
      if denial.Some? {
        faults := faults + [ProposalAnnotationTampered(p.round, denial.value)];
      }
      if prov.value.intent.ProviderIntent? && p.matched !in prov.value.intent.claims {
        faults := faults + [ProposalProviderLacksCapability(p.round)];
      }
    }

    method CheckProposal(log: Log, p: ProposalRecord) returns (faults: seq<Reason>)
      ensures faults == ProposalFaults(topology, log.commitments, p)
    {
      var wrongProposer := CheckProposer(p);
      var references := CheckReferences(log, p);
      return wrongProposer + references;
    }

    method CheckProposals(log: Log) returns (reasons: seq<Reason>)
      ensures reasons == AllProposalFaults(topology, log.commitments, log.proposals)
    {
      reasons := [];
      for i := 0 to |log.proposals|
        invariant reasons == AllProposalFaults(topology, log.commitments, log.proposals[..i])
      {
        GatherNext(log.proposals, i, p => ProposalFaults(topology, log.commitments, p));
        var faults := CheckProposal(log, log.proposals[i]);
        reasons := reasons + faults;
      }
      assert log.proposals[..|log.proposals|] == log.proposals;
    }

    method CheckBinding(c: CommitmentRecord, inputs: PublicInputs, proof: ProofRecord) returns (faults: seq<Reason>)
      ensures faults == BindingFaults(c, inputs, proof)
    {
      faults := [];
      if HexEncode(inputs.digest) != c.hex {
        faults := faults + [ProofCommitmentMismatch(proof.nodeId, proof.round)];
      }
      if inputs.role != RoleByte(c.intent) {
        faults := faults + [ProofRoleByteMismatch(proof.nodeId)];
      }
      var marker := HexDecode(proof.proofHex);
      if marker.None? {
        faults := faults + [ProofHexMalformed(proof.nodeId)];
        return;
      }
      if marker.value == [] || (marker.value[0] != 1 && marker.value[0] != 2) {
        faults := faults + [ProofMarkerUnexpected(proof.nodeId)];
      }
    }

    method CheckProof(log: Log, proof: ProofRecord) returns (faults: seq<Reason>)
      ensures faults == ProofFaults(log.commitments, proof)
    {
      faults := [];
      var parsed := ParsePublicInputs(proof.publicInputsHex);
      if parsed.None? {
        return [ProofMalformedPublicInputs(proof.nodeId)];
      }
      var inputs := parsed.value;
      if inputs.round != proof.round {
        faults := faults + [ProofRoundMismatch(proof.nodeId, proof.round)];
      }
      if inputs.nodeId != proof.nodeId {
        faults := faults + [ProofNodeMismatch(proof.nodeId)];
      }
      assert faults == LabelFaults(inputs, proof);
      var c := FindCommitment(log.commitments, proof.nodeId, proof.round);
      if c.None? {
        faults := faults + [ProofNoMatchingCommitment(proof.nodeId, proof.round)];
      } else {
        var binding := CheckBinding(c.value, inputs, proof);
        faults := faults + binding;
      }
    }

    method CheckProofs(log: Log) returns (reasons: seq<Reason>)
      ensures reasons == AllProofFaults(log.commitments, log.proofs)
    {
      reasons := [];
      for i := 0 to |log.proofs|
        invariant reasons == AllProofFaults(log.commitments, log.proofs[..i])
      {
        GatherNext(log.proofs, i, p => ProofFaults(log.commitments, p));
        var faults := CheckProof(log, log.proofs[i]);
        reasons := reasons + faults;
      }
      assert log.proofs[..|log.proofs|] == log.proofs;
    }

    method CheckPredicate(log: Log, p: ProposalRecord) returns (reasons: seq<Reason>)
      ensures reasons == PredicateFaults(log, p)
    {
      var req := FindCommitment(log.commitments, p.requester, log.finalRound);
      if req.None? {
        return [FinalRoundRequesterCommitmentMissing];
      }
      var prov := FindCommitment(log.commitments, p.provider, log.finalRound);
      if prov.None? {
        return [FinalRoundProviderCommitmentMissing];
      }
      var denial := MatchPredicate(req.value.intent, prov.value.intent, log.finalRound);
      if denial.Some? {
        return [FinalRoundPredicateFailed(denial.value)];
      }
      return [];
    }

    method CheckSignature(log: Log, p: ProposalRecord, r: ReceiptRecord) returns (reasons: seq<Reason>)
      ensures reasons == SignatureFaults(crypto, topology, log, p, r)
    {
      if r.signatureHex == "" {
        return [FinalRoundEmptySignature];
      }
      var key := KeyOf(topology, p.provider);
      if !SignatureAccepted(crypto, key, r.signatureHex, p.provider, log.finalRound, p.matched) {
        return [FinalRoundSignatureMismatch];
      }
      return [];
    }

    method CheckFinalRound(log: Log) returns (reasons: seq<Reason>, last: bool)
      ensures FinalCheck(reasons, last) == CheckFinal(crypto, topology, log)
    {
      reasons, last := [], false;
      if !log.finalized {
        if exists r :: r in log.receipts && r.round == log.finalRound {
          reasons := [AbortedRunHasReceipt];
        }
        return;
      }
      var found := LastProposal(log.proposals, log.finalRound);
      if found.None? {
        return [FinalRoundMissingProposal], true;
      }
      var p := found.value;
      reasons := CheckPredicate(log, p);
      var receipt := FindReceipt(log.receipts, log.finalRound, p.provider);
      if receipt.None? {
        return reasons + [FinalRoundMissingReceipt], true;
      }
      var signature := CheckSignature(log, p, receipt.value);
      reasons := reasons + signature;
      if !HasProof(log.proofs, p.requester, log.finalRound) {
        reasons := reasons + [FinalRoundMissingRequesterProof];
      }
      if !HasProof(log.proofs, p.provider, log.finalRound) {
        reasons := reasons + [FinalRoundMissingProviderProof];
      }
    }

    method CheckCommitments(cs: seq<CommitmentRecord>) returns (reasons: seq<Reason>)
      ensures reasons == AllCommitmentFaults(topology, cs)
    {
      hide CommitmentFaults, SeenKeys;
      reasons := [];
      var seen: set<(NodeId, RoundId)> := {};
      SeenNothing(topology);
      for i := 0 to |cs|
        invariant reasons == AllCommitmentFaults(topology, cs[..i])
        invariant seen == SeenKeys(topology, cs[..i])
      {
        assert cs[..i + 1][..i] == cs[..i] && cs[..i + 1] == cs[..i] + [cs[i]];
        var faults, seenNow := CheckCommitment(seen, cs[i]);
        SeenKeysNext(topology, cs[..i], cs[i]);
        reasons, seen := reasons + faults, seenNow;
      }
      assert cs[..|cs|] == cs;
    }

    method CheckRejections(log: Log) returns (reasons: seq<Reason>)
      ensures reasons == AllRejectionFaults(log.finalRound, log.rejections)
    {
      reasons := [];
      for i := 0 to |log.rejections|
        invariant reasons == AllRejectionFaults(log.finalRound, log.rejections[..i])
      {
        var r := log.rejections[i];
        GatherNext(log.rejections, i, r => RejectionFaults(log.finalRound, r));
        ghost var before := reasons;
        if r.round > log.finalRound {
          reasons := reasons + [RejectionRoundOutOfRange(r.nodeId, r.round)];
        }
        if r.kind == NoKind || r.code == NoCode {
          reasons := reasons + [RejectionMissingFields];
        }
        assert reasons == before + RejectionFaults(log.finalRound, r);
      }
      assert log.rejections[..|log.rejections|] == log.rejections;
    }

    method CheckRecords(log: Log) returns (reasons: seq<Reason>)
      ensures reasons == RecordReasons(topology, log)
    {
      hide AllCommitmentFaults, AllProposalFaults, AllProofFaults;
      reasons := [];
      if log.schemaVersion != 1 {
        reasons := reasons + [UnsupportedSchemaVersion(log.schemaVersion)];
      }
      var commitments := CheckCommitments(log.commitments);
      var proposals := CheckProposals(log);
      var proofs := CheckProofs(log);
      reasons := reasons + commitments + proposals + proofs;
    }

    method VerifyLog(log: Log) returns (report: Report)
      ensures report.valid <==> Reasons(crypto, topology, log) == []
      ensures report.reasons == Reasons(crypto, topology, log)
      ensures report.runId == log.runId && report.finalRound == log.finalRound
    {
      hide RecordReasons, CheckFinal, AllRejectionFaults;
      var reasons := CheckRecords(log);
      var final, last := CheckFinalRound(log);
      CheckFinalNotEmpty(crypto, topology, log);
      reasons := reasons + final;
      if last {
        assert reasons + [] == reasons;
        return Report(log.runId, false, log.finalRound, reasons);
      }
      var rejections := CheckRejections(log);
      reasons := reasons + rejections;
      return Report(log.runId, reasons == [], log.finalRound, reasons);
    }
  }

  lemma SeenNothing(t: Topology)
    ensures SeenKeys(t, []) == {}
  {
  }

  lemma SeenKeysNext(t: Topology, cs: seq<CommitmentRecord>, c: CommitmentRecord)
    ensures SeenKeys(t, cs + [c])
            == SeenKeys(t, cs) + if t.Find(c.nodeId).Some? then {(c.nodeId, c.round)} else {}
  {
    assert forall x :: x in cs + [c] <==> x in cs || x == c;
  }

  lemma CheckFinalNotEmpty(c: Crypto, t: Topology, log: Log)
    ensures CheckFinal(c, t, log).last ==> CheckFinal(c, t, log).reasons != []
  {
  }

  // ---------------------------------------------------------------------
  // What a log without reasons is
  // ---------------------------------------------------------------------

  ghost predicate CommitmentLegit(t: Topology, c: CommitmentRecord) {
    && t.Find(c.nodeId).Some?
    && c.intent.Role() == t.Find(c.nodeId).value.role
    && c.intent.nodeId == c.nodeId
    && c.intent.round == c.round
  }

  /** The two commitments a proposal points at carry what the proposal says about them. */
  ghost predicate Supports(p: ProposalRecord, req: CommitmentRecord, prov: CommitmentRecord) {
    && Keyed(req, p.requester, p.round) && Keyed(prov, p.provider, p.round)
    && req.intent.nodeId == p.requester && prov.intent.nodeId == p.provider
    && req.intent.RequesterIntent? && req.intent.required == p.matched
    && (prov.intent.ProviderIntent? ==> p.matched in prov.intent.claims)
  }

  ghost predicate ProposalLegit(t: Topology, cs: seq<CommitmentRecord>, p: ProposalRecord) {
    && Proposes(t, p.round, p.proposer)
    && exists req, prov :: req in cs && prov in cs && Supports(p, req, prov)
  }

  ghost predicate MarkerLegit(proofHex: string) {
    var b := HexDecode(proofHex);
    b.Some? && b.value != [] && b.value[0] in {1, 2}
  }

  /** The public inputs are, byte for byte, those of the proof's own commitment. */
  ghost predicate Attests(proof: ProofRecord, c: CommitmentRecord) {
    && Keyed(c, proof.nodeId, proof.round)
    && exists digest: Bytes32 ::
         && HexEncode(digest) == c.hex
         && HexDecode(proof.publicInputsHex) ==
            Some(Layout(PublicInputs(proof.round, proof.nodeId, digest, if c.intent.RequesterIntent? then 0 else 1)))
  }

  ghost predicate ProofLegit(cs: seq<CommitmentRecord>, proof: ProofRecord) {
    && (exists c :: c in cs && Attests(proof, c))
    && MarkerLegit(proof.proofHex)
  }

  ghost predicate IsFinalProposal(log: Log, p: ProposalRecord) {
    exists i: nat :: IsLastAt(log.proposals, log.finalRound, i) && log.proposals[i] == p
  }

  ghost predicate IsFirstReceipt(log: Log, provider: NodeId, r: ReceiptRecord) {
    exists i: nat :: IsFirstAt(log.receipts, log.finalRound, provider, i) && log.receipts[i] == r
  }

  /** The match in the final round is real, signed for and proved by both sides. */
  ghost predicate Settled(c: Crypto, t: Topology, log: Log, p: ProposalRecord, r: ReceiptRecord) {
    && IsFinalProposal(log, p)
    && IsFirstReceipt(log, p.provider, r)
    && (exists req, prov :: req in log.commitments && prov in log.commitments
                            && Keyed(req, p.requester, log.finalRound) && Keyed(prov, p.provider, log.finalRound)
                            && Feasible(req.intent, prov.intent, log.finalRound))
    && r.signatureHex != ""
    && SignatureAccepted(c, KeyOf(t, p.provider), r.signatureHex, p.provider, log.finalRound, p.matched)
    && (exists q :: q in log.proofs && q.round == log.finalRound && q.nodeId == p.requester)
    && (exists q :: q in log.proofs && q.round == log.finalRound && q.nodeId == p.provider)
  }

  ghost predicate RejectionLegit(finalRound: RoundId, r: RejectionRecord) {
    r.round <= finalRound && r.kind != NoKind && r.code != NoCode
  }

  ghost predicate WellFormedLog(c: Crypto, t: Topology, log: Log) {
    && log.schemaVersion == 1
    && (forall x :: x in log.commitments ==> CommitmentLegit(t, x))
    && KeysUnique(log.commitments)
    && (forall p :: p in log.proposals ==> ProposalLegit(t, log.commitments, p))
    && (forall p :: p in log.proofs ==> ProofLegit(log.commitments, p))
    && (if log.finalized then exists p, r :: Settled(c, t, log, p, r)
        else forall r :: r in log.receipts ==> r.round != log.finalRound)
    && (forall r :: r in log.rejections ==> RejectionLegit(log.finalRound, r))
  }

  lemma {:induction false} CommitmentsWithoutFaults(t: Topology, cs: seq<CommitmentRecord>)
    ensures AllCommitmentFaults(t, cs) == [] <==>
            (forall x :: x in cs ==> CommitmentLegit(t, x)) && KeysUnique(cs)
  {
    hide CommitmentLegit, CommitmentFaults, SeenKeys, KeysUnique;
    if cs == [] {
      assert KeysUnique([]) by { KeysOfFront([], 0); }
    } else {
      var n := |cs| - 1;
      var front, last := cs[..n], cs[n];
      CommitmentsWithoutFaults(t, front);
      assert cs == front + [last];
      assert forall x :: x in cs <==> x in front || x == last;
      KeysOfFront(cs, n);
      if AllCommitmentFaults(t, front) == [] {
        LastCommitmentWithoutFaults(t, front, last);
      }
    }
  }

  lemma KeysOfFront(cs: seq<CommitmentRecord>, n: nat)
    requires n <= |cs|
    ensures KeysUnique([]) && (KeysUnique(cs) ==> KeysUnique(cs[..n]))
  {
  }

  lemma LastCommitmentWithoutFaults(t: Topology, front: seq<CommitmentRecord>, last: CommitmentRecord)
    requires (forall x :: x in front ==> CommitmentLegit(t, x)) && KeysUnique(front)
    ensures CommitmentFaults(t, SeenKeys(t, front), last) == [] <==>
            CommitmentLegit(t, last) && KeysUnique(front + [last])
  {
    assert (last.nodeId, last.round) in SeenKeys(t, front) <==>
           exists d :: d in front && d.nodeId == last.nodeId && d.round == last.round;
    var cs := front + [last];
    if exists d :: d in front && d.nodeId == last.nodeId && d.round == last.round {
      var i :| 0 <= i < |front| && front[i].nodeId == last.nodeId && front[i].round == last.round;
      assert cs[i] == front[i] && cs[|front|] == last;
    } else {
      assert forall i :: 0 <= i < |front| ==> front[i] in front;
    }
  }

  lemma ProposalWithoutFaults(t: Topology, cs: seq<CommitmentRecord>, p: ProposalRecord)
    requires KeysUnique(cs)
    ensures ProposalFaults(t, cs, p) == [] <==> ProposalLegit(t, cs, p)
  {
    var req, prov := FindCommitment(cs, p.requester, p.round), FindCommitment(cs, p.provider, p.round);
    if ProposalLegit(t, cs, p) {
      var r, q :| r in cs && q in cs && Supports(p, r, q);
      FindUnique(cs, r);
      FindUnique(cs, q);
    } else if req.Some? && prov.Some? {
      assert !Proposes(t, p.round, p.proposer) || !Supports(p, req.value, prov.value);
    }
  }

  /** A proof attests to a commitment exactly when it parses to that commitment's inputs. */
  lemma AttestsByParsing(proof: ProofRecord, c: CommitmentRecord)
    requires Keyed(c, proof.nodeId, proof.round)
    ensures Attests(proof, c) <==>
      var parsed := ParsePublicInputs(proof.publicInputsHex);
      && parsed.Some?
      && parsed.value.round == proof.round && parsed.value.nodeId == proof.nodeId
      && HexEncode(parsed.value.digest) == c.hex && parsed.value.role == RoleByte(c.intent)
  {
    var parsed := ParsePublicInputs(proof.publicInputsHex);
    if Attests(proof, c) {
      var digest: Bytes32 :| HexEncode(digest) == c.hex
        && HexDecode(proof.publicInputsHex) ==
           Some(Layout(PublicInputs(proof.round, proof.nodeId, digest, RoleByte(c.intent))));
      ParseAfterLayout(PublicInputs(proof.round, proof.nodeId, digest, RoleByte(c.intent)));
    }
    if parsed.Some? {
      LayoutAfterParse(HexDecode(proof.publicInputsHex).value);
    }
  }

  lemma ProofWithoutFaults(cs: seq<CommitmentRecord>, proof: ProofRecord)
    requires KeysUnique(cs)
    ensures ProofFaults(cs, proof) == [] <==> ProofLegit(cs, proof)
  {
    var c := FindCommitment(cs, proof.nodeId, proof.round);
    if c.Some? {
      AttestsByParsing(proof, c.value);
    }
    if exists d :: d in cs && Attests(proof, d) {
      var d :| d in cs && Attests(proof, d);
      FindUnique(cs, d);
    }
  }

  lemma FinalWithoutFaults(c: Crypto, t: Topology, log: Log)
    requires KeysUnique(log.commitments)
    ensures CheckFinal(c, t, log).reasons == [] <==>
      if log.finalized then exists p, r :: Settled(c, t, log, p, r)
      else forall r :: r in log.receipts ==> r.round != log.finalRound
    ensures CheckFinal(c, t, log).last ==> CheckFinal(c, t, log).reasons != []
  {
    if log.finalized {
      var p := LastProposal(log.proposals, log.finalRound);
      if exists p', r' :: Settled(c, t, log, p', r') {
        var p', r' :| Settled(c, t, log, p', r');
        SettledByLookup(c, t, log, p', r');
      } else if p.Some? {
        var r := FindReceipt(log.receipts, log.finalRound, p.value.provider);
        if r.Some? {
          SettledByLookup(c, t, log, p.value, r.value);
        }
      }
    }
  }

  lemma FinalProposalByLookup(log: Log, p: ProposalRecord)
    ensures IsFinalProposal(log, p) <==> LastProposal(log.proposals, log.finalRound) == Some(p)
  {
    if i: nat :| IsLastAt(log.proposals, log.finalRound, i) && log.proposals[i] == p {
      LastProposalAt(log.proposals, log.finalRound, i);
    } else if LastProposal(log.proposals, log.finalRound).Some? {
      var i := LastProposalHasPlace(log.proposals, log.finalRound);
    }
  }

  lemma FirstReceiptByLookup(log: Log, provider: NodeId, r: ReceiptRecord)
    ensures IsFirstReceipt(log, provider, r) <==> FindReceipt(log.receipts, log.finalRound, provider) == Some(r)
  {
    if i: nat :| IsFirstAt(log.receipts, log.finalRound, provider, i) && log.receipts[i] == r {
      FindReceiptAt(log.receipts, log.finalRound, provider, i);
    } else if FindReceipt(log.receipts, log.finalRound, provider).Some? {
      var i := FindReceiptHasPlace(log.receipts, log.finalRound, provider);
    }
  }

  lemma SettledByLookup(c: Crypto, t: Topology, log: Log, p: ProposalRecord, r: ReceiptRecord)
    requires KeysUnique(log.commitments)
    ensures Settled(c, t, log, p, r) <==>
      && LastProposal(log.proposals, log.finalRound) == Some(p)
      && FindReceipt(log.receipts, log.finalRound, p.provider) == Some(r)
      && PredicateFaults(log, p) == [] && SignatureFaults(c, t, log, p, r) == []
      && HasProof(log.proofs, p.requester, log.finalRound) && HasProof(log.proofs, p.provider, log.finalRound)
  {
    FinalProposalByLookup(log, p);
    FirstReceiptByLookup(log, p.provider, r);
    PredicateByLookup(log, p);
  }

  lemma PredicateByLookup(log: Log, p: ProposalRecord)
    requires KeysUnique(log.commitments)
    ensures PredicateFaults(log, p) == [] <==>
      exists req, prov :: req in log.commitments && prov in log.commitments
                          && Keyed(req, p.requester, log.finalRound) && Keyed(prov, p.provider, log.finalRound)
                          && Feasible(req.intent, prov.intent, log.finalRound)
  {
    var cs := log.commitments;
    forall c | c in cs ensures FindCommitment(cs, c.nodeId, c.round) == Some(c) {
      FindUnique(cs, c);
    }
    var req, prov := FindCommitment(cs, p.requester, log.finalRound), FindCommitment(cs, p.provider, log.finalRound);
    if req.Some? && prov.Some? {
      assert PredicateFaults(log, p) == [] <==> Feasible(req.value.intent, prov.value.intent, log.finalRound);
    }
  }

  lemma RecordsWithoutFaults(t: Topology, log: Log)
    ensures RecordReasons(t, log) == [] <==>
      && log.schemaVersion == 1
      && (forall x :: x in log.commitments ==> CommitmentLegit(t, x))
      && KeysUnique(log.commitments)
      && (forall p :: p in log.proposals ==> ProposalLegit(t, log.commitments, p))
      && (forall p :: p in log.proofs ==> ProofLegit(log.commitments, p))
  {
    var cs := log.commitments;
    CommitmentsWithoutFaults(t, cs);
    GatherNothing(log.proposals, p => ProposalFaults(t, cs, p));
    GatherNothing(log.proofs, p => ProofFaults(cs, p));
    if KeysUnique(cs) {
      forall p ensures ProposalFaults(t, cs, p) == [] <==> ProposalLegit(t, cs, p) {
        ProposalWithoutFaults(t, cs, p);
      }
      forall p ensures ProofFaults(cs, p) == [] <==> ProofLegit(cs, p) {
        ProofWithoutFaults(cs, p);
      }
    }
  }

  /** The verifier finds nothing to report exactly on the well-formed logs. */
  lemma ValidIffWellFormed(c: Crypto, t: Topology, log: Log)
    ensures Reasons(c, t, log) == [] <==> WellFormedLog(c, t, log)
  {
    RecordsWithoutFaults(t, log);
    GatherNothing(log.rejections, r => RejectionFaults(log.finalRound, r));
    forall r ensures RejectionFaults(log.finalRound, r) == [] <==> RejectionLegit(log.finalRound, r) {}
    if KeysUnique(log.commitments) {
      FinalWithoutFaults(c, t, log);
    }
  }
}
