/**
  What the standalone verifier reports on any log whatever, reason by reason and in which order,
  said of the log's records alone.
 */
module Reports {
  import opened Results
  import opened Bytes
  import opened Protocol
  import opened Matching
  import opened Proposer
  import opened CoordinationLogs
  import opened Artifacts
  import opened Verifier

  // ---------------------------------------------------------------------
  // When a reason is deserved
  // ---------------------------------------------------------------------

  /** `m` is the configuration of node `id`: the first one listed under that id. */
  ghost predicate IsNode(t: Topology, id: NodeId, m: NodeConfig) {
    exists i: nat :: IsNodeAt(t.nodes, id, i) && t.nodes[i] == m
  }

  ghost predicate IsNodeAt(nodes: seq<NodeConfig>, id: NodeId, i: nat) {
    i < |nodes| && nodes[i].id == id && forall j :: 0 <= j < i ==> nodes[j].id != id
  }

  ghost predicate Configured(t: Topology, id: NodeId) {
    exists m :: m in t.nodes && m.id == id
  }

  /** `c` is the first commitment logged for a node and round. */
  ghost predicate IsFirstCommitment(cs: seq<CommitmentRecord>, node: NodeId, round: RoundId, c: CommitmentRecord) {
    exists i: nat :: IsCommitmentAt(cs, node, round, i) && cs[i] == c
  }

  ghost predicate IsCommitmentAt(cs: seq<CommitmentRecord>, node: NodeId, round: RoundId, i: nat) {
    i < |cs| && Keyed(cs[i], node, round) && forall j :: 0 <= j < i ==> !Keyed(cs[j], node, round)
  }

  ghost predicate HasCommitted(cs: seq<CommitmentRecord>, node: NodeId, round: RoundId) {
    exists c :: c in cs && c.nodeId == node && c.round == round
  }

  /** The public inputs are the 73 bytes of `inputs`. */
  ghost predicate Carries(proof: ProofRecord, inputs: PublicInputs) {
    HexDecode(proof.publicInputsHex) == Some(Layout(inputs))
  }

  /** Why an annotation is refused: the first of four checks that fails. */
  ghost predicate AnnotationDenied(p: ProposalRecord, req: PublicIntent, prov: PublicIntent, d: Denial) {
    match d
    case RequesterIdentityMismatch => req.nodeId != p.requester
    case ProviderIdentityMismatch => req.nodeId == p.requester && prov.nodeId != p.provider
    case WrongRequesterRole => req.nodeId == p.requester && prov.nodeId == p.provider && req.ProviderIntent?
    case CapabilityAnnotationMismatch =>
      && req.nodeId == p.requester && prov.nodeId == p.provider
      && req.RequesterIntent? && req.required != p.matched
    case _ => false
  }

  /** Why a pair is no match in `round`. */
  ghost predicate MatchDenied(req: PublicIntent, prov: PublicIntent, round: RoundId, d: Denial) {
    if req.ProviderIntent? then d == WrongRequesterRole
    else if prov.RequesterIntent? then d == WrongProviderRole
    else
      match d
      case RequesterProviderRoundMismatch => req.round != round && prov.round != round
      case RequesterRoundMismatch => req.round != round && prov.round == round
      case ProviderRoundMismatch => req.round == round && prov.round != round
      case ProviderLacksCapability => req.round == round && prov.round == round && req.required !in prov.claims
      case _ => false
  }

  /** Commitment `i` of the log is judged with those before it. */
  ghost predicate OneCommitmentDeserves(t: Topology, cs: seq<CommitmentRecord>, i: nat, r: Reason)
    requires i < |cs|
  {
    var c := cs[i];
    match r
    case CommitmentFromUnknownNode(n) => c.nodeId == n && !Configured(t, n)
    case CommitmentRoleMismatch(n) =>
      c.nodeId == n && exists m :: IsNode(t, n, m) && (c.intent.RequesterIntent? <==> m.role == Provider)
    case CommitmentIntentNodeMismatch(n) => c.nodeId == n && Configured(t, n) && c.intent.nodeId != n
    case CommitmentRoundMismatch(n, round) =>
      c.nodeId == n && c.round == round && Configured(t, n) && c.intent.round != round
    case DuplicateCommitment(n, round) =>
      && c.nodeId == n && c.round == round && Configured(t, n)
      && exists j :: 0 <= j < i && cs[j].nodeId == n && cs[j].round == round
    case _ => false
  }

  ghost predicate OneProposalDeserves(t: Topology, cs: seq<CommitmentRecord>, p: ProposalRecord, r: Reason) {
    match r
    case ProposalWrongProposer(round) =>
      p.round == round && ProposerOf(t, round).Success? && ProposerOf(t, round).value != p.proposer
    case ProposerRotationError(round) => p.round == round && ProposerOf(t, round).Failure?
    case ProposalUnknownCommitment(round) =>
      p.round == round && !(HasCommitted(cs, p.requester, round) && HasCommitted(cs, p.provider, round))
    case ProposalAnnotationTampered(round, d) =>
      p.round == round &&
      exists req, prov ::
          IsFirstCommitment(cs, p.requester, round, req) && IsFirstCommitment(cs, p.provider, round, prov)
                          && AnnotationDenied(p, req.intent, prov.intent, d)
    case ProposalProviderLacksCapability(round) =>
      p.round == round && HasCommitted(cs, p.requester, round) &&
      exists prov :: IsFirstCommitment(cs, p.provider, round, prov)
                     && prov.intent.ProviderIntent? && p.matched !in prov.intent.claims
    case _ => false
  }

  ghost predicate OneProofDeserves(cs: seq<CommitmentRecord>, p: ProofRecord, r: Reason) {
    match r
    case ProofMalformedPublicInputs(n) => p.nodeId == n && forall x :: !Carries(p, x)
    case ProofRoundMismatch(n, round) => p.nodeId == n && p.round == round && exists x ::
        Carries(p, x) && x.round != round
    case ProofNodeMismatch(n) => p.nodeId == n && exists x :: Carries(p, x) && x.nodeId != n
    case ProofNoMatchingCommitment(n, round) =>
      p.nodeId == n && p.round == round && (exists x :: Carries(p, x)) && !HasCommitted(cs, n, round)
    case ProofCommitmentMismatch(n, round) =>
      p.nodeId == n && p.round == round &&
      exists x, c :: Carries(p, x) && IsFirstCommitment(cs, n, round, c) && HexEncode(x.digest) != c.hex
    case ProofRoleByteMismatch(n) =>
      p.nodeId == n &&
      exists x, c :: Carries(p, x) && IsFirstCommitment(cs, n, p.round, c)
                     && x.role != (if c.intent.RequesterIntent? then 0 else 1)
    case ProofHexMalformed(n) =>
      && p.nodeId == n && (exists x :: Carries(p, x)) && HasCommitted(cs, n, p.round)
      && HexDecode(p.proofHex).None?
    case ProofMarkerUnexpected(n) =>
      && p.nodeId == n && (exists x :: Carries(p, x)) && HasCommitted(cs, n, p.round)
      && HexDecode(p.proofHex).Some? && !MarkerLegit(p.proofHex)
    case _ => false
  }

  /** The match of the final round, given its last proposal `p`. */
  ghost predicate MatchDeserves(log: Log, p: ProposalRecord, r: Reason) {
    var cs, f := log.commitments, log.finalRound;
    match r
    case FinalRoundRequesterCommitmentMissing => !HasCommitted(cs, p.requester, f)
    case FinalRoundProviderCommitmentMissing => HasCommitted(cs, p.requester, f) && !HasCommitted(cs, p.provider, f)
    case FinalRoundPredicateFailed(d) =>
      exists req, prov :: IsFirstCommitment(cs, p.requester, f, req) && IsFirstCommitment(cs, p.provider, f, prov)
                          && MatchDenied(req.intent, prov.intent, f, d)
    case _ => false
  }

  /** No proof of the final round is by `node`. */
  ghost predicate ProofIsMissing(log: Log, node: NodeId) {
    forall q :: q in log.proofs ==> !(q.round == log.finalRound && q.nodeId == node)
  }

  /** Signature and proofs of the final round, given its first receipt `x` by the matched provider. */
  ghost predicate SettlementDeserves(c: Crypto, t: Topology, log: Log, p: ProposalRecord, x: ReceiptRecord, r: Reason) {
    var f := log.finalRound;
    match r
    case FinalRoundEmptySignature => x.signatureHex == ""
    case FinalRoundSignatureMismatch =>
      x.signatureHex != "" && !SignatureAccepted(c, KeyOf(t, p.provider), x.signatureHex, p.provider, f, p.matched)
    case FinalRoundMissingRequesterProof => ProofIsMissing(log, p.requester)
    case FinalRoundMissingProviderProof => ProofIsMissing(log, p.provider)
    case _ => false
  }

  ghost predicate ReceiptDeserves(c: Crypto, t: Topology, log: Log, p: ProposalRecord, r: Reason) {
    if r.FinalRoundMissingReceipt? then
      forall x :: x in log.receipts ==> !(x.round == log.finalRound && x.provider == p.provider)
    else exists x :: IsFirstReceipt(log, p.provider, x) && SettlementDeserves(c, t, log, p, x, r)
  }

  ghost predicate FinalDeserves(c: Crypto, t: Topology, log: Log, r: Reason) {
    if !log.finalized then r == AbortedRunHasReceipt && exists x :: x in log.receipts && x.round == log.finalRound
    else if forall p :: p in log.proposals ==> p.round != log.finalRound then r == FinalRoundMissingProposal
    else exists p :: IsFinalProposal(log, p) && (MatchDeserves(log, p, r) || ReceiptDeserves(c, t, log, p, r))
  }

  ghost predicate OneRejectionDeserves(finalRound: RoundId, x: RejectionRecord, r: Reason) {
    match r
    case RejectionRoundOutOfRange(n, round) => x.nodeId == n && x.round == round && round > finalRound
    case RejectionMissingFields => x.kind == NoKind || x.code == NoCode
    case _ => false
  }

  /** The rejections are looked at unless a finalized log lacks its proposal or its receipt. */
  ghost predicate RejectionsAreChecked(log: Log) {
    log.finalized ==> exists p, x :: IsFinalProposal(log, p) && IsFirstReceipt(log, p.provider, x)
  }

  ghost predicate Deserved(c: Crypto, t: Topology, log: Log, r: Reason) {
    || (r.UnsupportedSchemaVersion? && r.version == log.schemaVersion && log.schemaVersion != 1)
    || (exists i: nat :: i < |log.commitments| && OneCommitmentDeserves(t, log.commitments, i, r))
    || (exists p :: p in log.proposals && OneProposalDeserves(t, log.commitments, p, r))
    || (exists p :: p in log.proofs && OneProofDeserves(log.commitments, p, r))
    || FinalDeserves(c, t, log, r)
    || (RejectionsAreChecked(log) && exists x :: x in log.rejections && OneRejectionDeserves(log.finalRound, x, r))
  }

  // ---------------------------------------------------------------------
  // Lookups
  // ---------------------------------------------------------------------

  lemma {:induction false} FindCommitmentAt(cs: seq<CommitmentRecord>, node: NodeId, round: RoundId, i: nat)
    requires IsCommitmentAt(cs, node, round, i)
    ensures FindCommitment(cs, node, round) == Some(cs[i])
  {
    if i > 0 {
      FindCommitmentAt(cs[1..], node, round, i - 1);
    }
  }

  lemma {:induction false} FindCommitmentHasPlace(cs: seq<CommitmentRecord>, node: NodeId, round: RoundId)
    returns (i: nat)
    requires FindCommitment(cs, node, round).Some?
    ensures IsCommitmentAt(cs, node, round, i) && FindCommitment(cs, node, round) == Some(cs[i])
  {
    if Keyed(cs[0], node, round) {
      i := 0;
    } else {
      i := FindCommitmentHasPlace(cs[1..], node, round);
      assert forall j :: 0 < j < i + 1 ==> cs[j] == cs[1..][j - 1];
      i := i + 1;
    }
  }

  lemma FindIsFirst(cs: seq<CommitmentRecord>, node: NodeId, round: RoundId, c: CommitmentRecord)
    ensures FindCommitment(cs, node, round) == Some(c) <==> IsFirstCommitment(cs, node, round, c)
  {
    if i: nat :| IsCommitmentAt(cs, node, round, i) && cs[i] == c {
      FindCommitmentAt(cs, node, round, i);
    } else if FindCommitment(cs, node, round).Some? {
      var i := FindCommitmentHasPlace(cs, node, round);
    }
  }

  lemma FindIffCommitted(cs: seq<CommitmentRecord>, node: NodeId, round: RoundId)
    ensures FindCommitment(cs, node, round).Some? <==> HasCommitted(cs, node, round)
  {
  }

  lemma {:induction false} FindNodeAt(nodes: seq<NodeConfig>, id: NodeId, i: nat)
    requires IsNodeAt(nodes, id, i)
    ensures FindNode(nodes, id) == Some(nodes[i])
  {
    if i > 0 {
      FindNodeAt(nodes[1..], id, i - 1);
    }
  }

  lemma {:induction false} FindNodeHasPlace(nodes: seq<NodeConfig>, id: NodeId) returns (i: nat)
    requires FindNode(nodes, id).Some?
    ensures IsNodeAt(nodes, id, i) && FindNode(nodes, id) == Some(nodes[i])
  {
    if nodes[0].id == id {
      i := 0;
    } else {
      i := FindNodeHasPlace(nodes[1..], id);
      assert forall j :: 0 < j < i + 1 ==> nodes[j] == nodes[1..][j - 1];
      i := i + 1;
    }
  }

  lemma FindNodeIsFirst(t: Topology, id: NodeId, m: NodeConfig)
    ensures t.Find(id) == Some(m) <==> IsNode(t, id, m)
  {
    if i: nat :| IsNodeAt(t.nodes, id, i) && t.nodes[i] == m {
      FindNodeAt(t.nodes, id, i);
    } else if t.Find(id).Some? {
      var i := FindNodeHasPlace(t.nodes, id);
    }
  }

  /** The key that receipts of `id` are checked with: the one pinned where it is first listed. */
  lemma KeyIsPinned(t: Topology, id: NodeId, key: PublicKey)
    ensures KeyOf(t, id) == Some(key) <==> exists m :: IsNode(t, id, m) && m.signingKey == Some(key)
  {
    hide IsNode;
    forall m ensures t.Find(id) == Some(m) <==> IsNode(t, id, m) {
      FindNodeIsFirst(t, id, m);
    }
  }

  lemma ParseIsCarried(p: ProofRecord, x: PublicInputs)
    ensures ParsePublicInputs(p.publicInputsHex) == Some(x) <==> Carries(p, x)
  {
    hide HexDecode, Layout, ParseBytes;
    var b := HexDecode(p.publicInputsHex);
    ParseAfterLayout(x);
    if b.Some? && ParseBytes(b.value).Some? {
      LayoutAfterParse(b.value);
    }
  }

  // ---------------------------------------------------------------------
  // One record
  // ---------------------------------------------------------------------

  lemma {:induction false} GatherMembers<T>(xs: seq<T>, faults: T -> seq<Reason>, r: Reason)
    ensures r in Gather(xs, faults) <==> exists x :: x in xs && r in faults(x)
  {
    if xs != [] {
      var front, last := xs[..|xs| - 1], xs[|xs| - 1];
      GatherMembers(front, faults, r);
      assert xs == front + [last];
      assert forall x :: x in xs <==> x in front || x == last;
    }
  }

  lemma AnnotationDeniedIff(p: ProposalRecord, req: PublicIntent, prov: PublicIntent, d: Denial)
    ensures ValidateAnnotation(p.requester, req, p.provider, prov, p.matched) == Some(d)
            <==> AnnotationDenied(p, req, prov, d)
  {
  }

  lemma MatchDeniedIff(req: PublicIntent, prov: PublicIntent, round: RoundId, d: Denial)
    ensures MatchPredicate(req, prov, round) == Some(d) <==> MatchDenied(req, prov, round, d)
  {
  }

  lemma ProposalReported(t: Topology, cs: seq<CommitmentRecord>, p: ProposalRecord, r: Reason)
    ensures r in ProposalFaults(t, cs, p) <==> OneProposalDeserves(t, cs, p, r)
  {
    hide ProposerOf, IsFirstCommitment, HasCommitted, AnnotationDenied, ValidateAnnotation;
    FindIffCommitted(cs, p.requester, p.round);
    FindIffCommitted(cs, p.provider, p.round);
    var req, prov := FindCommitment(cs, p.requester, p.round), FindCommitment(cs, p.provider, p.round);
    forall c ensures req == Some(c) <==> IsFirstCommitment(cs, p.requester, p.round, c) {
      FindIsFirst(cs, p.requester, p.round, c);
    }
    forall c ensures prov == Some(c) <==> IsFirstCommitment(cs, p.provider, p.round, c) {
      FindIsFirst(cs, p.provider, p.round, c);
    }
    if req.Some? && prov.Some? && r.ProposalAnnotationTampered? {
      AnnotationDeniedIff(p, req.value.intent, prov.value.intent, r.denial);
    }
  }

  lemma BindingReported(c: CommitmentRecord, x: PublicInputs, p: ProofRecord, r: Reason)
    ensures r in BindingFaults(c, x, p) <==>
      match r
      case ProofCommitmentMismatch(n, round) => p.nodeId == n && p.round == round && HexEncode(x.digest) != c.hex
      case ProofRoleByteMismatch(n) => p.nodeId == n && x.role != (if c.intent.RequesterIntent? then 0 else 1)
      case ProofHexMalformed(n) => p.nodeId == n && HexDecode(p.proofHex).None?
      case ProofMarkerUnexpected(n) => p.nodeId == n && HexDecode(p.proofHex).Some? && !MarkerLegit(p.proofHex)
      case _ => false
  {
    hide HexDecode, HexEncode;
  }

  lemma LabelReported(x: PublicInputs, p: ProofRecord, r: Reason)
    ensures r in LabelFaults(x, p) <==>
      match r
      case ProofRoundMismatch(n, round) => p.nodeId == n && p.round == round && x.round != round
      case ProofNodeMismatch(n) => p.nodeId == n && x.nodeId != n
      case _ => false
  {
  }

  lemma MalformedReported(cs: seq<CommitmentRecord>, p: ProofRecord, r: Reason)
    requires ParsePublicInputs(p.publicInputsHex).None?
    ensures r in ProofFaults(cs, p) <==> OneProofDeserves(cs, p, r)
  {
    hide IsFirstCommitment, HasCommitted, Carries, HexDecode, HexEncode, ParsePublicInputs;
    forall x ensures !Carries(p, x) {
      ParseIsCarried(p, x);
    }
  }

  lemma UnboundReported(cs: seq<CommitmentRecord>, p: ProofRecord, x: PublicInputs, r: Reason)
    requires ParsePublicInputs(p.publicInputsHex) == Some(x) && !HasCommitted(cs, p.nodeId, p.round)
    requires forall y :: Carries(p, y) <==> y == x
    ensures r in ProofFaults(cs, p) <==> OneProofDeserves(cs, p, r)
  {
    hide Carries, HexDecode, HexEncode, ParsePublicInputs, HasCommitted, IsFirstCommitment, FindCommitment;
    assert Carries(p, x);
    LabelReported(x, p, r);
    FindIffCommitted(cs, p.nodeId, p.round);
    assert ProofFaults(cs, p) == LabelFaults(x, p) + [ProofNoMatchingCommitment(p.nodeId, p.round)];
    forall c ensures !IsFirstCommitment(cs, p.nodeId, p.round, c) {
      FindIsFirst(cs, p.nodeId, p.round, c);
    }
  }

  lemma BoundReported(cs: seq<CommitmentRecord>, p: ProofRecord, x: PublicInputs, c: CommitmentRecord, r: Reason)
    requires ParsePublicInputs(p.publicInputsHex) == Some(x) && FindCommitment(cs, p.nodeId, p.round) == Some(c)
    requires HasCommitted(cs, p.nodeId, p.round)
    requires forall y :: Carries(p, y) <==> y == x
    requires forall d :: IsFirstCommitment(cs, p.nodeId, p.round, d) <==> d == c
    ensures r in ProofFaults(cs, p) <==> OneProofDeserves(cs, p, r)
  {
    hide Carries, HexDecode, HexEncode, ParsePublicInputs, HasCommitted, IsFirstCommitment, FindCommitment;
    hide BindingFaults, MarkerLegit;
    assert Carries(p, x) && IsFirstCommitment(cs, p.nodeId, p.round, c);
    BindingReported(c, x, p, r);
    LabelReported(x, p, r);
    hide LabelFaults;
    assert ProofFaults(cs, p) == LabelFaults(x, p) + BindingFaults(c, x, p);
  }

  lemma ProofReported(cs: seq<CommitmentRecord>, p: ProofRecord, r: Reason)
    ensures r in ProofFaults(cs, p) <==> OneProofDeserves(cs, p, r)
  {
    hide IsFirstCommitment, HasCommitted, Carries, HexDecode, HexEncode, ParsePublicInputs, ProofFaults,
         OneProofDeserves;
    var parsed, c := ParsePublicInputs(p.publicInputsHex), FindCommitment(cs, p.nodeId, p.round);
    forall x ensures parsed == Some(x) <==> Carries(p, x) {
      ParseIsCarried(p, x);
    }
    FindIffCommitted(cs, p.nodeId, p.round);
    forall d ensures c == Some(d) <==> IsFirstCommitment(cs, p.nodeId, p.round, d) {
      FindIsFirst(cs, p.nodeId, p.round, d);
    }
    if parsed.None? {
      MalformedReported(cs, p, r);
    } else if c.None? {
      UnboundReported(cs, p, parsed.value, r);
    } else {
      BoundReported(cs, p, parsed.value, c.value, r);
    }
  }

  lemma CommitmentReported(t: Topology, cs: seq<CommitmentRecord>, i: nat, r: Reason)
    requires i < |cs|
    ensures r in CommitmentFaults(t, SeenKeys(t, cs[..i]), cs[i]) <==> OneCommitmentDeserves(t, cs, i, r)
  {
    hide IsNode;
    var c := cs[i];
    forall m ensures t.Find(c.nodeId) == Some(m) <==> IsNode(t, c.nodeId, m) {
      FindNodeIsFirst(t, c.nodeId, m);
    }
    ConfiguredIffFound(t, c.nodeId);
    if t.Find(c.nodeId).Some? {
      SeenIffEarlier(t, cs, i);
    }
    hide SeenKeys, Configured;
  }

  lemma ConfiguredIffFound(t: Topology, id: NodeId)
    ensures Configured(t, id) <==> t.Find(id).Some?
  {
  }

  lemma SeenIffEarlier(t: Topology, cs: seq<CommitmentRecord>, i: nat)
    requires i < |cs| && t.Find(cs[i].nodeId).Some?
    ensures (cs[i].nodeId, cs[i].round) in SeenKeys(t, cs[..i]) <==>
            exists j :: 0 <= j < i && cs[j].nodeId == cs[i].nodeId && cs[j].round == cs[i].round
  {
    if j :| 0 <= j < i && cs[j].nodeId == cs[i].nodeId && cs[j].round == cs[i].round {
      assert cs[..i][j] in cs[..i];
    }
  }

  lemma {:induction false} CommitmentsReported(t: Topology, cs: seq<CommitmentRecord>, n: nat, r: Reason)
    requires n <= |cs|
    ensures r in AllCommitmentFaults(t, cs[..n]) <==> exists i: nat :: i < n && OneCommitmentDeserves(t, cs, i, r)
  {
    hide CommitmentFaults, SeenKeys, OneCommitmentDeserves;
    if n > 0 {
      CommitmentsReported(t, cs, n - 1, r);
      CommitmentReported(t, cs, n - 1, r);
      assert cs[..n][..n - 1] == cs[..n - 1] && cs[..n][n - 1] == cs[n - 1];
      assert AllCommitmentFaults(t, cs[..n])
          == AllCommitmentFaults(t, cs[..n - 1]) + CommitmentFaults(t, SeenKeys(t, cs[..n - 1]), cs[n - 1]);
    }
  }

  // ---------------------------------------------------------------------
  // The final round
  // ---------------------------------------------------------------------

  lemma MatchReported(log: Log, p: ProposalRecord, r: Reason)
    ensures r in PredicateFaults(log, p) <==> MatchDeserves(log, p, r)
  {
    hide IsFirstCommitment, HasCommitted, MatchDenied, MatchPredicate, FindCommitment;
    var cs, f := log.commitments, log.finalRound;
    FindIffCommitted(cs, p.requester, f);
    FindIffCommitted(cs, p.provider, f);
    var req, prov := FindCommitment(cs, p.requester, f), FindCommitment(cs, p.provider, f);
    forall c ensures req == Some(c) <==> IsFirstCommitment(cs, p.requester, f, c) {
      FindIsFirst(cs, p.requester, f, c);
    }
    forall c ensures prov == Some(c) <==> IsFirstCommitment(cs, p.provider, f, c) {
      FindIsFirst(cs, p.provider, f, c);
    }
    if req.Some? && prov.Some? && r.FinalRoundPredicateFailed? {
      MatchDeniedIff(req.value.intent, prov.value.intent, f, r.denial);
    }
  }

  /** The faults found once proposal and receipt are there. */
  function SettlementFaults(c: Crypto, t: Topology, log: Log, p: ProposalRecord, x: ReceiptRecord): seq<Reason> {
    SignatureFaults(c, t, log, p, x)
    + When(!HasProof(log.proofs, p.requester, log.finalRound), FinalRoundMissingRequesterProof)
    + When(!HasProof(log.proofs, p.provider, log.finalRound), FinalRoundMissingProviderProof)
  }

  lemma SettlementReported(c: Crypto, t: Topology, log: Log, p: ProposalRecord, x: ReceiptRecord, r: Reason)
    ensures r in SettlementFaults(c, t, log, p, x) <==> SettlementDeserves(c, t, log, p, x, r)
  {
    hide SignatureAccepted, KeyOf;
  }

  lemma FinalByParts(c: Crypto, t: Topology, log: Log, p: ProposalRecord)
    requires log.finalized && LastProposal(log.proposals, log.finalRound) == Some(p)
    ensures CheckFinal(c, t, log) ==
      match FindReceipt(log.receipts, log.finalRound, p.provider)
      case None => FinalCheck(PredicateFaults(log, p) + [FinalRoundMissingReceipt], true)
      case Some(x) => FinalCheck(PredicateFaults(log, p) + SettlementFaults(c, t, log, p, x), false)
  {
    hide PredicateFaults, SignatureFaults, HasProof, LastProposal, FindReceipt;
    var x := FindReceipt(log.receipts, log.finalRound, p.provider);
    if x.Some? {
      var a, b := PredicateFaults(log, p), SignatureFaults(c, t, log, p, x.value);
      var q := When(!HasProof(log.proofs, p.requester, log.finalRound), FinalRoundMissingRequesterProof);
      var w := When(!HasProof(log.proofs, p.provider, log.finalRound), FinalRoundMissingProviderProof);
      assert a + b + q + w == a + (b + q + w);
    }
  }

  lemma FinalReported(c: Crypto, t: Topology, log: Log, r: Reason)
    ensures r in CheckFinal(c, t, log).reasons <==> FinalDeserves(c, t, log, r)
    ensures CheckFinal(c, t, log).last <==> !RejectionsAreChecked(log)
  {
    hide PredicateFaults, SettlementFaults, MatchDeserves, SettlementDeserves, LastProposal, FindReceipt,
         IsFinalProposal;
    hide IsFirstReceipt;
    var last := LastProposal(log.proposals, log.finalRound);
    forall q ensures last == Some(q) <==> IsFinalProposal(log, q) {
      FinalProposalByLookup(log, q);
    }
    if log.finalized && last.Some? {
      var p := last.value;
      FinalByParts(c, t, log, p);
      MatchReported(log, p, r);
      var found := FindReceipt(log.receipts, log.finalRound, p.provider);
      forall x ensures found == Some(x) <==> IsFirstReceipt(log, p.provider, x) {
        FirstReceiptByLookup(log, p.provider, x);
      }
      hide CheckFinal, FinalDeserves;
      ReceiptReported(c, t, log, p, r);
      FinalDeservedBy(c, t, log, p, r);
    }
  }

  lemma FinalDeservedBy(c: Crypto, t: Topology, log: Log, p: ProposalRecord, r: Reason)
    requires log.finalized && p in log.proposals && p.round == log.finalRound
    requires forall q :: IsFinalProposal(log, q) <==> q == p
    ensures FinalDeserves(c, t, log, r) <==> MatchDeserves(log, p, r) || ReceiptDeserves(c, t, log, p, r)
  {
    hide MatchDeserves, ReceiptDeserves, IsFinalProposal;
    assert IsFinalProposal(log, p);
  }

  /** The faults that follow those of the match. */
  function ReceiptFaults(c: Crypto, t: Topology, log: Log, p: ProposalRecord): seq<Reason> {
    match FindReceipt(log.receipts, log.finalRound, p.provider)
    case None => [FinalRoundMissingReceipt]
    case Some(x) => SettlementFaults(c, t, log, p, x)
  }

  lemma ReceiptReported(c: Crypto, t: Topology, log: Log, p: ProposalRecord, r: Reason)
    ensures r in ReceiptFaults(c, t, log, p) <==> ReceiptDeserves(c, t, log, p, r)
  {
    hide IsFirstReceipt, FindReceipt, SettlementFaults, SettlementDeserves;
    var found := FindReceipt(log.receipts, log.finalRound, p.provider);
    forall x ensures found == Some(x) <==> IsFirstReceipt(log, p.provider, x) {
      FirstReceiptByLookup(log, p.provider, x);
    }
    if found.Some? {
      SettlementReported(c, t, log, p, found.value, r);
      assert SettlementDeserves(c, t, log, p, found.value, r) ==> !r.FinalRoundMissingReceipt? by {
        SettlementIsNoMissingReceipt(c, t, log, p, found.value, r);
      }
    }
  }

  lemma SettlementIsNoMissingReceipt(c: Crypto, t: Topology, log: Log, p: ProposalRecord, x: ReceiptRecord, r: Reason)
    ensures SettlementDeserves(c, t, log, p, x, r) ==> !r.FinalRoundMissingReceipt?
  {
  }

  // ---------------------------------------------------------------------
  // The whole report
  // ---------------------------------------------------------------------

  lemma RejectionReported(finalRound: RoundId, x: RejectionRecord, r: Reason)
    ensures r in RejectionFaults(finalRound, x) <==> OneRejectionDeserves(finalRound, x, r)
  {
  }

  /** A reason is in the report exactly when the log deserves it. */
  lemma ReportedIffDeserved(c: Crypto, t: Topology, log: Log, r: Reason)
    ensures r in Reasons(c, t, log) <==> Deserved(c, t, log, r)
  {
    var cs := log.commitments;
    hide OneCommitmentDeserves, OneProposalDeserves, OneProofDeserves, OneRejectionDeserves, FinalDeserves;
    hide RejectionsAreChecked, AllCommitmentFaults, ProposalFaults, ProofFaults, RejectionFaults, CheckFinal;
    CommitmentsReported(t, cs, |cs|, r);
    assert cs[..|cs|] == cs;
    GatherMembers(log.proposals, p => ProposalFaults(t, cs, p), r);
    GatherMembers(log.proofs, p => ProofFaults(cs, p), r);
    GatherMembers(log.rejections, x => RejectionFaults(log.finalRound, x), r);
    forall p ensures r in ProposalFaults(t, cs, p) <==> OneProposalDeserves(t, cs, p, r) {
      ProposalReported(t, cs, p, r);
    }
    forall p ensures r in ProofFaults(cs, p) <==> OneProofDeserves(cs, p, r) {
      ProofReported(cs, p, r);
    }
    forall x ensures r in RejectionFaults(log.finalRound, x) <==> OneRejectionDeserves(log.finalRound, x, r) {
      RejectionReported(log.finalRound, x, r);
    }
    FinalReported(c, t, log, r);
  }

  /** In particular a missing proof is reported of the side that lacks it. */
  lemma MissingRequesterProofReported(c: Crypto, t: Topology, log: Log)
    ensures FinalRoundMissingRequesterProof in Reasons(c, t, log) <==>
      log.finalized && exists p, x :: IsFinalProposal(log, p) && IsFirstReceipt(log, p.provider, x)
                                      && ProofIsMissing(log, p.requester)
  {
    hide Reasons, Deserved, FinalDeserves, SettlementDeserves, IsFirstReceipt, IsFinalProposal, ProofIsMissing;
    ReportedIffDeserved(c, t, log, FinalRoundMissingRequesterProof);
    OnlyFinalDeserves(c, t, log, FinalRoundMissingRequesterProof);
    DeservedOnReceipt(c, t, log, FinalRoundMissingRequesterProof);
    forall p, x
      ensures SettlementDeserves(c, t, log, p, x, FinalRoundMissingRequesterProof) <==> ProofIsMissing(log, p.requester)
    {
      ProofsDeserve(c, t, log, p, x);
    }
  }

  lemma MissingProviderProofReported(c: Crypto, t: Topology, log: Log)
    ensures FinalRoundMissingProviderProof in Reasons(c, t, log) <==>
      log.finalized && exists p, x :: IsFinalProposal(log, p) && IsFirstReceipt(log, p.provider, x)
                                      && ProofIsMissing(log, p.provider)
  {
    hide Reasons, Deserved, FinalDeserves, SettlementDeserves, IsFirstReceipt, IsFinalProposal, ProofIsMissing;
    ReportedIffDeserved(c, t, log, FinalRoundMissingProviderProof);
    OnlyFinalDeserves(c, t, log, FinalRoundMissingProviderProof);
    DeservedOnReceipt(c, t, log, FinalRoundMissingProviderProof);
    forall p, x
      ensures SettlementDeserves(c, t, log, p, x, FinalRoundMissingProviderProof) <==> ProofIsMissing(log, p.provider)
    {
      ProofsDeserve(c, t, log, p, x);
    }
  }

  lemma ProofsDeserve(c: Crypto, t: Topology, log: Log, p: ProposalRecord, x: ReceiptRecord)
    ensures SettlementDeserves(c, t, log, p, x, FinalRoundMissingRequesterProof) <==> ProofIsMissing(log, p.requester)
    ensures SettlementDeserves(c, t, log, p, x, FinalRoundMissingProviderProof) <==> ProofIsMissing(log, p.provider)
  {
  }

  lemma DeservedOnReceipt(c: Crypto, t: Topology, log: Log, r: Reason)
    requires r == FinalRoundMissingRequesterProof || r == FinalRoundMissingProviderProof
    ensures FinalDeserves(c, t, log, r) <==>
      log.finalized && exists p, x :: IsFinalProposal(log, p) && IsFirstReceipt(log, p.provider, x)
                                      && SettlementDeserves(c, t, log, p, x, r)
  {
    FinalProposalIsLogged(log);
    assert forall p :: !MatchDeserves(log, p, r);
    hide IsFirstReceipt, IsFinalProposal, MatchDeserves, SettlementDeserves;
  }

  lemma OnlyFinalDeserves(c: Crypto, t: Topology, log: Log, r: Reason)
    requires r == FinalRoundMissingRequesterProof || r == FinalRoundMissingProviderProof
    ensures Deserved(c, t, log, r) <==> FinalDeserves(c, t, log, r)
  {
    hide FinalDeserves;
  }

  lemma FinalProposalIsLogged(log: Log)
    ensures forall p :: IsFinalProposal(log, p) ==> p in log.proposals && p.round == log.finalRound
  {
  }

  // ---------------------------------------------------------------------
  // In which order
  // ---------------------------------------------------------------------

  /** The section of the report a reason belongs to, and its place among a record's faults. */
  function Place(r: Reason): (int, int) {
    match r
    case UnsupportedSchemaVersion(_) => (0, 0)
    case CommitmentFromUnknownNode(_) => (1, 0)
    case CommitmentRoleMismatch(_) => (1, 1)
    case CommitmentIntentNodeMismatch(_) => (1, 2)
    case CommitmentRoundMismatch(_, _) => (1, 3)
    case DuplicateCommitment(_, _) => (1, 4)
    case ProposalWrongProposer(_) => (2, 0)
    case ProposerRotationError(_) => (2, 0)
    case ProposalUnknownCommitment(_) => (2, 1)
    case ProposalAnnotationTampered(_, _) => (2, 2)
    case ProposalProviderLacksCapability(_) => (2, 3)
    case ProofMalformedPublicInputs(_) => (3, 0)
    case ProofRoundMismatch(_, _) => (3, 1)
    case ProofNodeMismatch(_) => (3, 2)
    case ProofNoMatchingCommitment(_, _) => (3, 3)
    case ProofCommitmentMismatch(_, _) => (3, 4)
    case ProofRoleByteMismatch(_) => (3, 5)
    case ProofHexMalformed(_) => (3, 6)
    case ProofMarkerUnexpected(_) => (3, 7)
    case FinalRoundMissingProposal => (4, 0)
    case FinalRoundRequesterCommitmentMissing => (4, 1)
    case FinalRoundProviderCommitmentMissing => (4, 1)
    case FinalRoundPredicateFailed(_) => (4, 1)
    case FinalRoundMissingReceipt => (4, 2)
    case FinalRoundEmptySignature => (4, 3)
    case FinalRoundSignatureMismatch => (4, 3)
    case FinalRoundMissingRequesterProof => (4, 4)
    case FinalRoundMissingProviderProof => (4, 5)
    case AbortedRunHasReceipt => (4, 0)
    case RejectionRoundOutOfRange(_, _) => (5, 0)
    case RejectionMissingFields => (5, 1)
  }

  ghost predicate InSection(rs: seq<Reason>, section: int) {
    forall r :: r in rs ==> Place(r).0 == section
  }

  /** Faults of one section, each at most once and in order, with places from `lo` on and before `hi`. */
  ghost predicate InOrder(rs: seq<Reason>, section: int, lo: int, hi: int) {
    && InSection(rs, section)
    && (forall r :: r in rs ==> lo <= Place(r).1 < hi)
    && (forall i, j :: 0 <= i < j < |rs| ==> Place(rs[i]).1 < Place(rs[j]).1)
  }

  lemma OrderJoins(a: seq<Reason>, b: seq<Reason>, section: int, lo: int, mid: int, hi: int)
    requires InOrder(a, section, lo, mid) && InOrder(b, section, mid, hi) && lo <= mid <= hi
    ensures InOrder(a + b, section, lo, hi)
  {
    hide Place;
    var c := a + b;
    assert forall r :: r in c <==> r in a || r in b;
    forall i, j | 0 <= i < j < |c| ensures Place(c[i]).1 < Place(c[j]).1 {
      assert i < |a| ==> c[i] in a;
      assert j >= |a| ==> c[j] in b;
    }
  }

  lemma WhenInOrder(condition: bool, r: Reason)
    ensures InOrder(When(condition, r), Place(r).0, Place(r).1, Place(r).1 + 1)
  {
    hide Place;
  }

  lemma CommitmentInOrder(t: Topology, seen: set<(NodeId, RoundId)>, c: CommitmentRecord)
    ensures InOrder(CommitmentFaults(t, seen, c), 1, 0, 5)
  {
    hide InOrder;
    var node := t.Find(c.nodeId);
    if node.None? {
      OneInOrder(CommitmentFromUnknownNode(c.nodeId), 0, 5);
    } else {
      var role, id := c.intent.Role() != node.value.role, c.intent.nodeId != c.nodeId;
      var round, again := c.intent.round != c.round, (c.nodeId, c.round) in seen;
      hide When;
      WhenInOrder(role, CommitmentRoleMismatch(c.nodeId));
      WhenInOrder(id, CommitmentIntentNodeMismatch(c.nodeId));
      WhenInOrder(round, CommitmentRoundMismatch(c.nodeId, c.round));
      WhenInOrder(again, DuplicateCommitment(c.nodeId, c.round));
      var a, b := When(role, CommitmentRoleMismatch(c.nodeId)), When(id, CommitmentIntentNodeMismatch(c.nodeId));
      OrderJoins(a, b, 1, 1, 2, 3);
      OrderJoins(a + b, When(round, CommitmentRoundMismatch(c.nodeId, c.round)), 1, 1, 3, 4);
      OrderJoins(a + b + When(round, CommitmentRoundMismatch(c.nodeId, c.round)),
                 When(again, DuplicateCommitment(c.nodeId, c.round)), 1, 1, 4, 5);
      OrderWidens(CommitmentFaults(t, seen, c), 1, 1, 5, 0, 5);
    }
  }

  lemma OneInOrder(r: Reason, lo: int, hi: int)
    requires lo <= Place(r).1 < hi
    ensures InOrder([r], Place(r).0, lo, hi)
  {
    hide Place;
  }

  lemma OrderWidens(rs: seq<Reason>, section: int, lo: int, hi: int, lo': int, hi': int)
    requires InOrder(rs, section, lo, hi) && lo' <= lo && hi <= hi'
    ensures InOrder(rs, section, lo', hi')
  {
    hide Place;
  }

  lemma ProposalInOrder(t: Topology, cs: seq<CommitmentRecord>, p: ProposalRecord)
    ensures InOrder(ProposalFaults(t, cs, p), 2, 0, 4)
  {
    ProposerInOrder(t, p);
    ReferencesInOrder(cs, p);
    hide InOrder, ProposerFaults, ReferenceFaults;
    OrderJoins(ProposerFaults(t, p), ReferenceFaults(cs, p), 2, 0, 1, 4);
  }

  lemma ProposerInOrder(t: Topology, p: ProposalRecord)
    ensures InOrder(ProposerFaults(t, p), 2, 0, 1)
  {
    hide ProposerOf;
  }

  lemma ReferencesInOrder(cs: seq<CommitmentRecord>, p: ProposalRecord)
    ensures InOrder(ReferenceFaults(cs, p), 2, 1, 4)
  {
    hide FindCommitment, ValidateAnnotation;
  }

  lemma ProofInOrder(cs: seq<CommitmentRecord>, q: ProofRecord)
    ensures InOrder(ProofFaults(cs, q), 3, 0, 8)
  {
    var parsed, c := ParsePublicInputs(q.publicInputsHex), FindCommitment(cs, q.nodeId, q.round);
    if parsed.None? {
      OneInOrder(ProofMalformedPublicInputs(q.nodeId), 0, 8);
    } else {
      LabelsInOrder(parsed.value, q);
      hide InOrder, LabelFaults, BindingFaults, ParsePublicInputs, FindCommitment;
      if c.None? {
        OneInOrder(ProofNoMatchingCommitment(q.nodeId, q.round), 3, 8);
        OrderJoins(LabelFaults(parsed.value, q), [ProofNoMatchingCommitment(q.nodeId, q.round)], 3, 1, 3, 8);
      } else {
        BindingInOrder(c.value, parsed.value, q);
        OrderWidens(BindingFaults(c.value, parsed.value, q), 3, 4, 8, 3, 8);
        OrderJoins(LabelFaults(parsed.value, q), BindingFaults(c.value, parsed.value, q), 3, 1, 3, 8);
      }
      OrderWidens(ProofFaults(cs, q), 3, 1, 8, 0, 8);
    }
  }

  lemma LabelsInOrder(x: PublicInputs, q: ProofRecord)
    ensures InOrder(LabelFaults(x, q), 3, 1, 3)
  {
  }

  lemma BindingInOrder(c: CommitmentRecord, x: PublicInputs, q: ProofRecord)
    ensures InOrder(BindingFaults(c, x, q), 3, 4, 8)
  {
    hide HexEncode, RoleByte, MarkerFaults, When, InOrder;
    var hash, role := HexEncode(x.digest) != c.hex, x.role != RoleByte(c.intent);
    var a, b := When(hash, ProofCommitmentMismatch(q.nodeId, q.round)), When(role, ProofRoleByteMismatch(q.nodeId));
    WhenInOrder(hash, ProofCommitmentMismatch(q.nodeId, q.round));
    WhenInOrder(role, ProofRoleByteMismatch(q.nodeId));
    MarkerInOrder(q);
    OrderJoins(a, b, 3, 4, 5, 6);
    OrderJoins(a + b, MarkerFaults(q), 3, 4, 6, 8);
  }

  lemma MarkerInOrder(q: ProofRecord)
    ensures InOrder(MarkerFaults(q), 3, 6, 8)
  {
    hide HexDecode;
  }

  lemma SettlementInOrder(c: Crypto, t: Topology, log: Log, p: ProposalRecord, x: ReceiptRecord)
    ensures InOrder(SettlementFaults(c, t, log, p, x), 4, 2, 6)
  {
    SignatureInOrder(c, t, log, p, x);
    var mine, theirs := HasProof(log.proofs, p.requester, log.finalRound),
        HasProof(log.proofs, p.provider, log.finalRound);
    hide SignatureFaults, HasProof, InOrder, When;
    WhenInOrder(!mine, FinalRoundMissingRequesterProof);
    WhenInOrder(!theirs, FinalRoundMissingProviderProof);
    var a, b := SignatureFaults(c, t, log, p, x), When(!mine, FinalRoundMissingRequesterProof);
    OrderJoins(a, b, 4, 3, 4, 5);
    OrderJoins(a + b, When(!theirs, FinalRoundMissingProviderProof), 4, 3, 5, 6);
    OrderWidens(SettlementFaults(c, t, log, p, x), 4, 3, 6, 2, 6);
  }

  lemma SignatureInOrder(c: Crypto, t: Topology, log: Log, p: ProposalRecord, x: ReceiptRecord)
    ensures InOrder(SignatureFaults(c, t, log, p, x), 4, 3, 4)
  {
    hide SignatureAccepted, KeyOf;
  }

  lemma MatchInOrder(log: Log, p: ProposalRecord)
    ensures InOrder(PredicateFaults(log, p), 4, 1, 2)
  {
    hide FindCommitment, MatchPredicate;
  }

  lemma FinalInOrder(c: Crypto, t: Topology, log: Log)
    ensures InOrder(CheckFinal(c, t, log).reasons, 4, 0, 6)
  {
    var last := LastProposal(log.proposals, log.finalRound);
    if !log.finalized {
      WhenInOrder(exists r :: r in log.receipts && r.round == log.finalRound, AbortedRunHasReceipt);
      OrderWidens(CheckFinal(c, t, log).reasons, 4, 0, 1, 0, 6);
    } else if last.None? {
      OneInOrder(FinalRoundMissingProposal, 0, 6);
    } else {
      hide InOrder, CheckFinal, LastProposal;
      FoundFinalInOrder(c, t, log, last.value);
    }
  }

  lemma FoundFinalInOrder(c: Crypto, t: Topology, log: Log, p: ProposalRecord)
    requires log.finalized && LastProposal(log.proposals, log.finalRound) == Some(p)
    ensures InOrder(CheckFinal(c, t, log).reasons, 4, 0, 6)
  {
    FinalByParts(c, t, log, p);
    hide InOrder, CheckFinal, PredicateFaults, SettlementFaults, LastProposal, FindReceipt;
    MatchInOrder(log, p);
    var x := FindReceipt(log.receipts, log.finalRound, p.provider);
    if x.None? {
      OneInOrder(FinalRoundMissingReceipt, 2, 6);
      OrderJoins(PredicateFaults(log, p), [FinalRoundMissingReceipt], 4, 1, 2, 6);
    } else {
      SettlementInOrder(c, t, log, p, x.value);
      OrderJoins(PredicateFaults(log, p), SettlementFaults(c, t, log, p, x.value), 4, 1, 2, 6);
    }
    OrderWidens(CheckFinal(c, t, log).reasons, 4, 1, 6, 0, 6);
  }

  lemma RejectionInOrder(finalRound: RoundId, x: RejectionRecord)
    ensures InOrder(RejectionFaults(finalRound, x), 5, 0, 2)
  {
  }

  /** The faults of a list of records are those of its first part followed by those of the rest. */
  lemma {:induction false} GatherSplits<T>(xs: seq<T>, ys: seq<T>, faults: T -> seq<Reason>)
    ensures Gather(xs + ys, faults) == Gather(xs, faults) + Gather(ys, faults)
    ensures forall x :: Gather([x], faults) == faults(x)
  {
    forall x ensures Gather([x], faults) == faults(x) {
      assert Gather([], faults) + faults(x) == faults(x);
    }
    if ys == [] {
      assert xs + ys == xs;
    } else {
      var n := |ys| - 1;
      GatherSplits(xs, ys[..n], faults);
      assert (xs + ys)[..|xs| + n] == xs + ys[..n];
    }
  }

  /** Logging one more commitment only adds its own faults, in order, to what is reported of commitments. */
  lemma CommitmentFaultsAppend(t: Topology, cs: seq<CommitmentRecord>, c: CommitmentRecord)
    ensures exists faults :: AllCommitmentFaults(t, cs + [c]) == AllCommitmentFaults(t, cs) + faults
                             && InOrder(faults, 1, 0, 5)
  {
    var faults := CommitmentFaults(t, SeenKeys(t, cs), c);
    CommitmentInOrder(t, SeenKeys(t, cs), c);
    hide CommitmentFaults, SeenKeys, InOrder;
    assert (cs + [c])[..|cs|] == cs;
    assert AllCommitmentFaults(t, cs + [c]) == AllCommitmentFaults(t, cs) + faults;
  }

  // ---------------------------------------------------------------------
  // Sections
  // ---------------------------------------------------------------------

  lemma {:induction false} GatherInSection<T>(xs: seq<T>, faults: T -> seq<Reason>, section: int)
    requires forall x :: InSection(faults(x), section)
    ensures InSection(Gather(xs, faults), section)
  {
    hide Place;
    if xs != [] {
      GatherInSection(xs[..|xs| - 1], faults, section);
      assert InSection(faults(xs[|xs| - 1]), section);
    }
  }

  lemma {:induction false} CommitmentsInSection(t: Topology, cs: seq<CommitmentRecord>)
    ensures InSection(AllCommitmentFaults(t, cs), 1)
  {
    hide Place, CommitmentFaults, SeenKeys;
    if cs != [] {
      CommitmentsInSection(t, cs[..|cs| - 1]);
      CommitmentInOrder(t, SeenKeys(t, cs[..|cs| - 1]), cs[|cs| - 1]);
    }
  }

  /** Sections that are all at most `section`, one after another. */
  ghost predicate Ascends(rs: seq<Reason>, section: int) {
    && (forall r :: r in rs ==> Place(r).0 <= section)
    && (forall i, j :: 0 <= i < j < |rs| ==> Place(rs[i]).0 <= Place(rs[j]).0)
  }

  lemma AscendsOn(a: seq<Reason>, b: seq<Reason>, section: int)
    requires Ascends(a, section - 1) && InSection(b, section)
    ensures Ascends(a + b, section)
  {
    hide Place;
    var c := a + b;
    assert forall r :: r in c <==> r in a || r in b;
    forall i, j | 0 <= i < j < |c| ensures Place(c[i]).0 <= Place(c[j]).0 {
      assert i < |a| ==> c[i] in a;
      assert j >= |a| ==> c[j] in b;
    }
  }

  /** The report goes schema, commitments, proposals, proofs, final round, rejections. */
  lemma SectionsInOrder(c: Crypto, t: Topology, log: Log)
    ensures var rs := Reasons(c, t, log); forall i, j :: 0 <= i < j < |rs| ==> Place(rs[i]).0 <= Place(rs[j]).0
  {
    var cs := log.commitments;
    var schema := When(log.schemaVersion != 1, UnsupportedSchemaVersion(log.schemaVersion));
    assert Ascends(schema, 0);
    forall p ensures InSection(ProposalFaults(t, cs, p), 2) { ProposalInOrder(t, cs, p); }
    forall q ensures InSection(ProofFaults(cs, q), 3) { ProofInOrder(cs, q); }
    forall x ensures InSection(RejectionFaults(log.finalRound, x), 5) { RejectionInOrder(log.finalRound, x); }
    CommitmentsInSection(t, cs);
    GatherInSection(log.proposals, p => ProposalFaults(t, cs, p), 2);
    GatherInSection(log.proofs, p => ProofFaults(cs, p), 3);
    GatherInSection(log.rejections, x => RejectionFaults(log.finalRound, x), 5);
    FinalInOrder(c, t, log);
    hide Place, InSection, Ascends, CheckFinal, AllCommitmentFaults, Gather, ProposalFaults, ProofFaults,
         RejectionFaults;
    var records := RecordReasons(t, log);
    AscendsOn(schema, AllCommitmentFaults(t, cs), 1);
    AscendsOn(schema + AllCommitmentFaults(t, cs), AllProposalFaults(t, cs, log.proposals), 2);
    AscendsOn(schema + AllCommitmentFaults(t, cs) + AllProposalFaults(t, cs, log.proposals),
              AllProofFaults(cs, log.proofs), 3);
    var final := CheckFinal(c, t, log);
    AscendsOn(records, final.reasons, 4);
    AscendsToEnd(records + final.reasons, AllRejectionFaults(log.finalRound, log.rejections), final.last);
  }

  lemma AscendsToEnd(a: seq<Reason>, b: seq<Reason>, last: bool)
    requires Ascends(a, 4) && InSection(b, 5)
    ensures var rs := a + if last then [] else b; forall i, j :: 0 <= i < j < |rs| ==> Place(rs[i]).0 <= Place(rs[j]).0
  {
    AscendsOn(a, b, 5);
    hide Place;
  }
}
