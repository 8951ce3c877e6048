/**
  What the standalone verifier can find in a log the runtime wrote, over any transport, with any
  local agents and any scenario: only the shape of proofs and the final receipt are open.
 */
module Soundness {
  import opened Results
  import opened Bytes
  import opened Protocol
  import opened Matching
  import opened Proposer
  import opened RoundMachines
  import opened CoordinationLogs
  import opened Artifacts
  import opened Runs
  import opened Verifier
  import opened Coupling
  import opened Observing

  /** What coupling and the manner of ending leave of the record in a finished log. */
  ghost predicate Accountable(t: Topology, log: Log) {
    && log.schemaVersion == 1
    && CommitmentsLegit(t, log.commitments) && KeysUnique(log.commitments)
    && HexesDistinct(log.commitments)
    && AllBacked(t, log.commitments, log.proposals)
    && AllEmbed(log.commitments, log.proofs)
    && AllSigned(log.receipts)
    && AllLabelled(log.rejections)
    && Before(log, log.finalRound + 1)
    && (if log.finalized then Proved(log, log.finalRound)
        && (forall r :: r in log.receipts ==> r.round == log.finalRound)
        else log.receipts == [])
  }

  lemma RunIsAccountable(cfg: Config, net: Network, runId: string)
    requires Run(cfg, net, runId).Success?
    ensures Accountable(cfg.topology, Run(cfg, net, runId).value.log)
  {
    hide CommitmentsLegit, HoldsRound, AllBacked, HoldsProposal, AllEmbed, AllSigned, AllLabelled, KeysUnique;
    hide CommitmentsBefore, ProposalsBefore, ProofsBefore, ReceiptsBefore, RejectionsBefore;
    hide Rounds, ConfigRefusal, LastProposal, HasProof;
    RunCouples(cfg, net, runId);
  }

  // ---------------------------------------------------------------------
  // Which reasons are left
  // ---------------------------------------------------------------------

  /** The only complaints a delivered stream can still cause. */
  predicate LeftOpen(r: Reason) {
    || r.ProofMalformedPublicInputs? || r.ProofRoundMismatch? || r.ProofNodeMismatch?
    || r.ProofRoleByteMismatch? || r.ProofHexMalformed? || r.ProofMarkerUnexpected?
    || r.FinalRoundMissingReceipt? || r.FinalRoundSignatureMismatch?
  }

  lemma {:induction false} GatherComesFromRecords<T>(xs: seq<T>, faults: T -> seq<Reason>)
    requires forall x, r :: x in xs && r in faults(x) ==> LeftOpen(r)
    ensures forall r :: r in Gather(xs, faults) ==> LeftOpen(r)
  {
    if xs != [] {
      assert xs[|xs| - 1] in xs;
      assert forall x :: x in xs[..|xs| - 1] ==> x in xs;
      GatherComesFromRecords(xs[..|xs| - 1], faults);
    }
  }

  lemma BackedIsLegit(t: Topology, cs: seq<CommitmentRecord>, ps: seq<ProposalRecord>)
    requires AllBacked(t, cs, ps)
    ensures forall p :: p in ps ==> ProposalLegit(t, cs, p)
  {
    forall p | p in ps ensures ProposalLegit(t, cs, p) {
      assert Backed(t, cs, p);
    }
  }

  lemma RecordsLeaveProofsOpen(t: Topology, log: Log)
    requires Accountable(t, log)
    ensures RecordReasons(t, log) == AllProofFaults(log.commitments, log.proofs)
  {
    var cs := log.commitments;
    CommitmentsWithoutFaults(t, cs);
    BackedIsLegit(t, cs, log.proposals);
    GatherNothing(log.proposals, p => ProposalFaults(t, cs, p));
    forall p | p in log.proposals ensures ProposalFaults(t, cs, p) == [] {
      ProposalWithoutFaults(t, cs, p);
    }
    assert AllProposalFaults(t, cs, log.proposals) == [];
    hide AllProofFaults;
  }

  /** An embedded digest is the commitment's: a proof that parses and is embedded is bound. */
  lemma EmbeddedProofFaults(cs: seq<CommitmentRecord>, p: ProofRecord)
    requires KeysUnique(cs) && Embeds(cs, p)
    ensures forall r :: r in ProofFaults(cs, p) ==> LeftOpen(r)
    ensures ParsePublicInputs(p.publicInputsHex).Some? ==>
      var c := FindCommitment(cs, p.nodeId, p.round);
      c.Some? && HexEncode(ParsePublicInputs(p.publicInputsHex).value.digest) == c.value.hex
  {
    hide KeysUnique, HexDecode, HexEncode;
    var c :| c in cs && Keyed(c, p.nodeId, p.round) && ExtractCommitmentHex(p.publicInputsHex) == Some(c.hex);
    FindUnique(cs, c);
    if ParsePublicInputs(p.publicInputsHex).Some? {
      ExtractAgreesWithParse(p.publicInputsHex);
    }
  }

  lemma ProofFaultsLeftOpen(cs: seq<CommitmentRecord>, ps: seq<ProofRecord>)
    requires KeysUnique(cs) && AllEmbed(cs, ps)
    ensures forall r :: r in AllProofFaults(cs, ps) ==> LeftOpen(r)
  {
    forall p, r | p in ps && r in ProofFaults(cs, p) ensures LeftOpen(r) {
      EmbeddedProofFaults(cs, p);
    }
    hide ProofFaults, KeysUnique;
    GatherComesFromRecords(ps, p => ProofFaults(cs, p));
  }

  /** The final round of a finalized run is a real match. */
  lemma FinalMatchHolds(t: Topology, log: Log, p: ProposalRecord)
    requires Accountable(t, log) && LastProposal(log.proposals, log.finalRound) == Some(p)
    ensures PredicateFaults(log, p) == []
  {
    assert Backed(t, log.commitments, p);
    var cs := log.commitments;
    var req, prov :| req in cs && prov in cs && Supports(p, req, prov) && prov.intent.ProviderIntent?;
    assert CommitmentLegit(t, req) && CommitmentLegit(t, prov);
    assert Feasible(req.intent, prov.intent, log.finalRound);
    PredicateByLookup(log, p);
  }

  /** The final receipt is there and its signature checks. */
  ghost predicate ReceiptSettles(c: Crypto, t: Topology, log: Log) {
    var p := LastProposal(log.proposals, log.finalRound);
    p.Some? &&
    var r := FindReceipt(log.receipts, log.finalRound, p.value.provider);
    && r.Some?
    && SignatureAccepted(c, KeyOf(t, p.value.provider), r.value.signatureHex, p.value.provider, log.finalRound,
                         p.value.matched)
  }

  lemma FinalLeavesReceiptOpen(c: Crypto, t: Topology, log: Log)
    requires Accountable(t, log)
    ensures var f := CheckFinal(c, t, log);
      && (forall r :: r in f.reasons ==> LeftOpen(r))
      && (f.reasons == [] <==> (log.finalized ==> ReceiptSettles(c, t, log)))
      && (f.last ==> f.reasons != [])
  {
    hide SignatureAccepted, PredicateFaults, HasProof, Accountable, LastProposal, FindReceipt, KeyOf, LeftOpen;
    AccountableEnding(t, log);
    if log.finalized {
      var p := LastProposal(log.proposals, log.finalRound).value;
      FinalMatchHolds(t, log, p);
      FinalCheckByReceipt(c, t, log, p);
    }
  }

  lemma AccountableEnding(t: Topology, log: Log)
    requires Accountable(t, log)
    ensures AllSigned(log.receipts)
    ensures if log.finalized then Proved(log, log.finalRound) else log.receipts == []
  {
    hide CommitmentsLegit, KeysUnique, HexesDistinct, AllBacked, AllEmbed, AllSigned, AllLabelled, Before, Proved;
  }

  /** With the match and both proofs in place, only the receipt is left to check. */
  lemma FinalCheckByReceipt(c: Crypto, t: Topology, log: Log, p: ProposalRecord)
    requires log.finalized && AllSigned(log.receipts)
    requires LastProposal(log.proposals, log.finalRound) == Some(p) && PredicateFaults(log, p) == []
    requires HasProof(log.proofs, p.requester, log.finalRound) && HasProof(log.proofs, p.provider, log.finalRound)
    ensures var f, r := CheckFinal(c, t, log), FindReceipt(log.receipts, log.finalRound, p.provider);
      && (r.None? ==> f == FinalCheck([FinalRoundMissingReceipt], true))
      && (r.Some? ==> f == FinalCheck(
            if SignatureAccepted(c, KeyOf(t, p.provider), r.value.signatureHex, p.provider, log.finalRound, p.matched)
            then []
            else [FinalRoundSignatureMismatch], false))
      && (forall x :: x in f.reasons ==> LeftOpen(x))
  {
    hide SignatureAccepted, PredicateFaults, HasProof, LastProposal, FindReceipt, KeyOf;
  }

  lemma RejectionsLeaveNothing(t: Topology, log: Log)
    requires Accountable(t, log)
    ensures AllRejectionFaults(log.finalRound, log.rejections) == []
  {
    GatherNothing(log.rejections, r => RejectionFaults(log.finalRound, r));
    forall r | r in log.rejections ensures RejectionFaults(log.finalRound, r) == [] {}
  }

  /**
    Whatever a transport delivers, the verifier has no complaint about commitments, proposals,
    rejections, the final match, missing proofs, unbound proofs or receipts of aborted runs.
   */
  lemma OnlyShapeAndReceiptLeftOpen(cfg: Config, net: Network, runId: string, r: Reason)
    requires Run(cfg, net, runId).Success?
    requires r in Reasons(cfg.crypto, cfg.topology, Run(cfg, net, runId).value.log)
    ensures LeftOpen(r)
  {
    var t, log := cfg.topology, Run(cfg, net, runId).value.log;
    RunIsAccountable(cfg, net, runId);
    hide Run;
    RecordsLeaveProofsOpen(t, log);
    ProofFaultsLeftOpen(log.commitments, log.proofs);
    FinalLeavesReceiptOpen(cfg.crypto, t, log);
    RejectionsLeaveNothing(t, log);
    hide Accountable, RecordReasons, CheckFinal, AllRejectionFaults, AllProofFaults, LeftOpen;
  }

  // ---------------------------------------------------------------------
  // Exactly when the log is valid
  // ---------------------------------------------------------------------

  /** A 73-byte artifact labelled as the record is, with the right role byte and a known marker. */
  ghost predicate WellShaped(cs: seq<CommitmentRecord>, p: ProofRecord) {
    var parsed := ParsePublicInputs(p.publicInputsHex);
    && parsed.Some?
    && parsed.value.round == p.round && parsed.value.nodeId == p.nodeId
    && (forall c :: c in cs && Keyed(c, p.nodeId, p.round) ==>
          parsed.value.role == if c.intent.RequesterIntent? then 0 else 1)
    && MarkerLegit(p.proofHex)
  }

  lemma ShapeIsAllAProofNeeds(cs: seq<CommitmentRecord>, p: ProofRecord)
    requires KeysUnique(cs) && Embeds(cs, p)
    ensures ProofFaults(cs, p) == [] <==> WellShaped(cs, p)
  {
    EmbeddedProofFaults(cs, p);
    var c := FindCommitment(cs, p.nodeId, p.round);
    if ParsePublicInputs(p.publicInputsHex).Some? {
      forall d | d in cs && Keyed(d, p.nodeId, p.round) ensures d == c.value {
        FindUnique(cs, d);
      }
    }
    hide KeysUnique, HexDecode, HexEncode, Embeds;
  }

  lemma ShapesDecide(cs: seq<CommitmentRecord>, ps: seq<ProofRecord>)
    requires KeysUnique(cs) && AllEmbed(cs, ps)
    ensures AllProofFaults(cs, ps) == [] <==> forall p :: p in ps ==> WellShaped(cs, p)
  {
    GatherNothing(ps, p => ProofFaults(cs, p));
    forall p | p in ps ensures ProofFaults(cs, p) == [] <==> WellShaped(cs, p) {
      ShapeIsAllAProofNeeds(cs, p);
    }
    hide ProofFaults, KeysUnique, WellShaped;
  }

  /** Over any transport, a run's log is valid just when its proofs are well shaped and its final receipt settles. */
  lemma ValidIffShapedAndSettled(cfg: Config, net: Network, runId: string)
    requires Run(cfg, net, runId).Success?
    ensures var log := Run(cfg, net, runId).value.log;
      Reasons(cfg.crypto, cfg.topology, log) == [] <==>
        && (forall p :: p in log.proofs ==> WellShaped(log.commitments, p))
        && (log.finalized ==> ReceiptSettles(cfg.crypto, cfg.topology, log))
  {
    var t, log := cfg.topology, Run(cfg, net, runId).value.log;
    RunIsAccountable(cfg, net, runId);
    hide Run, WellShaped, ReceiptSettles;
    AccountableValidity(cfg.crypto, t, log);
  }

  lemma AccountableValidity(c: Crypto, t: Topology, log: Log)
    requires Accountable(t, log)
    ensures Reasons(c, t, log) == [] <==>
      && (forall p :: p in log.proofs ==> WellShaped(log.commitments, p))
      && (log.finalized ==> ReceiptSettles(c, t, log))
  {
    RecordsLeaveProofsOpen(t, log);
    ShapesDecide(log.commitments, log.proofs);
    FinalLeavesReceiptOpen(c, t, log);
    RejectionsLeaveNothing(t, log);
    hide Accountable, RecordReasons, CheckFinal, AllRejectionFaults, AllProofFaults, WellShaped, ReceiptSettles;
  }

  // ---------------------------------------------------------------------
  // Rejections do not matter
  // ---------------------------------------------------------------------

  /** Of logs the runtime wrote, the verifier's report depends on the public record alone. */
  lemma PublicDecides(c: Crypto, t: Topology, log: Log, log': Log)
    requires Accountable(t, log) && Accountable(t, log') && Public(log) == Public(log')
    ensures Reasons(c, t, log) == Reasons(c, t, log')
  {
    RejectionsLeaveNothing(t, log);
    RejectionsLeaveNothing(t, log');
    hide Accountable, AllRejectionFaults, RecordReasons, CheckFinal;
    var a, b := Public(log), Public(log');
    assert a.commitments == b.commitments && a.proposals == b.proposals && a.proofs == b.proofs;
    RecordsIgnoreRejections(t, log);
    RecordsIgnoreRejections(t, log');
    FinalIgnoresRejections(c, t, log);
    FinalIgnoresRejections(c, t, log');
  }

  lemma RecordsIgnoreRejections(t: Topology, log: Log)
    ensures RecordReasons(t, log) == RecordReasons(t, Public(log))
  {
  }

  lemma FinalIgnoresRejections(c: Crypto, t: Topology, log: Log)
    ensures CheckFinal(c, t, log) == CheckFinal(c, t, Public(log))
  {
    hide LastProposal, FindReceipt, HasProof;
  }

  /** Two runs with the same public record get the same report from any verifier. */
  lemma SameRecordSameReport(c: Crypto, cfg: Config, net: Network, cfg': Config, net': Network, runId: string)
    requires cfg.topology == cfg'.topology
    requires Run(cfg, net, runId).Success? && Run(cfg', net', runId).Success?
    requires Public(Run(cfg, net, runId).value.log) == Public(Run(cfg', net', runId).value.log)
    ensures Reasons(c, cfg.topology, Run(cfg, net, runId).value.log)
         == Reasons(c, cfg.topology, Run(cfg', net', runId).value.log)
  {
    RunIsAccountable(cfg, net, runId);
    RunIsAccountable(cfg', net', runId);
    hide Run, Accountable, Reasons;
    PublicDecides(c, cfg.topology, Run(cfg, net, runId).value.log, Run(cfg', net', runId).value.log);
  }
}
