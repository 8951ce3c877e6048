/**
  When the standalone verifier accepts an in-process run, read off the configuration alone. The
  runtime picks its signature by the agent's seed, the verifier its check by the topology's key.
 */
module KeyAgreement {
  import opened Results
  import opened Protocol
  import opened CoordinationLogs
  import opened Runs
  import opened Verifier
  import opened Completeness
  import opened CommitPhases
  import opened HonestCommitments
  import opened ExactCommits
  import opened ExactRounds
  import opened ExactRuns

  /** Every proposal in a stretch of rounds is the match of its own round. */
  lemma {:induction false} SpanProposals(cfg: Config, from: nat, to: RoundId, p: ProposalRecord)
    requires FullyLocal(cfg) && p in Span(cfg, from, to).proposals
    ensures from <= p.round < to && RoundProposal(cfg, p.round) == Some(p)
    decreases if from < to then to - from else 0
  {
    hide FullyLocal, RoundProposal, RoundEntries;
    RoundProposes(cfg, from);
    if p !in RoundEntries(cfg, from).proposals {
      SpanProposals(cfg, from + 1, to, p);
    }
  }

  lemma RoundProposes(cfg: Config, round: RoundId)
    requires FullyLocal(cfg)
    ensures forall p :: p in RoundEntries(cfg, round).proposals ==>
      p.round == round && RoundProposal(cfg, round) == Some(p)
  {
    hide FullyLocal, RoundCommits, CommitRejections, ProofLogged, ProofRefused, RoundReceipts, Winner, HasDropped;
  }

  /** What a finalized run settled is the match of its final round. */
  lemma FinalProposalIsTheMatch(cfg: Config, log: Log, r: RoundId)
    requires FullyLocal(cfg) && r < cfg.maxRounds && Records(cfg, log, r + 1)
    requires LastProposal(log.proposals, r).Some?
    ensures Winner(cfg, r) == Some(LastProposal(log.proposals, r).value.provider)
  {
    hide FullyLocal, Span, Winner, LastProposal;
    SpanProposals(cfg, 0, r + 1, LastProposal(log.proposals, r).value);
  }

  /** Should round `r` be the one a run finalizes in, its winner has both key and seed, or neither. */
  ghost predicate WinnerPairAgrees(cfg: Config, r: RoundId)
    requires FullyLocal(cfg)
  {
    FirstToSettle(cfg, 0, r) ==> (CapableIsLive(cfg, r); PairAgrees(cfg, Winner(cfg, r).value))
  }

  /** Only the first round to settle has a say. */
  lemma FirstSettlingDecides(cfg: Config, f: RoundId)
    requires FullyLocal(cfg) && f < cfg.maxRounds && FirstToSettle(cfg, 0, f)
    requires Winner(cfg, f).Some? && Winner(cfg, f).value in cfg.agents
    ensures (forall r: RoundId :: r < cfg.maxRounds ==> WinnerPairAgrees(cfg, r))
            <==> PairAgrees(cfg, Winner(cfg, f).value)
  {
    assert ValidTopology(cfg.topology);
    hide FullyLocal, Settles, Winner, PairAgrees, ValidTopology, AgentsFit;
    forall r: RoundId | r < cfg.maxRounds && r != f ensures WinnerPairAgrees(cfg, r) {
      assert FirstToSettle(cfg, 0, r) ==> r <= f && f <= r;
    }
    assert WinnerPairAgrees(cfg, f) <==> PairAgrees(cfg, Winner(cfg, f).value);
  }

  lemma NoneDecides(cfg: Config)
    requires FullyLocal(cfg) && forall r: RoundId :: r < cfg.maxRounds ==> !Settles(cfg, r)
    ensures forall r: RoundId :: r < cfg.maxRounds ==> WinnerPairAgrees(cfg, r)
  {
    hide FullyLocal, Settles, Winner, PairAgrees;
  }

  /**
    An in-process log is valid exactly when, should some round within the bound settle, the provider
    matched in the first of them has a pinned key if and only if its agent has a seed.
   */
  lemma ValidIffWinnerPairAgrees(cfg: Config, runId: string)
    requires FullyLocal(cfg) && NoCollisions(cfg) && SigningLaw(cfg.crypto) && PairsMatch(cfg)
    ensures Run(cfg, InProcess, runId).Success?
    ensures Reasons(cfg.crypto, cfg.topology, Run(cfg, InProcess, runId).value.log) == []
            <==> forall r: RoundId :: r < cfg.maxRounds ==> WinnerPairAgrees(cfg, r)
  {
    hide FullyLocal, NoCollisions, SigningLaw, SignatureShape, PairsMatch, Run, Reasons, Records, Settles, Winner;
    hide LastProposal, PairAgrees, WinnerPairAgrees;
    assert SignatureShape(cfg.crypto) by { LawGivesShape(cfg.crypto); }
    RunIsExact(cfg, runId);
    ValidIffFinalPairAgrees(cfg, runId);
    var o := Run(cfg, InProcess, runId).value;
    if o.finalized {
      FinalProposalIsTheMatch(cfg, o.log, o.finalRound);
      FirstSettlingDecides(cfg, o.finalRound);
    } else {
      NoneDecides(cfg);
    }
  }
}
