/**
  Processes that hold different agents and run different scenarios, but drain the same segments,
  write the same public record.
 */
module Replicas {
  import opened Results
  import opened Protocol
  import opened Ordering
  import opened Matching
  import opened Proposer
  import opened RoundMachines
  import opened CoordinationLogs
  import opened Runs
  import opened Verifier
  import opened Coupling
  import opened Soundness
  import opened Observing

  /** Both transports hand over the same segment in every phase of every round, whatever is sent into them. */
  ghost predicate SameSegments(net: Network, net': Network) {
    forall round, phase, sent, sent' :: net.Deliver(round, phase, sent) == net'.Deliver(round, phase, sent')
  }

  /** What the processes share. */
  ghost predicate SameDeployment(cfg: Config, cfg': Config) {
    cfg.topology == cfg'.topology && cfg.maxRounds == cfg'.maxRounds && ValidTopology(cfg.topology)
  }

  // ---------------------------------------------------------------------
  // No candidate, no acceptable proposal
  // ---------------------------------------------------------------------

  /** A committed node with a requester's intent is the sole requester. */
  lemma RequesterIntentIsSole(t: Topology, c: CommitmentRecord)
    requires ValidTopology(t) && CommitmentLegit(t, c) && c.intent.RequesterIntent?
    ensures t.SoleRequester().Some? && t.SoleRequester().value.id == c.nodeId
  {
    RequesterIsSole(t, t.Find(c.nodeId).value);
  }

  /** The requester's commitment is fit for candidate formation, so that never errs. */
  lemma RequesterCommitmentFits(t: Topology, s: State, round: RoundId)
    requires ValidTopology(t) && InRound(t, s, round)
    requires t.SoleRequester().Some? && t.SoleRequester().value.id in s.machine.commitments
    ensures var c := s.machine.commitments[t.SoleRequester().value.id];
      && c.intent.RequesterIntent? && c.intent.round == round && c.intent.required.text != []
      && c.nodeId == t.SoleRequester().value.id
  {
    var n := t.SoleRequester().value;
    FindIsMember(t, n);
    var c := s.machine.commitments[n.id];
    assert c in s.log.commitments && Keyed(c, n.id, round);
    assert CommitmentLegit(t, c);
    hide RemembersHexes, AllBacked, HoldsProposal, AllEmbed, AllSigned, AllLabelled, KeysUnique, Before;
  }

  /** Whatever proposal the machine would accept, candidate formation finds a provider. */
  lemma AcceptableMeansDerivable(t: Topology, s: State, round: RoundId, p: ProposalRecord)
    requires ValidTopology(t) && InRound(t, s, round)
    requires AcceptProposal(t, s.machine, p).Success?
    ensures t.SoleRequester().Some? && p.requester == t.SoleRequester().value.id
    ensures p.requester in s.machine.commitments
    ensures var d := Derive(round, s.machine.commitments[p.requester], ProviderSnapshot(s.machine, p.requester));
      d.Success? && d.value.Some?
  {
    AcceptedProposal(t, s.machine, s.log.commitments, p);
    hide RemembersHexes, AllBacked, HoldsProposal, AllEmbed, AllSigned, AllLabelled, KeysUnique, Before,
         AcceptProposal, Derive, Backed, SortedKeys;
    var m := s.machine;
    var req, prov := m.commitments[p.requester], m.commitments[p.provider];
    assert req in s.log.commitments && prov in s.log.commitments;
    assert CommitmentLegit(t, req) && CommitmentLegit(t, prov);
    RequesterIntentIsSole(t, req);
    RequesterCommitmentFits(t, s, round);
    ProviderIsOther(t, m, s.log.commitments, p);
    OthersMembers(m.commitments, SortedKeys(m.commitments.Keys), p.requester, m.commitments[p.provider]);
    DeriveIsLeastMatch(round, req, ProviderSnapshot(m, p.requester));
    assert Feasible(req.intent, prov.intent, round);
  }

  lemma ProviderIsOther(t: Topology, m: Machine, cs: seq<CommitmentRecord>, p: ProposalRecord)
    requires AcceptProposal(t, m, p).Success?
    ensures p.provider in m.commitments && m.commitments[p.provider].intent.ProviderIntent?
    ensures p.requester in m.commitments && m.commitments[p.requester].intent.RequesterIntent?
    ensures p.requester != p.provider
  {
  }

  /** Nothing can be matched: candidate formation comes back empty-handed. */
  ghost predicate NothingToPropose(t: Topology, m: Machine, round: RoundId) {
    && t.SoleRequester().Some? && t.SoleRequester().value.id in m.commitments
    && var q := t.SoleRequester().value.id;
       Derive(round, m.commitments[q], ProviderSnapshot(m, q)) == Success(None)
  }

  lemma TakeRefusesProposals(t: Topology, s: State, round: RoundId, msg: Message)
    requires ValidTopology(t) && InRound(t, s, round) && NothingToPropose(t, s.machine, round)
    ensures SamePublic(s, Take(t, ProposePhase, s, round, msg))
  {
    hide InRound, AcceptProposal, Derive, ProviderSnapshot, CodeOf, TakeCommitment, TakeProof, TakeReceipt;
    if msg.payload.Proposal? {
      if AcceptProposal(t, s.machine, msg.payload.proposal).Success? {
        AcceptableMeansDerivable(t, s, round, msg.payload.proposal);
      }
    }
  }

  /** Then a replica that drains the propose phase accepts no proposal, whatever is delivered. */
  lemma {:induction false} DrainRefusesProposals(t: Topology, s: State, round: RoundId, msgs: seq<Message>)
    requires ValidTopology(t) && InRound(t, s, round) && NothingToPropose(t, s.machine, round)
    ensures SamePublic(s, Drain(t, ProposePhase, s, round, msgs))
    decreases |msgs|
  {
    hide InRound, Take, Derive, ProviderSnapshot;
    if msgs != [] {
      TakeRefusesProposals(t, s, round, msgs[0]);
      TakeKeepsCoupling(t, ProposePhase, s, round, msgs[0]);
      DrainRefusesProposals(t, Take(t, ProposePhase, s, round, msgs[0]), round, msgs[1..]);
    }
  }

  /** A process falls back early exactly when it speaks for the proposer and there is nothing to propose. */
  lemma EarlyFallback(cfg: Config, s: State, round: RoundId)
    requires ValidTopology(cfg.topology) && InRound(cfg.topology, s, round)
    requires cfg.topology.SoleRequester().Some? && cfg.topology.SoleRequester().value.id in s.machine.commitments
    ensures var turn := BroadcastProposal(cfg, s, round);
      && turn.Success? && SamePublic(s, turn.value.state)
      && ProposerOf(cfg.topology, round).Success?
      && (!turn.value.proceed <==> ProposerOf(cfg.topology, round).value in cfg.agents
                                   && NothingToPropose(cfg.topology, s.machine, round))
  {
    hide ValidTopology, Derive, ProviderSnapshot, ProposerOf, InRound, IsLeastMatch, Feasible;
    var q := cfg.topology.SoleRequester().value.id;
    RequesterCommitmentFits(cfg.topology, s, round);
    DeriveIsLeastMatch(round, s.machine.commitments[q], ProviderSnapshot(s.machine, q));
    ProposerExists(cfg.topology, round);
    InRoundCurrent(cfg.topology, s, round);
  }

  // ---------------------------------------------------------------------
  // One round
  // ---------------------------------------------------------------------

  lemma CommitRoundAgrees(cfg: Config, net: Network, s: State, cfg': Config, net': Network, s': State)
    requires SameDeployment(cfg, cfg') && SameSegments(net, net') && SamePublic(s, s')
    requires CommitRound(cfg, net, s, s.machine.current).Success?
    requires CommitRound(cfg', net', s', s.machine.current).Success?
    ensures SamePublic(CommitRound(cfg, net, s, s.machine.current).value,
                       CommitRound(cfg', net', s', s.machine.current).value)
  {
    hide Drain, Turns;
    var round := s.machine.current;
    var keys, keys' := SortedKeys(cfg.agents.Keys), SortedKeys(cfg'.agents.Keys);
    var sent, sent' := Turns(cfg, s, keys, round).value, Turns(cfg', s', keys', round).value;
    TurnsFrame(cfg, s, keys, round);
    TurnsFrame(cfg', s', keys', round);
    var msgs := net.Deliver(round, CommitPhase, sent.messages);
    assert net'.Deliver(round, CommitPhase, sent'.messages) == msgs;
    DrainSame(cfg.topology, CommitPhase, sent.state, sent'.state, round, msgs);
  }

  ghost predicate ResultsAgree(r: RoundResult, r': RoundResult) {
    SamePublic(r.state, r'.state) && r.finalized == r'.finalized
  }

  lemma ProveRoundAgrees(cfg: Config, net: Network, s: State, cfg': Config, net': Network, s': State,
                         round: RoundId, p: ProposalRecord)
    requires SameDeployment(cfg, cfg') && SameSegments(net, net') && SamePublic(s, s')
    requires ProveRound(cfg, net, s, round, p).Success? && ProveRound(cfg', net', s', round, p).Success?
    ensures ResultsAgree(ProveRound(cfg, net, s, round, p).value, ProveRound(cfg', net', s', round, p).value)
  {
    hide Drain, ProofMessages, ReceiptMessages, HasProof;
    var t, both := cfg.topology, [p.requester, p.provider];
    var sent := ProofMessages(cfg, s.machine, round, both).value;
    var sent' := ProofMessages(cfg', s'.machine, round, both).value;
    var msgs := net.Deliver(round, ProvePhase, sent);
    assert net'.Deliver(round, ProvePhase, sent') == msgs;
    DrainSame(t, ProvePhase, s, s', round, msgs);
    var d, d' := Drain(t, ProvePhase, s, round, msgs), Drain(t, ProvePhase, s', round, msgs);
    assert d.log.proofs == Public(d.log).proofs == d'.log.proofs;
    var receipts := net.Deliver(round, ReceiptPhase, ReceiptMessages(cfg, round, p));
    assert net'.Deliver(round, ReceiptPhase, ReceiptMessages(cfg', round, p)) == receipts;
    DrainSame(t, ReceiptPhase, d, d', round, receipts);
  }

  /** Where the machine holds no proposal the log has none for the round. */
  lemma NoneYet(t: Topology, s: State, round: RoundId)
    requires InRound(t, s, round) && s.machine.proposal.None?
    ensures LastProposal(s.log.proposals, round).None?
  {
    var p := LastProposal(s.log.proposals, round);
    hide CommitmentsLegit, HoldsRound, RemembersHexes, AllBacked, AllEmbed, AllSigned, AllLabelled, KeysUnique,
         Before, LastProposal;
  }

  /** A process that goes on when there is nothing to propose falls back all the same. */
  lemma LateFallback(cfg: Config, net: Network, s: State, round: RoundId)
    requires ValidTopology(cfg.topology) && InRound(cfg.topology, s, round) && s.machine.proposal.None?
    requires NothingToPropose(cfg.topology, s.machine, round)
    ensures var r := ProposeRound(cfg, net, s, round);
      r.Success? && !r.value.finalized && SamePublic(s, r.value.state)
  {
    hide InRound, NothingToPropose, Drain, BroadcastProposal, LastProposal, ProveRound;
    assert cfg.topology.SoleRequester().Some? && cfg.topology.SoleRequester().value.id in s.machine.commitments by {
      NothingHasRequester(cfg.topology, s.machine, round);
    }
    EarlyFallback(cfg, s, round);
    NoneYet(cfg.topology, s, round);
    var turn := BroadcastProposal(cfg, s, round).value;
    if turn.proceed {
      ProceedingKeeps(cfg, s, round);
      var msgs := net.Deliver(round, ProposePhase, turn.messages);
      DrainRefusesProposals(cfg.topology, s, round, msgs);
      var d := Drain(cfg.topology, ProposePhase, s, round, msgs);
      assert d.log.proposals == Public(d.log).proposals == s.log.proposals;
    }
  }

  lemma NothingHasRequester(t: Topology, m: Machine, round: RoundId)
    requires NothingToPropose(t, m, round)
    ensures t.SoleRequester().Some? && t.SoleRequester().value.id in m.commitments
  {
  }

  lemma ProceedingKeeps(cfg: Config, s: State, round: RoundId)
    requires BroadcastProposal(cfg, s, round).Success? && BroadcastProposal(cfg, s, round).value.proceed
    ensures BroadcastProposal(cfg, s, round).value.state == s
  {
    hide Derive, ProviderSnapshot, ProposerOf;
  }

  lemma ProposeRoundAgrees(cfg: Config, net: Network, s: State, cfg': Config, net': Network, s': State, round: RoundId)
    requires SameDeployment(cfg, cfg') && SameSegments(net, net') && SamePublic(s, s')
    requires InRound(cfg.topology, s, round) && InRound(cfg.topology, s', round) && s.machine.proposal.None?
    requires cfg.topology.SoleRequester().Some? && cfg.topology.SoleRequester().value.id in s.machine.commitments
    requires ProposeRound(cfg, net, s, round).Success? && ProposeRound(cfg', net', s', round).Success?
    ensures ResultsAgree(ProposeRound(cfg, net, s, round).value, ProposeRound(cfg', net', s', round).value)
  {
    hide InRound, NothingToPropose, Drain, BroadcastProposal, LastProposal, ProveRound;
    var t := cfg.topology;
    EarlyFallback(cfg, s, round);
    EarlyFallback(cfg', s', round);
    var turn, turn' := BroadcastProposal(cfg, s, round).value, BroadcastProposal(cfg', s', round).value;
    if !turn.proceed || !turn'.proceed {
      LateFallback(cfg, net, s, round);
      LateFallback(cfg', net', s', round);
    } else {
      ProceedingKeeps(cfg, s, round);
      ProceedingKeeps(cfg', s', round);
      var msgs := net.Deliver(round, ProposePhase, turn.messages);
      assert net'.Deliver(round, ProposePhase, turn'.messages) == msgs;
      DrainSame(t, ProposePhase, s, s', round, msgs);
      var d, d' := Drain(t, ProposePhase, s, round, msgs), Drain(t, ProposePhase, s', round, msgs);
      assert d.log.proposals == Public(d.log).proposals == d'.log.proposals;
      var p := LastProposal(d.log.proposals, round);
      if p.Some? {
        ProveRoundAgrees(cfg, net, d, cfg', net', d', round, p.value);
      }
    }
  }

  lemma RunRoundAgrees(cfg: Config, net: Network, s: State, cfg': Config, net': Network, s': State)
    requires SameDeployment(cfg, cfg') && SameSegments(net, net') && SamePublic(s, s')
    requires AtRoundStart(cfg.topology, s) && AtRoundStart(cfg.topology, s')
    requires RunRound(cfg, net, s).Success? && RunRound(cfg', net', s').Success?
    ensures ResultsAgree(RunRound(cfg, net, s).value, RunRound(cfg', net', s').value)
  {
    hide CommitRound, ProposeRound, InRound, AtRoundStart, SameSegments;
    var round := s.machine.current;
    CommitRoundAgrees(cfg, net, s, cfg', net', s');
    CommitRoundCouples(cfg, net, s);
    CommitRoundCouples(cfg', net', s');
    var c, c' := CommitRound(cfg, net, s, round).value, CommitRound(cfg', net', s', round).value;
    if cfg.topology.SoleRequester().value.id in c.machine.commitments {
      ProposeRoundAgrees(cfg, net, c, cfg', net', c', round);
    }
  }

  // ---------------------------------------------------------------------
  // Whole runs
  // ---------------------------------------------------------------------

  ghost predicate EndingsAgree(e: Ending, e': Ending) {
    SamePublic(e.state, e'.state) && e.finalRound == e'.finalRound && e.finalized == e'.finalized
  }

  lemma FallbackAgrees(s: State, s': State)
    requires SamePublic(s, s') && Fallback(s).Success? && Fallback(s').Success?
    ensures SamePublic(Fallback(s).value, Fallback(s').value)
  {
  }

  lemma {:induction false} RoundsAgree(cfg: Config, net: Network, s: State, cfg': Config, net': Network, s': State,
                                       finalRound: RoundId, left: nat)
    requires SameDeployment(cfg, cfg') && SameSegments(net, net') && SamePublic(s, s')
    requires AtRoundStart(cfg.topology, s) && AtRoundStart(cfg.topology, s')
    requires Rounds(cfg, net, s, finalRound, left).Success? && Rounds(cfg', net', s', finalRound, left).Success?
    ensures EndingsAgree(Rounds(cfg, net, s, finalRound, left).value, Rounds(cfg', net', s', finalRound, left).value)
    decreases left
  {
    hide RunRound, AtRoundStart, InRound, SameSegments, Fallback, Proved;
    if left > 0 {
      var round := s.machine.current;
      RunRoundAgrees(cfg, net, s, cfg', net', s');
      var r, r' := RunRound(cfg, net, s).value, RunRound(cfg', net', s').value;
      if !r.finalized {
        RunRoundCouples(cfg, net, s);
        RunRoundCouples(cfg', net', s');
        FallbackCouples(cfg.topology, r.state, round);
        FallbackCouples(cfg.topology, r'.state, round);
        FallbackAgrees(r.state, r'.state);
        RoundsAgree(cfg, net, Fallback(r.state).value, cfg', net', Fallback(r'.state).value, round, left - 1);
      }
    }
  }

  /**
    Two processes of one deployment, each with its own agents and its own scenario, that are handed
    the same segment in every phase write the same public record, and end in the same round with the
    same verdict. Only their rejections may differ, and any verifier reports the same on both logs.
   */
  lemma ReplicasAgree(cfg: Config, net: Network, cfg': Config, net': Network, runId: string)
    requires SameDeployment(cfg, cfg') && SameSegments(net, net')
    requires Run(cfg, net, runId).Success? && Run(cfg', net', runId).Success?
    ensures var o, o' := Run(cfg, net, runId).value, Run(cfg', net', runId).value;
      && o.log.commitments == o'.log.commitments && o.log.proposals == o'.log.proposals
      && o.log.proofs == o'.log.proofs && o.log.receipts == o'.log.receipts
      && Public(o.log) == Public(o'.log)
      && o.finalized == o'.finalized && o.finalRound == o'.finalRound
      && forall c :: Reasons(c, cfg.topology, o.log) == Reasons(c, cfg.topology, o'.log)
  {
    PublicRecordsAgree(cfg, net, cfg', net', runId);
    hide Run, SameSegments, ValidTopology, Reasons;
    forall c
      ensures Reasons(c, cfg.topology, Run(cfg, net, runId).value.log)
           == Reasons(c, cfg.topology, Run(cfg', net', runId).value.log)
    {
      SameRecordSameReport(c, cfg, net, cfg', net', runId);
    }
  }

  lemma PublicRecordsAgree(cfg: Config, net: Network, cfg': Config, net': Network, runId: string)
    requires SameDeployment(cfg, cfg') && SameSegments(net, net')
    requires Run(cfg, net, runId).Success? && Run(cfg', net', runId).Success?
    ensures var o, o' := Run(cfg, net, runId).value, Run(cfg', net', runId).value;
      Public(o.log) == Public(o'.log) && o.finalized == o'.finalized && o.finalRound == o'.finalRound
  {
    hide Rounds, AtRoundStart, SameSegments, ConfigRefusal, ValidTopology;
    InitialIsStart(cfg.topology, runId);
    RoundsAgree(cfg, net, Initial(runId), cfg', net', Initial(runId), 0, cfg.maxRounds);
    var e := Rounds(cfg, net, Initial(runId), 0, cfg.maxRounds).value;
    var e' := Rounds(cfg', net', Initial(runId), 0, cfg'.maxRounds).value;
    ConcludingAgrees(e, e');
  }

  lemma ConcludingAgrees(e: Ending, e': Ending)
    requires EndingsAgree(e, e')
    ensures Public(Conclude(e).log) == Public(Conclude(e').log)
    ensures Conclude(e).finalized == Conclude(e').finalized && Conclude(e).finalRound == Conclude(e').finalRound
  {
    var a, b := e.state.log, e'.state.log;
    assert Public(a).runId == Public(b).runId;
  }
}
