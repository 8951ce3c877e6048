/** What the closed form of a run says about rounds, nodes and rejections, one by one. */
module Accounting {
  import opened Results
  import opened Protocol
  import opened Ordering
  import opened CoordinationLogs
  import opened Runs
  import opened CommitPhases
  import opened HonestCommitments
  import opened ExactCommits
  import opened ExactRounds
  import opened ExactRuns

  /** Finalizing in round `r` is being the first round to settle; aborting is that none does. */
  lemma FinalizesInFirstSettlingRound(cfg: Config, runId: string, r: RoundId)
    requires FullyLocal(cfg) && NoCollisions(cfg) && SignatureShape(cfg.crypto)
    ensures Run(cfg, InProcess, runId).Success?
    ensures var o := Run(cfg, InProcess, runId).value;
      && (o.finalized && o.finalRound == r <==> r < cfg.maxRounds && FirstToSettle(cfg, 0, r))
      && (o.log.abortReason == Some(MaxRoundsExceeded) <==> forall i: RoundId :: i < cfg.maxRounds ==> !Settles(cfg, i))
  {
    RunIsExact(cfg, runId);
    hide FullyLocal, NoCollisions, SignatureShape, Run, Settles, Records;
    var o := Run(cfg, InProcess, runId).value;
    if r < cfg.maxRounds && FirstToSettle(cfg, 0, r) && o.finalized {
      assert !(r < o.finalRound) && !(o.finalRound < r);
    }
  }

  // ---------------------------------------------------------------------
  // Entries by round
  // ---------------------------------------------------------------------

  lemma SpanStep(cfg: Config, from: nat, to: RoundId)
    requires FullyLocal(cfg) && from < to
    ensures var e, rest := RoundEntries(cfg, from), Span(cfg, from + 1, to);
      && Span(cfg, from, to).commitments == e.commitments + rest.commitments
      && Span(cfg, from, to).rejections == e.rejections + rest.rejections
  {
    hide FullyLocal, RoundEntries;
  }

  lemma RoundParts(cfg: Config, round: RoundId)
    requires FullyLocal(cfg)
    ensures RoundEntries(cfg, round).commitments == RoundCommits(cfg, round)
    ensures RoundEntries(cfg, round).rejections == CommitRejections(cfg, round) + MatchEntries(cfg, round).rejections
  {
    hide FullyLocal, RoundCommits, CommitRejections, MatchEntries;
    MatchAddsNoCommitment(cfg, round);
    assert RoundCommits(cfg, round) + [] == RoundCommits(cfg, round);
  }

  /** A live node's own commitment for its round. */
  ghost predicate IsLiveCommitment(cfg: Config, c: CommitmentRecord)
    requires FullyLocal(cfg)
  {
    IsLive(cfg, c.nodeId, c.round) && c == Own(cfg, c.nodeId, c.round)
  }

  lemma RoundCommitsMember(cfg: Config, round: RoundId, c: CommitmentRecord)
    requires FullyLocal(cfg)
    ensures c in RoundEntries(cfg, round).commitments <==> c.round == round && IsLiveCommitment(cfg, c)
  {
    hide FullyLocal, HasDropped, Own, Commits, BuildCommitment, Sound, RoundEntries;
    RoundParts(cfg, round);
    CommitsMembers(cfg, SortedKeys(cfg.agents.Keys), round);
  }

  lemma {:induction false} SpanCommitments(cfg: Config, from: nat, to: RoundId, c: CommitmentRecord)
    requires FullyLocal(cfg)
    ensures c in Span(cfg, from, to).commitments <==> from <= c.round < to && IsLiveCommitment(cfg, c)
    decreases if from < to then to - from else 0
  {
    hide FullyLocal, IsLiveCommitment, RoundEntries, Span;
    if from < to {
      SpanCommitments(cfg, from + 1, to, c);
      RoundCommitsMember(cfg, from, c);
      SpanStep(cfg, from, to);
    } else {
      SpanOfNothing(cfg, from, to);
    }
  }

  lemma MatchAddsNoCommitment(cfg: Config, round: RoundId)
    requires FullyLocal(cfg)
    ensures MatchEntries(cfg, round).commitments == []
  {
    hide HasDropped, RoundReceipts, ProofLogged, ProofRefused, TheProposer, Winner;
  }

  lemma SpanOfNothing(cfg: Config, from: nat, to: RoundId)
    requires FullyLocal(cfg) && from >= to
    ensures Span(cfg, from, to) == Entries([], [], [], [], [])
  {
  }

  /** In every round a run goes through, the commitments accepted are exactly the live nodes' own. */
  lemma EveryLiveNodeCommits(cfg: Config, runId: string, c: CommitmentRecord)
    requires FullyLocal(cfg) && NoCollisions(cfg) && SignatureShape(cfg.crypto)
    ensures Run(cfg, InProcess, runId).Success?
    ensures var o := Run(cfg, InProcess, runId).value;
      c in o.log.commitments <==> c.round < Executed(cfg, o) && IsLiveCommitment(cfg, c)
  {
    RunIsExact(cfg, runId);
    var o := Run(cfg, InProcess, runId).value;
    SpanCommitments(cfg, 0, Executed(cfg, o), c);
    hide FullyLocal, NoCollisions, SignatureShape, Run, Concludes, Span, IsLiveCommitment;
  }

  // ---------------------------------------------------------------------
  // Counting rejections
  // ---------------------------------------------------------------------

  function Tally(rs: seq<RejectionRecord>, r: RejectionRecord): nat {
    multiset(rs)[r]
  }

  lemma TallyConcat(a: seq<RejectionRecord>, b: seq<RejectionRecord>, r: RejectionRecord)
    ensures Tally(a + b, r) == Tally(a, r) + Tally(b, r)
  {
  }

  lemma {:induction false} TallyNotes(node: NodeId, round: RoundId, code: Code, n: nat, r: RejectionRecord)
    ensures Tally(Notes(node, round, code, n), r)
            == if r == RejectionRecord(round, node, CommitmentKind, code) then n else 0
  {
    if n > 0 {
      TallyNotes(node, round, code, n - 1, r);
      assert Notes(node, round, code, n)
          == Notes(node, round, code, n - 1) + [RejectionRecord(round, node, CommitmentKind, code)];
    } else {
      assert Notes(node, round, code, n) == [];
    }
  }

  lemma {:induction false} TallyDropped(cfg: Config, nodes: seq<NodeId>, round: RoundId, r: RejectionRecord)
    requires Distinct(nodes)
    ensures Tally(DroppedNotes(cfg, nodes, round), r) ==
      if r.nodeId in nodes && HasDropped(cfg.events, r.nodeId, round)
         && r == RejectionRecord(round, r.nodeId, CommitmentKind, NodeDropped) then 1 else 0
  {
    hide HasDropped;
    if nodes != [] {
      var rest := nodes[1..];
      assert nodes == [nodes[0]] + rest;
      DistinctTail(nodes[0], rest);
      TallyDropped(cfg, rest, round, r);
      TallyConcat(if HasDropped(cfg.events, nodes[0], round)
                  then [RejectionRecord(round, nodes[0], CommitmentKind, NodeDropped)]
                  else [], DroppedNotes(cfg, rest, round), r);
    }
  }

  /** The rejections one node's attacks leave in one commit phase. */
  function AttackTally(cfg: Config, round: RoundId, r: RejectionRecord): nat {
    if r == RejectionRecord(round, r.nodeId, CommitmentKind, CodeReplayDetected) then
      CountReplays(cfg.events, cfg.events, r.nodeId, round)
    else if r == RejectionRecord(round, r.nodeId, CommitmentKind, CodeDuplicateCommitment)
            && IsLive(cfg, r.nodeId, round) then
      CountDoubles(cfg.events, r.nodeId, round)
    else 0
  }

  lemma {:induction false} TallyAttacks(cfg: Config, nodes: seq<NodeId>, round: RoundId, r: RejectionRecord)
    requires Distinct(nodes)
    ensures Tally(CommitNotes(cfg, nodes, round), r) == if r.nodeId in nodes then AttackTally(cfg, round, r) else 0
  {
    hide HasDropped, CountReplays, CountDoubles;
    if nodes != [] {
      var node, rest := nodes[0], nodes[1..];
      assert nodes == [node] + rest;
      DistinctTail(node, rest);
      TallyAttacks(cfg, rest, round, r);
      var n, m := CountReplays(cfg.events, cfg.events, node, round), CountDoubles(cfg.events, node, round);
      TallyNotes(node, round, CodeReplayDetected, n, r);
      TallyNotes(node, round, CodeDuplicateCommitment, m, r);
      var a := Notes(node, round, CodeReplayDetected, n);
      var b := if IsLive(cfg, node, round) then Notes(node, round, CodeDuplicateCommitment, m) else [];
      TallyConcat(a, b, r);
      TallyConcat(a + b, CommitNotes(cfg, rest, round), r);
    }
  }

  /** How often the commit phase of its round raises the rejection `r`, per the scenario alone. */
  function CommitExpected(cfg: Config, r: RejectionRecord): nat {
    if r.kind != CommitmentKind || r.nodeId !in cfg.agents then 0
    else if r.code == NodeDropped then if HasDropped(cfg.events, r.nodeId, r.round) then 1 else 0
    else AttackTally(cfg, r.round, r)
  }

  /** How often the later phases of its round raise the rejection `r`. */
  ghost function MatchExpected(cfg: Config, r: RejectionRecord): nat
    requires ValidTopology(cfg.topology)
  {
    var q, p := TheRequester(cfg.topology).id, RoundProposal(cfg, r.round);
    if p.Some? then
      if && r.kind == ProofKind && r.code == PublicInputsMismatch
         && r.nodeId in {p.value.requester, p.value.provider} && ProofIsTampered(cfg.events, r.nodeId, r.round)
      then 1 else 0
    else if HasDropped(cfg.events, q, r.round) then
      if r == RejectionRecord(r.round, q, RoundKind, CodeRequesterMissing) then 1 else 0
    else
      var p := TheProposer(cfg.topology, r.round);
      if r == RejectionRecord(r.round, p, ProposalKind, NoFeasibleProvider) then 1 else 0
  }

  ghost function Expected(cfg: Config, r: RejectionRecord): nat
    requires ValidTopology(cfg.topology)
  {
    CommitExpected(cfg, r) + MatchExpected(cfg, r)
  }

  lemma TallyRefused(cfg: Config, id: NodeId, round: RoundId, r: RejectionRecord)
    ensures Tally(ProofRefused(cfg, id, round), r) ==
      var refused := RejectionRecord(round, id, ProofKind, PublicInputsMismatch);
      if ProofIsTampered(cfg.events, id, round) && r == refused then 1 else 0
  {
    hide ProofIsTampered;
  }

  lemma TallySole(x: RejectionRecord, r: RejectionRecord)
    ensures Tally([x], r) == if r == x then 1 else 0
  {
  }

  lemma TallyMade(cfg: Config, round: RoundId, r: RejectionRecord, p: ProposalRecord)
    requires FullyLocal(cfg) && RoundProposal(cfg, round) == Some(p)
    ensures Tally(MatchEntries(cfg, round).rejections, r) ==
      if r.round == round && r.kind == ProofKind && r.code == PublicInputsMismatch
         && r.nodeId in {p.requester, p.provider} && ProofIsTampered(cfg.events, r.nodeId, round) then 1 else 0
  {
    hide FullyLocal, ProofIsTampered, RoundProposal, MatchEntries, ProofRefused, Tally;
    MatchEntriesAre(cfg, round, p);
    Participants(cfg, round);
    TallyConcat(ProofRefused(cfg, p.requester, round), ProofRefused(cfg, p.provider, round), r);
    TallyRefused(cfg, p.requester, round, r);
    TallyRefused(cfg, p.provider, round, r);
  }

  lemma TallyUnmade(cfg: Config, round: RoundId, r: RejectionRecord)
    requires FullyLocal(cfg) && RoundProposal(cfg, round).None?
    ensures var q := TheRequester(cfg.topology).id;
      Tally(MatchEntries(cfg, round).rejections, r) ==
      if r == (if HasDropped(cfg.events, q, round) then RejectionRecord(round, q, RoundKind, CodeRequesterMissing)
               else RejectionRecord(round, TheProposer(cfg.topology, round), ProposalKind, NoFeasibleProvider))
      then 1 else 0
  {
    var q := TheRequester(cfg.topology).id;
    TallySole(RejectionRecord(round, q, RoundKind, CodeRequesterMissing), r);
    TallySole(RejectionRecord(round, TheProposer(cfg.topology, round), ProposalKind, NoFeasibleProvider), r);
    hide FullyLocal, HasDropped, TheProposer, TheRequester, RoundProposal, Tally;
  }

  lemma TallyMatch(cfg: Config, round: RoundId, r: RejectionRecord)
    requires FullyLocal(cfg)
    ensures Tally(MatchEntries(cfg, round).rejections, r) == if r.round == round then MatchExpected(cfg, r) else 0
  {
    hide HasDropped, ProofIsTampered, TheRequester, TheProposer, RoundProposal, MatchEntries, Tally;
    var p := RoundProposal(cfg, round);
    if p.Some? {
      TallyMade(cfg, round, r, p.value);
    } else {
      TallyUnmade(cfg, round, r);
    }
    hide FullyLocal;
  }

  lemma TallyCommit(cfg: Config, round: RoundId, r: RejectionRecord)
    requires FullyLocal(cfg)
    ensures Tally(CommitRejections(cfg, round), r) == if r.round == round then CommitExpected(cfg, r) else 0
  {
    hide FullyLocal, HasDropped, CountReplays, CountDoubles, DroppedNotes, CommitNotes, Tally, SortedKeys;
    var keys := SortedKeys(cfg.agents.Keys);
    TallyDropped(cfg, keys, round, r);
    TallyAttacks(cfg, keys, round, r);
    TallyConcat(DroppedNotes(cfg, keys, round), CommitNotes(cfg, keys, round), r);
  }

  lemma TallyRound(cfg: Config, round: RoundId, r: RejectionRecord)
    requires FullyLocal(cfg)
    ensures Tally(RoundEntries(cfg, round).rejections, r) == if r.round == round then Expected(cfg, r) else 0
  {
    hide FullyLocal, Tally, CommitExpected, MatchExpected, RoundEntries, MatchEntries, CommitRejections;
    RoundParts(cfg, round);
    TallyCommit(cfg, round, r);
    TallyMatch(cfg, round, r);
    TallyConcat(CommitRejections(cfg, round), MatchEntries(cfg, round).rejections, r);
  }

  lemma {:induction false} TallySpan(cfg: Config, from: nat, to: RoundId, r: RejectionRecord)
    requires FullyLocal(cfg)
    ensures Tally(Span(cfg, from, to).rejections, r) == if from <= r.round < to then Expected(cfg, r) else 0
    decreases if from < to then to - from else 0
  {
    hide FullyLocal, Tally, Expected, RoundEntries, Span;
    if from < to {
      TallySpan(cfg, from + 1, to, r);
      TallyRound(cfg, from, r);
      SpanStep(cfg, from, to);
      TallyConcat(RoundEntries(cfg, from).rejections, Span(cfg, from + 1, to).rejections, r);
    } else {
      SpanOfNothing(cfg, from, to);
      assert Tally([], r) == 0 by { TallyNone(r); }
    }
  }

  lemma TallyNone(r: RejectionRecord)
    ensures Tally([], r) == 0
  {
  }

  /**
    Every rejection stands on the log exactly as often as the scenario schedules it, and in rounds
    the run did not reach not at all.
   */
  lemma RejectionsAreAccounted(cfg: Config, runId: string, r: RejectionRecord)
    requires FullyLocal(cfg) && NoCollisions(cfg) && SignatureShape(cfg.crypto)
    ensures Run(cfg, InProcess, runId).Success?
    ensures var o := Run(cfg, InProcess, runId).value;
      multiset(o.log.rejections)[r] == if r.round < Executed(cfg, o) then Expected(cfg, r) else 0
  {
    RunIsExact(cfg, runId);
    var o := Run(cfg, InProcess, runId).value;
    TallySpan(cfg, 0, Executed(cfg, o), r);
    hide FullyLocal, NoCollisions, SignatureShape, Run, Concludes, Span, Expected;
  }
}
