/**
  What a fully local run does, said of the scenario's own events and the topology's own nodes: who is
  silent when, which round settles, what is rejected how often.
 */
module Schedules {
  import opened Results
  import opened Bytes
  import opened Protocol
  import opened Ordering
  import opened Proposer
  import opened CoordinationLogs
  import opened Artifacts
  import opened Runs
  import opened Verifier
  import opened Completeness
  import opened CommitPhases
  import opened HonestCommitments
  import opened ExactCommits
  import opened ExactRounds
  import opened ExactRuns
  import opened Accounting

  // ---------------------------------------------------------------------
  // Who is silent when
  // ---------------------------------------------------------------------

  /** A node is silent in the rounds after one it is dropped after, and in no other. */
  ghost predicate Silent(events: seq<Event>, node: NodeId, round: RoundId) {
    exists a: U64 :: DropNode(node, a) in events && a < round
  }

  lemma SilentIff(events: seq<Event>, node: NodeId, round: RoundId)
    ensures Silent(events, node, round) <==> HasDropped(events, node, round)
  {
    if e :| e in events && e.DropNode? && e.node == node && round > e.afterRound {
      assert DropNode(node, e.afterRound) in events;
    }
  }

  lemma LiveCommitmentExists(cfg: Config, n: NodeId, r: RoundId)
    requires FullyLocal(cfg) && n in cfg.agents
    ensures (exists c :: IsLiveCommitment(cfg, c) && c.nodeId == n && c.round == r) <==> !HasDropped(cfg.events, n, r)
  {
    hide FullyLocal, HasDropped, BuildCommitment, Sound;
    var own := Own(cfg, n, r);
    assert own.nodeId == n && own.round == r;
  }

  /** In the executed rounds a node's commitment is logged up to the round it is dropped after, and no longer. */
  lemma CommitsUntilDropped(cfg: Config, runId: string, n: NodeId, r: RoundId)
    requires FullyLocal(cfg) && NoCollisions(cfg) && SignatureShape(cfg.crypto) && n in cfg.agents
    ensures Run(cfg, InProcess, runId).Success?
    ensures var o := Run(cfg, InProcess, runId).value;
      (exists c :: c in o.log.commitments && c.nodeId == n && c.round == r) <==>
      r < Executed(cfg, o) && forall a: U64 :: DropNode(n, a) in cfg.events ==> r <= a
  {
    hide FullyLocal, NoCollisions, SignatureShape, Run, HasDropped, Executed, IsLiveCommitment, Concludes, Records;
    RunIsExact(cfg, runId);
    SilentIff(cfg.events, n, r);
    LiveCommitmentExists(cfg, n, r);
    var o := Run(cfg, InProcess, runId).value;
    forall c ensures c in o.log.commitments <==> c.round < Executed(cfg, o) && IsLiveCommitment(cfg, c) {
      EveryLiveNodeCommits(cfg, runId, c);
    }
  }

  // ---------------------------------------------------------------------
  // Which round settles
  // ---------------------------------------------------------------------

  /** The provider could serve: it claims what is needed and is not silent. */
  ghost predicate CouldServe(cfg: Config, tag: CapabilityTag, id: NodeId, round: RoundId) {
    && !Silent(cfg.events, id, round)
    && exists n :: n in cfg.topology.nodes && n.id == id && n.role == Provider && tag in n.claims
  }

  /** The requester and the least provider that could serve it, neither silent. */
  ghost predicate Pairs(cfg: Config, q: NodeConfig, w: NodeId, round: RoundId) {
    && q in cfg.topology.nodes && q.role == Requester && q.required.Some?
    && !Silent(cfg.events, q.id, round)
    && CouldServe(cfg, q.required.value, w, round)
    && forall id :: CouldServe(cfg, q.required.value, id, round) ==> Leq(w, id)
  }

  /** A pair is formed and neither side's proof is spoilt. */
  ghost predicate SettlesAsScheduled(cfg: Config, round: RoundId) {
    exists q, w :: Pairs(cfg, q, w, round)
                   && InjectInvalidProof(q.id, round) !in cfg.events && InjectInvalidProof(w, round) !in cfg.events
  }

  lemma CapableIff(cfg: Config, id: NodeId, round: RoundId)
    requires FullyLocal(cfg)
    ensures id in Capable(cfg, round) <==> CouldServe(cfg, TheRequester(cfg.topology).required.value, id, round)
  {
    hide FullyLocal, HasDropped, TheRequester;
    SilentIff(cfg.events, id, round);
  }

  lemma PairIff(cfg: Config, q: NodeConfig, w: NodeId, round: RoundId)
    requires FullyLocal(cfg)
    ensures Pairs(cfg, q, w, round) <==>
            q == TheRequester(cfg.topology) && !HasDropped(cfg.events, q.id, round) && Winner(cfg, round) == Some(w)
  {
    hide FullyLocal, HasDropped, TheRequester, Silent, CouldServe, Leq, Capable;
    assert ValidTopology(cfg.topology) by { LocalIsValid(cfg); }
    SilentIff(cfg.events, q.id, round);
    RequesterIs(cfg, q);
    hide ValidTopology;
    forall id
      ensures id in Capable(cfg, round) <==> CouldServe(cfg, TheRequester(cfg.topology).required.value, id, round)
    {
      CapableIff(cfg, id, round);
    }
    if Winner(cfg, round).Some? && Pairs(cfg, q, w, round) {
      LeastUnique(Capable(cfg, round), w, Winner(cfg, round).value);
    }
  }

  lemma RequesterIs(cfg: Config, q: NodeConfig)
    requires FullyLocal(cfg)
    ensures q in cfg.topology.nodes && q.role == Requester <==> q == TheRequester(cfg.topology)
  {
    if q in cfg.topology.nodes && q.role == Requester {
      RequesterIsSole(cfg.topology, q);
    }
    hide FullyLocal;
  }

  lemma SettlesIffScheduled(cfg: Config, round: RoundId)
    requires FullyLocal(cfg)
    ensures Settles(cfg, round) <==> SettlesAsScheduled(cfg, round)
  {
    hide FullyLocal, HasDropped, TheRequester, Winner, Pairs;
    assert ValidTopology(cfg.topology) by { LocalIsValid(cfg); }
    forall q, w
      ensures Pairs(cfg, q, w, round) <==>
        q == TheRequester(cfg.topology) && !HasDropped(cfg.events, q.id, round) && Winner(cfg, round) == Some(w)
    {
      PairIff(cfg, q, w, round);
    }
    if Settles(cfg, round) {
      assert Pairs(cfg, TheRequester(cfg.topology), Winner(cfg, round).value, round);
    }
  }

  lemma LocalIsValid(cfg: Config)
    requires FullyLocal(cfg)
    ensures ValidTopology(cfg.topology)
  {
  }

  /** The finalizing round is the first the scenario lets settle; the run aborts when there is none below its bound. */
  lemma FinalizesAsScheduled(cfg: Config, runId: string, r: RoundId)
    requires FullyLocal(cfg) && NoCollisions(cfg) && SignatureShape(cfg.crypto)
    ensures Run(cfg, InProcess, runId).Success?
    ensures var o := Run(cfg, InProcess, runId).value;
      && (o.finalized && o.finalRound == r <==>
            && r < cfg.maxRounds && SettlesAsScheduled(cfg, r)
            && forall i: RoundId :: i < r ==> !SettlesAsScheduled(cfg, i))
      && (o.log.abortReason == Some(MaxRoundsExceeded) <==>
            forall i: RoundId :: i < cfg.maxRounds ==> !SettlesAsScheduled(cfg, i))
  {
    hide FullyLocal, NoCollisions, SignatureShape, Run, SettlesAsScheduled, Settles;
    assert ValidTopology(cfg.topology) by { LocalIsValid(cfg); }
    FinalizesInFirstSettlingRound(cfg, runId, r);
    forall i: RoundId ensures Settles(cfg, i) <==> SettlesAsScheduled(cfg, i) {
      SettlesIffScheduled(cfg, i);
    }
  }

  // ---------------------------------------------------------------------
  // What is rejected how often
  // ---------------------------------------------------------------------

  /** Event `i` replays in `round` a commitment that `node` made in an earlier round. */
  ghost predicate Lands(events: seq<Event>, i: nat, node: NodeId, round: RoundId)
    requires i < |events|
  {
    && events[i].ReplayPriorCommitment? && events[i].node == node && events[i].round == round
    && events[i].fromRound < round && !Silent(events, node, events[i].fromRound)
  }

  ghost function Landing(events: seq<Event>, k: nat, node: NodeId, round: RoundId): set<nat> {
    set i: nat | k <= i < |events| && Lands(events, i, node, round)
  }

  lemma {:induction false} ReplaysByIndex(events: seq<Event>, k: nat, node: NodeId, round: RoundId)
    requires k <= |events|
    ensures CountReplays(events, events[k..], node, round) == |Landing(events, k, node, round)|
    decreases |events| - k
  {
    hide HasDropped, Silent;
    if k == |events| {
      assert Landing(events, k, node, round) == {};
    } else {
      ReplaysByIndex(events, k + 1, node, round);
      assert events[k..][0] == events[k] && events[k..][1..] == events[k + 1..];
      if events[k].ReplayPriorCommitment? {
        SilentIff(events, node, events[k].fromRound);
      }
      var more := Landing(events, k + 1, node, round);
      assert Landing(events, k, node, round) == if Lands(events, k, node, round) then {k} + more else more;
    }
  }

  lemma {:induction false} DoublesByMultiset(events: seq<Event>, node: NodeId, round: RoundId)
    ensures CountDoubles(events, node, round) == multiset(events)[DoubleCommit(node, round)]
  {
    if events != [] {
      DoublesByMultiset(events[1..], node, round);
      assert events == [events[0]] + events[1..];
    }
  }

  /** The node is one side of the pair formed in `round`. */
  ghost predicate IsPaired(cfg: Config, n: NodeId, round: RoundId) {
    exists q, w :: Pairs(cfg, q, w, round) && (n == q.id || n == w)
  }

  ghost predicate IsSilentRequester(cfg: Config, n: NodeId, round: RoundId) {
    exists q :: q in cfg.topology.nodes && q.role == Requester && q.id == n && Silent(cfg.events, n, round)
  }

  /** The requester asks, and nobody could serve. */
  ghost predicate NobodyServes(cfg: Config, round: RoundId) {
    && (exists q :: q in cfg.topology.nodes && q.role == Requester && !Silent(cfg.events, q.id, round))
    && (forall q, w :: !Pairs(cfg, q, w, round))
  }

  /** How often the scenario has `r` rejected. */
  ghost function Scheduled(cfg: Config, r: RejectionRecord): nat {
    if r.kind == CommitmentKind then if r.nodeId in cfg.agents then AttacksScheduled(cfg.events, r) else 0
    else if MissScheduled(cfg, r) then 1
    else 0
  }

  ghost function AttacksScheduled(events: seq<Event>, r: RejectionRecord): nat {
    var silent := Silent(events, r.nodeId, r.round);
    match r.code
    case NodeDropped => if silent then 1 else 0
    case CodeDuplicateCommitment => if silent then 0 else multiset(events)[DoubleCommit(r.nodeId, r.round)]
    case CodeReplayDetected => |Landing(events, 0, r.nodeId, r.round)|
    case _ => 0
  }

  /** A spoilt proof, a silent requester, or nobody to serve it. */
  ghost predicate MissScheduled(cfg: Config, r: RejectionRecord) {
    match r.kind
    case ProofKind =>
      && r.code == PublicInputsMismatch
      && InjectInvalidProof(r.nodeId, r.round) in cfg.events && IsPaired(cfg, r.nodeId, r.round)
    case RoundKind => r.code == CodeRequesterMissing && IsSilentRequester(cfg, r.nodeId, r.round)
    case ProposalKind =>
      && r.code == NoFeasibleProvider
      && ProposerOf(cfg.topology, r.round) == Success(r.nodeId) && NobodyServes(cfg, r.round)
    case _ => false
  }

  lemma CommitExpectedIs(cfg: Config, r: RejectionRecord)
    requires r.kind == CommitmentKind
    ensures CommitExpected(cfg, r) == Scheduled(cfg, r)
  {
    hide HasDropped, Silent, Landing;
    SilentIff(cfg.events, r.nodeId, r.round);
    DoublesByMultiset(cfg.events, r.nodeId, r.round);
    ReplaysByIndex(cfg.events, 0, r.nodeId, r.round);
    assert cfg.events[0..] == cfg.events;
  }

  lemma PairingIs(cfg: Config, n: NodeId, round: RoundId)
    requires FullyLocal(cfg)
    ensures var q, w := TheRequester(cfg.topology), Winner(cfg, round);
      && (IsPaired(cfg, n, round) <==> !HasDropped(cfg.events, q.id, round) && w.Some? && (n == q.id || n == w.value))
      && (IsSilentRequester(cfg, n, round) <==> n == q.id && HasDropped(cfg.events, q.id, round))
      && (NobodyServes(cfg, round) <==> !HasDropped(cfg.events, q.id, round) && w.None?)
  {
    hide FullyLocal, HasDropped, TheRequester, Winner, Pairs, Silent, ValidTopology;
    assert ValidTopology(cfg.topology) by { LocalIsValid(cfg); }
    var q, w := TheRequester(cfg.topology), Winner(cfg, round);
    forall x | x in cfg.topology.nodes && x.role == Requester ensures x == q {
      RequesterIsSole(cfg.topology, x);
    }
    SilentIff(cfg.events, q.id, round);
    forall x, y
      ensures Pairs(cfg, x, y, round) <==> x == q && !HasDropped(cfg.events, x.id, round) && w == Some(y)
    {
      PairIff(cfg, x, y, round);
    }
    if w.Some? && !HasDropped(cfg.events, q.id, round) {
      assert Pairs(cfg, q, w.value, round);
    }
  }

  lemma MatchExpectedIs(cfg: Config, r: RejectionRecord)
    requires FullyLocal(cfg)
    ensures MatchExpected(cfg, r) == if r.kind == CommitmentKind then 0 else Scheduled(cfg, r)
  {
    hide FullyLocal, HasDropped, TheRequester, TheProposer, Winner, IsPaired, IsSilentRequester, NobodyServes;
    hide ValidTopology, RoundProposal, ProposerOf;
    assert ValidTopology(cfg.topology) by { LocalIsValid(cfg); }
    PairingIs(cfg, r.nodeId, r.round);
    ProposalFormedIff(cfg, r.round);
    ProposerIs(cfg, r.round);
    if RoundProposal(cfg, r.round).Some? {
      Participants(cfg, r.round);
    }
  }

  lemma ProposalFormedIff(cfg: Config, round: RoundId)
    requires FullyLocal(cfg)
    ensures RoundProposal(cfg, round).Some? <==>
            !HasDropped(cfg.events, TheRequester(cfg.topology).id, round) && Winner(cfg, round).Some?
  {
    hide FullyLocal, HasDropped, TheRequester, Winner;
  }

  lemma ProposerIs(cfg: Config, round: RoundId)
    requires FullyLocal(cfg)
    ensures ProposerOf(cfg.topology, round) == Success(TheProposer(cfg.topology, round))
  {
  }

  /** Every possible rejection is on the log as often as the scenario schedules it in the rounds that ran. */
  lemma RejectionsAsScheduled(cfg: Config, runId: string, r: RejectionRecord)
    requires FullyLocal(cfg) && NoCollisions(cfg) && SignatureShape(cfg.crypto)
    ensures Run(cfg, InProcess, runId).Success?
    ensures var o := Run(cfg, InProcess, runId).value;
      multiset(o.log.rejections)[r] == if r.round < Executed(cfg, o) then Scheduled(cfg, r) else 0
  {
    hide FullyLocal, NoCollisions, SignatureShape, Run, Scheduled, MatchExpected, CommitExpected, Executed;
    assert ValidTopology(cfg.topology) by { LocalIsValid(cfg); }
    RejectionsAreAccounted(cfg, runId, r);
    MatchExpectedIs(cfg, r);
    if r.kind == CommitmentKind {
      CommitExpectedIs(cfg, r);
    } else {
      OnlyCommitments(cfg, r);
    }
  }

  lemma OnlyCommitments(cfg: Config, r: RejectionRecord)
    requires r.kind != CommitmentKind
    ensures CommitExpected(cfg, r) == 0
  {
  }
}
