/**
  Rounds are bounded and runs do not break down: over any transport a run counts its rounds exactly,
  and fails only where an agent's commitment cannot be built.
 */
module Bounds {
  import opened Results
  import opened Bytes
  import opened Protocol
  import opened Ordering
  import opened Matching
  import opened Proposer
  import opened RoundMachines
  import opened CoordinationLogs
  import opened Artifacts
  import opened Preimages
  import opened Runs
  import opened Verifier
  import opened Coupling
  import opened CommitPhases
  import opened Replicas

  // ---------------------------------------------------------------------
  // Counting rounds
  // ---------------------------------------------------------------------

  /** How the round counter ends after up to `left` rounds from round `start`. */
  ghost predicate Counted(e: Ending, start: RoundId, finalRound: RoundId, left: nat) {
    if e.finalized then e.state.machine.current == e.finalRound && start <= e.finalRound < start + left
    else e.state.machine.current == start + left && e.finalRound == if left == 0 then finalRound else start + left - 1
  }

  lemma {:induction false} RoundsCounted(cfg: Config, net: Network, s: State, finalRound: RoundId, left: nat)
    requires AtRoundStart(cfg.topology, s) && Rounds(cfg, net, s, finalRound, left).Success?
    ensures Counted(Rounds(cfg, net, s, finalRound, left).value, s.machine.current, finalRound, left)
    decreases left
  {
    hide AtRoundStart, RunRound, Fallback, InRound, Proved, ClosingUntouched, ReceiptsOf;
    if left > 0 {
      RunRoundCouples(cfg, net, s);
      var result := RunRound(cfg, net, s).value;
      InRoundCurrent(cfg.topology, result.state, s.machine.current);
      if !result.finalized {
        FallbackCouples(cfg.topology, result.state, s.machine.current);
        RoundsCounted(cfg, net, Fallback(result.state).value, s.machine.current, left - 1);
      }
    }
  }

  /**
    An unfinalized run has gone through every round it was allowed; a finalized one stopped inside
    the bound. One snapshot is kept per fallback, no record is of a later round than the final one,
    and receipts are of the final round of a finalized run only.
   */
  lemma RunIsBounded(cfg: Config, net: Network, runId: string)
    requires Run(cfg, net, runId).Success?
    ensures var e, o := Rounds(cfg, net, Initial(runId), 0, cfg.maxRounds), Run(cfg, net, runId).value;
      && e.Success? && o == Conclude(e.value)
      && |e.value.state.machine.past| == e.value.state.machine.current
      && (if o.finalized then e.value.state.machine.current == o.finalRound < cfg.maxRounds
          else && e.value.state.machine.current == cfg.maxRounds
               && o.finalRound == if cfg.maxRounds == 0 then 0 else cfg.maxRounds - 1)
      && Before(o.log, o.finalRound + 1)
      && (o.log.receipts != [] ==> o.finalized)
      && (forall r :: r in o.log.receipts ==> r.round == o.finalRound)
  {
    hide Rounds, ConfigRefusal, AtRoundStart, Before, Proved;
    InitialIsStart(cfg.topology, runId);
    RoundsCounted(cfg, net, Initial(runId), 0, cfg.maxRounds);
    RunCouples(cfg, net, runId);
    var e := Rounds(cfg, net, Initial(runId), 0, cfg.maxRounds).value;
    PastIsCounted(cfg.topology, e.state);
    BeforeIgnoresClosing(e.state.log, Conclude(e).log, e.finalRound + 1);
  }

  /** How a log is closed, over any transport: its run, its verdict, and a reason exactly when it aborted. */
  lemma RunCloses(cfg: Config, net: Network, runId: string)
    requires Run(cfg, net, runId).Success?
    ensures var o := Run(cfg, net, runId).value;
      && o.log.runId == runId && o.log.schemaVersion == 1
      && o.log.finalized == o.finalized && o.log.finalRound == o.finalRound
      && o.log.abortReason == if o.finalized then None else Some(MaxRoundsExceeded)
  {
    hide Rounds, ConfigRefusal, AtRoundStart, Coupled, Before, Proved;
    InitialIsStart(cfg.topology, runId);
    assert Before(Initial(runId).log, 1) by { NothingBefore(runId); }
    RoundsCouple(cfg, net, Initial(runId), 0, cfg.maxRounds);
    CoupledSchema(cfg.topology, Rounds(cfg, net, Initial(runId), 0, cfg.maxRounds).value.state);
  }

  lemma NothingBefore(runId: string)
    ensures Before(Initial(runId).log, 1)
  {
  }

  lemma CoupledSchema(t: Topology, s: State)
    requires Coupled(t, s.machine, s.log)
    ensures s.log.schemaVersion == 1
  {
    hide KeysUnique, CommitmentsLegit, HoldsRound, RemembersHexes, AllBacked, HoldsProposal, AllEmbed, AllSigned;
    hide AllLabelled, Archived;
  }

  /**
    Over any transport, the machine's past holds every round it left: round `i` under index `i`, with
    exactly the logged commitments of that round, each under its own node, and the logged proposal
    of that round, if there is one.
   */
  lemma RunArchives(cfg: Config, net: Network, runId: string, i: RoundId)
    requires Run(cfg, net, runId).Success?
    ensures Rounds(cfg, net, Initial(runId), 0, cfg.maxRounds).Success?
    ensures var m := Rounds(cfg, net, Initial(runId), 0, cfg.maxRounds).value.state.machine;
      var log := Run(cfg, net, runId).value.log;
      && |m.past| == m.current
      && (i < |m.past| ==>
            && m.past[i].round == i
            && (forall c :: c in m.past[i].commitments.Values <==> c in log.commitments && c.round == i)
            && (forall id :: id in m.past[i].commitments ==> m.past[i].commitments[id].nodeId == id)
            && (forall p :: m.past[i].proposal == Some(p) <==> p in log.proposals && p.round == i))
  {
    hide Rounds, ConfigRefusal;
    RunCouples(cfg, net, runId);
    var s := Rounds(cfg, net, Initial(runId), 0, cfg.maxRounds).value.state;
    PastIsCounted(cfg.topology, s);
    if i < |s.machine.past| {
      ArchiveOf(cfg.topology, s, i);
    }
    hide Coupled;
  }

  lemma ArchiveOf(t: Topology, s: State, i: RoundId)
    requires Coupled(t, s.machine, s.log) && i < |s.machine.past|
    ensures var f := s.machine.past[i];
      && f.round == i
      && (forall c :: c in f.commitments.Values <==> c in s.log.commitments && c.round == i)
      && (forall id :: id in f.commitments ==> f.commitments[id].nodeId == id)
      && (forall p :: f.proposal == Some(p) <==> p in s.log.proposals && p.round == i)
  {
    hide KeysUnique, CommitmentsLegit, RemembersHexes, AllBacked, HoldsProposal, AllEmbed, AllSigned, AllLabelled;
    var f := s.machine.past[i];
    assert Archives(f, s.log.commitments, s.log.proposals);
    forall c ensures c in f.commitments.Values <==> c in s.log.commitments && c.round == i {
      if c in s.log.commitments && c.round == i {
        assert f.commitments[c.nodeId] == c;
      }
    }
  }

  lemma PastIsCounted(t: Topology, s: State)
    requires Coupled(t, s.machine, s.log)
    ensures |s.machine.past| == s.machine.current
  {
  }

  lemma BeforeIgnoresClosing(log: Log, log': Log, bound: nat)
    requires Before(log, bound)
    requires log' == log.(finalRound := log'.finalRound, finalized := log'.finalized, abortReason := log'.abortReason)
    ensures Before(log', bound)
  {
  }

  // ---------------------------------------------------------------------
  // What can go wrong
  // ---------------------------------------------------------------------

  /** An agent cannot commit: it lacks its private intent, or its tags do not fit the layout. */
  predicate CannotCommit(e: RuntimeError) {
    e.MissingPrivateIntent? || e.CommitmentFailed?
  }

  lemma BuildFailure(cfg: Config, node: NodeId, round: RoundId)
    requires AgentsFit(cfg) && BuildCommitment(cfg, node, round).Failure?
    ensures CannotCommit(BuildCommitment(cfg, node, round).error)
  {
    hide TestNonce, RequesterPreimage, ProviderPreimage, HexEncode, UniqueIds;
    if node in cfg.agents {
      assert ValidNode(cfg.topology.Find(node).value);
    }
  }

  lemma {:induction false} TurnsFailure(cfg: Config, s: State, nodes: seq<NodeId>, round: RoundId)
    requires AgentsFit(cfg) && Turns(cfg, s, nodes, round).Failure?
    ensures CannotCommit(Turns(cfg, s, nodes, round).error)
    decreases |nodes|
  {
    hide AgentsFit, BuildCommitment, HasDropped, CannotCommit, Replays, Doubles;
    var first := NodeTurn(cfg, s, nodes[0], round);
    if first.Success? {
      TurnsFailure(cfg, first.value.state, nodes[1..], round);
    } else {
      BuildFailure(cfg, nodes[0], round);
    }
  }

  lemma {:induction false} ProofMessagesSucceed(cfg: Config, m: Machine, round: RoundId, nodes: seq<NodeId>)
    requires forall n :: n in nodes ==> n in m.commitments
    ensures ProofMessages(cfg, m, round, nodes).Success?
  {
    hide ProofOf;
    if nodes != [] {
      ProofMessagesSucceed(cfg, m, round, nodes[1..]);
    }
  }

  /** Both sides of the round's logged proposal are committed in the machine. */
  lemma ProposalIsCommitted(t: Topology, s: State, round: RoundId, p: ProposalRecord)
    requires InRound(t, s, round) && LastProposal(s.log.proposals, round) == Some(p)
    ensures p.requester in s.machine.commitments && p.provider in s.machine.commitments
  {
    hide CommitmentsLegit, RemembersHexes, HoldsProposal, AllEmbed, AllSigned, AllLabelled, KeysUnique, Before,
         Proposes, LastProposal;
    assert p in s.log.proposals && p.round == round;
    assert Backed(t, s.log.commitments, p);
  }

  lemma ProposeRoundSucceeds(cfg: Config, net: Network, s: State, round: RoundId)
    requires ValidTopology(cfg.topology) && InRound(cfg.topology, s, round)
    requires cfg.topology.SoleRequester().Some? && cfg.topology.SoleRequester().value.id in s.machine.commitments
    ensures ProposeRound(cfg, net, s, round).Success?
  {
    hide ValidTopology, InRound, Drain, BroadcastProposal, NothingToPropose, ProofMessages, LastProposal, SettleRound;
    EarlyFallback(cfg, s, round);
    var turn := BroadcastProposal(cfg, s, round).value;
    if turn.proceed {
      ProceedingKeeps(cfg, s, round);
      var msgs := net.Deliver(round, ProposePhase, turn.messages);
      DrainKeepsCoupling(cfg.topology, ProposePhase, s, round, msgs);
      var drained := Drain(cfg.topology, ProposePhase, s, round, msgs);
      var p := LastProposal(drained.log.proposals, round);
      if p.Some? {
        ProposalIsCommitted(cfg.topology, drained, round, p.value);
        ProofMessagesSucceed(cfg, drained.machine, round, [p.value.requester, p.value.provider]);
      }
    }
  }

  /** A round fails only while its commitments are broadcast. */
  lemma RunRoundFailure(cfg: Config, net: Network, s: State)
    requires AgentsFit(cfg) && AtRoundStart(cfg.topology, s)
    ensures RunRound(cfg, net, s).Success? <==> AllReady(cfg, SortedKeys(cfg.agents.Keys), s.machine.current)
    ensures RunRound(cfg, net, s).Failure? ==> CannotCommit(RunRound(cfg, net, s).error)
  {
    var round, keys := s.machine.current, SortedKeys(cfg.agents.Keys);
    HasRequester(cfg.topology);
    FitMeansValid(cfg);
    hide ValidTopology, AgentsFit, AtRoundStart, InRound, Drain, Turns, ProposeRound, AllReady, CannotCommit;
    TurnsSucceed(cfg, s, keys, round);
    if Turns(cfg, s, keys, round).Success? {
      CommitRoundCouples(cfg, net, s);
      var c := CommitRound(cfg, net, s, round).value;
      if cfg.topology.SoleRequester().value.id in c.machine.commitments {
        ProposeRoundSucceeds(cfg, net, c, round);
      }
    } else {
      TurnsFailure(cfg, s, keys, round);
    }
  }

  lemma FitMeansValid(cfg: Config)
    requires AgentsFit(cfg)
    ensures ValidTopology(cfg.topology)
  {
  }

  lemma HasRequester(t: Topology)
    ensures ValidTopology(t) ==> t.SoleRequester().Some?
  {
  }

  lemma {:induction false} RoundsFailure(cfg: Config, net: Network, s: State, finalRound: RoundId, left: nat)
    requires AgentsFit(cfg) && AtRoundStart(cfg.topology, s)
    requires s.machine.current + left < 0x1_0000_0000_0000_0000
    ensures var r := Rounds(cfg, net, s, finalRound, left);
      r.Failure? ==>
        && CannotCommit(r.error)
        && exists i: RoundId :: s.machine.current <= i < s.machine.current + left
                                && !AllReady(cfg, SortedKeys(cfg.agents.Keys), i)
    decreases left
  {
    hide AgentsFit, AtRoundStart, RunRound, InRound, Fallback, CannotCommit, AllReady, SortedKeys, Proved,
         ClosingUntouched, ReceiptsOf;
    if left > 0 {
      RunRoundFailure(cfg, net, s);
      var result := RunRound(cfg, net, s);
      if result.Success? && !result.value.finalized {
        RunRoundCouples(cfg, net, s);
        InRoundCurrent(cfg.topology, result.value.state, s.machine.current);
        NoOverflow(result.value.state);
        FallbackCouples(cfg.topology, result.value.state, s.machine.current);
        RoundsFailure(cfg, net, Fallback(result.value.state).value, s.machine.current, left - 1);
      }
    }
  }

  lemma NoOverflow(s: State)
    requires s.machine.current + 1 < 0x1_0000_0000_0000_0000
    ensures Fallback(s).Success?
  {
  }

  /**
    Whatever is delivered over a transport that stays open, a run of a valid topology never panics,
    never overflows the round counter and never loses its proposer: it fails only if the constructor
    refuses the configuration or some live agent cannot commit in some round.
   */
  lemma RunFailsOnlyToCommit(cfg: Config, net: Network, runId: string)
    requires AgentsFit(cfg) && Run(cfg, net, runId).Failure?
    ensures ConfigRefusal(cfg).None? ==>
      && CannotCommit(Run(cfg, net, runId).error)
      && exists i: RoundId :: i < cfg.maxRounds && !AllReady(cfg, SortedKeys(cfg.agents.Keys), i)
  {
    hide AgentsFit, AtRoundStart, Rounds, ConfigRefusal, CannotCommit, AllReady, SortedKeys;
    InitialIsStart(cfg.topology, runId);
    RoundsFailure(cfg, net, Initial(runId), 0, cfg.maxRounds);
  }

  // ---------------------------------------------------------------------
  // What a configuration and a commitment are refused for
  // ---------------------------------------------------------------------

  /** The indices, from `k` on, of the nodes of a role. */
  ghost function OfRole(nodes: seq<NodeConfig>, k: nat, role: Role): set<nat> {
    set i: nat | k <= i < |nodes| && nodes[i].role == role
  }

  lemma {:induction false} CountRoleIsNumber(nodes: seq<NodeConfig>, k: nat, role: Role)
    requires k <= |nodes|
    ensures CountRole(nodes[k..], role) == |OfRole(nodes, k, role)|
    decreases |nodes| - k
  {
    if k == |nodes| {
      assert OfRole(nodes, k, role) == {};
    } else {
      CountRoleIsNumber(nodes, k + 1, role);
      assert nodes[k..][0] == nodes[k] && nodes[k..][1..] == nodes[k + 1..];
      var rest := OfRole(nodes, k + 1, role);
      assert OfRole(nodes, k, role) == if nodes[k].role == role then rest + {k} else rest;
    }
  }

  /** An agent of an unlisted node with the least key among such agents. */
  ghost predicate FirstStray(cfg: Config, id: NodeId) {
    && id in cfg.agents && cfg.topology.Find(id).None?
    && forall x :: x in cfg.agents && cfg.topology.Find(x).None? ==> Leq(id, x)
  }

  /** What the constructor refuses: roles, then stray agents by key, then nobody to speak for. */
  lemma ConfigRefusedFor(cfg: Config, id: NodeId)
    ensures var r, requesters := ConfigRefusal(cfg), |OfRole(cfg.topology.nodes, 0, Requester)|;
      var shaped := requesters == 1 && OfRole(cfg.topology.nodes, 0, Provider) != {};
      && (r == Some(NoRequester) <==> requesters != 1)
      && (r == Some(NoProvidersConfigured) <==> requesters == 1 && OfRole(cfg.topology.nodes, 0, Provider) == {})
      && (r == Some(MissingPrivateIntent(id)) <==> shaped && FirstStray(cfg, id))
      && (r == Some(NoLocalAgent) <==> shaped && cfg.agents == map[])
      && (r.None? <==> shaped && cfg.agents != map[] && forall x :: x in cfg.agents ==> cfg.topology.Find(x).Some?)
  {
    var nodes := cfg.topology.nodes;
    assert nodes[0..] == nodes;
    CountRoleIsNumber(nodes, 0, Requester);
    CountRoleIsNumber(nodes, 0, Provider);
    StrangerIsFirst(cfg, id);
    hide CountRole, FirstStranger, FirstStray, OfRole, SortedKeys;
  }

  lemma StrangerIsFirst(cfg: Config, id: NodeId)
    ensures FirstStranger(cfg.topology, SortedKeys(cfg.agents.Keys)) == Some(id) <==> FirstStray(cfg, id)
    ensures FirstStranger(cfg.topology, SortedKeys(cfg.agents.Keys)).None? <==>
            forall x :: x in cfg.agents ==> cfg.topology.Find(x).Some?
    ensures cfg.agents == map[] ==> FirstStranger(cfg.topology, SortedKeys(cfg.agents.Keys)).None?
  {
    hide Leq, FirstStranger;
    var ids := SortedKeys(cfg.agents.Keys);
    StrangerInOrder(cfg.topology, ids);
    var s := FirstStranger(cfg.topology, ids);
    if s.Some? && FirstStray(cfg, id) {
      LeqAntisymmetric(id, s.value);
    }
  }

  lemma {:induction false} StrangerInOrder(t: Topology, ids: seq<NodeId>)
    requires Sorted(ids)
    ensures var s := FirstStranger(t, ids);
      s.Some? ==> s.value in ids && t.Find(s.value).None? && forall x :: x in ids && t.Find(x).None? ==> Leq(s.value, x)
  {
    hide Rank;
    if ids != [] {
      StrangerInOrder(t, ids[1..]);
      assert forall x :: x in ids <==> x == ids[0] || x in ids[1..];
      assert forall x :: x in ids ==> Leq(ids[0], x) by {
        forall x | x in ids ensures Leq(ids[0], x) {
          var i :| 0 <= i < |ids| && ids[i] == x;
        }
      }
    }
  }

  /** The commitment of an agent, or why there is none: no agent, no intent of its role, or a refused preimage. */
  lemma CommitmentBuiltFrom(cfg: Config, node: NodeId, round: RoundId)
    requires AgentsFit(cfg)
    ensures var r := BuildCommitment(cfg, node, round);
      if node !in cfg.agents then r == Failure(MissingPrivateIntent(node))
      else
        var agent, n := cfg.agents[node], cfg.topology.Find(node).value;
        var nonce := TestNonce(cfg.crypto, node, round, cfg.salt);
        if (if agent.role == Requester then agent.requester.None? else agent.provider.None?) then
          r == Failure(MissingPrivateIntent(node))
        else
          var preimage := if agent.role == Requester then RequesterPreimage(agent.requester.value, nonce, round)
                          else ProviderPreimage(agent.provider.value, nonce, round);
          match preimage
          case Failure(e) => r == Failure(CommitmentFailed(e))
          case Success(b) =>
            && r.Success? && r.value.nodeId == node && r.value.round == round
            && r.value.hex == HexEncode(cfg.crypto.blake2s(b))
            && r.value.intent.nodeId == node && r.value.intent.round == round
            && (n.role == Requester ==> r.value.intent.RequesterIntent? && Some(r.value.intent.required) == n.required)
            && (n.role == Provider ==> r.value.intent.ProviderIntent? && r.value.intent.claims == n.claims)
  {
    hide HexEncode, TestNonce, RequesterPreimage, ProviderPreimage, UniqueIds;
    if node in cfg.agents {
      assert ValidNode(cfg.topology.Find(node).value);
    }
  }
}
