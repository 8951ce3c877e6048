/**
  Whole in-process runs in closed form, when the hash does not collide: the finalizing round, the
  log entry by entry, and the exact count of every kind of scheduled rejection.
 */
module ExactRuns {
  import opened Results
  import opened Bytes
  import opened Protocol
  import opened Ordering
  import opened RoundMachines
  import opened CoordinationLogs
  import opened Runs
  import opened Verifier
  import opened Coupling
  import opened Completeness
  import opened CommitPhases
  import opened HonestCommitments
  import opened ExactCommits
  import opened ExactRounds

  /** Everything the rounds `from`, ..., `to - 1` add. */
  ghost function Span(cfg: Config, from: nat, to: RoundId): Entries
    requires FullyLocal(cfg)
    decreases if from < to then to - from else 0
  {
    if from >= to then Entries([], [], [], [], []) else RoundEntries(cfg, from).Then(Span(cfg, from + 1, to))
  }

  lemma AfterRoundPoised(cfg: Config, s: State)
    requires FullyLocal(cfg) && NoCollisions(cfg) && SignatureShape(cfg.crypto) && Poised(cfg, s)
    ensures RunRound(cfg, InProcess, s).Success?
    ensures var round, result := s.machine.current, RunRound(cfg, InProcess, s).value;
      && Fallback(result.state).Success?
      && Fallback(result.state).value.machine.current == round + 1
      && Fallback(result.state).value.log == result.state.log
      && (round + 1 < cfg.maxRounds ==> Poised(cfg, Fallback(result.state).value))
  {
    hide FullyLocal, NoCollisions, SignatureShape, Prepared, RunRound, Fallback, AllOwn, Adds, AllChronicled,
         RoundEntries, Settles;
    RunRoundExact(cfg, s);
    RoundOwns(cfg, s);
    assert AgentsFit(cfg) by { FullyLocalFits(cfg); }
    FellBack(cfg, s);
    var next := Fallback(RunRound(cfg, InProcess, s).value.state).value;
    if next.machine.current < cfg.maxRounds {
      PoisedByParts(cfg, next);
    }
  }

  lemma FullyLocalFits(cfg: Config)
    requires FullyLocal(cfg)
    ensures AgentsFit(cfg)
  {
    hide AgentsFit;
  }

  lemma FellBack(cfg: Config, s: State)
    requires AgentsFit(cfg) && Prepared(cfg, s) && s.machine.current < cfg.maxRounds
    requires RunRound(cfg, InProcess, s).Success?
    ensures var state := RunRound(cfg, InProcess, s).value.state;
      && Fallback(state).Success?
      && var next := Fallback(state).value;
         && Prepared(cfg, next) && next.machine.current == s.machine.current + 1
         && next.log == state.log && next.historical == state.historical
  {
    assert AtRoundStart(cfg.topology, s);
    hide Prepared, AtRoundStart, RunRound, InRound, Fallback, AgentsFit, ClosingUntouched, Proved, ReceiptsOf;
    RunRoundPrepares(cfg, s);
    RunRoundCouples(cfg, InProcess, s);
    var state := RunRound(cfg, InProcess, s).value.state;
    assert state.machine.current == s.machine.current by { InRoundCurrent(cfg.topology, state, s.machine.current); }
    FallbackSucceeds(state, cfg.maxRounds);
    FallbackCouples(cfg.topology, state, s.machine.current);
  }

  lemma PoisedByParts(cfg: Config, s: State)
    requires FullyLocal(cfg) && Prepared(cfg, s) && s.machine.current < cfg.maxRounds
    requires AllOwn(cfg, s.log.commitments) && AllChronicled(cfg, s.historical, s.machine.current)
    ensures Poised(cfg, s)
  {
    hide FullyLocal, Prepared, AllOwn, AllChronicled;
  }

  lemma FallbackSucceeds(s: State, maxRounds: U64)
    requires s.machine.current < maxRounds
    ensures Fallback(s).Success?
  {
  }

  /** After a round every logged commitment is still some agent's own, and the memory is one round longer. */
  lemma RoundOwns(cfg: Config, s: State)
    requires FullyLocal(cfg) && NoCollisions(cfg) && SignatureShape(cfg.crypto) && Poised(cfg, s)
    requires RunRound(cfg, InProcess, s).Success?
    ensures var s' := RunRound(cfg, InProcess, s).value.state;
      && AllOwn(cfg, s'.log.commitments)
      && (s.machine.current + 1 < cfg.maxRounds ==> AllChronicled(cfg, s'.historical, s.machine.current + 1))
  {
    var round := s.machine.current;
    CommitRoundExact(cfg, s);
    hide FullyLocal, NoCollisions, SignatureShape, Poised, HasDropped, CommitRound, RunRound, AllOwn, InRound, Gained;
    var c := CommitRound(cfg, InProcess, s, round).value;
    RestKeepsCommitments(cfg, InProcess, s);
    if round + 1 < cfg.maxRounds {
      MemoryChronicled(cfg, c.historical, round);
    }
  }

  lemma MemoryChronicled(cfg: Config, historical: Memory, round: RoundId)
    requires round + 1 < 0x1_0000_0000_0000_0000
    requires forall id, from: RoundId :: id in cfg.agents ==>
      ((id, from) in historical <==> from <= round && !HasDropped(cfg.events, id, from))
    ensures AllChronicled(cfg, historical, round + 1)
  {
    hide HasDropped;
  }

  lemma RestKeepsCommitments(cfg: Config, net: Network, s: State)
    requires RunRound(cfg, net, s).Success?
    ensures var c, s' := CommitRound(cfg, net, s, s.machine.current), RunRound(cfg, net, s).value.state;
      && c.Success?
      && s'.historical == c.value.historical && s'.log.commitments == c.value.log.commitments
  {
    hide CommitRound, ProposeRound;
    var round := s.machine.current;
    var c := CommitRound(cfg, net, s, round).value;
    if cfg.topology.SoleRequester().value.id in c.machine.commitments {
      ProposeRoundKeepsMemory(cfg, net, c, round);
      ProposeRoundKeepsCommitments(cfg, net, c, round);
    }
  }

  lemma ProposeRoundKeepsCommitments(cfg: Config, net: Network, s: State, round: RoundId)
    requires ProposeRound(cfg, net, s, round).Success?
    ensures ProposeRound(cfg, net, s, round).value.state.log.commitments == s.log.commitments
  {
    hide Drain, ProofMessages, ReceiptMessages, HasProof, BroadcastProposal, LastProposal;
    assert BroadcastProposal(cfg, s, round).value.state.log.commitments == s.log.commitments by {
      BroadcastKeepsCommitments(cfg, s, round);
    }
    var turn := BroadcastProposal(cfg, s, round).value;
    if turn.proceed {
      var msgs := net.Deliver(round, ProposePhase, turn.messages);
      var drained := Drain(cfg.topology, ProposePhase, turn.state, round, msgs);
      DrainFrame(cfg.topology, ProposePhase, turn.state, round, msgs);
      var p := LastProposal(drained.log.proposals, round);
      if p.Some? {
        var sent := ProofMessages(cfg, drained.machine, round, [p.value.requester, p.value.provider]).value;
        var proofs := net.Deliver(round, ProvePhase, sent);
        DrainFrame(cfg.topology, ProvePhase, drained, round, proofs);
        DrainFrame(cfg.topology, ReceiptPhase, Drain(cfg.topology, ProvePhase, drained, round, proofs), round,
                   net.Deliver(round, ReceiptPhase, ReceiptMessages(cfg, round, p.value)));
      }
    }
  }

  lemma BroadcastKeepsCommitments(cfg: Config, s: State, round: RoundId)
    requires BroadcastProposal(cfg, s, round).Success?
    ensures BroadcastProposal(cfg, s, round).value.state.log.commitments == s.log.commitments
  {
    hide Others, SortedKeys;
  }

  // ---------------------------------------------------------------------
  // Whole runs
  // ---------------------------------------------------------------------

  /** `r` is the first round from `from` on that settles. */
  ghost predicate FirstToSettle(cfg: Config, from: RoundId, r: RoundId)
    requires FullyLocal(cfg)
  {
    from <= r && Settles(cfg, r) && forall i: RoundId :: from <= i < r ==> !Settles(cfg, i)
  }

  /** How the rounds from `from` on end. */
  ghost predicate EndsAsScheduled(cfg: Config, from: RoundId, finalRound: RoundId, log: Log, e: Ending)
    requires FullyLocal(cfg)
  {
    if e.finalized then
      && e.finalRound < cfg.maxRounds && FirstToSettle(cfg, from, e.finalRound)
      && Adds(log, e.state.log, Span(cfg, from, e.finalRound + 1))
    else
      && (forall r: RoundId :: from <= r < cfg.maxRounds ==> !Settles(cfg, r))
      && e.finalRound == (if from < cfg.maxRounds then cfg.maxRounds - 1 else finalRound)
      && Adds(log, e.state.log, Span(cfg, from, cfg.maxRounds))
  }

  lemma AddsNothing(log: Log)
    ensures Adds(log, log, Entries([], [], [], [], []))
  {
  }

  lemma {:induction false} RoundsExact(cfg: Config, s: State, finalRound: RoundId, left: nat)
    requires FullyLocal(cfg) && NoCollisions(cfg) && SignatureShape(cfg.crypto)
    requires s.machine.current + left == cfg.maxRounds && (left > 0 ==> Poised(cfg, s))
    ensures Rounds(cfg, InProcess, s, finalRound, left).Success?
    ensures EndsAsScheduled(cfg, s.machine.current, finalRound, s.log,
                            Rounds(cfg, InProcess, s, finalRound, left).value)
    decreases left
  {
    hide FullyLocal, NoCollisions, SignatureShape, Poised, RunRound, Fallback, Settles, Adds, RoundEntries;
    AddsNothing(s.log);
    if left > 0 {
      var round := s.machine.current;
      RunRoundExact(cfg, s);
      AfterRoundPoised(cfg, s);
      var result := RunRound(cfg, InProcess, s).value;
      if result.finalized {
        assert Span(cfg, round + 1, round + 1) == Entries([], [], [], [], []);
        AddsNothing(result.state.log);
        AddsMore(s.log, result.state.log, result.state.log, RoundEntries(cfg, round), Entries([], [], [], [], []));
      } else {
        var next := Fallback(result.state).value;
        RoundsExact(cfg, next, round, left - 1);
        var e := Rounds(cfg, InProcess, next, round, left - 1).value;
        var end := if e.finalized then e.finalRound + 1 else cfg.maxRounds;
        AddsMore(s.log, result.state.log, e.state.log, RoundEntries(cfg, round), Span(cfg, round + 1, end));
      }
    }
  }

  lemma {:induction false} SoleRequesterCounts(nodes: seq<NodeConfig>, role: Role)
    requires forall i, j :: 0 <= i < j < |nodes| ==> !(nodes[i].role == role && nodes[j].role == role)
    ensures CountRole(nodes, role) == if exists n :: n in nodes && n.role == role then 1 else 0
  {
    if nodes != [] {
      SoleRequesterCounts(nodes[1..], role);
      assert forall n :: n in nodes <==> n == nodes[0] || n in nodes[1..];
    }
  }

  lemma {:induction false} SomeCount(nodes: seq<NodeConfig>, n: NodeConfig)
    requires n in nodes
    ensures CountRole(nodes, n.role) > 0
  {
    if nodes[0] != n {
      SomeCount(nodes[1..], n);
    }
  }

  /** The constructor refuses no such configuration. */
  lemma ConfigAccepted(cfg: Config)
    requires FullyLocal(cfg)
    ensures ConfigRefusal(cfg).None?
  {
    RolesAreCounted(cfg.topology);
    AgentsAreKnown(cfg);
    hide FullyLocal, CountRole, FirstStranger, SortedKeys;
  }

  lemma RolesAreCounted(t: Topology)
    requires ValidTopology(t)
    ensures CountRole(t.nodes, Requester) == 1 && CountRole(t.nodes, Provider) > 0
  {
    SoleRequesterCounts(t.nodes, Requester);
    var n :| n in t.nodes && n.role == Provider;
    SomeCount(t.nodes, n);
    hide ValidNode, UniqueIds, CountRole;
  }

  lemma AgentsAreKnown(cfg: Config)
    requires FullyLocal(cfg)
    ensures cfg.agents != map[] && FirstStranger(cfg.topology, SortedKeys(cfg.agents.Keys)).None?
  {
    hide ValidNode, UniqueIds, WellArmed, FirstStranger;
    var n :| n in cfg.topology.nodes && n.role == Provider;
    assert n.id in cfg.agents;
  }

  lemma InitialIsPoised(cfg: Config, runId: string)
    requires FullyLocal(cfg) && cfg.maxRounds > 0
    ensures Poised(cfg, Initial(runId))
  {
    InitialIsPrepared(cfg, runId);
    hide FullyLocal, Prepared, HasDropped;
  }

  /** How many rounds a run went through. */
  function Executed(cfg: Config, o: RunOutcome): nat {
    if o.finalized then o.finalRound + 1 else cfg.maxRounds
  }

  /** The log holds the entries of the first `rounds` rounds, in order, and no others. */
  ghost predicate Records(cfg: Config, log: Log, rounds: nat)
    requires FullyLocal(cfg)
  {
    && rounds <= cfg.maxRounds
    && var all := Span(cfg, 0, rounds);
       && log.commitments == all.commitments && log.proposals == all.proposals
       && log.proofs == all.proofs && log.receipts == all.receipts && log.rejections == all.rejections
  }

  /** The verdict is that of the first settling round, or an abort when no round settles. */
  ghost predicate Concludes(cfg: Config, o: RunOutcome)
    requires FullyLocal(cfg)
  {
    && o.log.finalized == o.finalized && o.log.finalRound == o.finalRound
    && (if o.finalized then
          o.finalRound < cfg.maxRounds && FirstToSettle(cfg, 0, o.finalRound) && o.log.abortReason.None?
        else
          && (forall r: RoundId :: r < cfg.maxRounds ==> !Settles(cfg, r))
          && o.finalRound == (if cfg.maxRounds > 0 then cfg.maxRounds - 1 else 0)
          && o.log.abortReason == Some(MaxRoundsExceeded))
  }

  lemma EndingIsExact(cfg: Config, runId: string, e: Ending)
    requires FullyLocal(cfg) && EndsAsScheduled(cfg, 0, 0, EmptyLog(runId), e) && e.state.log.abortReason.None?
    ensures Concludes(cfg, Conclude(e))
    ensures Records(cfg, Conclude(e).log, Executed(cfg, Conclude(e)))
  {
    hide FullyLocal, Settles, Span;
  }

  /**
    A fully local run never fails: it finalizes in the first round that settles, or aborts after the
    last when none does, and its log is the rounds' entries in order.
   */
  lemma RunIsExact(cfg: Config, runId: string)
    requires FullyLocal(cfg) && NoCollisions(cfg) && SignatureShape(cfg.crypto)
    ensures Run(cfg, InProcess, runId).Success?
    ensures var o := Run(cfg, InProcess, runId).value;
      Concludes(cfg, o) && Records(cfg, o.log, Executed(cfg, o))
  {
    hide FullyLocal, NoCollisions, SignatureShape, Poised, Rounds, ConfigRefusal, AtRoundStart, Concludes, Records,
         EndsAsScheduled, Conclude;
    hide Before, Settles, Span;
    ConfigAccepted(cfg);
    if cfg.maxRounds > 0 {
      InitialIsPoised(cfg, runId);
    }
    RoundsExact(cfg, Initial(runId), 0, cfg.maxRounds);
    InitialIsStart(cfg.topology, runId);
    EmptyIsBefore(runId);
    RoundsLeaveClosing(cfg, InProcess, Initial(runId), 0, cfg.maxRounds);
    EndingIsExact(cfg, runId, Rounds(cfg, InProcess, Initial(runId), 0, cfg.maxRounds).value);
  }

  lemma EmptyIsBefore(runId: string)
    ensures Before(EmptyLog(runId), 1)
  {
  }

  lemma RoundsLeaveClosing(cfg: Config, net: Network, s: State, finalRound: RoundId, left: nat)
    requires AtRoundStart(cfg.topology, s) && Before(s.log, finalRound + 1) && s.log.receipts == []
    requires Rounds(cfg, net, s, finalRound, left).Success?
    ensures Rounds(cfg, net, s, finalRound, left).value.state.log.abortReason == s.log.abortReason
  {
    RoundsCouple(cfg, net, s, finalRound, left);
  }
}
