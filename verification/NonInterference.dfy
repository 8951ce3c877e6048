/**
  Refused attacks leave no mark: double commits and replays change nothing in an in-process run but
  the rejections, and this takes no assumption about the hash.
 */
module NonInterference {
  import opened Results
  import opened Protocol
  import opened Ordering
  import opened RoundMachines
  import opened CoordinationLogs
  import opened Artifacts
  import opened Matching
  import opened Proposer
  import opened Runs
  import opened Verifier
  import opened Coupling
  import opened Soundness
  import opened CommitPhases
  import opened Observing

  /** The same but for the rejections, down to what may be replayed. */
  ghost predicate Alike(s: State, s': State) {
    SamePublic(s, s') && s.historical == s'.historical
  }

  /** Two scenarios that silence the same nodes and spoil the same proofs. */
  ghost predicate SameSchedule(one: seq<Event>, other: seq<Event>) {
    forall node, round ::
      && HasDropped(one, node, round) == HasDropped(other, node, round)
      && ProofIsTampered(one, node, round) == ProofIsTampered(other, node, round)
  }

  lemma BuildIgnoresEvents(cfg: Config, events: seq<Event>, node: NodeId, round: RoundId)
    ensures BuildCommitment(cfg.(events := events), node, round) == BuildCommitment(cfg, node, round)
  {
  }

  lemma {:induction false} TurnsFailAlike(cfg: Config, events: seq<Event>, s: State, s': State, nodes: seq<NodeId>,
                                          round: RoundId)
    requires SameSchedule(cfg.events, events)
    ensures var one, other := Turns(cfg, s, nodes, round), Turns(cfg.(events := events), s', nodes, round);
      && one.Success? == other.Success?
      && (one.Failure? ==> one == Failure(other.error))
    decreases |nodes|
  {
    var cfg' := cfg.(events := events);
    if nodes != [] {
      BuildIgnoresEvents(cfg, events, nodes[0], round);
      assert HasDropped(cfg.events, nodes[0], round) == HasDropped(events, nodes[0], round);
      hide BuildCommitment, HasDropped, SameSchedule, Replays, Doubles;
      var one, other := NodeTurn(cfg, s, nodes[0], round), NodeTurn(cfg', s', nodes[0], round);
      if one.Success? {
        TurnsFailAlike(cfg, events, one.value.state, other.value.state, nodes[1..], round);
      }
    }
  }

  lemma {:induction false} TurnsDrainedAlike(cfg: Config, events: seq<Event>, historical: Memory, d: State, d': State,
                                             nodes: seq<NodeId>, round: RoundId)
    requires SameSchedule(cfg.events, events) && Alike(d, d')
    requires AllReady(cfg, nodes, round) && AllReady(cfg.(events := events), nodes, round)
    ensures Alike(TurnsDrained(cfg, historical, d, nodes, round),
                  TurnsDrained(cfg.(events := events), historical, d', nodes, round))
    decreases |nodes|
  {
    if nodes != [] {
      var cfg', node, rest := cfg.(events := events), nodes[0], nodes[1..];
      assert forall n :: n in rest ==> n in nodes;
      BuildIgnoresEvents(cfg, events, node, round);
      assert HasDropped(cfg.events, node, round) == HasDropped(events, node, round);
      hide BuildCommitment, HasDropped, SameSchedule, Replays, Doubles;
      TurnsDrainedAlike(cfg, events, MemoryAfter(cfg, historical, node, round),
                        TurnDrained(cfg, historical, d, node, round), TurnDrained(cfg', historical, d', node, round),
                        rest, round);
    }
  }

  lemma DrainAlike(t: Topology, phase: Phase, s: State, s': State, round: RoundId, msgs: seq<Message>)
    requires Alike(s, s')
    ensures Alike(Drain(t, phase, s, round, msgs), Drain(t, phase, s', round, msgs))
  {
    DrainSame(t, phase, s, s', round, msgs);
    DrainFrame(t, phase, s, round, msgs);
    DrainFrame(t, phase, s', round, msgs);
    hide Drain, SamePublic;
  }

  // ---------------------------------------------------------------------
  // One round
  // ---------------------------------------------------------------------

  lemma CommitRoundAlike(cfg: Config, events: seq<Event>, s: State, s': State)
    requires AgentsFit(cfg) && SameSchedule(cfg.events, events)
    requires Prepared(cfg, s) && Prepared(cfg.(events := events), s') && Alike(s, s')
    ensures var one := CommitRound(cfg, InProcess, s, s.machine.current);
      var other := CommitRound(cfg.(events := events), InProcess, s', s.machine.current);
      && one.Success? == other.Success?
      && (one.Success? ==> Alike(one.value, other.value))
      && (one.Failure? ==> one.error == other.error)
  {
    hide AllReady, TurnsDrained, TurnsMemory, Announced, Remembers, Prepared, AgentsFit, SameSchedule, SamePublic,
         CommitRound;
    var cfg', round, keys := cfg.(events := events), s.machine.current, SortedKeys(cfg.agents.Keys);
    assert s'.machine == s.machine by { AlikeMachines(s, s'); }
    AgentsStillFit(cfg, events);
    CommitRoundIs(cfg, s);
    CommitRoundIs(cfg', s');
    var one, other := CommitRound(cfg, InProcess, s, round), CommitRound(cfg', InProcess, s', round);
    CommitRoundFailsAlike(cfg, events, s, s', round);
    if one.Success? {
      AnnouncedAlike(cfg, events, s, s');
      TurnsDrainedAlike(cfg, events, s.historical, Announced(cfg, s), Announced(cfg', s'), keys, round);
    }
  }

  lemma AgentsStillFit(cfg: Config, events: seq<Event>)
    requires AgentsFit(cfg)
    ensures AgentsFit(cfg.(events := events))
  {
  }

  lemma AlikeMachines(s: State, s': State)
    requires Alike(s, s')
    ensures s.machine == s'.machine
  {
  }

  lemma CommitRoundFailsAlike(cfg: Config, events: seq<Event>, s: State, s': State, round: RoundId)
    requires SameSchedule(cfg.events, events)
    ensures var one := CommitRound(cfg, InProcess, s, round);
      var other := CommitRound(cfg.(events := events), InProcess, s', round);
      && one.Success? == other.Success?
      && (one.Failure? ==> one.error == other.error)
  {
    hide SameSchedule, Turns, Drain;
    TurnsFailAlike(cfg, events, s, s', SortedKeys(cfg.agents.Keys), round);
  }

  lemma {:induction false} TurnsMemoryAlike(cfg: Config, events: seq<Event>, historical: Memory, nodes: seq<NodeId>,
                                            round: RoundId)
    requires SameSchedule(cfg.events, events)
    ensures TurnsMemory(cfg, historical, nodes, round) == TurnsMemory(cfg.(events := events), historical, nodes, round)
    decreases |nodes|
  {
    if nodes != [] {
      var node := nodes[0];
      BuildIgnoresEvents(cfg, events, node, round);
      assert HasDropped(cfg.events, node, round) == HasDropped(events, node, round);
      hide BuildCommitment, HasDropped, SameSchedule;
      TurnsMemoryAlike(cfg, events, MemoryAfter(cfg, historical, node, round), nodes[1..], round);
    }
  }

  lemma AnnouncedAlike(cfg: Config, events: seq<Event>, s: State, s': State)
    requires SameSchedule(cfg.events, events) && Alike(s, s')
    ensures Alike(Announced(cfg, s), Announced(cfg.(events := events), s'))
  {
    hide SameSchedule, TurnsMemory, DroppedNotes;
    TurnsMemoryAlike(cfg, events, s.historical, SortedKeys(cfg.agents.Keys), s.machine.current);
  }

  lemma BroadcastProposalAlike(cfg: Config, events: seq<Event>, s: State, s': State, round: RoundId)
    requires Alike(s, s')
    ensures var one, other := BroadcastProposal(cfg, s, round), BroadcastProposal(cfg.(events := events), s', round);
      && one.Success? == other.Success?
      && (one.Failure? ==> one == Failure(other.error))
      && (one.Success? ==> && Alike(one.value.state, other.value.state)
                           && one.value.messages == other.value.messages && one.value.proceed == other.value.proceed)
  {
    hide Derive, ProposerOf, SortedKeys, Others;
  }

  lemma {:induction false} ProofMessagesAlike(cfg: Config, events: seq<Event>, m: Machine, round: RoundId,
                                              nodes: seq<NodeId>)
    requires SameSchedule(cfg.events, events)
    ensures ProofMessages(cfg, m, round, nodes) == ProofMessages(cfg.(events := events), m, round, nodes)
  {
    if nodes != [] {
      ProofMessagesAlike(cfg, events, m, round, nodes[1..]);
      assert ProofIsTampered(cfg.events, nodes[0], round) == ProofIsTampered(events, nodes[0], round);
      hide ProofIsTampered, SameSchedule, ProofFor, Tampered;
    }
  }

  ghost predicate ResultsAlike(one: Result<RoundResult, RuntimeError>, other: Result<RoundResult, RuntimeError>) {
    match (one, other)
    case (Success(r), Success(r')) => Alike(r.state, r'.state) && r.finalized == r'.finalized
    case (Failure(e), Failure(e')) => e == e'
    case _ => false
  }

  lemma ProveRoundAlike(cfg: Config, events: seq<Event>, s: State, s': State, round: RoundId, p: ProposalRecord)
    requires SameSchedule(cfg.events, events) && Alike(s, s')
    ensures ResultsAlike(ProveRound(cfg, InProcess, s, round, p),
                         ProveRound(cfg.(events := events), InProcess, s', round, p))
  {
    var cfg', t := cfg.(events := events), cfg.topology;
    ProofMessagesAlike(cfg, events, s.machine, round, [p.requester, p.provider]);
    hide ProofMessages, Drain, HasProof, ReceiptMessages, SameSchedule;
    var msgs := ProofMessages(cfg, s.machine, round, [p.requester, p.provider]);
    if msgs.Success? {
      DrainAlike(t, ProvePhase, s, s', round, msgs.value);
      var drained, drained' := Drain(t, ProvePhase, s, round, msgs.value), Drain(t, ProvePhase, s', round, msgs.value);
      assert drained.log.proofs == Public(drained.log).proofs == drained'.log.proofs;
      assert ReceiptMessages(cfg, round, p) == ReceiptMessages(cfg', round, p)
          by { ReceiptMessagesAlike(cfg, events, round, p); }
      DrainAlike(t, ReceiptPhase, drained, drained', round, ReceiptMessages(cfg, round, p));
    }
  }

  lemma ReceiptMessagesAlike(cfg: Config, events: seq<Event>, round: RoundId, p: ProposalRecord)
    ensures ReceiptMessages(cfg, round, p) == ReceiptMessages(cfg.(events := events), round, p)
  {
  }

  lemma ProposeRoundAlike(cfg: Config, events: seq<Event>, s: State, s': State, round: RoundId)
    requires SameSchedule(cfg.events, events) && Alike(s, s')
    ensures ResultsAlike(ProposeRound(cfg, InProcess, s, round),
                         ProposeRound(cfg.(events := events), InProcess, s', round))
  {
    var cfg', t := cfg.(events := events), cfg.topology;
    BroadcastProposalAlike(cfg, events, s, s', round);
    hide BroadcastProposal, Drain, ProveRound, LastProposal, SameSchedule;
    var turn, turn' := BroadcastProposal(cfg, s, round), BroadcastProposal(cfg', s', round);
    if turn.Success? && turn.value.proceed {
      DrainAlike(t, ProposePhase, turn.value.state, turn'.value.state, round, turn.value.messages);
      var drained := Drain(t, ProposePhase, turn.value.state, round, turn.value.messages);
      var drained' := Drain(t, ProposePhase, turn'.value.state, round, turn.value.messages);
      assert drained.log.proposals == Public(drained.log).proposals == drained'.log.proposals;
      var p := LastProposal(drained.log.proposals, round);
      if p.Some? {
        ProveRoundAlike(cfg, events, drained, drained', round, p.value);
      }
    }
  }

  lemma RunRoundAlike(cfg: Config, events: seq<Event>, s: State, s': State)
    requires AgentsFit(cfg) && SameSchedule(cfg.events, events)
    requires Prepared(cfg, s) && Prepared(cfg.(events := events), s') && Alike(s, s')
    ensures ResultsAlike(RunRound(cfg, InProcess, s), RunRound(cfg.(events := events), InProcess, s'))
  {
    hide CommitRound, ProposeRound, AgentsFit, SameSchedule, Prepared, SamePublic, Note;
    var cfg', round := cfg.(events := events), s.machine.current;
    AlikeMachines(s, s');
    CommitRoundAlike(cfg, events, s, s');
    var one, other := CommitRound(cfg, InProcess, s, round), CommitRound(cfg', InProcess, s', round);
    var requester := cfg.topology.SoleRequester();
    if one.Success? && requester.Some? {
      AlikeMachines(one.value, other.value);
      if requester.value.id in one.value.machine.commitments {
        ProposeRoundAlike(cfg, events, one.value, other.value, round);
      } else {
        NoteAlike(one.value, other.value, round, requester.value.id, RoundKind, CodeRequesterMissing);
      }
    }
  }

  lemma NoteAlike(s: State, s': State, round: RoundId, node: NodeId, kind: Kind, code: Code)
    requires Alike(s, s')
    ensures Alike(Note(s, round, node, kind, code), Note(s', round, node, kind, code))
  {
    NoteSame(s, s', round, node, kind, code);
    hide SamePublic;
  }

  // ---------------------------------------------------------------------
  // Whole runs
  // ---------------------------------------------------------------------

  ghost predicate EndingsAlike(one: Result<Ending, RuntimeError>, other: Result<Ending, RuntimeError>) {
    match (one, other)
    case (Success(e), Success(e')) =>
      Alike(e.state, e'.state) && e.finalRound == e'.finalRound && e.finalized == e'.finalized
    case (Failure(e), Failure(e')) => e == e'
    case _ => false
  }

  lemma FallbackAlike(s: State, s': State)
    requires Alike(s, s')
    ensures match (Fallback(s), Fallback(s'))
      case (Success(n), Success(n')) => Alike(n, n')
      case (Failure(e), Failure(e')) => e == e'
      case _ => false
  {
  }

  lemma {:induction false} RoundsAlike(cfg: Config, events: seq<Event>, s: State, s': State, finalRound: RoundId,
                                       left: nat)
    requires AgentsFit(cfg) && SameSchedule(cfg.events, events)
    requires Prepared(cfg, s) && Prepared(cfg.(events := events), s') && Alike(s, s')
    ensures EndingsAlike(Rounds(cfg, InProcess, s, finalRound, left),
                         Rounds(cfg.(events := events), InProcess, s', finalRound, left))
    decreases left
  {
    hide RunRound, AgentsFit, SameSchedule, Prepared, Fallback, SamePublic;
    if left > 0 {
      var cfg' := cfg.(events := events);
      AgentsStillFit(cfg, events);
      AlikeMachines(s, s');
      RunRoundAlike(cfg, events, s, s');
      var one, other := RunRound(cfg, InProcess, s), RunRound(cfg', InProcess, s');
      if one.Success? && !one.value.finalized {
        RunRoundPrepares(cfg, s);
        RunRoundPrepares(cfg', s');
        FallbackAlike(one.value.state, other.value.state);
        var next, next' := Fallback(one.value.state), Fallback(other.value.state);
        if next.Success? {
          RoundsAlike(cfg, events, next.value, next'.value, s.machine.current, left - 1);
        }
      }
    }
  }

  /** Runs whose scenarios silence and spoil alike end alike, and differ in nothing but rejections. */
  lemma ScheduleDecides(cfg: Config, events: seq<Event>, runId: string)
    requires AgentsFit(cfg) && SameSchedule(cfg.events, events)
    ensures match (Run(cfg, InProcess, runId), Run(cfg.(events := events), InProcess, runId))
      case (Success(o), Success(o')) =>
        Public(o.log) == Public(o'.log) && o.finalized == o'.finalized && o.finalRound == o'.finalRound
      case (Failure(e), Failure(e')) => e == e'
      case _ => false
  {
    hide Rounds, AgentsFit, SameSchedule, Prepared, Initial, SamePublic, CountRole, FirstStranger, SortedKeys, Conclude;
    var cfg' := cfg.(events := events);
    assert ConfigRefusal(cfg) == ConfigRefusal(cfg');
    assert Alike(Initial(runId), Initial(runId)) by { SelfAlike(Initial(runId)); }
    InitialIsPrepared(cfg, runId);
    InitialIsPrepared(cfg', runId);
    RoundsAlike(cfg, events, Initial(runId), Initial(runId), 0, cfg.maxRounds);
    var one := Rounds(cfg, InProcess, Initial(runId), 0, cfg.maxRounds);
    var other := Rounds(cfg', InProcess, Initial(runId), 0, cfg'.maxRounds);
    if one.Success? {
      ConcludeAlike(one.value, other.value);
    }
  }

  lemma SelfAlike(s: State)
    ensures Alike(s, s)
  {
  }

  lemma ConcludeAlike(e: Ending, e': Ending)
    requires Alike(e.state, e'.state) && e.finalRound == e'.finalRound && e.finalized == e'.finalized
    ensures Public(Conclude(e).log) == Public(Conclude(e').log)
    ensures Conclude(e).finalized == Conclude(e').finalized && Conclude(e).finalRound == Conclude(e').finalRound
  {
    assert Public(e.state.log).runId == Public(e'.state.log).runId;
  }

  predicate IsRefusedAttack(e: Event) {
    e.DoubleCommit? || e.ReplayPriorCommitment?
  }

  /** The scenario without its double commits and replays. */
  function Stripped(events: seq<Event>): (es: seq<Event>)
    ensures forall e :: e in es <==> e in events && !IsRefusedAttack(e)
  {
    if events == [] then []
    else (if IsRefusedAttack(events[0]) then [] else [events[0]]) + Stripped(events[1..])
  }

  lemma StrippedKeepsSchedule(events: seq<Event>)
    ensures SameSchedule(events, Stripped(events))
  {
  }

  /**
    Deleting every double commit and every replay from a scenario leaves the run's commitments,
    proposals, proofs, receipts, final round and verdict as they were, and the verifier's report too.
   */
  lemma RefusedAttacksDoNotInterfere(cfg: Config, runId: string)
    requires AgentsFit(cfg)
    ensures match (Run(cfg, InProcess, runId), Run(cfg.(events := Stripped(cfg.events)), InProcess, runId))
      case (Success(o), Success(o')) =>
        && o.log.commitments == o'.log.commitments && o.log.proposals == o'.log.proposals
        && o.log.proofs == o'.log.proofs && o.log.receipts == o'.log.receipts
        && o.log.(rejections := []) == o'.log.(rejections := [])
        && o.finalized == o'.finalized && o.finalRound == o'.finalRound
        && (forall c :: Reasons(c, cfg.topology, o.log) == Reasons(c, cfg.topology, o'.log))
      case (Failure(e), Failure(e')) => e == e'
      case _ => false
  {
    hide Run, AgentsFit, SameSchedule, Stripped, Reasons;
    StrippedKeepsSchedule(cfg.events);
    ScheduleDecides(cfg, Stripped(cfg.events), runId);
    var cfg' := cfg.(events := Stripped(cfg.events));
    if Run(cfg, InProcess, runId).Success? {
      forall c
        ensures Reasons(c, cfg.topology, Run(cfg, InProcess, runId).value.log)
             == Reasons(c, cfg.topology, Run(cfg', InProcess, runId).value.log)
      {
        SameRecordSameReport(c, cfg, InProcess, cfg', InProcess, runId);
      }
    }
  }
}
