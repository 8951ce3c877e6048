/**
  The in-process commit phase, exactly: what draining one node's broadcast does, with its scheduled
  replays and duplicates, and nothing assumed about the hash.
 */
module CommitPhases {
  import opened Results
  import opened Bytes
  import opened Protocol
  import opened Ordering
  import opened RoundMachines
  import opened CoordinationLogs
  import opened Preimages
  import opened Matching
  import opened Proposer
  import opened Runs
  import opened Verifier
  import opened Coupling

  /** Local agents have the role the topology gives them. */
  ghost predicate AgentsFit(cfg: Config) {
    && ValidTopology(cfg.topology)
    && forall id :: id in cfg.agents ==>
         cfg.topology.Find(id).Some? && cfg.topology.Find(id).value.role == cfg.agents[id].role
  }

  function WithNotes(s: State, notes: seq<RejectionRecord>): State {
    s.(log := s.log.(rejections := s.log.rejections + notes))
  }

  function Notes(node: NodeId, round: RoundId, code: Code, n: nat): seq<RejectionRecord> {
    seq(n, _ => RejectionRecord(round, node, CommitmentKind, code))
  }

  // ---------------------------------------------------------------------
  // Draining in pieces
  // ---------------------------------------------------------------------

  lemma {:induction false} DrainAppend(t: Topology, phase: Phase, s: State, round: RoundId, a: seq<Message>,
                                       b: seq<Message>)
    ensures Drain(t, phase, s, round, a + b) == Drain(t, phase, Drain(t, phase, s, round, a), round, b)
    decreases |a|
  {
    hide Take;
    if a == [] {
      assert a + b == b;
    } else {
      assert (a + b)[0] == a[0] && (a + b)[1..] == a[1..] + b;
      DrainAppend(t, phase, Take(t, phase, s, round, a[0]), round, a[1..], b);
    }
  }

  /** Commitment messages of `node` that the machine refuses with one and the same code. */
  ghost predicate RefusedWith(t: Topology, m: Machine, node: NodeId, code: Code, msg: Message) {
    && msg.payload.Commitment? && msg.origin == node && msg.payload.commitment.nodeId == node
    && var refusal := CommitmentRefusal(t, m, msg.payload.commitment);
       refusal.Some? && CodeOf(refusal.value) == code
  }

  lemma {:induction false} RefusedMessages(t: Topology, d: State, round: RoundId, node: NodeId, code: Code,
                                           msgs: seq<Message>)
    requires forall msg :: msg in msgs ==> RefusedWith(t, d.machine, node, code, msg)
    ensures Drain(t, CommitPhase, d, round, msgs) == WithNotes(d, Notes(node, round, code, |msgs|))
    decreases |msgs|
  {
    hide CommitmentRefusal, CodeOf;
    if msgs == [] {
      assert d.log.rejections + [] == d.log.rejections;
    } else {
      assert RefusedWith(t, d.machine, node, code, msgs[0]);
      var d1 := Note(d, round, node, CommitmentKind, code);
      assert Take(t, CommitPhase, d, round, msgs[0]) == d1;
      RefusedMessages(t, d1, round, node, code, msgs[1..]);
      assert d1.log.rejections + Notes(node, round, code, |msgs| - 1)
          == d.log.rejections + Notes(node, round, code, |msgs|);
    }
  }

  // ---------------------------------------------------------------------
  // An agent's own commitment
  // ---------------------------------------------------------------------

  /** A record the machine can refuse for nothing but its place in the round or its hex. */
  ghost predicate Sound(t: Topology, rec: CommitmentRecord) {
    CommitmentLegit(t, rec) && (rec.intent.RequesterIntent? ==> rec.intent.required.text != [])
  }

  /** What a local agent's commitment record says, whatever its digest is. */
  lemma BaseFacts(cfg: Config, node: NodeId, round: RoundId)
    requires AgentsFit(cfg) && BuildCommitment(cfg, node, round).Success?
    ensures node in cfg.agents
    ensures var b := BuildCommitment(cfg, node, round).value;
      b.nodeId == node && b.round == round && Sound(cfg.topology, b)
  {
    hide Digest, HexEncode;
    assert ValidNode(cfg.topology.Find(node).value);
  }

  /** Relabelled for the active round, such a record can only be refused as a replay. */
  lemma ReplayRefusal(t: Topology, m: Machine, rec: CommitmentRecord)
    requires Sound(t, rec) && m.proposal.None? && rec.nodeId !in m.commitments
    ensures CommitmentRefusal(t, m, Relabelled(rec, m.current)) ==
            if rec.hex in m.history then Some(ReplayDetected) else None
    ensures rec.round == m.current ==> Relabelled(rec, m.current) == rec
  {
  }

  // ---------------------------------------------------------------------
  // The replay memory
  // ---------------------------------------------------------------------

  type Memory = map<(NodeId, RoundId), CommitmentRecord>

  /** The memory holds agents' own commitments, and every one of their hexes is in the history. */
  ghost predicate Remembers(cfg: Config, historical: Memory, history: set<string>) {
    forall k :: k in historical ==>
      BuildCommitment(cfg, k.0, k.1) == Success(historical[k]) && historical[k].hex in history
  }

  /** The drain has reached the broadcast of the first of `nodes`. */
  ghost predicate ReadyFor(cfg: Config, historical: Memory, m: Machine, nodes: seq<NodeId>, round: RoundId) {
    && m.current == round && m.proposal.None?
    && Remembers(cfg, historical, m.history)
    && (forall k :: k in historical ==> k.1 <= round)
    && (forall n :: n in nodes ==> (n, round) !in historical && n !in m.commitments)
    && Distinct(nodes)
  }

  lemma {:induction false} ReplaysAreRefused(cfg: Config, historical: Memory, m: Machine, node: NodeId, round: RoundId,
                                             events: seq<Event>)
    requires AgentsFit(cfg) && Remembers(cfg, historical, m.history)
    requires m.current == round && m.proposal.None? && node !in m.commitments
    requires forall e :: e in events ==> Targets(e, node, round)
    ensures forall msg :: msg in Replays(events, historical, round) ==>
      RefusedWith(cfg.topology, m, node, CodeReplayDetected, msg)
  {
    hide RefusedWith, Remembers, AgentsFit, Relabelled;
    if events != [] {
      ReplaysAreRefused(cfg, historical, m, node, round, events[1..]);
      var e := events[0];
      assert Targets(e, node, round);
      if e.ReplayPriorCommitment? && (e.node, e.fromRound) in historical {
        OneReplayIsRefused(cfg, historical, m, node, round, e.fromRound);
      }
    }
  }

  lemma OneReplayIsRefused(cfg: Config, historical: Memory, m: Machine, node: NodeId, round: RoundId, from: RoundId)
    requires AgentsFit(cfg) && Remembers(cfg, historical, m.history)
    requires m.current == round && m.proposal.None? && node !in m.commitments
    requires (node, from) in historical
    ensures RefusedWith(cfg.topology, m, node, CodeReplayDetected,
                        Message(node, Commitment(Relabelled(historical[(node, from)], round))))
  {
    hide CommitmentRefusal, BuildCommitment, AgentsFit, Sound;
    assert BuildCommitment(cfg, (node, from).0, (node, from).1) == Success(historical[(node, from)]);
    BaseFacts(cfg, node, from);
    ReplayRefusal(cfg.topology, m, historical[(node, from)]);
  }

  lemma {:induction false} DoublesRepeat(historical: Memory, node: NodeId, round: RoundId, events: seq<Event>)
    requires (node, round) in historical
    requires forall e :: e in events ==> Targets(e, node, round)
    ensures forall msg :: msg in Doubles(events, historical) ==>
      msg == Message(node, Commitment(historical[(node, round)]))
  {
    if events != [] {
      DoublesRepeat(historical, node, round, events[1..]);
      assert Targets(events[0], node, round);
    }
  }

  // ---------------------------------------------------------------------
  // One node's broadcast
  // ---------------------------------------------------------------------

  /** The state after the node's own commitment is drained. */
  ghost function AfterBase(t: Topology, d: State, base: CommitmentRecord, round: RoundId): State {
    if base.hex in d.machine.history then Note(d, round, base.nodeId, CommitmentKind, CodeReplayDetected)
    else
      d.(machine := d.machine.(history := d.machine.history + {base.hex},
                               commitments := d.machine.commitments[base.nodeId := base]),
         log := d.log.(keys := d.log.keys + {(base.nodeId, base.round)}, commitments := d.log.commitments + [base]))
  }

  lemma TakeBase(t: Topology, d: State, base: CommitmentRecord, round: RoundId)
    requires Sound(t, base) && base.round == round
    requires InRound(t, d, round) && d.machine.proposal.None? && base.nodeId !in d.machine.commitments
    ensures Take(t, CommitPhase, d, round, Message(base.nodeId, Commitment(base))) == AfterBase(t, d, base, round)
  {
    ReplayRefusal(t, d.machine, base);
    hide CommitmentRefusal, Sound;
    if base.hex !in d.machine.history {
      LogDuplicateUnreachable(t, d, base);
    }
    hide InRound;
  }

  /** Sent again, such a record is refused: as a duplicate if it was accepted, as a replay if not. */
  lemma RepeatIsRefused(t: Topology, d: State, base: CommitmentRecord, round: RoundId)
    requires Sound(t, base) && base.round == round
    requires d.machine.current == round && d.machine.proposal.None? && base.nodeId !in d.machine.commitments
    ensures RefusedWith(t, AfterBase(t, d, base, round).machine, base.nodeId,
                        if base.hex !in d.machine.history then CodeDuplicateCommitment else CodeReplayDetected,
                        Message(base.nodeId, Commitment(base)))
  {
  }

  /** The state after a node's whole broadcast is drained. */
  ghost function AfterTurn(cfg: Config, d: State, node: NodeId, round: RoundId, replays: nat, doubles: nat): State
    requires BuildCommitment(cfg, node, round).Success? || HasDropped(cfg.events, node, round)
  {
    var replayed := WithNotes(d, Notes(node, round, CodeReplayDetected, replays));
    if HasDropped(cfg.events, node, round) then replayed
    else
      var base := BuildCommitment(cfg, node, round).value;
      var isNew := base.hex !in d.machine.history;
      WithNotes(AfterBase(cfg.topology, replayed, base, round),
                Notes(node, round, if isNew then CodeDuplicateCommitment else CodeReplayDetected, doubles))
  }

  function ReplaysOf(cfg: Config, historical: Memory, node: NodeId, round: RoundId): seq<Message> {
    Replays(EventsForRound(cfg.events, node, round), historical, round)
  }

  function DoublesOf(cfg: Config, historical: Memory, node: NodeId, round: RoundId): seq<Message> {
    Doubles(EventsForRound(cfg.events, node, round), historical)
  }

  function MemoryAfter(cfg: Config, historical: Memory, node: NodeId, round: RoundId): Memory {
    var base := BuildCommitment(cfg, node, round);
    if HasDropped(cfg.events, node, round) || base.Failure? then historical
    else historical[(node, round) := base.value]
  }

  lemma NotesKeepRound(t: Topology, d: State, round: RoundId, node: NodeId, code: Code, n: nat)
    requires InRound(t, d, round) && code != NoCode
    ensures InRound(t, WithNotes(d, Notes(node, round, code, n)), round)
  {
    hide CommitmentsLegit, HoldsRound, RemembersHexes, AllBacked, HoldsProposal, AllEmbed, AllSigned;
    hide CommitmentsBefore, ProposalsBefore, ProofsBefore, ReceiptsBefore, KeysUnique;
  }

  lemma DrainTurn(cfg: Config, historical: Memory, d: State, node: NodeId, rest: seq<NodeId>, round: RoundId)
    requires AgentsFit(cfg) && InRound(cfg.topology, d, round)
    requires ReadyFor(cfg, historical, d.machine, [node] + rest, round)
    requires !HasDropped(cfg.events, node, round) && BuildCommitment(cfg, node, round).Success?
    ensures var historical' := MemoryAfter(cfg, historical, node, round);
      var replays, doubles := ReplaysOf(cfg, historical, node, round), DoublesOf(cfg, historical', node, round);
      var base := BuildCommitment(cfg, node, round).value;
      Drain(cfg.topology, CommitPhase, d, round, replays + [Message(node, Commitment(base))] + doubles)
      == AfterTurn(cfg, d, node, round, |replays|, |doubles|)
  {
    hide InRound, Take, BuildCommitment, AgentsFit, HasDropped, AfterBase, Remembers, Distinct, Replays, Doubles, Sound;
    var t := cfg.topology;
    var base := BuildCommitment(cfg, node, round).value;
    var historical' := MemoryAfter(cfg, historical, node, round);
    var replays, doubles := ReplaysOf(cfg, historical, node, round), DoublesOf(cfg, historical', node, round);
    var msg := Message(node, Commitment(base));
    assert node in [node] + rest;
    DrainReplays(cfg, historical, d, node, round);
    var d1 := WithNotes(d, Notes(node, round, CodeReplayDetected, |replays|));
    NotesKeepRound(t, d, round, node, CodeReplayDetected, |replays|);
    BaseFacts(cfg, node, round);
    TakeBase(t, d1, base, round);
    var d2 := AfterBase(t, d1, base, round);
    DrainDoubles(cfg, historical', d1, base, round);
    DrainAppend(t, CommitPhase, d, round, replays + [msg], doubles);
    DrainAppend(t, CommitPhase, d, round, replays, [msg]);
    assert [msg][1..] == [] && [msg][0] == msg;
    assert Drain(t, CommitPhase, d1, round, [msg]) == d2;
  }

  /** A node's replays are drained before its commitment, and refused one by one. */
  lemma DrainReplays(cfg: Config, historical: Memory, d: State, node: NodeId, round: RoundId)
    requires AgentsFit(cfg) && Remembers(cfg, historical, d.machine.history)
    requires d.machine.current == round && d.machine.proposal.None? && node !in d.machine.commitments
    ensures var replays := ReplaysOf(cfg, historical, node, round);
      Drain(cfg.topology, CommitPhase, d, round, replays)
      == WithNotes(d, Notes(node, round, CodeReplayDetected, |replays|))
  {
    hide AgentsFit, Remembers, Replays, RefusedWith, Drain;
    var events := EventsForRound(cfg.events, node, round);
    ReplaysAreRefused(cfg, historical, d.machine, node, round, events);
    RefusedMessages(cfg.topology, d, round, node, CodeReplayDetected, Replays(events, historical, round));
  }

  /** A node's double commits come after its commitment, and are refused one by one. */
  lemma DrainDoubles(cfg: Config, historical: Memory, d: State, base: CommitmentRecord, round: RoundId)
    requires Sound(cfg.topology, base) && base.round == round
    requires d.machine.current == round && d.machine.proposal.None? && base.nodeId !in d.machine.commitments
    requires (base.nodeId, round) in historical && historical[(base.nodeId, round)] == base
    ensures var doubles := DoublesOf(cfg, historical, base.nodeId, round);
      Drain(cfg.topology, CommitPhase, AfterBase(cfg.topology, d, base, round), round, doubles)
      == WithNotes(AfterBase(cfg.topology, d, base, round),
                   Notes(base.nodeId, round,
                         if base.hex !in d.machine.history then CodeDuplicateCommitment
                         else CodeReplayDetected, |doubles|))
  {
    hide Sound, RefusedWith, AfterBase, Doubles, Drain;
    RepeatIsRefused(cfg.topology, d, base, round);
    var events := EventsForRound(cfg.events, base.nodeId, round);
    DoublesRepeat(historical, base.nodeId, round, events);
    RefusedMessages(cfg.topology, AfterBase(cfg.topology, d, base, round), round, base.nodeId,
                    if base.hex !in d.machine.history then CodeDuplicateCommitment else CodeReplayDetected,
                    Doubles(events, historical));
  }

  lemma DrainDroppedTurn(cfg: Config, historical: Memory, d: State, node: NodeId, rest: seq<NodeId>, round: RoundId)
    requires AgentsFit(cfg) && HasDropped(cfg.events, node, round)
    requires ReadyFor(cfg, historical, d.machine, [node] + rest, round)
    ensures var replays := ReplaysOf(cfg, historical, node, round);
      Drain(cfg.topology, CommitPhase, d, round, replays) == AfterTurn(cfg, d, node, round, |replays|, 0)
  {
    hide AgentsFit, HasDropped, Remembers, Distinct, Replays, Drain;
    assert node in [node] + rest;
    DrainReplays(cfg, historical, d, node, round);
  }

  /** What becomes of the machine in a node's turn. */
  ghost function MachineAfter(cfg: Config, m: Machine, node: NodeId, round: RoundId): Machine {
    var base := BuildCommitment(cfg, node, round);
    if HasDropped(cfg.events, node, round) || base.Failure? || base.value.hex in m.history then m
    else m.(history := m.history + {base.value.hex}, commitments := m.commitments[base.value.nodeId := base.value])
  }

  lemma AfterTurnMachine(cfg: Config, d: State, node: NodeId, round: RoundId, replays: nat, doubles: nat)
    requires BuildCommitment(cfg, node, round).Success? || HasDropped(cfg.events, node, round)
    ensures AfterTurn(cfg, d, node, round, replays, doubles).machine == MachineAfter(cfg, d.machine, node, round)
  {
    hide BuildCommitment, HasDropped;
  }

  /** After a node's turn its own commitment's hex is in the history, accepted or not. */
  lemma ReadyForRest(cfg: Config, historical: Memory, m: Machine, node: NodeId, rest: seq<NodeId>, round: RoundId)
    requires AgentsFit(cfg)
    requires ReadyFor(cfg, historical, m, [node] + rest, round)
    ensures ReadyFor(cfg, MemoryAfter(cfg, historical, node, round), MachineAfter(cfg, m, node, round), rest, round)
  {
    hide BuildCommitment, AgentsFit, HasDropped, Remembers, Distinct;
    var base := BuildCommitment(cfg, node, round);
    if base.Success? {
      OwnNode(cfg, node, round);
    }
    DistinctTail(node, rest);
    assert forall n :: n in rest ==> n in [node] + rest;
    if base.Success? && !HasDropped(cfg.events, node, round) {
      RemembersMore(cfg, historical, m.history, node, round);
    }
  }

  lemma OwnNode(cfg: Config, node: NodeId, round: RoundId)
    requires BuildCommitment(cfg, node, round).Success?
    ensures BuildCommitment(cfg, node, round).value.nodeId == node
    ensures BuildCommitment(cfg, node, round).value.round == round
  {
    hide Digest, HexEncode;
  }

  lemma DistinctTail(node: NodeId, rest: seq<NodeId>)
    requires Distinct([node] + rest)
    ensures node !in rest && Distinct(rest)
  {
    var nodes := [node] + rest;
    forall i | 0 <= i < |rest| ensures rest[i] != node {
      assert nodes[0] != nodes[i + 1];
    }
    forall i, j | 0 <= i < j < |rest| ensures rest[i] != rest[j] {
      assert nodes[i + 1] != nodes[j + 1];
    }
  }

  lemma RemembersMore(cfg: Config, historical: Memory, history: set<string>, node: NodeId, round: RoundId)
    requires Remembers(cfg, historical, history) && BuildCommitment(cfg, node, round).Success?
    ensures var base := BuildCommitment(cfg, node, round).value;
      && Remembers(cfg, historical[(node, round) := base], history + {base.hex})
      && (base.hex in history ==> Remembers(cfg, historical[(node, round) := base], history))
  {
    hide BuildCommitment;
  }

  // ---------------------------------------------------------------------
  // The whole broadcast
  // ---------------------------------------------------------------------

  /** A node's turn, drained. */
  ghost function TurnDrained(cfg: Config, historical: Memory, d: State, node: NodeId, round: RoundId): State
    requires BuildCommitment(cfg, node, round).Success? || HasDropped(cfg.events, node, round)
  {
    AfterTurn(cfg, d, node, round, |ReplaysOf(cfg, historical, node, round)|,
              |DoublesOf(cfg, MemoryAfter(cfg, historical, node, round), node, round)|)
  }

  /** Every agent has a turn: it is silent, or its commitment can be built. */
  ghost predicate AllReady(cfg: Config, nodes: seq<NodeId>, round: RoundId) {
    forall n :: n in nodes ==> BuildCommitment(cfg, n, round).Success? || HasDropped(cfg.events, n, round)
  }

  /** The turns of `nodes`, broadcast and drained one after the other. */
  ghost function TurnsDrained(cfg: Config, historical: Memory, d: State, nodes: seq<NodeId>, round: RoundId): State
    requires AllReady(cfg, nodes, round)
    decreases |nodes|
  {
    if nodes == [] then d
    else
      assert forall n :: n in nodes[1..] ==> n in nodes;
      TurnsDrained(cfg, MemoryAfter(cfg, historical, nodes[0], round),
                   TurnDrained(cfg, historical, d, nodes[0], round), nodes[1..], round)
  }

  ghost function TurnsMemory(cfg: Config, historical: Memory, nodes: seq<NodeId>, round: RoundId): Memory
    decreases |nodes|
  {
    if nodes == [] then historical
    else TurnsMemory(cfg, MemoryAfter(cfg, historical, nodes[0], round), nodes[1..], round)
  }

  function DroppedNotes(cfg: Config, nodes: seq<NodeId>, round: RoundId): seq<RejectionRecord>
    decreases |nodes|
  {
    if nodes == [] then []
    else
      (if HasDropped(cfg.events, nodes[0], round)
       then [RejectionRecord(round, nodes[0], CommitmentKind, NodeDropped)] else [])
      + DroppedNotes(cfg, nodes[1..], round)
  }

  lemma {:induction false} TurnsSucceed(cfg: Config, s: State, nodes: seq<NodeId>, round: RoundId)
    ensures Turns(cfg, s, nodes, round).Success? <==> AllReady(cfg, nodes, round)
    decreases |nodes|
  {
    hide BuildCommitment, HasDropped, Replays, Doubles;
    if nodes != [] {
      var first := NodeTurn(cfg, s, nodes[0], round);
      assert nodes == [nodes[0]] + nodes[1..];
      if first.Success? {
        TurnsSucceed(cfg, first.value.state, nodes[1..], round);
      } else {
        assert nodes[0] in nodes;
      }
    }
  }

  /** The broadcast itself only takes note of dropped nodes and remembers what was sent. */
  lemma {:induction false} TurnsState(cfg: Config, s: State, nodes: seq<NodeId>, round: RoundId)
    requires Turns(cfg, s, nodes, round).Success?
    ensures Turns(cfg, s, nodes, round).value.state ==
            WithNotes(s, DroppedNotes(cfg, nodes, round)).(historical := TurnsMemory(cfg, s.historical, nodes, round))
    decreases |nodes|
  {
    hide BuildCommitment, HasDropped, Replays, Doubles;
    if nodes == [] {
      assert s.log.rejections + [] == s.log.rejections;
    } else {
      var s1 := NodeTurn(cfg, s, nodes[0], round).value.state;
      TurnsState(cfg, s1, nodes[1..], round);
      assert s1.historical == MemoryAfter(cfg, s.historical, nodes[0], round);
      var d, d1 := DroppedNotes(cfg, nodes, round), DroppedNotes(cfg, nodes[1..], round);
      assert s1.log.rejections + d1 == s.log.rejections + d;
    }
  }

  lemma OneTurn(cfg: Config, s: State, d: State, node: NodeId, rest: seq<NodeId>, round: RoundId)
    requires AgentsFit(cfg) && InRound(cfg.topology, d, round)
    requires ReadyFor(cfg, s.historical, d.machine, [node] + rest, round)
    requires NodeTurn(cfg, s, node, round).Success?
    ensures AllReady(cfg, [node], round)
    ensures NodeTurn(cfg, s, node, round).value.state.historical == MemoryAfter(cfg, s.historical, node, round)
    ensures Drain(cfg.topology, CommitPhase, d, round, NodeTurn(cfg, s, node, round).value.messages)
            == TurnDrained(cfg, s.historical, d, node, round)
  {
    hide BuildCommitment, HasDropped, AgentsFit, InRound, ReadyFor, Replays, Doubles, Drain;
    if HasDropped(cfg.events, node, round) {
      DrainDroppedTurn(cfg, s.historical, d, node, rest, round);
      AfterTurnOfDropped(cfg, d, node, round, |ReplaysOf(cfg, s.historical, node, round)|,
                         |DoublesOf(cfg, MemoryAfter(cfg, s.historical, node, round), node, round)|, 0);
    } else {
      DrainTurn(cfg, s.historical, d, node, rest, round);
    }
  }

  lemma AfterTurnOfDropped(cfg: Config, d: State, node: NodeId, round: RoundId, replays: nat, n: nat, m: nat)
    requires HasDropped(cfg.events, node, round)
    ensures AfterTurn(cfg, d, node, round, replays, n) == AfterTurn(cfg, d, node, round, replays, m)
  {
  }

  /** Draining the whole commit broadcast is draining it turn by turn. */
  lemma {:induction false} DrainTurns(cfg: Config, s: State, d: State, nodes: seq<NodeId>, round: RoundId)
    requires AgentsFit(cfg) && InRound(cfg.topology, d, round)
    requires ReadyFor(cfg, s.historical, d.machine, nodes, round)
    requires Turns(cfg, s, nodes, round).Success? && AllReady(cfg, nodes, round)
    ensures var sent := Turns(cfg, s, nodes, round).value;
      && Drain(cfg.topology, CommitPhase, d, round, sent.messages) == TurnsDrained(cfg, s.historical, d, nodes, round)
      && ReadyFor(cfg, TurnsMemory(cfg, s.historical, nodes, round),
                  TurnsDrained(cfg, s.historical, d, nodes, round).machine, [], round)
    decreases |nodes|
  {
    hide BuildCommitment, HasDropped, AgentsFit, InRound, ReadyFor, NodeTurn, TurnDrained, MemoryAfter, Take;
    if nodes != [] {
      var node, rest := nodes[0], nodes[1..];
      assert nodes == [node] + rest;
      var first := NodeTurn(cfg, s, node, round).value;
      var others := Turns(cfg, first.state, rest, round).value;
      OneTurn(cfg, s, d, node, rest, round);
      var d1 := TurnDrained(cfg, s.historical, d, node, round);
      DrainKeepsCoupling(cfg.topology, CommitPhase, d, round, first.messages);
      ReadyForRest(cfg, s.historical, d.machine, node, rest, round);
      TurnDrainedMachine(cfg, s.historical, d, node, round);
      assert forall n :: n in rest ==> n in nodes;
      DrainTurns(cfg, first.state, d1, rest, round);
      DrainAppend(cfg.topology, CommitPhase, d, round, first.messages, others.messages);
    }
  }

  lemma TurnDrainedMachine(cfg: Config, historical: Memory, d: State, node: NodeId, round: RoundId)
    requires BuildCommitment(cfg, node, round).Success? || HasDropped(cfg.events, node, round)
    ensures TurnDrained(cfg, historical, d, node, round).machine == MachineAfter(cfg, d.machine, node, round)
  {
    hide BuildCommitment, HasDropped, AfterTurn, MachineAfter, Replays, Doubles;
    AfterTurnMachine(cfg, d, node, round, |ReplaysOf(cfg, historical, node, round)|,
                     |DoublesOf(cfg, MemoryAfter(cfg, historical, node, round), node, round)|);
  }

  // ---------------------------------------------------------------------
  // The commit phase of a run
  // ---------------------------------------------------------------------

  /** The start of a round in an in-process run. */
  ghost predicate Prepared(cfg: Config, s: State) {
    && AtRoundStart(cfg.topology, s)
    && Remembers(cfg, s.historical, s.machine.history)
    && forall k :: k in s.historical ==> k.1 < s.machine.current
  }

  lemma PreparedIsReady(cfg: Config, s: State)
    requires Prepared(cfg, s)
    ensures ReadyFor(cfg, s.historical, s.machine, SortedKeys(cfg.agents.Keys), s.machine.current)
    ensures InRound(cfg.topology, s, s.machine.current)
  {
    StartIsInRound(cfg.topology, s);
    hide Coupled, Before, Remembers, Distinct;
  }

  /** What is at hand when the drain begins. */
  ghost function Announced(cfg: Config, s: State): State {
    var keys, round := SortedKeys(cfg.agents.Keys), s.machine.current;
    WithNotes(s, DroppedNotes(cfg, keys, round)).(historical := TurnsMemory(cfg, s.historical, keys, round))
  }

  /** The in-process commit phase, in closed form; it fails only when a commitment cannot be built. */
  lemma CommitRoundIs(cfg: Config, s: State)
    requires AgentsFit(cfg) && Prepared(cfg, s)
    ensures var keys, round := SortedKeys(cfg.agents.Keys), s.machine.current;
      && (CommitRound(cfg, InProcess, s, round).Success? <==> AllReady(cfg, keys, round))
      && (AllReady(cfg, keys, round) ==>
            var s' := TurnsDrained(cfg, s.historical, Announced(cfg, s), keys, round);
            && CommitRound(cfg, InProcess, s, round) == Success(s')
            && s'.historical == TurnsMemory(cfg, s.historical, keys, round)
            && Remembers(cfg, s'.historical, s'.machine.history)
            && s'.machine.current == round
            && (forall k :: k in s'.historical ==> k.1 <= round))
  {
    var keys, round := SortedKeys(cfg.agents.Keys), s.machine.current;
    PreparedIsReady(cfg, s);
    TurnsSucceed(cfg, s, keys, round);
    if AllReady(cfg, keys, round) {
      TurnsState(cfg, s, keys, round);
      TurnsKeepCoupling(cfg, s, keys, round);
      hide AgentsFit, InRound, Prepared, AllReady, Turns, Take, TurnsMemory, Remembers, TurnsDrained;
      var sent := Turns(cfg, s, keys, round).value;
      DrainTurns(cfg, s, sent.state, keys, round);
      DrainFrame(cfg.topology, CommitPhase, sent.state, round, sent.messages);
    }
  }

  /** After the commit phase a round touches neither the replay memory nor the history. */
  ghost predicate MemoryKept(s: State, s': State) {
    s'.historical == s.historical && s'.machine.history == s.machine.history && s'.machine.current == s.machine.current
  }

  lemma ProveRoundKeepsMemory(cfg: Config, net: Network, s: State, round: RoundId, p: ProposalRecord)
    requires ProveRound(cfg, net, s, round, p).Success?
    ensures MemoryKept(s, ProveRound(cfg, net, s, round, p).value.state)
  {
    hide Drain, ProofMessages, ReceiptMessages, HasProof;
    var msgs := net.Deliver(round, ProvePhase, ProofMessages(cfg, s.machine, round, [p.requester, p.provider]).value);
    DrainFrame(cfg.topology, ProvePhase, s, round, msgs);
    var drained := Drain(cfg.topology, ProvePhase, s, round, msgs);
    DrainFrame(cfg.topology, ReceiptPhase, drained, round,
               net.Deliver(round, ReceiptPhase, ReceiptMessages(cfg, round, p)));
  }

  lemma ProposeRoundKeepsMemory(cfg: Config, net: Network, s: State, round: RoundId)
    requires ProposeRound(cfg, net, s, round).Success?
    ensures MemoryKept(s, ProposeRound(cfg, net, s, round).value.state)
  {
    hide Drain, ProveRound, Derive, ProviderSnapshot, ProposerOf, LastProposal;
    var turn := BroadcastProposal(cfg, s, round).value;
    if turn.proceed {
      var msgs := net.Deliver(round, ProposePhase, turn.messages);
      DrainFrame(cfg.topology, ProposePhase, turn.state, round, msgs);
      var drained := Drain(cfg.topology, ProposePhase, turn.state, round, msgs);
      var p := LastProposal(drained.log.proposals, round);
      if p.Some? {
        ProveRoundKeepsMemory(cfg, net, drained, round, p.value);
      }
    }
  }

  lemma FallbackPrepares(cfg: Config, s: State)
    requires InRound(cfg.topology, s, s.machine.current) && Fallback(s).Success?
    requires Remembers(cfg, s.historical, s.machine.history)
    requires forall k :: k in s.historical ==> k.1 <= s.machine.current
    ensures Prepared(cfg, Fallback(s).value)
  {
    hide InRound, AtRoundStart, Remembers;
    FallbackCouples(cfg.topology, s, s.machine.current);
  }

  lemma RunRoundKeepsMemory(cfg: Config, net: Network, s: State)
    requires RunRound(cfg, net, s).Success?
    ensures CommitRound(cfg, net, s, s.machine.current).Success?
    ensures MemoryKept(CommitRound(cfg, net, s, s.machine.current).value, RunRound(cfg, net, s).value.state)
  {
    hide CommitRound, ProposeRound;
    var round := s.machine.current;
    var committed := CommitRound(cfg, net, s, round).value;
    if cfg.topology.SoleRequester().value.id in committed.machine.commitments {
      ProposeRoundKeepsMemory(cfg, net, committed, round);
    }
  }

  /** A round that falls back leaves the next one prepared. */
  lemma RunRoundPrepares(cfg: Config, s: State)
    requires AgentsFit(cfg) && Prepared(cfg, s) && RunRound(cfg, InProcess, s).Success?
    ensures var result := RunRound(cfg, InProcess, s).value;
      Fallback(result.state).Success? ==> Prepared(cfg, Fallback(result.state).value)
  {
    var round := s.machine.current;
    CommitRoundIs(cfg, s);
    RunRoundCouples(cfg, InProcess, s);
    RunRoundKeepsMemory(cfg, InProcess, s);
    hide AgentsFit, CommitRound, RunRound, TurnsDrained, TurnsMemory, AtRoundStart, InRound, Remembers, Announced;
    var result := RunRound(cfg, InProcess, s).value;
    if Fallback(result.state).Success? {
      FallbackPrepares(cfg, result.state);
    }
  }

  lemma InitialIsPrepared(cfg: Config, runId: string)
    ensures Prepared(cfg, Initial(runId))
  {
    InitialIsStart(cfg.topology, runId);
    hide AtRoundStart;
  }
}
