/**
  The commit phase of an in-process round when the hash does not collide: who is accepted, and which
  rejections the scenario's replays and double commits leave, one by one.
 */
module ExactCommits {
  import opened Results
  import opened Protocol
  import opened Ordering
  import opened RoundMachines
  import opened CoordinationLogs
  import opened Runs
  import opened Verifier
  import opened Coupling
  import opened CommitPhases
  import opened HonestCommitments

  predicate IsLive(cfg: Config, id: NodeId, round: RoundId) {
    id in cfg.agents && !HasDropped(cfg.events, id, round)
  }

  // ---------------------------------------------------------------------
  // Counting scheduled attacks
  // ---------------------------------------------------------------------

  /** A replay has something to replay when it names an earlier round its node took part in. */
  predicate ReplayLands(all: seq<Event>, e: Event, id: NodeId, round: RoundId) {
    && e.ReplayPriorCommitment? && e.node == id && e.round == round
    && e.fromRound < round && !HasDropped(all, id, e.fromRound)
  }

  function CountReplays(all: seq<Event>, events: seq<Event>, id: NodeId, round: RoundId): nat {
    if events == [] then 0
    else (if ReplayLands(all, events[0], id, round) then 1 else 0) + CountReplays(all, events[1..], id, round)
  }

  function CountDoubles(events: seq<Event>, id: NodeId, round: RoundId): nat {
    if events == [] then 0
    else (if events[0] == DoubleCommit(id, round) then 1 else 0) + CountDoubles(events[1..], id, round)
  }

  /** The replay memory holds exactly the earlier rounds the node was live in. */
  ghost predicate Chronicled(cfg: Config, historical: Memory, id: NodeId, round: RoundId) {
    forall from: RoundId :: from != round ==>
      ((id, from) in historical <==> from < round && !HasDropped(cfg.events, id, from))
  }

  lemma {:induction false} ReplaysAreCounted(cfg: Config, historical: Memory, id: NodeId, round: RoundId,
                                             events: seq<Event>)
    requires Chronicled(cfg, historical, id, round) && (id, round) !in historical
    ensures |Replays(EventsForRound(events, id, round), historical, round)|
            == CountReplays(cfg.events, events, id, round)
  {
    hide HasDropped;
    if events != [] {
      ReplaysAreCounted(cfg, historical, id, round, events[1..]);
      var e, rest := events[0], EventsForRound(events[1..], id, round);
      if Targets(e, id, round) {
        assert EventsForRound(events, id, round) == [e] + rest;
        assert ([e] + rest)[1..] == rest;
      } else {
        assert EventsForRound(events, id, round) == rest;
      }
    }
  }

  lemma {:induction false} DoublesAreCounted(historical: Memory, id: NodeId, round: RoundId, events: seq<Event>)
    requires (id, round) in historical
    ensures |Doubles(EventsForRound(events, id, round), historical)| == CountDoubles(events, id, round)
  {
    if events != [] {
      DoublesAreCounted(historical, id, round, events[1..]);
      var e, rest := events[0], EventsForRound(events[1..], id, round);
      if Targets(e, id, round) {
        assert EventsForRound(events, id, round) == [e] + rest;
        assert ([e] + rest)[1..] == rest;
      } else {
        assert EventsForRound(events, id, round) == rest;
      }
    }
  }

  // ---------------------------------------------------------------------
  // What the phase leaves on the log
  // ---------------------------------------------------------------------

  /** The commitments of the live ones among `nodes`. */
  ghost function Commits(cfg: Config, nodes: seq<NodeId>, round: RoundId): seq<CommitmentRecord>
    requires FullyLocal(cfg) && forall n :: n in nodes ==> n in cfg.agents
  {
    if nodes == [] then []
    else
      (if IsLive(cfg, nodes[0], round) then [Own(cfg, nodes[0], round)] else [])
      + Commits(cfg, nodes[1..], round)
  }

  lemma {:induction false} CommitsMembers(cfg: Config, nodes: seq<NodeId>, round: RoundId)
    requires FullyLocal(cfg) && forall n :: n in nodes ==> n in cfg.agents
    ensures forall c :: c in Commits(cfg, nodes, round) <==>
      c.nodeId in nodes && IsLive(cfg, c.nodeId, round) && c == Own(cfg, c.nodeId, round)
  {
    hide FullyLocal, HasDropped, BuildCommitment, Sound;
    if nodes != [] {
      assert nodes == [nodes[0]] + nodes[1..];
      CommitsMembers(cfg, nodes[1..], round);
    }
  }

  /** Per node, its landed replays and then, if it is live, its double commits. */
  function CommitNotes(cfg: Config, nodes: seq<NodeId>, round: RoundId): seq<RejectionRecord> {
    if nodes == [] then []
    else
      Notes(nodes[0], round, CodeReplayDetected, CountReplays(cfg.events, cfg.events, nodes[0], round))
      + (if IsLive(cfg, nodes[0], round)
         then Notes(nodes[0], round, CodeDuplicateCommitment, CountDoubles(cfg.events, nodes[0], round)) else [])
      + CommitNotes(cfg, nodes[1..], round)
  }

  /** Everything on the log so far is some agent's own commitment. */
  ghost predicate AllOwn(cfg: Config, cs: seq<CommitmentRecord>)
    requires FullyLocal(cfg)
  {
    forall c :: c in cs ==> c.nodeId in cfg.agents && c.round < cfg.maxRounds && c == Own(cfg, c.nodeId, c.round)
  }

  /** So a node that has not committed yet brings a hex never seen before. */
  lemma NewHex(cfg: Config, d: State, id: NodeId, round: RoundId)
    requires FullyLocal(cfg) && NoCollisions(cfg) && id in cfg.agents && round < cfg.maxRounds
    requires InRound(cfg.topology, d, round) && AllOwn(cfg, d.log.commitments) && id !in d.machine.commitments
    ensures Own(cfg, id, round).hex !in d.machine.history
  {
    hide FullyLocal, NoCollisions, CommitmentsLegit, AllBacked, HoldsProposal, AllEmbed, AllSigned, AllLabelled,
         Before, KeysUnique;
    forall c | c in d.log.commitments ensures c.hex != Own(cfg, id, round).hex {
      assert (c.nodeId, c.round) != (id, round);
      HonestHexesDiffer(cfg, c.nodeId, c.round, id, round);
    }
  }

  /** The log has gained these commitments and these rejections, and nothing else. */
  ghost predicate Gained(log: Log, log': Log, cs: seq<CommitmentRecord>, rs: seq<RejectionRecord>) {
    && log'.commitments == log.commitments + cs && log'.rejections == log.rejections + rs
    && log'.proposals == log.proposals && log'.proofs == log.proofs && log'.receipts == log.receipts
  }

  lemma GainedMore(a: Log, b: Log, c: Log, cs: seq<CommitmentRecord>, rs: seq<RejectionRecord>,
                   cs': seq<CommitmentRecord>, rs': seq<RejectionRecord>)
    requires Gained(a, b, cs, rs) && Gained(b, c, cs', rs')
    ensures Gained(a, c, cs + cs', rs + rs')
  {
    assert a.commitments + cs + cs' == a.commitments + (cs + cs');
    assert a.rejections + rs + rs' == a.rejections + (rs + rs');
  }

  ghost predicate TurnPre(cfg: Config, historical: Memory, d: State, node: NodeId, round: RoundId)
    requires FullyLocal(cfg)
  {
    && node in cfg.agents && round < cfg.maxRounds
    && InRound(cfg.topology, d, round) && d.machine.proposal.None? && node !in d.machine.commitments
    && AllOwn(cfg, d.log.commitments)
    && Chronicled(cfg, historical, node, round) && (node, round) !in historical
  }

  /** A silent node's turn leaves one rejection for each replay that lands. */
  lemma SilentTurn(cfg: Config, historical: Memory, d: State, node: NodeId, round: RoundId)
    requires FullyLocal(cfg) && TurnPre(cfg, historical, d, node, round) && HasDropped(cfg.events, node, round)
    ensures var d' := TurnDrained(cfg, historical, d, node, round);
      && d' == WithNotes(d, Notes(node, round, CodeReplayDetected, CountReplays(cfg.events, cfg.events, node, round)))
      && InRound(cfg.topology, d', round)
  {
    ReplaysAreCounted(cfg, historical, node, round, cfg.events);
    hide FullyLocal, HasDropped, InRound, CountReplays, Replays, Doubles;
    NotesKeepRound(cfg.topology, d, round, node, CodeReplayDetected, |ReplaysOf(cfg, historical, node, round)|);
  }

  /** A live node's turn: its replays are refused, its commitment is accepted, its double commits are refused. */
  lemma LiveTurn(cfg: Config, historical: Memory, d: State, node: NodeId, round: RoundId)
    requires FullyLocal(cfg) && NoCollisions(cfg)
    requires TurnPre(cfg, historical, d, node, round) && !HasDropped(cfg.events, node, round)
    ensures var base := Own(cfg, node, round);
      var d1 := WithNotes(d, Notes(node, round, CodeReplayDetected, CountReplays(cfg.events, cfg.events, node, round)));
      var d2 := AfterBase(cfg.topology, d1, base, round);
      && base.hex !in d.machine.history
      && TurnDrained(cfg, historical, d, node, round)
         == WithNotes(d2, Notes(node, round, CodeDuplicateCommitment, CountDoubles(cfg.events, node, round)))
      && InRound(cfg.topology, TurnDrained(cfg, historical, d, node, round), round)
  {
    var t, base := cfg.topology, Own(cfg, node, round);
    NewHex(cfg, d, node, round);
    ReplaysAreCounted(cfg, historical, node, round, cfg.events);
    DoublesAreCounted(MemoryAfter(cfg, historical, node, round), node, round, cfg.events);
    hide FullyLocal, HasDropped, InRound, CountReplays, CountDoubles, Replays, Doubles, BuildCommitment, Sound,
         NoCollisions;
    var replays := CountReplays(cfg.events, cfg.events, node, round);
    NotesKeepRound(t, d, round, node, CodeReplayDetected, replays);
    var d1 := WithNotes(d, Notes(node, round, CodeReplayDetected, replays));
    TakeBase(t, d1, base, round);
    TakeKeepsCoupling(t, CommitPhase, d1, round, Message(node, Commitment(base)));
    hide Take;
    NotesKeepRound(t, AfterBase(t, d1, base, round), round, node, CodeDuplicateCommitment,
                   CountDoubles(cfg.events, node, round));
  }

  lemma LiveGain(t: Topology, d: State, base: CommitmentRecord, round: RoundId,
                 before: seq<RejectionRecord>, after: seq<RejectionRecord>)
    requires base.hex !in d.machine.history
    ensures var d' := WithNotes(AfterBase(t, WithNotes(d, before), base, round), after);
      && Gained(d.log, d'.log, [base], before + after)
      && d'.machine.proposal == d.machine.proposal
      && d'.machine.commitments == d.machine.commitments[base.nodeId := base]
  {
    assert d.log.rejections + before + after == d.log.rejections + (before + after);
  }

  lemma SoleTurn(cfg: Config, node: NodeId, round: RoundId)
    requires FullyLocal(cfg) && node in cfg.agents
    ensures Commits(cfg, [node], round) == if IsLive(cfg, node, round) then [Own(cfg, node, round)] else []
    ensures CommitNotes(cfg, [node], round) ==
      Notes(node, round, CodeReplayDetected, CountReplays(cfg.events, cfg.events, node, round))
      + (if IsLive(cfg, node, round)
         then Notes(node, round, CodeDuplicateCommitment, CountDoubles(cfg.events, node, round)) else [])
  {
    hide FullyLocal, HasDropped, CountReplays, CountDoubles, BuildCommitment, Sound;
    assert [node][1..] == [];
  }

  lemma OneTurnExact(cfg: Config, historical: Memory, d: State, node: NodeId, round: RoundId)
    requires FullyLocal(cfg) && NoCollisions(cfg) && TurnPre(cfg, historical, d, node, round)
    ensures BuildCommitment(cfg, node, round).Success?
    ensures var d' := TurnDrained(cfg, historical, d, node, round);
      && Gained(d.log, d'.log, Commits(cfg, [node], round), CommitNotes(cfg, [node], round))
      && InRound(cfg.topology, d', round) && d'.machine.proposal.None?
      && d'.machine.commitments == if IsLive(cfg, node, round) then d.machine.commitments[node := Own(cfg, node, round)]
                                   else d.machine.commitments
  {
    var base := Own(cfg, node, round);
    hide FullyLocal, HasDropped, InRound, CountReplays, CountDoubles, BuildCommitment, Sound, NoCollisions, TurnDrained;
    hide Commits, CommitNotes, WithNotes, AfterBase, Notes;
    SoleTurn(cfg, node, round);
    var replays := Notes(node, round, CodeReplayDetected, CountReplays(cfg.events, cfg.events, node, round));
    if HasDropped(cfg.events, node, round) {
      SilentTurn(cfg, historical, d, node, round);
      assert replays + [] == replays;
      SilentGain(d, replays);
    } else {
      LiveTurn(cfg, historical, d, node, round);
      LiveGain(cfg.topology, d, base, round, replays,
               Notes(node, round, CodeDuplicateCommitment, CountDoubles(cfg.events, node, round)));
    }
  }

  lemma SilentGain(d: State, notes: seq<RejectionRecord>)
    ensures Gained(d.log, WithNotes(d, notes).log, [], notes) && WithNotes(d, notes).machine == d.machine
  {
  }

  lemma CommitsCons(cfg: Config, node: NodeId, rest: seq<NodeId>, round: RoundId)
    requires FullyLocal(cfg) && node in cfg.agents && forall n :: n in rest ==> n in cfg.agents
    ensures forall n :: n in [node] + rest ==> n in cfg.agents
    ensures Commits(cfg, [node] + rest, round) == Commits(cfg, [node], round) + Commits(cfg, rest, round)
    ensures CommitNotes(cfg, [node] + rest, round) == CommitNotes(cfg, [node], round) + CommitNotes(cfg, rest, round)
  {
    hide FullyLocal, HasDropped, BuildCommitment, Sound, CountReplays, CountDoubles;
    assert ([node] + rest)[1..] == rest && [node][1..] == [];
  }

  lemma {:induction false} TurnsExact(cfg: Config, historical: Memory, d: State, nodes: seq<NodeId>, round: RoundId)
    requires FullyLocal(cfg) && NoCollisions(cfg) && round < cfg.maxRounds
    requires InRound(cfg.topology, d, round) && d.machine.proposal.None?
    requires AllOwn(cfg, d.log.commitments) && Distinct(nodes)
    requires forall n :: n in nodes ==>
      n in cfg.agents && n !in d.machine.commitments && Chronicled(cfg, historical, n, round)
          && (n, round) !in historical
    ensures AllReady(cfg, nodes, round)
    ensures var d' := TurnsDrained(cfg, historical, d, nodes, round);
      && Gained(d.log, d'.log, Commits(cfg, nodes, round), CommitNotes(cfg, nodes, round))
      && InRound(cfg.topology, d', round) && d'.machine.proposal.None?
      && AllOwn(cfg, d'.log.commitments)
    decreases |nodes|
  {
    hide FullyLocal, HasDropped, InRound, CountReplays, CountDoubles, BuildCommitment, Sound, NoCollisions,
         TurnDrained, Chronicled, Gained;
    if nodes == [] {
      assert Gained(d.log, d.log, [], []) by { GainedNothing(d.log); }
    } else {
      var node, rest := nodes[0], nodes[1..];
      assert nodes == [node] + rest;
      DistinctTail(node, rest);
      assert TurnPre(cfg, historical, d, node, round);
      OneTurnExact(cfg, historical, d, node, round);
      var d1 := TurnDrained(cfg, historical, d, node, round);
      var historical1 := MemoryAfter(cfg, historical, node, round);
      GainedOwn(cfg, d.log, d1.log, node, round, CommitNotes(cfg, [node], round));
      forall n | n in rest
        ensures n in cfg.agents && n !in d1.machine.commitments && Chronicled(cfg, historical1, n, round)
                && (n, round) !in historical1
      {
        assert n in nodes;
        StillChronicled(cfg, historical, node, n, round);
      }
      TurnsExact(cfg, historical1, d1, rest, round);
      CommitsCons(cfg, node, rest, round);
      GainedMore(d.log, d1.log, TurnsDrained(cfg, historical1, d1, rest, round).log,
                 Commits(cfg, [node], round), CommitNotes(cfg, [node], round),
                 Commits(cfg, rest, round), CommitNotes(cfg, rest, round));
    }
  }

  lemma GainedNothing(log: Log)
    ensures Gained(log, log, [], [])
  {
  }

  lemma GainedOwn(cfg: Config, log: Log, log': Log, node: NodeId, round: RoundId, rs: seq<RejectionRecord>)
    requires FullyLocal(cfg) && node in cfg.agents && round < cfg.maxRounds && AllOwn(cfg, log.commitments)
    requires Gained(log, log', Commits(cfg, [node], round), rs)
    ensures AllOwn(cfg, log'.commitments)
  {
    CommitsMembers(cfg, [node], round);
    hide FullyLocal, HasDropped, BuildCommitment, Sound, Commits;
  }

  lemma StillChronicled(cfg: Config, historical: Memory, node: NodeId, n: NodeId, round: RoundId)
    requires Chronicled(cfg, historical, n, round) && n != node && (n, round) !in historical
    ensures Chronicled(cfg, MemoryAfter(cfg, historical, node, round), n, round)
    ensures (n, round) !in MemoryAfter(cfg, historical, node, round)
  {
    hide BuildCommitment, HasDropped;
  }

  // ---------------------------------------------------------------------
  // The phase as a whole
  // ---------------------------------------------------------------------

  lemma MemoryAfterKeys(cfg: Config, historical: Memory, node: NodeId, round: RoundId, id: NodeId, from: RoundId)
    requires FullyLocal(cfg) && node in cfg.agents
    ensures (id, from) in MemoryAfter(cfg, historical, node, round) <==>
      (id, from) in historical || (id == node && from == round && !HasDropped(cfg.events, id, round))
  {
    BuildIsHash(cfg, node, round);
    hide FullyLocal, HasDropped, BuildCommitment;
  }

  lemma {:induction false} MemoryKeys(cfg: Config, historical: Memory, nodes: seq<NodeId>, round: RoundId, id: NodeId,
                                      from: RoundId)
    requires FullyLocal(cfg) && forall n :: n in nodes ==> n in cfg.agents
    ensures (id, from) in TurnsMemory(cfg, historical, nodes, round) <==>
      (id, from) in historical || (id in nodes && from == round && !HasDropped(cfg.events, id, round))
    decreases |nodes|
  {
    hide FullyLocal, HasDropped, BuildCommitment, MemoryAfter;
    if nodes != [] {
      MemoryAfterKeys(cfg, historical, nodes[0], round, id, from);
      assert id in nodes <==> id == nodes[0] || id in nodes[1..];
      MemoryKeys(cfg, MemoryAfter(cfg, historical, nodes[0], round), nodes[1..], round, id, from);
    }
  }

  /** The replay memory at the start of `round`. */
  ghost predicate AllChronicled(cfg: Config, historical: Memory, round: RoundId) {
    forall id :: id in cfg.agents ==> Chronicled(cfg, historical, id, round)
  }

  /** The start of a round of an in-process run whose hash does not collide. */
  ghost predicate Poised(cfg: Config, s: State)
    requires FullyLocal(cfg)
  {
    && Prepared(cfg, s) && s.machine.current < cfg.maxRounds
    && AllOwn(cfg, s.log.commitments) && AllChronicled(cfg, s.historical, s.machine.current)
  }

  /** The rejections of a commit phase: dropped nodes first, then each node's refused attacks. */
  function CommitRejections(cfg: Config, round: RoundId): seq<RejectionRecord> {
    var keys := SortedKeys(cfg.agents.Keys);
    DroppedNotes(cfg, keys, round) + CommitNotes(cfg, keys, round)
  }

  ghost function RoundCommits(cfg: Config, round: RoundId): seq<CommitmentRecord>
    requires FullyLocal(cfg)
  {
    Commits(cfg, SortedKeys(cfg.agents.Keys), round)
  }

  /** Where the commit phase ends. */
  ghost predicate Committed(cfg: Config, s: State, s': State)
    requires FullyLocal(cfg)
  {
    var round := s.machine.current;
    && Gained(s.log, s'.log, RoundCommits(cfg, round), CommitRejections(cfg, round))
    && InRound(cfg.topology, s', round) && s'.machine.proposal.None?
    && AllOwn(cfg, s'.log.commitments)
  }

  lemma EveryoneCanCommit(cfg: Config, nodes: seq<NodeId>, round: RoundId)
    requires FullyLocal(cfg) && forall n :: n in nodes ==> n in cfg.agents
    ensures AllReady(cfg, nodes, round)
  {
    forall n | n in nodes ensures BuildCommitment(cfg, n, round).Success? {
      BuildIsHash(cfg, n, round);
    }
  }

  /** Nobody has committed yet, and the memory is complete. */
  lemma NobodyHasCommitted(cfg: Config, s: State)
    requires FullyLocal(cfg) && Poised(cfg, s)
    ensures var round, keys := s.machine.current, SortedKeys(cfg.agents.Keys);
      && Distinct(keys) && s.machine.proposal.None?
      && InRound(cfg.topology, s, round) && AllReady(cfg, keys, round)
      && forall n :: n in keys ==>
           n in cfg.agents && n !in s.machine.commitments && Chronicled(cfg, s.historical, n, round)
               && (n, round) !in s.historical
  {
    StartIsInRound(cfg.topology, s);
    EveryoneCanCommit(cfg, SortedKeys(cfg.agents.Keys), s.machine.current);
    hide FullyLocal, Coupled, Before, InRound, Remembers, AllReady, AllOwn, Chronicled;
  }

  lemma AnnouncedIsReady(cfg: Config, s: State)
    requires FullyLocal(cfg) && Poised(cfg, s)
    ensures var d, round, keys := Announced(cfg, s), s.machine.current, SortedKeys(cfg.agents.Keys);
      && InRound(cfg.topology, d, round) && d.machine.proposal.None?
      && d.log.commitments == s.log.commitments && Distinct(keys)
      && Gained(s.log, d.log, [], DroppedNotes(cfg, keys, round))
      && forall n :: n in keys ==>
           n in cfg.agents && n !in d.machine.commitments && Chronicled(cfg, s.historical, n, round)
               && (n, round) !in s.historical
  {
    hide FullyLocal, Poised, InRound, AllReady, Turns, DroppedNotes, TurnsMemory, Chronicled, SortedKeys, Distinct;
    var keys, round := SortedKeys(cfg.agents.Keys), s.machine.current;
    NobodyHasCommitted(cfg, s);
    TurnsSucceed(cfg, s, keys, round);
    TurnsState(cfg, s, keys, round);
    TurnsKeepCoupling(cfg, s, keys, round);
    assert s.log.commitments + [] == s.log.commitments;
  }

  lemma CommitRoundExact(cfg: Config, s: State)
    requires FullyLocal(cfg) && NoCollisions(cfg) && Poised(cfg, s)
    ensures var c := CommitRound(cfg, InProcess, s, s.machine.current);
      && c.Success? && Committed(cfg, s, c.value)
      && forall id, from: RoundId :: id in cfg.agents ==>
           ((id, from) in c.value.historical <==> from <= s.machine.current && !HasDropped(cfg.events, id, from))
  {
    var keys, round, d := SortedKeys(cfg.agents.Keys), s.machine.current, Announced(cfg, s);
    AnnouncedIsReady(cfg, s);
    CommitRoundIs(cfg, s);
    TurnsExact(cfg, s.historical, d, keys, round);
    hide FullyLocal, NoCollisions, HasDropped, InRound, CommitRound, TurnsDrained, TurnsMemory, Remembers, AllReady,
         Announced;
    hide AtRoundStart, DroppedNotes, CommitNotes, Commits, Own, Gained;
    var s' := TurnsDrained(cfg, s.historical, d, keys, round);
    GainedMore(s.log, d.log, s'.log, [], DroppedNotes(cfg, keys, round), Commits(cfg, keys, round),
               CommitNotes(cfg, keys, round));
    assert [] + Commits(cfg, keys, round) == Commits(cfg, keys, round);
    forall id, from: RoundId | id in cfg.agents
      ensures (id, from) in s'.historical <==> from <= round && !HasDropped(cfg.events, id, from)
    {
      MemoryKeys(cfg, s.historical, keys, round, id, from);
      assert Chronicled(cfg, s.historical, id, round);
      assert id in keys;
    }
  }
}
