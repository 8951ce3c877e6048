/**
  Nothing delivered is lost and nothing logged is invented: over any transport every drained message
  leaves exactly one entry, and every accepted entry was delivered by its own author.
 */
module Conservation {
  import opened Results
  import opened Protocol
  import opened Ordering
  import opened Matching
  import opened Proposer
  import opened RoundMachines
  import opened CoordinationLogs
  import opened Artifacts
  import opened Runs
  import opened CommitPhases

  function Size(log: Log): nat {
    |log.commitments| + |log.proposals| + |log.proofs| + |log.receipts| + |log.rejections|
  }

  /** The log with the payload filed among the accepted entries of its kind. */
  function Filed(log: Log, p: Payload): Log {
    match p
    case Commitment(c) => log.(commitments := log.commitments + [c], keys := log.keys + {(c.nodeId, c.round)})
    case Proposal(x) => log.(proposals := log.proposals + [x])
    case Proof(x) => log.(proofs := log.proofs + [x])
    case Receipt(x) => log.(receipts := log.receipts + [x])
  }

  /** The message is accepted from its own author as it is, or refused with one rejection that names its origin. */
  ghost predicate Disposed(log: Log, log': Log, round: RoundId, msg: Message) {
    || (log' == Filed(log, msg.payload) && msg.origin == Author(msg.payload))
    || (exists kind, code :: log' == Reject(log, RejectionRecord(round, msg.origin, kind, code)))
  }

  lemma Refusal(log: Log, round: RoundId, msg: Message, kind: Kind, code: Code)
    ensures Disposed(log, Reject(log, RejectionRecord(round, msg.origin, kind, code)), round, msg)
  {
  }

  lemma TakeCommitmentDisposes(t: Topology, s: State, round: RoundId, msg: Message)
    requires msg.payload.Commitment? && msg.origin == Author(msg.payload)
    ensures Disposed(s.log, TakeCommitment(t, s, round, msg.payload.commitment).log, round, msg)
  {
    hide AcceptCommitment, CodeOf, Disposed, Reject;
    var accepted := AcceptCommitment(t, s.machine, msg.payload.commitment);
    if accepted.Failure? {
      Refusal(s.log, round, msg, CommitmentKind, CodeOf(accepted.error));
    } else if AppendCommitment(s.log, msg.payload.commitment).None? {
      Refusal(s.log, round, msg, CommitmentKind, LogDuplicate);
    } else {
      AcceptanceDisposes(s.log, round, msg);
    }
  }

  lemma AcceptanceDisposes(log: Log, round: RoundId, msg: Message)
    requires msg.origin == Author(msg.payload)
    ensures Disposed(log, Filed(log, msg.payload), round, msg)
  {
  }

  lemma TakeProposalDisposes(t: Topology, s: State, round: RoundId, msg: Message)
    requires msg.payload.Proposal? && msg.origin == Author(msg.payload)
    ensures Disposed(s.log, TakeProposal(t, s, round, msg.payload.proposal).log, round, msg)
  {
    hide AcceptProposal, CodeOf, Disposed, Reject;
    var accepted := AcceptProposal(t, s.machine, msg.payload.proposal);
    if accepted.Failure? {
      Refusal(s.log, round, msg, ProposalKind, CodeOf(accepted.error));
    } else {
      AcceptanceDisposes(s.log, round, msg);
    }
  }

  lemma TakeProofDisposes(s: State, round: RoundId, msg: Message)
    requires msg.payload.Proof? && msg.origin == Author(msg.payload)
    ensures Disposed(s.log, TakeProof(s, round, msg.payload.proof).log, round, msg)
  {
    hide ExtractCommitmentHex, Disposed, Reject;
    Refusal(s.log, round, msg, ProofKind, WrongRound);
    Refusal(s.log, round, msg, ProofKind, UnknownCommitment);
    Refusal(s.log, round, msg, ProofKind, PublicInputsMismatch);
    AcceptanceDisposes(s.log, round, msg);
  }

  lemma TakeReceiptDisposes(s: State, round: RoundId, msg: Message)
    requires msg.payload.Receipt? && msg.origin == Author(msg.payload)
    ensures Disposed(s.log, TakeReceipt(s, round, msg.payload.receipt).log, round, msg)
  {
    hide Disposed, Reject;
    Refusal(s.log, round, msg, ReceiptKind, WrongRound);
    Refusal(s.log, round, msg, ReceiptKind, MissingSignature);
    AcceptanceDisposes(s.log, round, msg);
  }

  /** One drained message, one entry. */
  lemma TakeDisposes(t: Topology, phase: Phase, s: State, round: RoundId, msg: Message)
    ensures Disposed(s.log, Take(t, phase, s, round, msg).log, round, msg)
  {
    hide Disposed, TakeCommitment, TakeProposal, TakeProof, TakeReceipt, Reject;
    if msg.payload.Kind() != PhaseKind(phase) {
      Refusal(s.log, round, msg, msg.payload.Kind(), OutOfPhase);
    } else if msg.origin != Author(msg.payload) {
      Refusal(s.log, round, msg, PhaseKind(phase), OriginMismatch);
    } else {
      match msg.payload
      case Commitment(_) => TakeCommitmentDisposes(t, s, round, msg);
      case Proposal(_) => TakeProposalDisposes(t, s, round, msg);
      case Proof(_) => TakeProofDisposes(s, round, msg);
      case Receipt(_) => TakeReceiptDisposes(s, round, msg);
    }
  }

  // ---------------------------------------------------------------------
  // Where entries come from
  // ---------------------------------------------------------------------

  /** `p` was delivered, by the node it speaks for. */
  ghost predicate CameFromAuthor(p: Payload, msgs: seq<Message>) {
    Message(Author(p), p) in msgs
  }

  /** Every accepted entry was delivered by its own author. */
  ghost predicate Sourced(log: Log, msgs: seq<Message>) {
    && (forall c :: c in log.commitments ==> CameFromAuthor(Commitment(c), msgs))
    && (forall p :: p in log.proposals ==> CameFromAuthor(Proposal(p), msgs))
    && (forall p :: p in log.proofs ==> CameFromAuthor(Proof(p), msgs))
    && (forall r :: r in log.receipts ==> CameFromAuthor(Receipt(r), msgs))
  }

  /** Messages and locally raised rejections, against entries. */
  ghost predicate Balanced(log: Log, delivered: seq<Message>, raised: nat) {
    Size(log) == |delivered| + raised && Sourced(log, delivered)
  }

  lemma DisposedBalances(log: Log, log': Log, round: RoundId, msg: Message, delivered: seq<Message>, raised: nat)
    requires Disposed(log, log', round, msg) && Balanced(log, delivered, raised)
    ensures Balanced(log', delivered + [msg], raised)
  {
    assert forall m :: m in delivered + [msg] <==> m in delivered || m == msg;
  }

  lemma {:induction false} DrainBalances(t: Topology, phase: Phase, s: State, round: RoundId, msgs: seq<Message>,
                                         delivered: seq<Message>, raised: nat)
    requires Balanced(s.log, delivered, raised)
    ensures Balanced(Drain(t, phase, s, round, msgs).log, delivered + msgs, raised)
    decreases |msgs|
  {
    hide Take, Balanced, Disposed;
    if msgs == [] {
      assert delivered + [] == delivered;
    } else {
      TakeDisposes(t, phase, s, round, msgs[0]);
      var s1 := Take(t, phase, s, round, msgs[0]);
      DisposedBalances(s.log, s1.log, round, msgs[0], delivered, raised);
      DrainBalances(t, phase, s1, round, msgs[1..], delivered + [msgs[0]], raised);
      assert delivered + [msgs[0]] + msgs[1..] == delivered + msgs;
    }
  }

  lemma NotesBalance(log: Log, log': Log, notes: seq<RejectionRecord>, delivered: seq<Message>, raised: nat)
    requires Balanced(log, delivered, raised) && log' == log.(rejections := log.rejections + notes)
    ensures Balanced(log', delivered, raised + |notes|)
  {
  }

  // ---------------------------------------------------------------------
  // Whole runs
  // ---------------------------------------------------------------------

  /** What a stretch of a run drains, and how many rejections it raises on its own. */
  datatype Traffic = Traffic(delivered: seq<Message>, raised: nat) {
    function Then(more: Traffic): Traffic {
      Traffic(delivered + more.delivered, raised + more.raised)
    }
  }

  function ProveTraffic(cfg: Config, net: Network, s: State, round: RoundId, p: ProposalRecord): Traffic
    requires ProveRound(cfg, net, s, round, p).Success?
  {
    var sent := ProofMessages(cfg, s.machine, round, [p.requester, p.provider]).value;
    var proofs := net.Deliver(round, ProvePhase, sent);
    var drained := Drain(cfg.topology, ProvePhase, s, round, proofs);
    if HasProof(drained.log.proofs, p.requester, round) && HasProof(drained.log.proofs, p.provider, round) then
      Traffic(proofs + net.Deliver(round, ReceiptPhase, ReceiptMessages(cfg, round, p)), 0)
    else Traffic(proofs, 0)
  }

  function ProposeTraffic(cfg: Config, net: Network, s: State, round: RoundId): Traffic
    requires ProposeRound(cfg, net, s, round).Success?
  {
    var turn := BroadcastProposal(cfg, s, round).value;
    if !turn.proceed then Traffic([], 1)
    else
      var proposals := net.Deliver(round, ProposePhase, turn.messages);
      var drained := Drain(cfg.topology, ProposePhase, turn.state, round, proposals);
      match LastProposal(drained.log.proposals, round)
      case None => Traffic(proposals, 0)
      case Some(p) => Traffic(proposals, 0).Then(ProveTraffic(cfg, net, drained, round, p))
  }

  function CommitTraffic(cfg: Config, net: Network, s: State, round: RoundId): Traffic
    requires CommitRound(cfg, net, s, round).Success?
  {
    Traffic(net.Deliver(round, CommitPhase, BroadcastCommitments(cfg, s, round).value.messages),
            |DroppedNotes(cfg, SortedKeys(cfg.agents.Keys), round)|)
  }

  function RoundTraffic(cfg: Config, net: Network, s: State): Traffic
    requires RunRound(cfg, net, s).Success?
  {
    var round := s.machine.current;
    var committed := CommitRound(cfg, net, s, round).value;
    CommitTraffic(cfg, net, s, round).Then(
      if cfg.topology.SoleRequester().value.id !in committed.machine.commitments then Traffic([], 1)
      else ProposeTraffic(cfg, net, committed, round))
  }

  function RunTraffic(cfg: Config, net: Network, s: State, finalRound: RoundId, left: nat): Traffic
    requires Rounds(cfg, net, s, finalRound, left).Success?
    decreases left
  {
    if left == 0 then Traffic([], 0)
    else
      var result := RunRound(cfg, net, s).value;
      if result.finalized then RoundTraffic(cfg, net, s)
      else
        RoundTraffic(cfg, net, s).Then(
          RunTraffic(cfg, net, Fallback(result.state).value, s.machine.current, left - 1))
  }

  ghost predicate BalancedBy(log: Log, before: Traffic, more: Traffic) {
    Balanced(log, before.Then(more).delivered, before.Then(more).raised)
  }

  lemma ProveBalances(cfg: Config, net: Network, s: State, round: RoundId, p: ProposalRecord, before: Traffic)
    requires ProveRound(cfg, net, s, round, p).Success? && Balanced(s.log, before.delivered, before.raised)
    ensures BalancedBy(ProveRound(cfg, net, s, round, p).value.state.log, before, ProveTraffic(cfg, net, s, round, p))
  {
    hide Drain, ProofMessages, ReceiptMessages, HasProof, Balanced;
    var t := cfg.topology;
    var proofs := net.Deliver(round, ProvePhase, ProofMessages(cfg, s.machine, round, [p.requester, p.provider]).value);
    var receipts := net.Deliver(round, ReceiptPhase, ReceiptMessages(cfg, round, p));
    DrainBalances(t, ProvePhase, s, round, proofs, before.delivered, before.raised);
    DrainBalances(t, ReceiptPhase, Drain(t, ProvePhase, s, round, proofs), round, receipts,
                  before.delivered + proofs, before.raised);
    assert before.delivered + proofs + receipts == before.delivered + (proofs + receipts);
  }

  lemma BroadcastRaises(cfg: Config, s: State, round: RoundId, before: Traffic)
    requires BroadcastProposal(cfg, s, round).Success? && Balanced(s.log, before.delivered, before.raised)
    ensures var turn := BroadcastProposal(cfg, s, round).value;
      Balanced(turn.state.log, before.delivered, before.raised + if turn.proceed then 0 else 1)
  {
    hide Derive, ProviderSnapshot, ProposerOf, Balanced;
    var turn := BroadcastProposal(cfg, s, round).value;
    if !turn.proceed {
      NotesBalance(s.log, turn.state.log, [turn.state.log.rejections[|s.log.rejections|]], before.delivered,
                   before.raised);
    }
  }

  lemma ThenIsAssociative(a: Traffic, b: Traffic, c: Traffic)
    ensures a.Then(b).Then(c) == a.Then(b.Then(c))
  {
    assert a.delivered + b.delivered + c.delivered == a.delivered + (b.delivered + c.delivered);
  }

  lemma ProposeBalances(cfg: Config, net: Network, s: State, round: RoundId, before: Traffic)
    requires ProposeRound(cfg, net, s, round).Success? && Balanced(s.log, before.delivered, before.raised)
    ensures BalancedBy(ProposeRound(cfg, net, s, round).value.state.log, before, ProposeTraffic(cfg, net, s, round))
  {
    hide Drain, BroadcastProposal, ProveRound, ProveTraffic, LastProposal, Balanced;
    BroadcastRaises(cfg, s, round, before);
    var turn := BroadcastProposal(cfg, s, round).value;
    if turn.proceed {
      var proposals := net.Deliver(round, ProposePhase, turn.messages);
      DrainBalances(cfg.topology, ProposePhase, turn.state, round, proposals, before.delivered, before.raised);
      var drained := Drain(cfg.topology, ProposePhase, turn.state, round, proposals);
      var p := LastProposal(drained.log.proposals, round);
      if p.Some? {
        ProveBalances(cfg, net, drained, round, p.value, before.Then(Traffic(proposals, 0)));
        ThenIsAssociative(before, Traffic(proposals, 0), ProveTraffic(cfg, net, drained, round, p.value));
      }
    } else {
      assert before.delivered + [] == before.delivered;
    }
  }

  lemma CommitBalances(cfg: Config, net: Network, s: State, round: RoundId, before: Traffic)
    requires CommitRound(cfg, net, s, round).Success? && Balanced(s.log, before.delivered, before.raised)
    ensures BalancedBy(CommitRound(cfg, net, s, round).value.log, before, CommitTraffic(cfg, net, s, round))
  {
    hide Drain, Turns, Balanced, DroppedNotes, TurnsMemory;
    var keys := SortedKeys(cfg.agents.Keys);
    TurnsState(cfg, s, keys, round);
    var sent := Turns(cfg, s, keys, round).value;
    var notes := DroppedNotes(cfg, keys, round);
    NotesBalance(s.log, sent.state.log, notes, before.delivered, before.raised);
    DrainBalances(cfg.topology, CommitPhase, sent.state, round, net.Deliver(round, CommitPhase, sent.messages),
                  before.delivered, before.raised + |notes|);
  }

  lemma RoundBalances(cfg: Config, net: Network, s: State, before: Traffic)
    requires RunRound(cfg, net, s).Success? && Balanced(s.log, before.delivered, before.raised)
    ensures BalancedBy(RunRound(cfg, net, s).value.state.log, before, RoundTraffic(cfg, net, s))
  {
    hide CommitRound, ProposeRound, CommitTraffic, ProposeTraffic, Balanced;
    var round := s.machine.current;
    CommitBalances(cfg, net, s, round, before);
    var c, commit := CommitRound(cfg, net, s, round).value, CommitTraffic(cfg, net, s, round);
    if cfg.topology.SoleRequester().value.id in c.machine.commitments {
      ProposeBalances(cfg, net, c, round, before.Then(commit));
      ThenIsAssociative(before, commit, ProposeTraffic(cfg, net, c, round));
    } else {
      var r := RunRound(cfg, net, s).value.state;
      NotesBalance(c.log, r.log, [r.log.rejections[|c.log.rejections|]], before.Then(commit).delivered,
                   before.Then(commit).raised);
      ThenIsAssociative(before, commit, Traffic([], 1));
      assert before.Then(commit).delivered + [] == before.Then(commit).delivered;
    }
  }

  lemma {:induction false} RoundsBalance(cfg: Config, net: Network, s: State, finalRound: RoundId, left: nat,
                                         before: Traffic)
    requires Rounds(cfg, net, s, finalRound, left).Success? && Balanced(s.log, before.delivered, before.raised)
    ensures BalancedBy(Rounds(cfg, net, s, finalRound, left).value.state.log, before,
                       RunTraffic(cfg, net, s, finalRound, left))
    decreases left
  {
    hide RunRound, RoundTraffic, Balanced, Fallback;
    if left > 0 {
      RoundBalances(cfg, net, s, before);
      var result, first := RunRound(cfg, net, s).value, RoundTraffic(cfg, net, s);
      if !result.finalized {
        var next := Fallback(result.state).value;
        FallbackKeepsLog(result.state);
        RoundsBalance(cfg, net, next, s.machine.current, left - 1, before.Then(first));
        ThenIsAssociative(before, first, RunTraffic(cfg, net, next, s.machine.current, left - 1));
      }
    } else {
      assert before.delivered + [] == before.delivered;
    }
  }

  lemma FallbackKeepsLog(s: State)
    requires Fallback(s).Success?
    ensures Fallback(s).value.log == s.log
  {
  }

  /**
    Over any transport and any run: messages drained plus rejections raised locally make up the log,
    entry for entry, and every accepted entry was drained from its own author.
   */
  lemma RunConserves(cfg: Config, net: Network, runId: string)
    requires Run(cfg, net, runId).Success?
    ensures var log, traffic := Run(cfg, net, runId).value.log, RunTraffic(cfg, net, Initial(runId), 0, cfg.maxRounds);
      Size(log) == |traffic.delivered| + traffic.raised && Sourced(log, traffic.delivered)
  {
    hide Rounds, RunTraffic, ConfigRefusal;
    RoundsBalance(cfg, net, Initial(runId), 0, cfg.maxRounds, Traffic([], 0));
    var traffic := RunTraffic(cfg, net, Initial(runId), 0, cfg.maxRounds);
    assert [] + traffic.delivered == traffic.delivered;
  }
}
