/**
  One in-process round in closed form, when the hash does not collide: who is matched, what is
  logged, and exactly when the round settles.
 */
module ExactRounds {
  import opened Results
  import opened Bytes
  import opened Protocol
  import opened Ordering
  import opened Matching
  import opened Proposer
  import opened RoundMachines
  import opened CoordinationLogs
  import opened Artifacts
  import opened Preimages
  import opened Runs
  import opened Verifier
  import opened Coupling
  import opened Soundness
  import opened Completeness
  import opened CommitPhases
  import opened HonestCommitments
  import opened ExactCommits

  // ---------------------------------------------------------------------
  // The match of a round, from topology and scenario alone
  // ---------------------------------------------------------------------

  ghost function TheRequester(t: Topology): (n: NodeConfig)
    requires ValidTopology(t)
    ensures n in t.nodes && n.role == Requester && n.required.Some? && n.required.value.text != []
    ensures t.Find(n.id) == Some(n) && t.SoleRequester() == Some(n)
  {
    var n := t.SoleRequester().value;
    FindIsMember(t, n);
    assert ValidNode(n);
    n
  }

  ghost function TheProposer(t: Topology, round: RoundId): (p: NodeId)
    requires ValidTopology(t)
    ensures ProposerOf(t, round) == Success(p)
    ensures exists n :: n in t.nodes && n.role == Provider && n.id == p
  {
    ProposerExists(t, round);
    ProposerOf(t, round).value
  }

  /** The providers that could serve in `round`: live, and claiming the needed capability. */
  ghost function Capable(cfg: Config, round: RoundId): set<NodeId>
    requires ValidTopology(cfg.topology)
  {
    set n | n in cfg.topology.nodes && n.role == Provider
            && TheRequester(cfg.topology).required.value in n.claims
            && !HasDropped(cfg.events, n.id, round) :: n.id
  }

  /** The capable provider with the least key. */
  ghost function Winner(cfg: Config, round: RoundId): (w: Option<NodeId>)
    requires ValidTopology(cfg.topology)
    ensures w.None? <==> Capable(cfg, round) == {}
    ensures w.Some? ==> IsLeast(w.value, Capable(cfg, round))
  {
    if Capable(cfg, round) == {} then None else Some(Least(Capable(cfg, round)))
  }

  /** The match made in `round`, if one is. */
  ghost function RoundProposal(cfg: Config, round: RoundId): Option<ProposalRecord>
    requires ValidTopology(cfg.topology)
  {
    var q, w := TheRequester(cfg.topology), Winner(cfg, round);
    if HasDropped(cfg.events, q.id, round) || w.None? then None
    else Some(ProposalRecord(TheProposer(cfg.topology, round), round, q.id, w.value, q.required.value))
  }

  /** A round settles with a live requester, a capable provider, and no scheduled tampering with either's proof. */
  ghost predicate Settles(cfg: Config, round: RoundId)
    requires ValidTopology(cfg.topology)
  {
    var q, w := TheRequester(cfg.topology).id, Winner(cfg, round);
    && !HasDropped(cfg.events, q, round) && w.Some?
    && !ProofIsTampered(cfg.events, q, round) && !ProofIsTampered(cfg.events, w.value, round)
  }

  // ---------------------------------------------------------------------
  // What is committed
  // ---------------------------------------------------------------------

  /** A commitment carries the topology's public intent for its node. */
  lemma OwnIntent(cfg: Config, id: NodeId, round: RoundId)
    requires FullyLocal(cfg) && id in cfg.agents
    ensures cfg.topology.Find(id).Some?
    ensures var n, c := cfg.topology.Find(id).value, Own(cfg, id, round);
      match n.role
      case Requester => n.required.Some? && c.intent == RequesterIntent(id, round, n.required.value)
      case Provider => c.intent == ProviderIntent(id, round, n.claims)
  {
    hide Digest, HexEncode;
    BuildIsHash(cfg, id, round);
    assert ValidNode(cfg.topology.Find(id).value);
  }

  lemma NodesAreFound(cfg: Config, n: NodeConfig)
    requires FullyLocal(cfg) && n in cfg.topology.nodes
    ensures n.id in cfg.agents && cfg.topology.Find(n.id) == Some(n)
  {
    FindIsMember(cfg.topology, n);
  }

  /** The machine holds exactly the live nodes' commitments of `round`. */
  ghost predicate Holds(cfg: Config, m: Machine, round: RoundId)
    requires FullyLocal(cfg)
  {
    && m.current == round
    && (forall id :: id in m.commitments <==> IsLive(cfg, id, round))
    && (forall id :: id in m.commitments ==> m.commitments[id] == Own(cfg, id, round))
  }

  lemma LiveAreHeld(cfg: Config, s: State, s': State)
    requires FullyLocal(cfg) && Poised(cfg, s) && Committed(cfg, s, s')
    ensures Holds(cfg, s'.machine, s.machine.current)
  {
    hide FullyLocal, Own, Poised, Gained, Coupled, Before, AllOwn, IsLive;
    HeldAreLive(cfg, s, s');
  }

  lemma HeldAreLive(cfg: Config, s: State, s': State)
    requires FullyLocal(cfg) && Poised(cfg, s) && Committed(cfg, s, s')
    ensures forall id :: id in s'.machine.commitments <==> IsLive(cfg, id, s.machine.current)
    ensures forall id :: id in s'.machine.commitments ==> s'.machine.commitments[id] == Own(cfg, id, s.machine.current)
  {
    var round, keys := s.machine.current, SortedKeys(cfg.agents.Keys);
    CommitsMembers(cfg, keys, round);
    hide FullyLocal, HasDropped, Own, BuildCommitment, Commits, CommitRejections;
    hide CommitmentsLegit, RemembersHexes, AllBacked, HoldsProposal, AllEmbed, AllSigned, AllLabelled, Remembers,
         KeysUnique;
    var cs := s'.log.commitments;
    forall id ensures id in s'.machine.commitments <==> IsLive(cfg, id, round) {
      if IsLive(cfg, id, round) {
        assert id in keys;
        assert Own(cfg, id, round) in RoundCommits(cfg, round);
        assert Own(cfg, id, round) in cs;
      }
      if id in s'.machine.commitments {
        var c := s'.machine.commitments[id];
        assert c in cs && c.round == round;
        assert c !in s.log.commitments;
        assert c in RoundCommits(cfg, round);
      }
    }
  }

  // ---------------------------------------------------------------------
  // Proposing
  // ---------------------------------------------------------------------

  /** A live node's commitment matches the requester's just when the node is capable. */
  lemma FeasibleIsCapable(cfg: Config, id: NodeId, round: RoundId)
    requires FullyLocal(cfg) && IsLive(cfg, id, round)
    ensures var q := TheRequester(cfg.topology);
      Feasible(Own(cfg, q.id, round).intent, Own(cfg, id, round).intent, round) <==> id in Capable(cfg, round)
  {
    var q := TheRequester(cfg.topology);
    OwnIntent(cfg, q.id, round);
    OwnIntent(cfg, id, round);
    var n := cfg.topology.Find(id).value;
    if id in Capable(cfg, round) {
      var n' :| n' in cfg.topology.nodes && n'.role == Provider && q.required.value in n'.claims && n'.id == id;
      NodesAreFound(cfg, n');
    }
    hide FullyLocal, HasDropped, BuildCommitment, Own, TheRequester;
  }

  lemma CapableIsLive(cfg: Config, round: RoundId)
    requires FullyLocal(cfg)
    ensures forall id :: id in Capable(cfg, round) ==>
      IsLive(cfg, id, round) && id != TheRequester(cfg.topology).id && cfg.topology.Find(id).Some?
  {
    forall id | id in Capable(cfg, round)
      ensures IsLive(cfg, id, round) && id != TheRequester(cfg.topology).id && cfg.topology.Find(id).Some?
    {
      var n :| n in cfg.topology.nodes && n.role == Provider && n.id == id && !HasDropped(cfg.events, n.id, round);
      NodesAreFound(cfg, n);
      NodesAreFound(cfg, TheRequester(cfg.topology));
    }
  }

  /** Candidate formation finds the winner. */
  lemma WinnerIsDerived(cfg: Config, m: Machine, round: RoundId)
    requires FullyLocal(cfg) && Holds(cfg, m, round) && IsLive(cfg, TheRequester(cfg.topology).id, round)
    ensures var q, w := TheRequester(cfg.topology), Winner(cfg, round);
      Derive(round, m.commitments[q.id], ProviderSnapshot(m, q.id)) ==
      Success(if w.Some? then Some(Candidate(q.id, w.value, q.required.value)) else None)
  {
    var q, w := TheRequester(cfg.topology), Winner(cfg, round);
    var keys, providers, req := SortedKeys(m.commitments.Keys), ProviderSnapshot(m, q.id), m.commitments[q.id];
    OwnIntent(cfg, q.id, round);
    CapableIsLive(cfg, round);
    assert req == Own(cfg, q.id, round);
    DeriveIsLeastMatch(round, req, providers);
    hide FullyLocal, HasDropped, BuildCommitment, Derive, Capable, Feasible, SortedKeys, Others, Winner, TheRequester;
    var d := Derive(round, req, providers);
    forall id | id in Capable(cfg, round)
      ensures Own(cfg, id, round) in providers && Feasible(req.intent, Own(cfg, id, round).intent, round)
    {
      FeasibleIsCapable(cfg, id, round);
      assert id in keys;
      OthersMembers(m.commitments, keys, q.id, Own(cfg, id, round));
    }
    forall c | c in providers && Feasible(req.intent, c.intent, round)
      ensures c.nodeId in Capable(cfg, round) && c == Own(cfg, c.nodeId, round)
    {
      OthersMembers(m.commitments, keys, q.id, c);
      var k :| k in keys && k != q.id && m.commitments[k] == c;
      FeasibleIsCapable(cfg, k, round);
    }
    assert w.Some? ==> d.value.Some? by {
      if w.Some? {
        assert Own(cfg, w.value, round) in providers;
      }
    }
    if d.value.Some? {
      var x := d.value.value.provider;
      assert IsLeastMatch(round, req.intent, (set p | p in providers), x);
      forall id | id in Capable(cfg, round) ensures Leq(x, id) {
        assert Own(cfg, id, round) in providers;
      }
      assert IsLeast(x, Capable(cfg, round));
      LeastUnique(Capable(cfg, round), x, w.value);
    }
  }

  /** The machine accepts the winner's proposal. */
  lemma ProposalIsAccepted(cfg: Config, m: Machine, round: RoundId)
    requires FullyLocal(cfg) && Holds(cfg, m, round) && m.proposal.None?
    requires RoundProposal(cfg, round).Some?
    ensures AcceptProposal(cfg.topology, m, RoundProposal(cfg, round).value)
            == Success(m.(proposal := Some(RoundProposal(cfg, round).value)))
  {
    var p := RoundProposal(cfg, round).value;
    hide FullyLocal, Own, HasDropped, IsLive, ProposerOf, AcceptProposal, RoundProposal;
    BothCommitted(cfg, round);
    WellFoundedIsAccepted(cfg.topology, m, p);
  }

  /** Both sides of the round's match are live, and their commitments say what the proposal says. */
  lemma BothCommitted(cfg: Config, round: RoundId)
    requires FullyLocal(cfg) && RoundProposal(cfg, round).Some?
    ensures var p := RoundProposal(cfg, round).value;
      && p.round == round && p.proposer == TheProposer(cfg.topology, round)
      && IsLive(cfg, p.requester, round) && IsLive(cfg, p.provider, round)
      && Own(cfg, p.requester, round).intent == RequesterIntent(p.requester, round, p.matched)
      && var prov := Own(cfg, p.provider, round).intent;
         prov.ProviderIntent? && prov.nodeId == p.provider && p.matched in prov.claims
  {
    hide HasDropped, BuildCommitment, Capable, TheRequester, Winner, TheProposer;
    var q, w := TheRequester(cfg.topology), Winner(cfg, round).value;
    CapableIsLive(cfg, round);
    NodesAreFound(cfg, q);
    OwnIntent(cfg, q.id, round);
    OwnIntent(cfg, w, round);
    FeasibleIsCapable(cfg, w, round);
    hide FullyLocal;
  }

  /** The machine accepts a rightful proposer's proposal that its two commitments support. */
  lemma WellFoundedIsAccepted(t: Topology, m: Machine, p: ProposalRecord)
    requires m.proposal.None? && p.round == m.current && ProposerOf(t, m.current) == Success(p.proposer)
    requires p.requester in m.commitments && p.provider in m.commitments
    requires m.commitments[p.requester].intent == RequesterIntent(p.requester, p.round, p.matched)
    requires var prov := m.commitments[p.provider].intent;
      prov.ProviderIntent? && prov.nodeId == p.provider && p.matched in prov.claims
    ensures AcceptProposal(t, m, p) == Success(m.(proposal := Some(p)))
  {
  }

  /** Where a proposing phase ends. */
  ghost function Proposed(cfg: Config, s: State, round: RoundId): State
    requires FullyLocal(cfg)
  {
    var q, p := TheRequester(cfg.topology).id, RoundProposal(cfg, round);
    if p.Some? then s.(machine := s.machine.(proposal := p), log := s.log.(proposals := s.log.proposals + [p.value]))
    else if HasDropped(cfg.events, q, round) then Note(s, round, q, RoundKind, CodeRequesterMissing)
    else Note(s, round, TheProposer(cfg.topology, round), ProposalKind, NoFeasibleProvider)
  }

  lemma ProposalIsDrained(cfg: Config, s: State, round: RoundId)
    requires FullyLocal(cfg) && Holds(cfg, s.machine, round) && s.machine.proposal.None?
    requires RoundProposal(cfg, round).Some?
    ensures var p := RoundProposal(cfg, round).value;
      Drain(cfg.topology, ProposePhase, s, round, [Message(p.proposer, Proposal(p))]) == Proposed(cfg, s, round)
  {
    ProposalIsAccepted(cfg, s.machine, round);
    var p := RoundProposal(cfg, round).value;
    DrainOne(cfg.topology, ProposePhase, s, round, Message(p.proposer, Proposal(p)));
    hide FullyLocal, RoundProposal, AcceptProposal, Holds, HasDropped, TheRequester, TheProposer, CodeOf, Note, Drain;
  }

  lemma BroadcastIsWinner(cfg: Config, s: State, round: RoundId)
    requires FullyLocal(cfg) && Holds(cfg, s.machine, round) && IsLive(cfg, TheRequester(cfg.topology).id, round)
    ensures var p := RoundProposal(cfg, round);
      BroadcastProposal(cfg, s, round) == Success(
        if p.Some? then ProposalTurn(s, [Message(p.value.proposer, Proposal(p.value))], true)
        else ProposalTurn(Proposed(cfg, s, round), [], false))
  {
    var t, q := cfg.topology, TheRequester(cfg.topology);
    var proposer := TheProposer(t, round);
    var n :| n in t.nodes && n.role == Provider && n.id == proposer;
    NodesAreFound(cfg, n);
    WinnerIsDerived(cfg, s.machine, round);
    hide FullyLocal, HasDropped, Derive, ProviderSnapshot, Winner, ProposerOf, TheProposer, TheRequester;
  }

  // ---------------------------------------------------------------------
  // Proving
  // ---------------------------------------------------------------------

  /** A participant's proof as logged: its artifact, or nothing if the artifact is tampered with. */
  ghost function ProofLogged(cfg: Config, id: NodeId, round: RoundId): seq<ProofRecord>
    requires FullyLocal(cfg) && id in cfg.agents
  {
    if ProofIsTampered(cfg.events, id, round) then [] else [ProofFor(cfg.crypto, Own(cfg, id, round), id, round)]
  }

  function ProofRefused(cfg: Config, id: NodeId, round: RoundId): seq<RejectionRecord> {
    if ProofIsTampered(cfg.events, id, round) then [RejectionRecord(round, id, ProofKind, PublicInputsMismatch)] else []
  }

  ghost function ProvedBy(cfg: Config, s: State, id: NodeId, round: RoundId): State
    requires FullyLocal(cfg) && id in cfg.agents
  {
    s.(log := s.log.(proofs := s.log.proofs + ProofLogged(cfg, id, round),
                     rejections := s.log.rejections + ProofRefused(cfg, id, round)))
  }

  lemma OwnAreCanonical(cfg: Config, cs: seq<CommitmentRecord>)
    requires FullyLocal(cfg) && AllOwn(cfg, cs)
    ensures AllCanonical(cs)
  {
    forall c | c in cs ensures Canonical(c.hex) {
      BuildIsHash(cfg, c.nodeId, c.round);
    }
  }

  /** Ready for the proofs of `round`. */
  ghost predicate Proving(cfg: Config, s: State, round: RoundId)
    requires FullyLocal(cfg)
  {
    InRound(cfg.topology, s, round) && AllOwn(cfg, s.log.commitments) && Holds(cfg, s.machine, round)
  }

  /** A live node's proof message, over the in-process bus. */
  ghost function ProofSent(cfg: Config, id: NodeId, round: RoundId): Message
    requires FullyLocal(cfg) && id in cfg.agents
  {
    Message(id, Proof(ProofOf(cfg, Own(cfg, id, round), id, round)))
  }

  lemma ProofIsOwn(cfg: Config, m: Machine, id: NodeId, round: RoundId)
    requires FullyLocal(cfg) && Holds(cfg, m, round) && IsLive(cfg, id, round)
    ensures id in m.commitments && m.commitments[id] == Own(cfg, id, round)
    ensures ProofMessage(cfg, m, round, ProofSent(cfg, id, round))
  {
    hide FullyLocal, HasDropped, ProofOf;
  }

  lemma OneProof(cfg: Config, s: State, id: NodeId, round: RoundId)
    requires FullyLocal(cfg) && Proving(cfg, s, round) && IsLive(cfg, id, round)
    ensures Take(cfg.topology, ProvePhase, s, round, ProofSent(cfg, id, round)) == ProvedBy(cfg, s, id, round)
    ensures Proving(cfg, ProvedBy(cfg, s, id, round), round)
  {
    var msg := ProofSent(cfg, id, round);
    OwnAreCanonical(cfg, s.log.commitments);
    ProofIsOwn(cfg, s.machine, id, round);
    hide FullyLocal, InRound, AllOwn, AllCanonical, Take, ProofIsTampered, HasDropped, Own, WellShaped, ProofFor,
         Tampered, Holds, ProvedBy, ProofSent;
    TakeHonestProof(cfg, s, round, msg);
    TakeKeepsCoupling(cfg.topology, ProvePhase, s, round, msg);
    ProvedByCases(cfg, s, id, round);
  }

  lemma ProvedByCases(cfg: Config, s: State, id: NodeId, round: RoundId)
    requires FullyLocal(cfg) && id in cfg.agents
    ensures ProvedBy(cfg, s, id, round) ==
      if ProofIsTampered(cfg.events, id, round) then Note(s, round, id, ProofKind, PublicInputsMismatch)
      else s.(log := s.log.(proofs := s.log.proofs + [ProofSent(cfg, id, round).payload.proof]))
    ensures ProvedBy(cfg, s, id, round).machine == s.machine
    ensures ProvedBy(cfg, s, id, round).log.commitments == s.log.commitments
  {
    hide FullyLocal, Own, ProofIsTampered, ProofFor, Tampered;
    assert s.log.rejections + [] == s.log.rejections;
    assert s.log.proofs + [] == s.log.proofs;
  }

  lemma ProofMessagesCons(cfg: Config, m: Machine, node: NodeId, rest: seq<NodeId>, round: RoundId, msgs: seq<Message>)
    requires node in cfg.agents && node in m.commitments && ProofMessages(cfg, m, round, rest) == Success(msgs)
    ensures ProofMessages(cfg, m, round, [node] + rest)
            == Success([Message(node, Proof(ProofOf(cfg, m.commitments[node], node, round)))] + msgs)
  {
    hide ProofOf;
    assert ([node] + rest)[1..] == rest;
  }

  lemma ProofMessagesOfTwo(cfg: Config, m: Machine, q: NodeId, w: NodeId, round: RoundId)
    requires q in cfg.agents && w in cfg.agents && q in m.commitments && w in m.commitments
    ensures ProofMessages(cfg, m, round, [q, w]) ==
      Success([Message(q, Proof(ProofOf(cfg, m.commitments[q], q, round))),
               Message(w, Proof(ProofOf(cfg, m.commitments[w], w, round)))])
  {
    hide ProofOf;
    var m1 := Message(q, Proof(ProofOf(cfg, m.commitments[q], q, round)));
    var m2 := Message(w, Proof(ProofOf(cfg, m.commitments[w], w, round)));
    assert ProofMessages(cfg, m, round, []) == Success([]);
    hide ProofMessages;
    ProofMessagesCons(cfg, m, w, [], round, []);
    assert [w] + [] == [w] && [m2] + [] == [m2];
    ProofMessagesCons(cfg, m, q, [w], round, [m2]);
    assert [q] + [w] == [q, w] && [m1] + [m2] == [m1, m2];
  }

  lemma TwoProofMessages(cfg: Config, m: Machine, q: NodeId, w: NodeId, round: RoundId)
    requires FullyLocal(cfg) && Holds(cfg, m, round) && IsLive(cfg, q, round) && IsLive(cfg, w, round)
    ensures ProofMessages(cfg, m, round, [q, w]) == Success([ProofSent(cfg, q, round), ProofSent(cfg, w, round)])
  {
    ProofIsOwn(cfg, m, q, round);
    ProofIsOwn(cfg, m, w, round);
    ProofMessagesOfTwo(cfg, m, q, w, round);
    hide FullyLocal, HasDropped, ProofOf, Own, Holds, ProofMessages;
  }

  lemma DrainOne(t: Topology, phase: Phase, s: State, round: RoundId, msg: Message)
    ensures Drain(t, phase, s, round, [msg]) == Take(t, phase, s, round, msg)
  {
    hide Take;
    assert [msg][1..] == [];
  }

  lemma DrainTwo(t: Topology, phase: Phase, s: State, round: RoundId, a: Message, b: Message)
    ensures Drain(t, phase, s, round, [a, b]) == Take(t, phase, Take(t, phase, s, round, a), round, b)
  {
    hide Take;
    assert [a, b] == [a] + [b];
    DrainAppend(t, phase, s, round, [a], [b]);
    DrainOne(t, phase, s, round, a);
    DrainOne(t, phase, Take(t, phase, s, round, a), round, b);
  }

  lemma BothProofs(cfg: Config, s: State, q: NodeId, w: NodeId, round: RoundId)
    requires FullyLocal(cfg) && Proving(cfg, s, round) && IsLive(cfg, q, round) && IsLive(cfg, w, round)
    ensures var msgs := ProofMessages(cfg, s.machine, round, [q, w]);
      && msgs.Success?
      && Drain(cfg.topology, ProvePhase, s, round, msgs.value) == ProvedBy(cfg, ProvedBy(cfg, s, q, round), w, round)
  {
    OneProof(cfg, s, q, round);
    OneProof(cfg, ProvedBy(cfg, s, q, round), w, round);
    TwoProofMessages(cfg, s.machine, q, w, round);
    DrainTwo(cfg.topology, ProvePhase, s, round, ProofSent(cfg, q, round), ProofSent(cfg, w, round));
    hide FullyLocal, Proving, Take, Drain, ProofSent, HasDropped, ProvedBy, ProofMessages;
  }

  /** After both proofs are drained, exactly the untampered ones are found. */
  lemma ProofsFound(cfg: Config, s: State, q: NodeId, w: NodeId, round: RoundId)
    requires FullyLocal(cfg) && q in cfg.agents && w in cfg.agents && q != w
    requires forall p :: p in s.log.proofs ==> p.round != round
    ensures var ps := ProvedBy(cfg, ProvedBy(cfg, s, q, round), w, round).log.proofs;
      && (HasProof(ps, q, round) <==> !ProofIsTampered(cfg.events, q, round))
      && (HasProof(ps, w, round) <==> !ProofIsTampered(cfg.events, w, round))
  {
    hide FullyLocal, Own, ProofIsTampered;
    var ps := ProvedBy(cfg, ProvedBy(cfg, s, q, round), w, round).log.proofs;
    var a, b := ProofLogged(cfg, q, round), ProofLogged(cfg, w, round);
    assert forall p :: p in ps <==> p in s.log.proofs || p in a || p in b;
    if !ProofIsTampered(cfg.events, q, round) { assert a[0] in ps; }
    if !ProofIsTampered(cfg.events, w, round) { assert b[0] in ps; }
  }

  // ---------------------------------------------------------------------
  // The whole round
  // ---------------------------------------------------------------------

  /** What a stretch of a run adds to the public log. */
  datatype Entries = Entries(
    commitments: seq<CommitmentRecord>,
    proposals: seq<ProposalRecord>,
    proofs: seq<ProofRecord>,
    receipts: seq<ReceiptRecord>,
    rejections: seq<RejectionRecord>)
  {
    function Then(more: Entries): Entries {
      Entries(commitments + more.commitments, proposals + more.proposals, proofs + more.proofs,
              receipts + more.receipts, rejections + more.rejections)
    }
  }

  ghost predicate Adds(log: Log, log': Log, e: Entries) {
    && log'.commitments == log.commitments + e.commitments
    && log'.proposals == log.proposals + e.proposals
    && log'.proofs == log.proofs + e.proofs
    && log'.receipts == log.receipts + e.receipts
    && log'.rejections == log.rejections + e.rejections
  }

  lemma AddsMore(a: Log, b: Log, c: Log, e: Entries, f: Entries)
    requires Adds(a, b, e) && Adds(b, c, f)
    ensures Adds(a, c, e.Then(f))
  {
    assert a.commitments + e.commitments + f.commitments == a.commitments + (e.commitments + f.commitments);
    assert a.proposals + e.proposals + f.proposals == a.proposals + (e.proposals + f.proposals);
    assert a.proofs + e.proofs + f.proofs == a.proofs + (e.proofs + f.proofs);
    assert a.receipts + e.receipts + f.receipts == a.receipts + (e.receipts + f.receipts);
    assert a.rejections + e.rejections + f.rejections == a.rejections + (e.rejections + f.rejections);
  }

  /** The receipt of a settled round, signed by the winner's agent. */
  ghost function RoundReceipts(cfg: Config, round: RoundId): seq<ReceiptRecord>
    requires FullyLocal(cfg)
  {
    if !Settles(cfg, round) then []
    else
      CapableIsLive(cfg, round);
      var w, tag := Winner(cfg, round).value, TheRequester(cfg.topology).required.value;
      [ReceiptRecord(w, round, SignatureHex(cfg.crypto, SeedOf(cfg.agents[w]), w, round, tag))]
  }

  /** What the phases after the commit phase add. */
  ghost function MatchEntries(cfg: Config, round: RoundId): Entries
    requires FullyLocal(cfg)
  {
    var q, p := TheRequester(cfg.topology), RoundProposal(cfg, round);
    if p.Some? then
      CapableIsLive(cfg, round);
      NodesAreFound(cfg, q);
      Entries([], [p.value], ProofLogged(cfg, q.id, round) + ProofLogged(cfg, p.value.provider, round),
              RoundReceipts(cfg, round), ProofRefused(cfg, q.id, round) + ProofRefused(cfg, p.value.provider, round))
    else if HasDropped(cfg.events, q.id, round) then
      Entries([], [], [], [], [RejectionRecord(round, q.id, RoundKind, CodeRequesterMissing)])
    else
      var proposer := TheProposer(cfg.topology, round);
      Entries([], [], [], [], [RejectionRecord(round, proposer, ProposalKind, NoFeasibleProvider)])
  }

  /** Everything one round adds, in order. */
  ghost function RoundEntries(cfg: Config, round: RoundId): Entries
    requires FullyLocal(cfg)
  {
    Entries(RoundCommits(cfg, round), [], [], [], CommitRejections(cfg, round)).Then(MatchEntries(cfg, round))
  }

  /** The state once both proofs are drained. */
  ghost function BothProved(cfg: Config, s: State, p: ProposalRecord): State
    requires FullyLocal(cfg) && p.requester in cfg.agents && p.provider in cfg.agents
  {
    ProvedBy(cfg, ProvedBy(cfg, s, p.requester, p.round), p.provider, p.round)
  }

  lemma Participants(cfg: Config, round: RoundId)
    requires FullyLocal(cfg) && RoundProposal(cfg, round).Some?
    ensures var p := RoundProposal(cfg, round).value;
      && p.round == round && p.requester == TheRequester(cfg.topology).id && Winner(cfg, round) == Some(p.provider)
      && p.matched == TheRequester(cfg.topology).required.value
      && IsLive(cfg, p.requester, round) && IsLive(cfg, p.provider, round) && p.requester != p.provider
  {
    CapableIsLive(cfg, round);
    NodesAreFound(cfg, TheRequester(cfg.topology));
  }

  lemma SettlesIff(cfg: Config, round: RoundId, p: ProposalRecord)
    requires FullyLocal(cfg) && RoundProposal(cfg, round) == Some(p)
    ensures Settles(cfg, round) <==>
      !ProofIsTampered(cfg.events, p.requester, round) && !ProofIsTampered(cfg.events, p.provider, round)
  {
    hide FullyLocal, ProofIsTampered, HasDropped;
  }

  lemma ProveRoundByParts(cfg: Config, s: State, round: RoundId, p: ProposalRecord, msgs: seq<Message>, s': State)
    requires ProofMessages(cfg, s.machine, round, [p.requester, p.provider]) == Success(msgs)
    requires Drain(cfg.topology, ProvePhase, s, round, msgs) == s'
    ensures ProveRound(cfg, InProcess, s, round, p) == Success(
      if HasProof(s'.log.proofs, p.requester, round) && HasProof(s'.log.proofs, p.provider, round)
      then RoundResult(SettleRound(cfg, InProcess, s', round, p), true) else RoundResult(s', false))
  {
    hide ProofMessages, Drain, HasProof, SettleRound;
  }

  /** How the prove phase decides. */
  lemma ProveRoundIs(cfg: Config, s: State, round: RoundId, p: ProposalRecord)
    requires FullyLocal(cfg) && Proving(cfg, s, round)
    requires RoundProposal(cfg, round) == Some(p) && ProofsBefore(s.log.proofs, round)
    ensures p.requester in cfg.agents && p.provider in cfg.agents && p.round == round
    ensures ProveRound(cfg, InProcess, s, round, p) == Success(
      if Settles(cfg, round) then RoundResult(SettleRound(cfg, InProcess, BothProved(cfg, s, p), round, p), true)
      else RoundResult(BothProved(cfg, s, p), false))
  {
    Participants(cfg, round);
    SettlesIff(cfg, round, p);
    assert forall x :: x in s.log.proofs ==> x.round != round;
    hide Proving, ProofMessages, RoundProposal, Settles, Winner, TheRequester, HasDropped, HasProof, Drain,
         ProveRound, SettleRound;
    BothProofs(cfg, s, p.requester, p.provider, round);
    ProofsFound(cfg, s, p.requester, p.provider, round);
    hide FullyLocal, ProvedBy, ProofIsTampered, IsLive;
    var msgs := ProofMessages(cfg, s.machine, round, [p.requester, p.provider]).value;
    ProveRoundByParts(cfg, s, round, p, msgs, BothProved(cfg, s, p));
  }

  lemma MatchEntriesAre(cfg: Config, round: RoundId, p: ProposalRecord)
    requires FullyLocal(cfg) && RoundProposal(cfg, round) == Some(p)
    ensures p.requester in cfg.agents && p.provider in cfg.agents && p.round == round
    ensures MatchEntries(cfg, round) == Entries(
      [], [p], ProofLogged(cfg, p.requester, round) + ProofLogged(cfg, p.provider, round), RoundReceipts(cfg, round),
      ProofRefused(cfg, p.requester, round) + ProofRefused(cfg, p.provider, round))
  {
    Participants(cfg, round);
    hide FullyLocal, ProofLogged, ProofRefused, RoundReceipts, HasDropped, TheRequester, Winner;
  }

  lemma ReceiptsAre(cfg: Config, round: RoundId, p: ProposalRecord)
    requires FullyLocal(cfg) && RoundProposal(cfg, round) == Some(p) && Settles(cfg, round)
    ensures p.provider in cfg.agents
    ensures RoundReceipts(cfg, round) == [ReceiptRecord(
      p.provider, round, SignatureHex(cfg.crypto, SeedOf(cfg.agents[p.provider]), p.provider, round, p.matched))]
  {
    Participants(cfg, round);
    hide FullyLocal, Settles, RoundProposal, HasDropped, TheRequester, SignatureHex;
  }

  lemma AddsProofs(log: Log, proofs: seq<ProofRecord>, receipts: seq<ReceiptRecord>, rejections: seq<RejectionRecord>)
    ensures Adds(log, log.(proofs := log.proofs + proofs, receipts := log.receipts + receipts,
                           rejections := log.rejections + rejections),
                 Entries([], [], proofs, receipts, rejections))
  {
  }

  lemma BothProvedAdds(cfg: Config, s: State, round: RoundId, p: ProposalRecord)
    requires FullyLocal(cfg) && RoundProposal(cfg, round) == Some(p) && !Settles(cfg, round)
    ensures p.requester in cfg.agents && p.provider in cfg.agents && p.round == round
    ensures Adds(s.log, BothProved(cfg, s, p).log, MatchEntries(cfg, round).(proposals := []))
  {
    hide FullyLocal, ProvedBy, Settles, RoundProposal, MatchEntries, Adds;
    MatchEntriesAre(cfg, round, p);
    ProvedByBoth(cfg, s, p.requester, p.provider, round);
    assert RoundReceipts(cfg, round) == [];
    hide ProofLogged, ProofRefused, RoundReceipts;
    assert s.log.receipts + [] == s.log.receipts;
    AddsProofs(s.log, ProofLogged(cfg, p.requester, round) + ProofLogged(cfg, p.provider, round), [],
               ProofRefused(cfg, p.requester, round) + ProofRefused(cfg, p.provider, round));
  }

  lemma SettledAdds(cfg: Config, s: State, round: RoundId, p: ProposalRecord)
    requires FullyLocal(cfg) && SignatureShape(cfg.crypto) && RoundProposal(cfg, round) == Some(p)
            && Settles(cfg, round)
    ensures p.requester in cfg.agents && p.provider in cfg.agents && p.round == round
    ensures Adds(s.log, SettleRound(cfg, InProcess, BothProved(cfg, s, p), round, p).log,
                 MatchEntries(cfg, round).(proposals := []))
  {
    hide FullyLocal, ProvedBy, Settles, RoundProposal, MatchEntries, Adds, SettleRound, SignatureHex, SignatureShape;
    MatchEntriesAre(cfg, round, p);
    ReceiptsAre(cfg, round, p);
    ProvedByBoth(cfg, s, p.requester, p.provider, round);
    SettleLogsReceipt(cfg, BothProved(cfg, s, p), round, p);
    hide ProofLogged, ProofRefused, RoundReceipts;
    AddsProofs(s.log, ProofLogged(cfg, p.requester, round) + ProofLogged(cfg, p.provider, round),
               RoundReceipts(cfg, round),
               ProofRefused(cfg, p.requester, round) + ProofRefused(cfg, p.provider, round));
  }

  lemma ProveRoundExact(cfg: Config, s: State, round: RoundId, p: ProposalRecord)
    requires FullyLocal(cfg) && SignatureShape(cfg.crypto) && Proving(cfg, s, round)
    requires RoundProposal(cfg, round) == Some(p) && ProofsBefore(s.log.proofs, round)
    ensures var result := ProveRound(cfg, InProcess, s, round, p);
      && result.Success? && result.value.finalized == Settles(cfg, round)
      && Adds(s.log, result.value.state.log, MatchEntries(cfg, round).(proposals := []))
  {
    ProveRoundIs(cfg, s, round, p);
    hide FullyLocal, Proving, ProveRound, SettleRound, RoundProposal, MatchEntries, BothProved, Settles,
         SignatureShape, Adds;
    if Settles(cfg, round) {
      SettledAdds(cfg, s, round, p);
    } else {
      BothProvedAdds(cfg, s, round, p);
    }
  }

  lemma ProvedByBoth(cfg: Config, s: State, q: NodeId, w: NodeId, round: RoundId)
    requires FullyLocal(cfg) && q in cfg.agents && w in cfg.agents
    ensures var s' := ProvedBy(cfg, ProvedBy(cfg, s, q, round), w, round);
      s' == s.(log := s.log.(
        proofs := s.log.proofs + (ProofLogged(cfg, q, round) + ProofLogged(cfg, w, round)),
        rejections := s.log.rejections + (ProofRefused(cfg, q, round) + ProofRefused(cfg, w, round))))
  {
    hide FullyLocal, ProofLogged, ProofRefused;
    var a, b := ProofLogged(cfg, q, round), ProofLogged(cfg, w, round);
    var c, d := ProofRefused(cfg, q, round), ProofRefused(cfg, w, round);
    assert s.log.proofs + a + b == s.log.proofs + (a + b);
    assert s.log.rejections + c + d == s.log.rejections + (c + d);
  }

  /** Ready to propose. */
  ghost predicate Proposing(cfg: Config, c: State, round: RoundId)
    requires FullyLocal(cfg)
  {
    Proving(cfg, c, round) && c.machine.proposal.None? && ProofsBefore(c.log.proofs, round)
  }

  lemma AddsRejection(log: Log, r: RejectionRecord)
    ensures Adds(log, Reject(log, r), Entries([], [], [], [], [r]))
  {
  }

  /** What a round without a match leaves. */
  ghost function Unmatched(cfg: Config, round: RoundId): RejectionRecord
    requires ValidTopology(cfg.topology)
  {
    var q := TheRequester(cfg.topology).id;
    if HasDropped(cfg.events, q, round) then RejectionRecord(round, q, RoundKind, CodeRequesterMissing)
    else RejectionRecord(round, TheProposer(cfg.topology, round), ProposalKind, NoFeasibleProvider)
  }

  lemma UnmatchedIs(cfg: Config, c: State, round: RoundId)
    requires FullyLocal(cfg) && RoundProposal(cfg, round).None?
    ensures Proposed(cfg, c, round).log == Reject(c.log, Unmatched(cfg, round))
    ensures MatchEntries(cfg, round) == Entries([], [], [], [], [Unmatched(cfg, round)])
  {
    hide FullyLocal, HasDropped, RoundProposal, TheRequester, TheProposer;
  }

  lemma UnmatchedNeverSettles(cfg: Config, round: RoundId)
    requires ValidTopology(cfg.topology) && RoundProposal(cfg, round).None?
    ensures !Settles(cfg, round)
  {
    hide ValidTopology, HasDropped, ProofIsTampered, TheProposer, TheRequester, Winner;
  }

  lemma NoMatchAdds(cfg: Config, c: State, round: RoundId)
    requires FullyLocal(cfg) && RoundProposal(cfg, round).None?
    ensures Adds(c.log, Proposed(cfg, c, round).log, MatchEntries(cfg, round))
    ensures !Settles(cfg, round)
  {
    UnmatchedIs(cfg, c, round);
    UnmatchedNeverSettles(cfg, round);
    AddsRejection(c.log, Unmatched(cfg, round));
    hide FullyLocal, RoundProposal, Proposed, MatchEntries, Unmatched, Settles, Adds;
  }

  lemma ProposedIsProving(cfg: Config, c: State, round: RoundId)
    requires FullyLocal(cfg) && Proposing(cfg, c, round) && RoundProposal(cfg, round).Some?
    ensures var p, s := RoundProposal(cfg, round).value, Proposed(cfg, c, round);
      && s == c.(machine := c.machine.(proposal := Some(p)), log := c.log.(proposals := c.log.proposals + [p]))
      && LastProposal(s.log.proposals, round) == Some(p)
      && Drain(cfg.topology, ProposePhase, c, round, [Message(p.proposer, Proposal(p))]) == s
      && Proving(cfg, s, round)
  {
    var p, s := RoundProposal(cfg, round).value, Proposed(cfg, c, round);
    Participants(cfg, round);
    ProposalIsDrained(cfg, c, round);
    hide FullyLocal, RoundProposal, Drain, InRound, AllOwn, TheRequester, HasDropped, Own, Holds, LastProposal,
         IsLive, Winner;
    DrainKeepsCoupling(cfg.topology, ProposePhase, c, round, [Message(p.proposer, Proposal(p))]);
    StillHolds(cfg, c.machine, s.machine, round);
    LastProposalAppended(c.log.proposals, p);
  }

  lemma StillHolds(cfg: Config, m: Machine, m': Machine, round: RoundId)
    requires FullyLocal(cfg) && Holds(cfg, m, round)
    requires m'.current == m.current && m'.commitments == m.commitments
    ensures Holds(cfg, m', round)
  {
    hide FullyLocal, HasDropped, Own;
  }

  lemma LastProposalAppended(ps: seq<ProposalRecord>, p: ProposalRecord)
    ensures LastProposal(ps + [p], p.round) == Some(p)
  {
  }

  /** With a match, the phase goes on from the state the accepted proposal leaves. */
  lemma MatchIsProven(cfg: Config, c: State, round: RoundId)
    requires FullyLocal(cfg) && SignatureShape(cfg.crypto) && Proposing(cfg, c, round)
            && RoundProposal(cfg, round).Some?
    ensures var p, s := RoundProposal(cfg, round).value, Proposed(cfg, c, round);
      var result := ProveRound(cfg, InProcess, s, round, p);
      && result.Success? && result.value.finalized == Settles(cfg, round)
      && Adds(c.log, result.value.state.log, MatchEntries(cfg, round))
  {
    var p, s := RoundProposal(cfg, round).value, Proposed(cfg, c, round);
    ProposedIsProving(cfg, c, round);
    MatchEntriesAre(cfg, round, p);
    hide FullyLocal, SignatureShape, RoundProposal, Proposed, Drain, Settles, MatchEntries, Proving, ProofsBefore,
         ProveRound, LastProposal, Adds;
    ProveRoundExact(cfg, s, round, p);
    AddsProposal(c.log, p, ProveRound(cfg, InProcess, s, round, p).value.state.log, MatchEntries(cfg, round));
  }

  lemma AddsProposal(log: Log, p: ProposalRecord, log': Log, e: Entries)
    requires e.proposals == [p] && Adds(log.(proposals := log.proposals + [p]), log', e.(proposals := []))
    ensures Adds(log, log', e)
  {
    assert log.proposals + [p] + [] == log.proposals + [p];
  }

  lemma ProposeRoundGoesOn(cfg: Config, c: State, round: RoundId, msgs: seq<Message>, s: State, p: ProposalRecord)
    requires BroadcastProposal(cfg, c, round) == Success(ProposalTurn(c, msgs, true))
    requires Drain(cfg.topology, ProposePhase, c, round, msgs) == s && LastProposal(s.log.proposals, round) == Some(p)
    ensures ProposeRound(cfg, InProcess, c, round) == ProveRound(cfg, InProcess, s, round, p)
  {
    hide BroadcastProposal, Drain, LastProposal, ProveRound;
  }

  lemma ProposeRoundStops(cfg: Config, c: State, round: RoundId, s: State)
    requires BroadcastProposal(cfg, c, round) == Success(ProposalTurn(s, [], false))
    ensures ProposeRound(cfg, InProcess, c, round) == Success(RoundResult(s, false))
  {
    hide BroadcastProposal, Drain, LastProposal, ProveRound;
  }

  lemma MatchRoundExact(cfg: Config, c: State, round: RoundId)
    requires FullyLocal(cfg) && SignatureShape(cfg.crypto) && Proposing(cfg, c, round)
    requires IsLive(cfg, TheRequester(cfg.topology).id, round)
    ensures var result := ProposeRound(cfg, InProcess, c, round);
      && result.Success? && result.value.finalized == Settles(cfg, round)
      && Adds(c.log, result.value.state.log, MatchEntries(cfg, round))
  {
    BroadcastIsWinner(cfg, c, round);
    hide FullyLocal, SignatureShape, Drain, Settles, MatchEntries, ProveRound, ProposeRound, BroadcastProposal,
         Proposed;
    hide RoundProposal, HasDropped, Adds, Proposing, LastProposal, TheRequester, Proving;
    var p := RoundProposal(cfg, round);
    if p.Some? {
      MatchIsProven(cfg, c, round);
      ProposedIsProving(cfg, c, round);
      ProposeRoundGoesOn(cfg, c, round, [Message(p.value.proposer, Proposal(p.value))], Proposed(cfg, c, round),
                         p.value);
    } else {
      NoMatchAdds(cfg, c, round);
      ProposeRoundStops(cfg, c, round, Proposed(cfg, c, round));
    }
  }

  /** One in-process round, exactly. */
  lemma RunRoundExact(cfg: Config, s: State)
    requires FullyLocal(cfg) && NoCollisions(cfg) && SignatureShape(cfg.crypto) && Poised(cfg, s)
    ensures var round, result := s.machine.current, RunRound(cfg, InProcess, s);
      && result.Success? && result.value.finalized == Settles(cfg, round)
      && Adds(s.log, result.value.state.log, RoundEntries(cfg, round))
  {
    var round, q := s.machine.current, TheRequester(cfg.topology);
    CommitRoundExact(cfg, s);
    var c := CommitRound(cfg, InProcess, s, round).value;
    LiveAreHeld(cfg, s, c);
    CommitGains(cfg, s, c);
    NodesAreFound(cfg, q);
    assert ProofsBefore(s.log.proofs, round);
    hide FullyLocal, NoCollisions, SignatureShape, Poised, CommitRound, ProposeRound, InRound, AllOwn, HasDropped,
         MatchEntries, Settles, Own, Adds;
    hide RoundCommits, CommitRejections, ProofsBefore;
    if IsLive(cfg, q.id, round) {
      MatchRoundExact(cfg, c, round);
    } else {
      NoMatchAdds(cfg, c, round);
    }
    var result := RunRound(cfg, InProcess, s).value;
    AddsMore(s.log, c.log, result.state.log,
             Entries(RoundCommits(cfg, round), [], [], [], CommitRejections(cfg, round)), MatchEntries(cfg, round));
  }

  lemma CommitGains(cfg: Config, s: State, c: State)
    requires FullyLocal(cfg) && Committed(cfg, s, c)
    ensures var round := s.machine.current;
      Adds(s.log, c.log, Entries(RoundCommits(cfg, round), [], [], [], CommitRejections(cfg, round)))
  {
    hide FullyLocal, RoundCommits, CommitRejections, InRound, AllOwn;
  }
}
