/**
  Why an honest commitment is never taken for a replay: the preimages of different nodes or rounds
  differ, so their digests do too unless the hash collides on this very run's preimages.
 */
module HonestCommitments {
  import opened Results
  import opened Bytes
  import opened Protocol
  import opened CoordinationLogs
  import opened Preimages
  import opened Runs
  import opened CommitPhases

  /** An agent carries the private intent of its role, under its own id and within the layout's limits. */
  predicate WellArmed(id: NodeId, agent: Agent) {
    match agent.role
    case Requester =>
      && agent.requester.Some? && agent.requester.value.nodeId == id
      && FitsSlot(agent.requester.value.required)
    case Provider =>
      && agent.provider.Some? && agent.provider.value.nodeId == id
      && 0 < |agent.provider.value.claims| <= MAX_CAPABILITY_CLAIMS
      && forall i :: 0 <= i < |agent.provider.value.claims| ==> FitsSlot(agent.provider.value.claims[i])
  }

  /** One process holds every node's agent, and every agent can commit. */
  ghost predicate FullyLocal(cfg: Config) {
    && AgentsFit(cfg)
    && (forall n :: n in cfg.topology.nodes ==> n.id in cfg.agents)
    && (forall id :: id in cfg.agents ==> WellArmed(id, cfg.agents[id]))
  }

  /** The bytes an agent commits to in `round`. */
  function HonestPreimage(cfg: Config, id: NodeId, round: RoundId): seq<Byte>
    requires id in cfg.agents && WellArmed(id, cfg.agents[id])
  {
    var agent, nonce := cfg.agents[id], TestNonce(cfg.crypto, id, round, cfg.salt);
    match agent.role
    case Requester => RequesterLayout(RequesterContentOf(agent.requester.value, nonce, round))
    case Provider => ProviderLayout(ProviderContentOf(agent.provider.value, nonce, round))
  }

  /** The hash does not collide on the preimages of this run. */
  ghost predicate NoCollisions(cfg: Config)
    requires FullyLocal(cfg)
  {
    forall a, b, i: RoundId, j: RoundId ::
      a in cfg.agents && b in cfg.agents && i < cfg.maxRounds && j < cfg.maxRounds ==>
      var x, y := HonestPreimage(cfg, a, i), HonestPreimage(cfg, b, j);
      cfg.crypto.blake2s(x) == cfg.crypto.blake2s(y) ==> x == y
  }

  /** Different nodes or rounds commit to different bytes, whatever their nonces and private amounts. */
  lemma HonestPreimagesDiffer(cfg: Config, a: NodeId, i: RoundId, b: NodeId, j: RoundId)
    requires a in cfg.agents && WellArmed(a, cfg.agents[a])
    requires b in cfg.agents && WellArmed(b, cfg.agents[b])
    requires (a, i) != (b, j)
    ensures HonestPreimage(cfg, a, i) != HonestPreimage(cfg, b, j)
  {
    var m, n := TestNonce(cfg.crypto, a, i, cfg.salt), TestNonce(cfg.crypto, b, j, cfg.salt);
    hide TestNonce, RequesterLayout, ProviderLayout;
    match (cfg.agents[a].role, cfg.agents[b].role) {
      case (Requester, Requester) =>
        var x := RequesterContentOf(cfg.agents[a].requester.value, m, i);
        var y := RequesterContentOf(cfg.agents[b].requester.value, n, j);
        RequesterRoundTrip(x);
        RequesterRoundTrip(y);
      case (Provider, Provider) =>
        var x := ProviderContentOf(cfg.agents[a].provider.value, m, i);
        var y := ProviderContentOf(cfg.agents[b].provider.value, n, j);
        ProviderRoundTrip(x);
        ProviderRoundTrip(y);
      case (Requester, Provider) =>
        RolesNeverCoincide(RequesterContentOf(cfg.agents[a].requester.value, m, i),
                           ProviderContentOf(cfg.agents[b].provider.value, n, j));
      case (Provider, Requester) =>
        RolesNeverCoincide(RequesterContentOf(cfg.agents[b].requester.value, n, j),
                           ProviderContentOf(cfg.agents[a].provider.value, m, i));
    }
  }

  /** A well-armed agent's commitment is the hash of its preimage. */
  lemma BuildIsHash(cfg: Config, id: NodeId, round: RoundId)
    requires FullyLocal(cfg) && id in cfg.agents
    ensures BuildCommitment(cfg, id, round).Success?
    ensures BuildCommitment(cfg, id, round).value.hex == HexEncode(cfg.crypto.blake2s(HonestPreimage(cfg, id, round)))
  {
    AgentIsConfigured(cfg, id);
    hide FullyLocal, WellArmed, HexEncode, Digest, HonestPreimage;
    DigestIsHash(cfg, id, round);
  }

  lemma AgentIsConfigured(cfg: Config, id: NodeId)
    requires FullyLocal(cfg) && id in cfg.agents
    ensures WellArmed(id, cfg.agents[id])
    ensures var n := cfg.topology.Find(id);
      n.Some? && n.value.role == cfg.agents[id].role && (n.value.role == Requester ==> n.value.required.Some?)
  {
    hide UniqueIds, WellArmed;
    assert ValidNode(cfg.topology.Find(id).value);
  }

  lemma DigestIsHash(cfg: Config, id: NodeId, round: RoundId)
    requires id in cfg.agents && WellArmed(id, cfg.agents[id])
    ensures Digest(cfg, cfg.agents[id], id, round) == Success(cfg.crypto.blake2s(HonestPreimage(cfg, id, round)))
  {
    hide TestNonce, RequesterLayout, ProviderLayout, FitsSlot;
  }

  /** The commitment of a local agent. */
  ghost function Own(cfg: Config, id: NodeId, round: RoundId): (c: CommitmentRecord)
    requires FullyLocal(cfg) && id in cfg.agents
    ensures BuildCommitment(cfg, id, round) == Success(c)
    ensures c.nodeId == id && c.round == round && Sound(cfg.topology, c)
  {
    BuildIsHash(cfg, id, round);
    BaseFacts(cfg, id, round);
    BuildCommitment(cfg, id, round).value
  }

  /** Honest commitments of different nodes or rounds have different hexes. */
  lemma HonestHexesDiffer(cfg: Config, a: NodeId, i: RoundId, b: NodeId, j: RoundId)
    requires FullyLocal(cfg) && NoCollisions(cfg)
    requires a in cfg.agents && b in cfg.agents && i < cfg.maxRounds && j < cfg.maxRounds && (a, i) != (b, j)
    ensures Own(cfg, a, i).hex != Own(cfg, b, j).hex
  {
    assert WellArmed(a, cfg.agents[a]) && WellArmed(b, cfg.agents[b]);
    HonestPreimagesDiffer(cfg, a, i, b, j);
    BuildIsHash(cfg, a, i);
    BuildIsHash(cfg, b, j);
    hide HonestPreimage, HexEncode, FullyLocal, BuildCommitment;
    if Own(cfg, a, i).hex == Own(cfg, b, j).hex {
      HexInjective(cfg.crypto.blake2s(HonestPreimage(cfg, a, i)), cfg.crypto.blake2s(HonestPreimage(cfg, b, j)));
    }
  }
}
