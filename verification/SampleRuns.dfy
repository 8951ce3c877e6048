/**
  A concrete deployment that meets every assumption the run theorems make, for any bound and any
  scenario, and scenarios under which each possible ending happens.
 */
module SampleRuns {
  import opened Results
  import opened Bytes
  import opened Buffers
  import opened Protocol
  import opened CoordinationLogs
  import opened Preimages
  import opened Artifacts
  import opened Proposer
  import opened Ordering
  import opened Runs
  import opened Verifier
  import opened Completeness
  import opened CommitPhases
  import opened HonestCommitments
  import opened ExactRounds
  import opened ExactRuns
  import opened KeyAgreement

  const BUYER := NodeId(Zeros(32))
  const SELLER := NodeId([1] + Zeros(31))
  const BUYER_SEED: Seed := [2] + Zeros(31)
  const GOODS := CapabilityTag([71, 80, 85])

  /** What the topology pins for the seller, and what its agent holds. */
  datatype KeyPair = KeyPair(key: Option<PublicKey>, seed: Option<Seed>)

  /** Tells apart the two roles' preimages of every round, by the round and the length. */
  function SampleDigest(x: seq<Byte>): Bytes32 {
    if |x| == REQUESTER_PREIMAGE_LEN then x[36..44] + Zeros(24)
    else if |x| == PROVIDER_PREIMAGE_LEN then x[35..43] + Zeros(23) + [1]
    else Zeros(32)
  }

  function SampleCrypto(): Crypto {
    Crypto(SampleDigest, seed => seed, (seed, msg) => Zeros(SIGNATURE_LENGTH), (key, msg, signature) => true)
  }

  /** A buyer and a seller, both held here; the buyer's pinned key is that of its seed. */
  function Sample(pair: KeyPair, events: seq<Event>, maxRounds: U64): Config {
    var buyer := NodeConfig(BUYER, Requester, Some(GOODS), [], Some(BUYER_SEED));
    var seller := NodeConfig(SELLER, Provider, None, [GOODS], pair.key);
    Config(Topology([buyer, seller]),
           map[BUYER := Agent(BUYER, Requester, Some(RequesterSecret(BUYER, GOODS, 500, Some(BUYER_SEED))), None),
               SELLER := Agent(SELLER, Provider, None, Some(ProviderSecret(SELLER, [GOODS], 300, pair.seed)))],
           events, maxRounds, Zeros(32), SampleCrypto())
  }

  lemma SampleNodes(pair: KeyPair, events: seq<Event>, maxRounds: U64)
    ensures var cfg := Sample(pair, events, maxRounds);
      && BUYER != SELLER
      && cfg.agents.Keys == {BUYER, SELLER}
      && cfg.topology.Find(BUYER) == Some(cfg.topology.nodes[0])
      && cfg.topology.Find(SELLER) == Some(cfg.topology.nodes[1])
  {
    assert BUYER.bytes[0] == 0 && SELLER.bytes[0] == 1;
    FindIsMember(Sample(pair, events, maxRounds).topology, Sample(pair, events, maxRounds).topology.nodes[0]);
    FindIsMember(Sample(pair, events, maxRounds).topology, Sample(pair, events, maxRounds).topology.nodes[1]);
  }

  lemma SampleIsLocal(pair: KeyPair, events: seq<Event>, maxRounds: U64)
    ensures FullyLocal(Sample(pair, events, maxRounds))
  {
    SampleNodes(pair, events, maxRounds);
    var cfg := Sample(pair, events, maxRounds);
    assert cfg.topology.nodes[0] in cfg.topology.nodes && cfg.topology.nodes[1] in cfg.topology.nodes;
  }

  /** What the sample digest reads off the two layouts. */
  lemma DigestOfRequester(x: RequesterContent)
    requires x.Fits()
    ensures SampleDigest(RequesterLayout(x)) == U64Bytes(x.round) + Zeros(24)
  {
    hide TagSlot, U32Bytes, U64Bytes;
    var head := U32Bytes(31) + Ascii(REQUESTER_DOMAIN) + [1];
    assert |head| == 36;
    assert RequesterLayout(x)[36..44] == U64Bytes(x.round);
  }

  lemma DigestOfProvider(x: ProviderContent)
    requires x.Fits()
    ensures SampleDigest(ProviderLayout(x)) == U64Bytes(x.round) + Zeros(23) + [1]
  {
    hide ClaimSlots, U32Bytes, U64Bytes;
    var head := U32Bytes(30) + Ascii(PROVIDER_DOMAIN) + [1];
    assert |head| == 35;
    assert ProviderLayout(x)[35..43] == U64Bytes(x.round);
  }

  lemma SampleDigestIs(pair: KeyPair, events: seq<Event>, maxRounds: U64, id: NodeId, round: RoundId)
    requires id in {BUYER, SELLER}
    ensures FullyLocal(Sample(pair, events, maxRounds)) && id in Sample(pair, events, maxRounds).agents
    ensures var d := SampleDigest(HonestPreimage(Sample(pair, events, maxRounds), id, round));
      d[..8] == U64Bytes(round) && d[31] == (if id == SELLER then 1 else 0)
  {
    SampleIsLocal(pair, events, maxRounds);
    SampleNodes(pair, events, maxRounds);
    var cfg := Sample(pair, events, maxRounds);
    var nonce := TestNonce(cfg.crypto, id, round, cfg.salt);
    hide FullyLocal, TestNonce, SampleDigest, RequesterLayout, ProviderLayout;
    if id == BUYER {
      DigestOfRequester(RequesterContentOf(cfg.agents[id].requester.value, nonce, round));
    } else {
      DigestOfProvider(ProviderContentOf(cfg.agents[id].provider.value, nonce, round));
    }
  }

  /**
    No assumption of the run theorems contradicts another, and the seller's pair is all that decides
    whether keys are consistent.
   */
  lemma AssumptionsAreConsistent(pair: KeyPair, events: seq<Event>, maxRounds: U64)
    ensures var cfg := Sample(pair, events, maxRounds);
      && FullyLocal(cfg) && NoCollisions(cfg) && SigningLaw(cfg.crypto) && SignatureShape(cfg.crypto)
      && (KeysConsistent(cfg) <==> pair.key == pair.seed)
      && (PairsMatch(cfg) <==> pair.key == pair.seed || pair.key.None? || pair.seed.None?)
  {
    var cfg := Sample(pair, events, maxRounds);
    SampleIsLocal(pair, events, maxRounds);
    SampleNodes(pair, events, maxRounds);
    forall a, b, i: RoundId, j: RoundId
      | a in cfg.agents && b in cfg.agents
        && cfg.crypto.blake2s(HonestPreimage(cfg, a, i)) == cfg.crypto.blake2s(HonestPreimage(cfg, b, j))
      ensures a == b && i == j
    {
      hide FullyLocal, HonestPreimage;
      SampleDigestIs(pair, events, maxRounds, a, i);
      SampleDigestIs(pair, events, maxRounds, b, j);
      U64RoundTrip(i);
      U64RoundTrip(j);
    }
  }

  /** The buyer's proof is spoilt in every round before `r`. */
  function SpoiltBefore(r: U64): (events: seq<Event>)
    ensures forall i: RoundId :: InjectInvalidProof(BUYER, i) in events <==> i < r
    ensures forall e :: e in events ==> e.InjectInvalidProof? && e.node == BUYER
  {
    if r == 0 then [] else SpoiltBefore(r - 1) + [InjectInvalidProof(BUYER, r - 1)]
  }

  /** Unless the seller is silenced, it is the one matched. */
  lemma SampleWinner(pair: KeyPair, events: seq<Event>, maxRounds: U64, i: RoundId)
    requires forall e :: e in events ==> !e.DropNode?
    ensures FullyLocal(Sample(pair, events, maxRounds))
    ensures var cfg := Sample(pair, events, maxRounds);
      TheRequester(cfg.topology).id == BUYER && Winner(cfg, i) == Some(SELLER)
  {
    var cfg := Sample(pair, events, maxRounds);
    SampleIsLocal(pair, events, maxRounds);
    SampleNodes(pair, events, maxRounds);
    hide FullyLocal;
    assert cfg.topology.nodes[0] in cfg.topology.nodes && cfg.topology.nodes[1] in cfg.topology.nodes;
    assert Capable(cfg, i) == {SELLER};
  }

  lemma SampleSettles(pair: KeyPair, r: U64, maxRounds: U64, i: RoundId)
    ensures FullyLocal(Sample(pair, SpoiltBefore(r), maxRounds))
    ensures Settles(Sample(pair, SpoiltBefore(r), maxRounds), i) <==> r <= i
  {
    var cfg := Sample(pair, SpoiltBefore(r), maxRounds);
    SampleWinner(pair, SpoiltBefore(r), maxRounds, i);
    SampleNodes(pair, SpoiltBefore(r), maxRounds);
    assert ValidTopology(cfg.topology) && cfg.events == SpoiltBefore(r);
    hide FullyLocal, Winner, TheRequester, Sample, ValidTopology, AgentsFit;
  }

  /** Every ending happens: a run can finalize in any round below its bound, and can abort at any bound. */
  lemma EveryEndingHappens(pair: KeyPair, r: U64, maxRounds: U64, runId: string)
    requires r <= maxRounds
    ensures var cfg := Sample(pair, SpoiltBefore(r), maxRounds);
      && Run(cfg, InProcess, runId).Success?
      && var o := Run(cfg, InProcess, runId).value;
         && (r < maxRounds ==> o.finalized && o.finalRound == r)
         && (r == maxRounds ==> !o.finalized && o.log.abortReason == Some(MaxRoundsExceeded))
         && o.log.finalized == o.finalized
  {
    var cfg := Sample(pair, SpoiltBefore(r), maxRounds);
    AssumptionsAreConsistent(pair, SpoiltBefore(r), maxRounds);
    hide FullyLocal, NoCollisions, KeysConsistent, SigningLaw, SignatureShape, Run, Sample, Concludes, Records;
    RunIsExact(cfg, runId);
    SampleConcludes(pair, r, maxRounds, Run(cfg, InProcess, runId).value);
  }

  /**
    Completeness needs the pair to agree: with a pinned key and no seed the seller tags its receipt
    where a signature is wanted, with a seed and no pinned key it signs where a tag is wanted. Either
    way every finalized log of this deployment is invalid, and no other log is.
   */
  lemma KeysMustBeConsistent(pair: KeyPair, r: U64, maxRounds: U64, runId: string)
    requires r <= maxRounds && (pair.key.None? || pair.seed.None? || pair.key == pair.seed)
    ensures var cfg := Sample(pair, SpoiltBefore(r), maxRounds);
      && Run(cfg, InProcess, runId).Success?
      && (Reasons(cfg.crypto, cfg.topology, Run(cfg, InProcess, runId).value.log) == []
          <==> r == maxRounds || (pair.key.Some? <==> pair.seed.Some?))
  {
    var cfg := Sample(pair, SpoiltBefore(r), maxRounds);
    AssumptionsAreConsistent(pair, SpoiltBefore(r), maxRounds);
    assert cfg.maxRounds == maxRounds;
    hide FullyLocal, NoCollisions, KeysConsistent, PairsMatch, SigningLaw, SignatureShape, Run, Reasons, Sample;
    hide WinnerPairAgrees, SpoiltBefore;
    forall i: RoundId ensures WinnerPairAgrees(cfg, i) <==> (i != r || (pair.key.Some? <==> pair.seed.Some?)) {
      SampleWinnerPair(pair, r, maxRounds, i);
    }
    ValidByOneRound(cfg, r, pair.key.Some? <==> pair.seed.Some?, runId);
  }

  /** When only round `r` can disagree, it decides. */
  lemma ValidByOneRound(cfg: Config, r: U64, agrees: bool, runId: string)
    requires FullyLocal(cfg) && NoCollisions(cfg) && SigningLaw(cfg.crypto) && PairsMatch(cfg) && r <= cfg.maxRounds
    requires forall i: RoundId :: WinnerPairAgrees(cfg, i) <==> (i != r || agrees)
    ensures Run(cfg, InProcess, runId).Success?
    ensures Reasons(cfg.crypto, cfg.topology, Run(cfg, InProcess, runId).value.log) == []
            <==> r == cfg.maxRounds || agrees
  {
    hide FullyLocal, NoCollisions, PairsMatch, SigningLaw, Run, Reasons, WinnerPairAgrees;
    ValidIffWinnerPairAgrees(cfg, runId);
    assert WinnerPairAgrees(cfg, r) <==> agrees;
  }

  lemma SampleWinnerPair(pair: KeyPair, r: U64, maxRounds: U64, i: RoundId)
    ensures FullyLocal(Sample(pair, SpoiltBefore(r), maxRounds))
    ensures WinnerPairAgrees(Sample(pair, SpoiltBefore(r), maxRounds), i)
            <==> (i != r || (pair.key.Some? <==> pair.seed.Some?))
  {
    var cfg := Sample(pair, SpoiltBefore(r), maxRounds);
    SampleNodes(pair, SpoiltBefore(r), maxRounds);
    SampleWinner(pair, SpoiltBefore(r), maxRounds, i);
    assert PairAgrees(cfg, SELLER) <==> (pair.key.Some? <==> pair.seed.Some?);
    hide FullyLocal, Settles, Sample, PairAgrees, SpoiltBefore, Winner, FirstToSettle;
    forall j: RoundId ensures Settles(cfg, j) <==> r <= j {
      SampleSettles(pair, r, maxRounds, j);
    }
    FirstOfAllLater(cfg, r, i);
  }

  lemma FirstOfAllLater(cfg: Config, r: RoundId, i: RoundId)
    requires FullyLocal(cfg) && ValidTopology(cfg.topology)
    requires forall j: RoundId :: Settles(cfg, j) <==> r <= j
    ensures FirstToSettle(cfg, 0, i) <==> i == r
  {
    assert Settles(cfg, r);
    hide FullyLocal, Settles, ValidTopology;
  }

  lemma SampleConcludes(pair: KeyPair, r: U64, maxRounds: U64, o: RunOutcome)
    requires r <= maxRounds && FullyLocal(Sample(pair, SpoiltBefore(r), maxRounds))
    requires Concludes(Sample(pair, SpoiltBefore(r), maxRounds), o)
    ensures r < maxRounds ==> o.finalized && o.finalRound == r
    ensures o.log.finalized == o.finalized
    ensures r == maxRounds ==> !o.finalized && o.log.abortReason == Some(MaxRoundsExceeded)
  {
    hide FullyLocal, Settles;
    SampleSettles(pair, r, maxRounds, o.finalRound);
    if r < maxRounds {
      SampleSettles(pair, r, maxRounds, r);
    }
  }
}
