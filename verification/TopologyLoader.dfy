/** The topology loader, from parsed values: what it lets through is exactly a valid topology. */
module TopologyLoader {
  import opened Results
  import opened Protocol

  datatype RawNode =
    RawNode(id: NodeId, role: Role, required: Option<CapabilityTag>, claims: Option<seq<CapabilityTag>>,
            signingKey: Option<PublicKey>)

  datatype ConfigError =
    | UnsupportedVersion(version: nat)
    | NoNodes
    | DuplicateNodeId(id: NodeId)
    | UnknownTag(tag: CapabilityTag)
    | MissingRequiredCapability
    | ProviderDeclaresRequirement
    | EmptyClaims
    | MissingClaims
    | RequesterDeclaresClaims
    | NotOneRequester(found: nat)
    | NoProviders

  /** A node whose fields are those of its role, with every tag known. */
  ghost predicate RawNodeLegit(tags: set<CapabilityTag>, n: RawNode) {
    match n.role
    case Requester => n.required.Some? && n.required.value in tags && n.claims.None?
    case Provider =>
      n.required.None? && n.claims.Some? && n.claims.value != [] && forall c :: c in n.claims.value ==> c in tags
  }

  function NodeOf(n: RawNode): NodeConfig {
    NodeConfig(n.id, n.role, n.required, if n.claims.Some? then n.claims.value else [], n.signingKey)
  }

  ghost predicate AllLegit(tags: set<CapabilityTag>, raws: seq<RawNode>) {
    forall i :: 0 <= i < |raws| ==> RawNodeLegit(tags, raws[i])
  }

  ghost predicate DistinctIds(raws: seq<RawNode>) {
    forall i, j :: 0 <= i < j < |raws| ==> raws[i].id != raws[j].id
  }

  ghost predicate HasRole(raws: seq<RawNode>, role: Role) {
    exists i :: 0 <= i < |raws| && raws[i].role == role
  }

  ghost predicate AtMostOne(raws: seq<RawNode>, role: Role) {
    forall i, j :: 0 <= i < j < |raws| ==> !(raws[i].role == role && raws[j].role == role)
  }

  /** What the loader asks of a parsed topology. */
  ghost predicate RawLegit(version: nat, tags: set<CapabilityTag>, raws: seq<RawNode>) {
    && version == 1
    && AllLegit(tags, raws) && DistinctIds(raws)
    && HasRole(raws, Requester) && AtMostOne(raws, Requester) && HasRole(raws, Provider)
  }

  /** The topology a list of parsed nodes stands for, in their given order. */
  function TopologyOf(raws: seq<RawNode>): (t: Topology)
    ensures |t.nodes| == |raws|
  {
    Topology(seq(|raws|, i requires 0 <= i < |raws| => NodeOf(raws[i])))
  }

  // ---------------------------------------------------------------------
  // Which refusal comes first
  // ---------------------------------------------------------------------

  /** The first claim that is not a known tag. */
  function FirstUnknown(tags: set<CapabilityTag>, claims: seq<CapabilityTag>): (c: Option<CapabilityTag>)
    ensures c.None? <==> forall x :: x in claims ==> x in tags
  {
    if claims == [] then None
    else if claims[0] !in tags then Some(claims[0])
    else
      assert claims == [claims[0]] + claims[1..];
      FirstUnknown(tags, claims[1..])
  }

  /** What is wrong with a node: its requirement is judged before its claims. */
  function NodeRefusal(tags: set<CapabilityTag>, n: RawNode): (e: Option<ConfigError>)
    ensures e.None? <==> RawNodeLegit(tags, n)
  {
    match n.role
    case Requester =>
      if n.required.None? then Some(MissingRequiredCapability)
      else if n.required.value !in tags then Some(UnknownTag(n.required.value))
      else if n.claims.Some? then Some(RequesterDeclaresClaims)
      else None
    case Provider =>
      if n.required.Some? then Some(ProviderDeclaresRequirement)
      else if n.claims.None? then Some(MissingClaims)
      else if n.claims.value == [] then Some(EmptyClaims)
      else
        match FirstUnknown(tags, n.claims.value)
        case Some(c) => Some(UnknownTag(c))
        case None => None
  }

  /** The first refusal among the nodes from the `i`-th on: a repeated id before the node's own faults. */
  ghost function NodesRefusal(tags: set<CapabilityTag>, raws: seq<RawNode>, i: nat): Option<ConfigError>
    requires i <= |raws|
    decreases |raws| - i
  {
    if i == |raws| then None
    else if exists j :: 0 <= j < i && raws[j].id == raws[i].id then Some(DuplicateNodeId(raws[i].id))
    else
      match NodeRefusal(tags, raws[i])
      case Some(e) => Some(e)
      case None => NodesRefusal(tags, raws, i + 1)
  }

  /** What the loader refuses: the version, an empty list, then the nodes in order, then the role counts. */
  ghost function Refusal(version: nat, tags: set<CapabilityTag>, raws: seq<RawNode>): Option<ConfigError> {
    if version != 1 then Some(UnsupportedVersion(version))
    else if raws == [] then Some(NoNodes)
    else
      match NodesRefusal(tags, raws, 0)
      case Some(e) => Some(e)
      case None =>
        if Count(raws, Requester) != 1 then Some(NotOneRequester(Count(raws, Requester)))
        else if Count(raws, Provider) == 0 then Some(NoProviders)
        else None
  }

  // ---------------------------------------------------------------------
  // The loader
  // ---------------------------------------------------------------------

  method NormalizeClaims(tags: set<CapabilityTag>, claims: seq<CapabilityTag>)
    returns (r: Result<seq<CapabilityTag>, ConfigError>)
    ensures r == match FirstUnknown(tags, claims)
                 case Some(c) => Failure(UnknownTag(c))
                 case None => Success(claims)
  {
    var out: seq<CapabilityTag> := [];
    assert claims[0..] == claims;
    for i := 0 to |claims|
      invariant out == claims[..i] && FirstUnknown(tags, claims[i..]) == FirstUnknown(tags, claims)
    {
      assert claims[i..][0] == claims[i] && claims[i..][1..] == claims[i + 1..];
      if claims[i] !in tags {
        return Failure(UnknownTag(claims[i]));
      }
      out := out + [claims[i]];
    }
    assert claims[|claims|..] == [] && claims[..|claims|] == claims;
    return Success(out);
  }

  method NormalizeNode(tags: set<CapabilityTag>, n: RawNode) returns (r: Result<NodeConfig, ConfigError>)
    ensures r.Success? <==> RawNodeLegit(tags, n)
    ensures r == match NodeRefusal(tags, n)
                 case Some(e) => Failure(e)
                 case None => Success(NodeOf(n))
  {
    match (n.role, n.required) {
      case (Requester, Some(tag)) =>
        if tag !in tags {
          return Failure(UnknownTag(tag));
        }
      case (Requester, None) => return Failure(MissingRequiredCapability);
      case (Provider, Some(_)) => return Failure(ProviderDeclaresRequirement);
      case (Provider, None) =>
    }
    var claims: seq<CapabilityTag> := [];
    match (n.role, n.claims) {
      case (Provider, Some(raws)) =>
        if raws == [] {
          return Failure(EmptyClaims);
        }
        var normalized := NormalizeClaims(tags, raws);
        if normalized.Failure? {
          return Failure(normalized.error);
        }
        claims := normalized.value;
      case (Provider, None) => return Failure(MissingClaims);
      case (Requester, Some(_)) => return Failure(RequesterDeclaresClaims);
      case (Requester, None) =>
    }
    return Success(NodeConfig(n.id, n.role, n.required, claims, n.signingKey));
  }

  /** Where the loader's loop stands after the nodes of `raws`. */
  ghost predicate Loaded(tags: set<CapabilityTag>, raws: seq<RawNode>, seen: set<NodeId>, nodes: seq<NodeConfig>) {
    && AllLegit(tags, raws) && DistinctIds(raws)
    && (forall x :: x in seen <==> exists j :: 0 <= j < |raws| && raws[j].id == x)
    && nodes == TopologyOf(raws).nodes
  }

  lemma LoadedNext(tags: set<CapabilityTag>, raws: seq<RawNode>, n: RawNode, seen: set<NodeId>, nodes: seq<NodeConfig>)
    requires Loaded(tags, raws, seen, nodes) && n.id !in seen && RawNodeLegit(tags, n)
    ensures Loaded(tags, raws + [n], seen + {n.id}, nodes + [NodeOf(n)])
  {
    hide RawNodeLegit;
    var more := raws + [n];
    forall x ensures x in seen + {n.id} <==> exists j :: 0 <= j < |more| && more[j].id == x {
      if x == n.id {
        assert more[|raws|].id == x;
      } else if x in seen {
        var j :| 0 <= j < |raws| && raws[j].id == x;
        assert more[j].id == x;
      }
    }
  }

  /** How many of the nodes have a role, counted as the loader counts. */
  function Count(raws: seq<RawNode>, role: Role): nat {
    if raws == [] then 0 else Count(raws[..|raws| - 1], role) + if raws[|raws| - 1].role == role then 1 else 0
  }

  lemma CountNext(raws: seq<RawNode>, n: RawNode)
    ensures forall role :: Count(raws + [n], role) == Count(raws, role) + if n.role == role then 1 else 0
  {
    assert (raws + [n])[..|raws|] == raws;
  }

  lemma RoleNext(raws: seq<RawNode>, n: RawNode, role: Role)
    ensures HasRole(raws + [n], role) <==> HasRole(raws, role) || n.role == role
    ensures AtMostOne(raws + [n], role) <==> AtMostOne(raws, role) && !(HasRole(raws, role) && n.role == role)
  {
    var more := raws + [n];
    assert more[|raws|] == n && forall i :: 0 <= i < |raws| ==> more[i] == raws[i];
  }

  lemma {:induction false} CountDecides(raws: seq<RawNode>, role: Role)
    ensures Count(raws, role) > 0 <==> HasRole(raws, role)
    ensures Count(raws, role) <= 1 <==> AtMostOne(raws, role)
  {
    if raws != [] {
      var front, last := raws[..|raws| - 1], raws[|raws| - 1];
      assert raws == front + [last];
      CountDecides(front, role);
      RoleNext(front, last, role);
      hide HasRole, AtMostOne;
    }
  }

  /** A node that repeats an id or does not fit its role spoils the whole. */
  lemma SpoiltBy(version: nat, tags: set<CapabilityTag>, raws: seq<RawNode>, i: nat)
    requires i < |raws|
    ensures (exists j :: 0 <= j < i && raws[j].id == raws[i].id) || !RawNodeLegit(tags, raws[i])
            ==> !RawLegit(version, tags, raws)
  {
  }

  lemma SeenIsRepeated(tags: set<CapabilityTag>, raws: seq<RawNode>, i: nat, seen: set<NodeId>, nodes: seq<NodeConfig>)
    requires i < |raws| && Loaded(tags, raws[..i], seen, nodes)
    ensures raws[i].id in seen <==> exists j :: 0 <= j < i && raws[j].id == raws[i].id
  {
    hide AllLegit, DistinctIds, TopologyOf;
    if raws[i].id in seen {
      var j :| 0 <= j < i && raws[..i][j].id == raws[i].id;
      assert raws[j].id == raws[i].id;
    } else if j :| 0 <= j < i && raws[j].id == raws[i].id {
      assert raws[..i][j].id == raws[i].id;
    }
  }

  lemma LoadedAll(version: nat, tags: set<CapabilityTag>, raws: seq<RawNode>, seen: set<NodeId>, nodes: seq<NodeConfig>)
    requires version == 1 && Loaded(tags, raws, seen, nodes)
    ensures RawLegit(version, tags, raws) <==> Count(raws, Requester) == 1 && Count(raws, Provider) > 0
    ensures Topology(nodes) == TopologyOf(raws)
  {
    hide AllLegit, DistinctIds, HasRole, AtMostOne, Count;
    CountDecides(raws, Requester);
    CountDecides(raws, Provider);
  }

  /** Succeeds exactly on legitimate input, listing the nodes in their given order; else reports the first refusal. */
  method FromRaw(version: nat, tags: set<CapabilityTag>, raws: seq<RawNode>) returns (r: Result<Topology, ConfigError>)
    ensures r.Success? <==> RawLegit(version, tags, raws)
    ensures r == match Refusal(version, tags, raws)
                 case Some(e) => Failure(e)
                 case None => Success(TopologyOf(raws))
  {
    if version != 1 {
      return Failure(UnsupportedVersion(version));
    }
    if raws == [] {
      return Failure(NoNodes);
    }
    var seen: set<NodeId> := {};
    var nodes: seq<NodeConfig> := [];
    var requesters, providers := 0, 0;
    CountOfNone();
    assert Loaded(tags, raws[..0], seen, nodes);
    hide RawNodeLegit, NodeRefusal, Count, RawLegit, Loaded, TopologyOf;
    for i := 0 to |raws|
      invariant Loaded(tags, raws[..i], seen, nodes)
      invariant NodesRefusal(tags, raws, i) == NodesRefusal(tags, raws, 0)
      invariant requesters == Count(raws[..i], Requester) && providers == Count(raws[..i], Provider)
    {
      var raw := raws[i];
      assert raws[..i + 1] == raws[..i] + [raw];
      SpoiltBy(version, tags, raws, i);
      SeenIsRepeated(tags, raws, i, seen, nodes);
      if raw.id in seen {
        return Failure(DuplicateNodeId(raw.id));
      }
      var node := NormalizeNode(tags, raw);
      if node.Failure? {
        return Failure(node.error);
      }
      LoadedNext(tags, raws[..i], raw, seen, nodes);
      CountNext(raws[..i], raw);
      seen := seen + {raw.id};
      match raw.role {
        case Requester => requesters := requesters + 1;
        case Provider => providers := providers + 1;
      }
      nodes := nodes + [node.value];
    }
    assert raws[..|raws|] == raws;
    LoadedAll(version, tags, raws, seen, nodes);
    if requesters != 1 {
      return Failure(NotOneRequester(requesters));
    }
    if providers == 0 {
      return Failure(NoProviders);
    }
    return Success(Topology(nodes));
  }

  lemma CountOfNone()
    ensures Count([], Requester) == 0 && Count([], Provider) == 0
  {
  }

  lemma NodesAreValid(tags: set<CapabilityTag>, raws: seq<RawNode>, n: NodeConfig)
    requires AllLegit(tags, raws) && (forall t :: t in tags ==> t.text != []) && n in TopologyOf(raws).nodes
    ensures ValidNode(n)
  {
    hide RawNodeLegit, ValidNode;
    var nodes := TopologyOf(raws).nodes;
    var i :| 0 <= i < |nodes| && nodes[i] == n;
    LegitIsValid(tags, raws[i]);
  }

  lemma RolesCarryOver(raws: seq<RawNode>, role: Role)
    requires HasRole(raws, role)
    ensures exists n :: n in TopologyOf(raws).nodes && n.role == role
  {
    var i :| 0 <= i < |raws| && raws[i].role == role;
    assert TopologyOf(raws).nodes[i] in TopologyOf(raws).nodes;
  }

  /** What is loaded is a valid topology, provided no known tag is empty. */
  lemma LoadedIsValid(version: nat, tags: set<CapabilityTag>, raws: seq<RawNode>)
    requires RawLegit(version, tags, raws) && forall t :: t in tags ==> t.text != []
    ensures ValidTopology(TopologyOf(raws))
  {
    var t := TopologyOf(raws);
    assert forall i :: 0 <= i < |raws| ==> t.nodes[i].id == raws[i].id && t.nodes[i].role == raws[i].role;
    assert UniqueIds(t.nodes);
    hide ValidNode, TopologyOf, AllLegit, HasRole, DistinctIds, UniqueIds;
    forall n | n in t.nodes ensures ValidNode(n) {
      NodesAreValid(tags, raws, n);
    }
    RolesCarryOver(raws, Requester);
    RolesCarryOver(raws, Provider);
  }

  lemma LegitIsValid(tags: set<CapabilityTag>, n: RawNode)
    requires RawNodeLegit(tags, n) && forall t :: t in tags ==> t.text != []
    ensures ValidNode(NodeOf(n))
  {
  }

  function RawOf(n: NodeConfig): RawNode {
    RawNode(n.id, n.role, n.required, if n.role == Provider then Some(n.claims) else None, n.signingKey)
  }

  lemma RawOfLegit(n: NodeConfig, tags: set<CapabilityTag>)
    requires ValidNode(n) && (n.required.Some? ==> n.required.value in tags) && forall c :: c in n.claims ==> c in tags
    ensures RawNodeLegit(tags, RawOf(n)) && NodeOf(RawOf(n)) == n
  {
  }

  lemma RawsLegit(nodes: seq<NodeConfig>, tags: set<CapabilityTag>, raws: seq<RawNode>)
    requires forall n :: n in nodes ==>
      ValidNode(n) && (n.required.Some? ==> n.required.value in tags) && forall c :: c in n.claims ==> c in tags
    requires |raws| == |nodes| && forall i :: 0 <= i < |nodes| ==> raws[i] == RawOf(nodes[i])
    ensures AllLegit(tags, raws) && TopologyOf(raws).nodes == nodes
  {
    forall i | 0 <= i < |raws| ensures RawNodeLegit(tags, raws[i]) && NodeOf(raws[i]) == nodes[i] {
      assert nodes[i] in nodes;
      RawOfLegit(nodes[i], tags);
    }
    hide ValidNode, RawNodeLegit, NodeOf, RawOf;
  }

  lemma RawsShape(t: Topology, raws: seq<RawNode>)
    requires ValidTopology(t)
    requires |raws| == |t.nodes| && forall i :: 0 <= i < |raws| ==>
      raws[i].id == t.nodes[i].id && raws[i].role == t.nodes[i].role
    ensures DistinctIds(raws) && HasRole(raws, Requester) && AtMostOne(raws, Requester) && HasRole(raws, Provider)
  {
    hide ValidNode;
    var q :| q in t.nodes && q.role == Requester;
    var p :| p in t.nodes && p.role == Provider;
    var i :| 0 <= i < |t.nodes| && t.nodes[i] == q;
    var j :| 0 <= j < |t.nodes| && t.nodes[j] == p;
    assert raws[i].role == Requester && raws[j].role == Provider;
  }

  /** Every valid topology over known tags is loaded from some input: the predicate is no stronger than the loader. */
  lemma ValidIsLoadable(t: Topology, tags: set<CapabilityTag>) returns (raws: seq<RawNode>)
    requires ValidTopology(t)
    requires forall n :: n in t.nodes ==>
      (n.required.Some? ==> n.required.value in tags) && forall c :: c in n.claims ==> c in tags
    ensures RawLegit(1, tags, raws) && t == TopologyOf(raws)
  {
    raws := seq(|t.nodes|, i requires 0 <= i < |t.nodes| => RawOf(t.nodes[i]));
    RawsShape(t, raws);
    RawsLegit(t.nodes, tags, raws);
    hide UniqueIds, AllLegit, DistinctIds, HasRole, AtMostOne, TopologyOf;
  }

  // ---------------------------------------------------------------------
  // What each refusal means
  // ---------------------------------------------------------------------

  /** The first unknown claim is the one reported. */
  lemma {:induction false} UnknownIsFirst(tags: set<CapabilityTag>, claims: seq<CapabilityTag>, i: nat)
    requires i < |claims| && claims[i] !in tags && forall j :: 0 <= j < i ==> claims[j] in tags
    ensures FirstUnknown(tags, claims) == Some(claims[i])
  {
    if i > 0 {
      assert claims[1..][i - 1] == claims[i];
      UnknownIsFirst(tags, claims[1..], i - 1);
    }
  }

  /** Which nodes each refusal is for. */
  lemma NodeRefusedFor(tags: set<CapabilityTag>, n: RawNode, tag: CapabilityTag)
    ensures var e := NodeRefusal(tags, n);
      && (e == Some(MissingRequiredCapability) <==> n.role == Requester && n.required.None?)
      && (e == Some(RequesterDeclaresClaims) <==>
            n.role == Requester && n.claims.Some? && n.required.Some? && n.required.value in tags)
      && (e == Some(ProviderDeclaresRequirement) <==> n.role == Provider && n.required.Some?)
      && (e == Some(MissingClaims) <==> n.role == Provider && n.required.None? && n.claims.None?)
      && (e == Some(EmptyClaims) <==> n.role == Provider && n.required.None? && n.claims == Some([]))
      && (e == Some(UnknownTag(tag)) <==>
            && tag !in tags
            && (if n.role == Requester then n.required == Some(tag)
                else n.required.None? && n.claims.Some? && exists i: nat :: FirstStray(tags, n.claims.value, i, tag)))
  {
    if n.role == Provider && n.claims.Some? {
      forall i: nat | FirstStray(tags, n.claims.value, i, tag)
        ensures FirstUnknown(tags, n.claims.value) == Some(tag)
      {
        UnknownIsFirst(tags, n.claims.value, i);
      }
      if FirstUnknown(tags, n.claims.value) == Some(tag) {
        var i := StrayHasPlace(tags, n.claims.value);
      }
    }
    hide FirstStray;
  }

  ghost predicate FirstStray(tags: set<CapabilityTag>, claims: seq<CapabilityTag>, i: nat, tag: CapabilityTag) {
    i < |claims| && claims[i] == tag && tag !in tags && forall j :: 0 <= j < i ==> claims[j] in tags
  }

  lemma {:induction false} StrayHasPlace(tags: set<CapabilityTag>, claims: seq<CapabilityTag>) returns (i: nat)
    requires FirstUnknown(tags, claims).Some?
    ensures FirstStray(tags, claims, i, FirstUnknown(tags, claims).value)
  {
    if claims[0] !in tags {
      i := 0;
    } else {
      i := StrayHasPlace(tags, claims[1..]);
      assert forall j :: 0 < j < i + 1 ==> claims[j] == claims[1..][j - 1];
      i := i + 1;
    }
  }

  ghost predicate Repeats(raws: seq<RawNode>, i: nat)
    requires i < |raws|
  {
    exists j :: 0 <= j < i && raws[j].id == raws[i].id
  }

  /** The first node that repeats an id or does not fit its role is reported, the repetition first. */
  lemma FirstBadNodeIsReported(tags: set<CapabilityTag>, raws: seq<RawNode>, i: nat)
    requires i < |raws| && AllLegit(tags, raws[..i]) && DistinctIds(raws[..i])
    requires Repeats(raws, i) || !RawNodeLegit(tags, raws[i])
    ensures Refusal(1, tags, raws) ==
      if Repeats(raws, i) then Some(DuplicateNodeId(raws[i].id)) else NodeRefusal(tags, raws[i])
  {
    GoodNodesPass(tags, raws, i);
    hide NodeRefusal, RawNodeLegit, Count, AllLegit, DistinctIds;
  }

  lemma {:induction false} GoodNodesPass(tags: set<CapabilityTag>, raws: seq<RawNode>, i: nat)
    requires i <= |raws| && AllLegit(tags, raws[..i]) && DistinctIds(raws[..i])
    ensures NodesRefusal(tags, raws, 0) == NodesRefusal(tags, raws, i)
  {
    hide NodeRefusal, RawNodeLegit;
    if i > 0 {
      assert raws[..i][..i - 1] == raws[..i - 1];
      GoodNodesPass(tags, raws, i - 1);
      assert raws[..i][i - 1] == raws[i - 1];
      assert forall j :: 0 <= j < i - 1 ==> raws[..i][j] == raws[j];
    }
  }

  ghost function OfRole(raws: seq<RawNode>, role: Role): set<nat> {
    set i: nat | i < |raws| && raws[i].role == role
  }

  lemma {:induction false} CountIsNumber(raws: seq<RawNode>, role: Role)
    ensures Count(raws, role) == |OfRole(raws, role)|
  {
    if raws == [] {
      assert OfRole(raws, role) == {};
    } else {
      var n := |raws| - 1;
      CountIsNumber(raws[..n], role);
      var rest := OfRole(raws[..n], role);
      assert OfRole(raws, role) == if raws[n].role == role then rest + {n} else rest;
    }
  }

  /** When every node is good, it is the number of requesters, then of providers. */
  lemma RoleCountsAreReported(version: nat, tags: set<CapabilityTag>, raws: seq<RawNode>)
    ensures version != 1 ==> Refusal(version, tags, raws) == Some(UnsupportedVersion(version))
    ensures version == 1 && raws == [] ==> Refusal(version, tags, raws) == Some(NoNodes)
    ensures version == 1 && raws != [] && AllLegit(tags, raws) && DistinctIds(raws) ==>
      var requesters, providers := |OfRole(raws, Requester)|, |OfRole(raws, Provider)|;
      && (requesters != 1 ==> Refusal(version, tags, raws) == Some(NotOneRequester(requesters)))
      && (requesters == 1 && providers == 0 ==> Refusal(version, tags, raws) == Some(NoProviders))
  {
    CountIsNumber(raws, Requester);
    CountIsNumber(raws, Provider);
    assert raws[..|raws|] == raws;
    if AllLegit(tags, raws) && DistinctIds(raws) {
      GoodNodesPass(tags, raws, |raws|);
    }
    hide NodeRefusal, RawNodeLegit, Count, OfRole;
  }
}
