/** Deterministic proposer rotation. */
module Proposer {
  import opened Results
  import opened Protocol
  import opened Ordering

  datatype ProposerError = NoProviders | DuplicateInput(id: NodeId)

  /** The first entry that repeats an earlier one. */
  function FirstDuplicate(s: seq<NodeId>): (d: Option<NodeId>)
    ensures d.None? <==> Distinct(s)
  {
    if s == [] then None
    else
      var n := |s| - 1;
      assert s == s[..n] + [s[n]];
      match FirstDuplicate(s[..n])
      case Some(x) => Some(x)
      case None => if s[n] in s[..n] then Some(s[n]) else None
  }

  function ForRound(round: RoundId, providers: seq<NodeId>): Result<NodeId, ProposerError> {
    if providers == [] then Failure(NoProviders)
    else
      match FirstDuplicate(providers)
      case Some(x) => Failure(DuplicateInput(x))
      case None => Success(providers[round % |providers|])
  }

  method ProposerForRound(round: RoundId, providers: seq<NodeId>) returns (r: Result<NodeId, ProposerError>)
    ensures r == ForRound(round, providers)
  {
    if providers == [] {
      return Failure(NoProviders);
    }
    var seen: set<NodeId> := {};
    for i := 0 to |providers|
      invariant FirstDuplicate(providers[..i]).None?
      invariant forall x :: x in seen <==> x in providers[..i]
    {
      assert providers[..i + 1][..i] == providers[..i];
      if providers[i] in seen {
        FirstDuplicateExtends(providers, i + 1);
        return Failure(DuplicateInput(providers[i]));
      }
      seen := seen + {providers[i]};
    }
    assert providers[..|providers|] == providers;
    return Success(providers[round % |providers|]);
  }

  /** A repetition inside a prefix is the first repetition of the whole. */
  lemma {:induction false} FirstDuplicateExtends(s: seq<NodeId>, n: nat)
    requires n <= |s| && FirstDuplicate(s[..n]).Some?
    ensures FirstDuplicate(s) == FirstDuplicate(s[..n])
    decreases |s|
  {
    if n == |s| {
      assert s[..n] == s;
    } else {
      var front := s[..|s| - 1];
      assert front[..n] == s[..n];
      FirstDuplicateExtends(front, n);
      assert !Distinct(front);
      assert s != [];
    }
  }

  /** The first entry that repeats an earlier one is reported; else the round's remainder is the index. */
  lemma ForRoundIs(round: RoundId, providers: seq<NodeId>, i: nat)
    ensures providers == [] <==> ForRound(round, providers) == Failure(NoProviders)
    ensures i < |providers| && Distinct(providers[..i]) && providers[i] in providers[..i] ==>
      ForRound(round, providers) == Failure(DuplicateInput(providers[i]))
    ensures providers != [] && Distinct(providers) ==>
      ForRound(round, providers) == Success(providers[round % |providers|])
  {
    if i < |providers| && Distinct(providers[..i]) && providers[i] in providers[..i] {
      var upTo := providers[..i + 1];
      assert upTo[..i] == providers[..i];
      assert FirstDuplicate(upTo) == Some(providers[i]);
      FirstDuplicateExtends(providers, i + 1);
    }
  }

  function ProviderIds(nodes: seq<NodeConfig>): (ids: seq<NodeId>) {
    if nodes == [] then []
    else (if nodes[0].role == Provider then [nodes[0].id] else []) + ProviderIds(nodes[1..])
  }

  /** The provider ring: every configured provider in stable key order. */
  function Ring(t: Topology): seq<NodeId> {
    SortIds(ProviderIds(t.nodes))
  }

  /** The proposer of `round`, as the machine, the runtime and the verifier all compute it. */
  function ProposerOf(t: Topology, round: RoundId): Result<NodeId, ProposerError> {
    ForRound(round, Ring(t))
  }

  // ---------------------------------------------------------------------
  // The rotation
  // ---------------------------------------------------------------------

  lemma {:induction false} ProviderIdsMembers(nodes: seq<NodeConfig>)
    ensures forall x :: x in ProviderIds(nodes) <==> exists n :: n in nodes && n.role == Provider && n.id == x
  {
    if nodes != [] {
      ProviderIdsMembers(nodes[1..]);
      assert nodes == [nodes[0]] + nodes[1..];
    }
  }

  lemma {:induction false} ProviderIdsDistinct(nodes: seq<NodeConfig>)
    requires UniqueIds(nodes)
    ensures Distinct(ProviderIds(nodes))
  {
    if nodes != [] {
      ProviderIdsDistinct(nodes[1..]);
      ProviderIdsMembers(nodes[1..]);
      var rest := ProviderIds(nodes[1..]);
      forall i | 0 <= i < |rest| ensures rest[i] != nodes[0].id {
        assert rest[i] in rest;
        var n :| n in nodes[1..] && n.role == Provider && n.id == rest[i];
      }
    }
  }

  /** The ring of a valid topology holds each provider once and nothing else. */
  lemma RingShape(t: Topology)
    requires ValidTopology(t)
    ensures Ring(t) != [] && Distinct(Ring(t)) && Sorted(Ring(t))
    ensures forall x :: x in Ring(t) <==> exists n :: n in t.nodes && n.role == Provider && n.id == x
  {
    var ids := ProviderIds(t.nodes);
    ProviderIdsDistinct(t.nodes);
    ProviderIdsMembers(t.nodes);
    DistinctByMultiset(ids, Ring(t));
    SortIdsMembers(ids);
    var n :| n in t.nodes && n.role == Provider;
    assert n.id in Ring(t);
  }

  /** In a valid topology every round has a proposer, and it is a configured provider. */
  lemma ProposerExists(t: Topology, round: RoundId)
    requires ValidTopology(t)
    ensures |Ring(t)| > 0 && ProposerOf(t, round) == Success(Ring(t)[round % |Ring(t)|])
    ensures exists n :: n in t.nodes && n.role == Provider && ProposerOf(t, round) == Success(n.id)
  {
    RingShape(t);
    var p := Ring(t)[round % |Ring(t)|];
    assert p in Ring(t);
  }

  lemma {:induction false} ProviderIdsPermute(one: seq<NodeConfig>, other: seq<NodeConfig>)
    requires multiset(one) == multiset(other)
    ensures multiset(ProviderIds(one)) == multiset(ProviderIds(other))
  {
    if one == [] {
      assert |other| == |multiset(other)| == 0;
    } else {
      var x := one[0];
      assert one == [x] + one[1..];
      var front, back := SplitAround(other, x);
      assert multiset(front + back) == multiset(one[1..]);
      ProviderIdsPermute(one[1..], front + back);
      MoveToFront(front, x, back);
      ProviderIdsConcat([x], one[1..]);
    }
  }

  lemma SplitAround(s: seq<NodeConfig>, x: NodeConfig) returns (front: seq<NodeConfig>, back: seq<NodeConfig>)
    requires x in multiset(s)
    ensures s == front + [x] + back
    ensures multiset(front + back) == multiset(s) - multiset{x}
  {
    var k :| 0 <= k < |s| && s[k] == x;
    front, back := s[..k], s[k + 1..];
  }

  lemma MoveToFront(front: seq<NodeConfig>, x: NodeConfig, back: seq<NodeConfig>)
    ensures multiset(ProviderIds(front + [x] + back)) ==
            multiset(ProviderIds([x])) + multiset(ProviderIds(front + back))
  {
    ProviderIdsConcat(front + [x], back);
    ProviderIdsConcat(front, [x]);
    ProviderIdsConcat(front, back);
  }

  lemma {:induction false} ProviderIdsConcat(a: seq<NodeConfig>, b: seq<NodeConfig>)
    ensures ProviderIds(a + b) == ProviderIds(a) + ProviderIds(b)
  {
    if a == [] {
      assert a + b == b;
    } else {
      var head := if a[0].role == Provider then [a[0].id] else [];
      assert (a + b)[0] == a[0] && (a + b)[1..] == a[1..] + b;
      ProviderIdsConcat(a[1..], b);
      assert ProviderIds(a + b) == head + ProviderIds(a[1..] + b);
      assert ProviderIds(a) == head + ProviderIds(a[1..]);
    }
  }

  /** Listing the nodes in another order names the same proposer in every round. */
  lemma ProposerIgnoresListingOrder(t: Topology, u: Topology, round: RoundId)
    requires multiset(t.nodes) == multiset(u.nodes)
    ensures ProposerOf(t, round) == ProposerOf(u, round)
  {
    ProviderIdsPermute(t.nodes, u.nodes);
    SortedUnique(Ring(t), Ring(u));
  }

  predicate Proposes(t: Topology, round: RoundId, id: NodeId) {
    ProposerOf(t, round) == Success(id)
  }

  /** Over as many consecutive rounds as there are providers, each provider proposes exactly once. */
  lemma RotationIsFair(t: Topology, start: RoundId, provider: NodeConfig)
    requires ValidTopology(t) && provider in t.nodes && provider.role == Provider
    requires start + |Ring(t)| <= 0x1_0000_0000_0000_0000
    ensures exists r: RoundId :: start <= r < start + |Ring(t)| && Proposes(t, r, provider.id)
    ensures forall r: RoundId, q: RoundId ::
      && start <= r < start + |Ring(t)| && start <= q < start + |Ring(t)|
      && Proposes(t, r, provider.id) && Proposes(t, q, provider.id)
      ==> r == q
  {
    RingShape(t);
    assert provider.id in Ring(t);
    var k :| 0 <= k < |Ring(t)| && Ring(t)[k] == provider.id;
    var r := TurnExists(t, start, k);
    forall a: RoundId, b: RoundId |
      && start <= a < start + |Ring(t)| && start <= b < start + |Ring(t)|
      && Proposes(t, a, provider.id) && Proposes(t, b, provider.id)
      ensures a == b
    {
      TurnIsUnique(t, a, b, k);
    }
  }

  lemma TurnExists(t: Topology, start: RoundId, k: nat) returns (r: RoundId)
    requires ValidTopology(t) && k < |Ring(t)|
    requires start + |Ring(t)| <= 0x1_0000_0000_0000_0000
    ensures start <= r < start + |Ring(t)| && Proposes(t, r, Ring(t)[k])
  {
    WindowHits(start, k, |Ring(t)|);
    r := start + (k - start) % |Ring(t)|;
    ProposesAtSlot(t, r, k);
  }

  lemma TurnIsUnique(t: Topology, a: RoundId, b: RoundId, k: nat)
    requires ValidTopology(t) && k < |Ring(t)|
    requires a - b < |Ring(t)| && b - a < |Ring(t)|
    requires Proposes(t, a, Ring(t)[k]) && Proposes(t, b, Ring(t)[k])
    ensures a == b
  {
    ProposesAtSlot(t, a, k);
    ProposesAtSlot(t, b, k);
    WindowInjective(a, b, |Ring(t)|);
  }

  lemma ProposesAtSlot(t: Topology, round: RoundId, k: nat)
    requires ValidTopology(t) && k < |Ring(t)|
    ensures Proposes(t, round, Ring(t)[k]) <==> round % |Ring(t)| == k
  {
    RingShape(t);
    ProposerExists(t, round);
  }

  lemma MultipleBound(n: nat, d: int)
    ensures d >= 1 ==> n * d >= n
    ensures d <= -1 ==> n * d + n <= 0
  {
    if d >= 1 {
      assert n * (d - 1) >= 0;
    } else if d <= -1 {
      assert n * (-d - 1) >= 0;
    }
  }

  lemma WindowHits(start: nat, k: nat, n: nat)
    requires k < n
    ensures 0 <= (k - start) % n < n && (start + (k - start) % n) % n == k
  {
    var i, q := (k - start) % n, (k - start) / n;
    var x := start + i;
    assert k - start == n * q + i;
    var d := x / n + q;
    assert x == n * (x / n) + x % n;
    assert n * d == n * (x / n) + n * q;
    MultipleBound(n, d);
  }

  lemma WindowInjective(a: nat, b: nat, n: nat)
    requires n > 0 && a - b < n && b - a < n && a % n == b % n
    ensures a == b
  {
    var p, q := a / n, b / n;
    assert a == n * p + a % n;
    assert b == n * q + b % n;
    assert n * (p - q) == n * p - n * q;
    MultipleBound(n, p - q);
  }
}
