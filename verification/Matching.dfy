/** The match predicate, proposal annotations and candidate formation. */
module Matching {
  import opened Results
  import opened Protocol
  import opened Ordering

  datatype Denial =
    | WrongRequesterRole | WrongProviderRole
    | RequesterRoundMismatch | ProviderRoundMismatch | RequesterProviderRoundMismatch
    | ProviderLacksCapability
    | RequesterIdentityMismatch | ProviderIdentityMismatch | CapabilityAnnotationMismatch

  /** `None` when the pair is feasible, and otherwise the first reason it is not. */
  function MatchPredicate(requester: PublicIntent, provider: PublicIntent, round: RoundId): Option<Denial> {
    if requester.ProviderIntent? then Some(WrongRequesterRole)
    else if provider.RequesterIntent? then Some(WrongProviderRole)
    else if requester.round != round && provider.round != round then Some(RequesterProviderRoundMismatch)
    else if requester.round != round then Some(RequesterRoundMismatch)
    else if provider.round != round then Some(ProviderRoundMismatch)
    else if requester.required !in provider.claims then Some(ProviderLacksCapability)
    else None
  }

  /** Whether two public intents form a match in `round`. */
  predicate Feasible(requester: PublicIntent, provider: PublicIntent, round: RoundId) {
    && requester.RequesterIntent? && provider.ProviderIntent?
    && requester.round == round && provider.round == round
    && requester.required in provider.claims
  }

  function ValidateAnnotation(candidateRequester: NodeId, requester: PublicIntent,
                              candidateProvider: NodeId, provider: PublicIntent,
                              matched: CapabilityTag): Option<Denial>
  {
    if requester.nodeId != candidateRequester then Some(RequesterIdentityMismatch)
    else if provider.nodeId != candidateProvider then Some(ProviderIdentityMismatch)
    else if requester.ProviderIntent? then Some(WrongRequesterRole)
    else if requester.required != matched then Some(CapabilityAnnotationMismatch)
    else None
  }

  // ---------------------------------------------------------------------
  // Candidate formation
  // ---------------------------------------------------------------------

  datatype Candidate = Candidate(requester: NodeId, provider: NodeId, matched: CapabilityTag)

  /** The ids of the providers that match, in listing order. */
  function FeasibleIds(round: RoundId, requester: PublicIntent, providers: seq<CommitmentRecord>): (ids: seq<NodeId>)
    ensures forall x :: x in ids <==>
      exists p :: p in providers && p.nodeId == x && MatchPredicate(requester, p.intent, round).None?
  {
    if providers == [] then []
    else
      var n := |providers| - 1;
      assert providers == providers[..n] + [providers[n]];
      FeasibleIds(round, requester, providers[..n])
      + (if MatchPredicate(requester, providers[n].intent, round).None? then [providers[n].nodeId] else [])
  }

  function Derive(round: RoundId, requester: CommitmentRecord, providers: seq<CommitmentRecord>)
    : Result<Option<Candidate>, CandidateRejection>
  {
    if requester.intent.ProviderIntent? then Failure(MissingRequesterCapability)
    else if requester.intent.round != round then Failure(WrongRoundInRequester)
    else if requester.intent.required.text == [] then Failure(MissingRequesterCapability)
    else
      var sorted := SortIds(FeasibleIds(round, requester.intent, providers));
      if sorted == [] then Success(None)
      else Success(Some(Candidate(requester.nodeId, sorted[0], requester.intent.required)))
  }

  method DeriveCandidate(round: RoundId, requester: CommitmentRecord, providers: seq<CommitmentRecord>)
    returns (r: Result<Option<Candidate>, CandidateRejection>)
    ensures r == Derive(round, requester, providers)
  {
    var required: CapabilityTag;
    match requester.intent {
      case RequesterIntent(_, claimedRound, tag) =>
        if claimedRound != round {
          return Failure(WrongRoundInRequester);
        }
        if tag.text == [] {
          return Failure(MissingRequesterCapability);
        }
        required := tag;
      case ProviderIntent(_, _, _) =>
        return Failure(MissingRequesterCapability);
    }
    var feasible: seq<NodeId> := [];
    for i := 0 to |providers|
      invariant feasible == FeasibleIds(round, requester.intent, providers[..i])
    {
      assert providers[..i + 1][..i] == providers[..i];
      if MatchPredicate(requester.intent, providers[i].intent, round).None? {
        feasible := feasible + [providers[i].nodeId];
      }
    }
    assert providers[..|providers|] == providers;
    assert |SortIds(feasible)| == |feasible| by {
      assert |multiset(SortIds(feasible))| == |multiset(feasible)|;
    }
    if feasible == [] {
      return Success(None);
    }
    feasible := SortIds(feasible);
    return Success(Some(Candidate(requester.nodeId, feasible[0], required)));
  }

  /** When forming a candidate errs, and how: only on the requester's own record, its role judged first. */
  lemma DeriveErrsOn(round: RoundId, requester: CommitmentRecord, providers: seq<CommitmentRecord>)
    ensures var d, q := Derive(round, requester, providers), requester.intent;
      && (d == Failure(WrongRoundInRequester) <==> q.RequesterIntent? && q.round != round)
      && (d == Failure(MissingRequesterCapability) <==>
            q.ProviderIntent? || (q.round == round && q.required.text == []))
  {
    hide FeasibleIds, SortIds;
  }

  /** `m` is the node of a matching record, and no matching record has an earlier node. */
  ghost predicate IsLeastMatch(round: RoundId, requester: PublicIntent, providers: set<CommitmentRecord>, m: NodeId) {
    && (exists p :: p in providers && p.nodeId == m && Feasible(requester, p.intent, round))
    && (forall p :: p in providers && Feasible(requester, p.intent, round) ==> Leq(m, p.nodeId))
  }

  /** For a well-formed requester a candidate is the least match, and there is none just when nothing matches. */
  lemma DeriveIsLeastMatch(round: RoundId, requester: CommitmentRecord, providers: seq<CommitmentRecord>)
    requires requester.intent.RequesterIntent? && requester.intent.round == round
    requires requester.intent.required.text != []
    ensures var d := Derive(round, requester, providers);
      && d.Success?
      && (d.value.Some? <==> exists p :: p in providers && Feasible(requester.intent, p.intent, round))
      && (d.value.Some? ==>
            && d.value.value.requester == requester.nodeId
            && d.value.value.matched == requester.intent.required
            && IsLeastMatch(round, requester.intent, (set p | p in providers), d.value.value.provider))
  {
    var ids := FeasibleIds(round, requester.intent, providers);
    var sorted := SortIds(ids);
    SortIdsMembers(ids);
    if sorted != [] {
      assert sorted[0] in ids;
    }
    forall p | p in providers && Feasible(requester.intent, p.intent, round)
      ensures sorted != [] && Leq(sorted[0], p.nodeId)
    {
      assert MatchPredicate(requester.intent, p.intent, round).None?;
      assert p.nodeId in sorted;
      var k :| 0 <= k < |sorted| && sorted[k] == p.nodeId;
    }
  }

  lemma LeastMatchUnique(round: RoundId, requester: PublicIntent, providers: set<CommitmentRecord>, m: NodeId,
                         n: NodeId)
    requires IsLeastMatch(round, requester, providers, m) && IsLeastMatch(round, requester, providers, n)
    ensures m == n
  {
    LeqAntisymmetric(m, n);
  }

  /** The candidate depends on which records there are, not on their order or repetition. */
  lemma DeriveIgnoresOrder(round: RoundId, requester: CommitmentRecord,
                           one: seq<CommitmentRecord>, other: seq<CommitmentRecord>)
    requires (set p | p in one) == (set p | p in other)
    ensures Derive(round, requester, one) == Derive(round, requester, other)
  {
    if requester.intent.RequesterIntent? && requester.intent.round == round && requester.intent.required.text != [] {
      DeriveIsLeastMatch(round, requester, one);
      DeriveIsLeastMatch(round, requester, other);
      var s, s' := set p | p in one, set p | p in other;
      assert forall p :: p in one <==> p in s;
      assert forall p :: p in other <==> p in s';
      var d, d' := Derive(round, requester, one), Derive(round, requester, other);
      if d.value.Some? {
        LeastMatchUnique(round, requester.intent, s, d.value.value.provider, d'.value.value.provider);
      }
    }
  }
}
