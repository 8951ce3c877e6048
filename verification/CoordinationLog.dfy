/** The append-only public record of one run. */
module CoordinationLogs {
  import opened Results
  import opened Protocol

  datatype AbortReason = MaxRoundsExceeded

  /** The log's fields as one value. `keys` is the private duplicate index. */
  datatype Log = Log(
    runId: string,
    schemaVersion: nat,
    commitments: seq<CommitmentRecord>,
    proposals: seq<ProposalRecord>,
    proofs: seq<ProofRecord>,
    receipts: seq<ReceiptRecord>,
    rejections: seq<RejectionRecord>,
    finalRound: RoundId,
    finalized: bool,
    abortReason: Option<AbortReason>,
    keys: set<(NodeId, RoundId)>)

  function EmptyLog(runId: string): Log {
    Log(runId, 1, [], [], [], [], [], 0, false, None, {})
  }

  /** A new log is open, indexed and without a record. */
  lemma NewLogIsOpen(runId: string)
    ensures var log := EmptyLog(runId);
      && log.runId == runId && log.schemaVersion == 1 && !log.finalized && log.finalRound == 0 && log.abortReason.None?
      && log.commitments == [] && log.proposals == [] && log.proofs == [] && log.receipts == [] && log.rejections == []
      && Indexed(log)
  {
  }

  function Reject(log: Log, r: RejectionRecord): Log {
    log.(rejections := log.rejections + [r])
  }

  /** Appends unless the record's `(node, round)` key is already indexed. */
  function AppendCommitment(log: Log, c: CommitmentRecord): Option<Log> {
    if (c.nodeId, c.round) in log.keys then None
    else Some(log.(keys := log.keys + {(c.nodeId, c.round)}, commitments := log.commitments + [c]))
  }

  predicate KeysUnique(cs: seq<CommitmentRecord>) {
    forall i, j :: 0 <= i < j < |cs| ==> !(cs[i].nodeId == cs[j].nodeId && cs[i].round == cs[j].round)
  }

  function KeySet(cs: seq<CommitmentRecord>): set<(NodeId, RoundId)> {
    set c | c in cs :: (c.nodeId, c.round)
  }

  /** The index is exactly the keys of the public vector, which has no key twice. */
  ghost predicate Indexed(log: Log) {
    log.keys == KeySet(log.commitments) && KeysUnique(log.commitments)
  }

  lemma AppendKeepsIndex(log: Log, c: CommitmentRecord)
    requires Indexed(log)
    ensures AppendCommitment(log, c).Some? ==> Indexed(AppendCommitment(log, c).value)
    ensures AppendCommitment(log, c).None? <==>
            exists d :: d in log.commitments && d.nodeId == c.nodeId && d.round == c.round
  {
    assert (c.nodeId, c.round) in log.keys <==>
           exists d :: d in log.commitments && (d.nodeId, d.round) == (c.nodeId, c.round);
    var cs := log.commitments + [c];
    assert KeySet(cs) == KeySet(log.commitments) + {(c.nodeId, c.round)} by {
      assert forall x :: x in cs <==> x in log.commitments || x == c;
    }
  }

  // ---------------------------------------------------------------------
  // Lookups
  // ---------------------------------------------------------------------

  predicate Keyed(c: CommitmentRecord, node: NodeId, round: RoundId) {
    c.nodeId == node && c.round == round
  }

  function FindCommitment(cs: seq<CommitmentRecord>, node: NodeId, round: RoundId): (c: Option<CommitmentRecord>)
    ensures c.Some? ==> c.value in cs && Keyed(c.value, node, round)
    ensures c.None? ==> forall d :: d in cs ==> !Keyed(d, node, round)
  {
    if cs == [] then None
    else if Keyed(cs[0], node, round) then Some(cs[0])
    else FindCommitment(cs[1..], node, round)
  }

  function FindReceipt(rs: seq<ReceiptRecord>, round: RoundId, provider: NodeId): (r: Option<ReceiptRecord>)
    ensures r.Some? ==> r.value in rs && r.value.round == round && r.value.provider == provider
    ensures r.None? ==> forall q :: q in rs ==> !(q.round == round && q.provider == provider)
  {
    if rs == [] then None
    else if rs[0].round == round && rs[0].provider == provider then Some(rs[0])
    else FindReceipt(rs[1..], round, provider)
  }

  function LastProposal(ps: seq<ProposalRecord>, round: RoundId): (p: Option<ProposalRecord>)
    ensures p.Some? ==> p.value in ps && p.value.round == round
    ensures p.None? ==> forall q :: q in ps ==> q.round != round
  {
    if ps == [] then None
    else if ps[|ps| - 1].round == round then Some(ps[|ps| - 1])
    else LastProposal(ps[..|ps| - 1], round)
  }

  predicate HasProof(proofs: seq<ProofRecord>, node: NodeId, round: RoundId) {
    exists p :: p in proofs && p.round == round && p.nodeId == node
  }

  lemma {:induction false} FindUnique(cs: seq<CommitmentRecord>, c: CommitmentRecord)
    requires KeysUnique(cs) && c in cs
    ensures FindCommitment(cs, c.nodeId, c.round) == Some(c)
  {
    if Keyed(cs[0], c.nodeId, c.round) {
      var i :| 0 <= i < |cs| && cs[i] == c;
    } else {
      FindUnique(cs[1..], c);
    }
  }

  /** Entry `i` is the last proposal of `round`. */
  ghost predicate IsLastAt(ps: seq<ProposalRecord>, round: RoundId, i: nat) {
    i < |ps| && ps[i].round == round && forall j :: i < j < |ps| ==> ps[j].round != round
  }

  lemma {:induction false} LastProposalAt(ps: seq<ProposalRecord>, round: RoundId, i: nat)
    requires IsLastAt(ps, round, i)
    ensures LastProposal(ps, round) == Some(ps[i])
  {
    if i < |ps| - 1 {
      LastProposalAt(ps[..|ps| - 1], round, i);
    }
  }

  lemma {:induction false} LastProposalHasPlace(ps: seq<ProposalRecord>, round: RoundId) returns (i: nat)
    requires LastProposal(ps, round).Some?
    ensures IsLastAt(ps, round, i) && LastProposal(ps, round) == Some(ps[i])
  {
    if ps[|ps| - 1].round == round {
      i := |ps| - 1;
    } else {
      i := LastProposalHasPlace(ps[..|ps| - 1], round);
    }
  }

  /** Entry `i` is the first receipt of `round` from `provider`. */
  ghost predicate IsFirstAt(rs: seq<ReceiptRecord>, round: RoundId, provider: NodeId, i: nat) {
    && i < |rs| && rs[i].round == round && rs[i].provider == provider
    && forall j :: 0 <= j < i ==> !(rs[j].round == round && rs[j].provider == provider)
  }

  lemma {:induction false} FindReceiptAt(rs: seq<ReceiptRecord>, round: RoundId, provider: NodeId, i: nat)
    requires IsFirstAt(rs, round, provider, i)
    ensures FindReceipt(rs, round, provider) == Some(rs[i])
  {
    if i > 0 {
      FindReceiptAt(rs[1..], round, provider, i - 1);
    }
  }

  lemma {:induction false} FindReceiptHasPlace(rs: seq<ReceiptRecord>, round: RoundId, provider: NodeId)
    returns (i: nat)
    requires FindReceipt(rs, round, provider).Some?
    ensures IsFirstAt(rs, round, provider, i) && FindReceipt(rs, round, provider) == Some(rs[i])
  {
    if rs[0].round == round && rs[0].provider == provider {
      i := 0;
    } else {
      var k := FindReceiptHasPlace(rs[1..], round, provider);
      i := k + 1;
    }
  }

  class CoordinationLog {
    var runId: string
    var schemaVersion: nat
    var commitments: seq<CommitmentRecord>
    var proposals: seq<ProposalRecord>
    var proofs: seq<ProofRecord>
    var receipts: seq<ReceiptRecord>
    var rejections: seq<RejectionRecord>
    var finalRound: RoundId
    var finalized: bool
    var abortReason: Option<AbortReason>
    var keys: set<(NodeId, RoundId)>

    function View(): Log
      reads this
    {
      Log(runId, schemaVersion, commitments, proposals, proofs, receipts, rejections, finalRound, finalized,
          abortReason, keys)
    }

    constructor (runId: string)
      ensures View() == EmptyLog(runId)
    {
      this.runId := runId;
      schemaVersion := 1;
      commitments := [];
      proposals := [];
      proofs := [];
      receipts := [];
      rejections := [];
      finalRound := 0;
      finalized := false;
      abortReason := None;
      keys := {};
    }

    method AddCommitment(c: CommitmentRecord) returns (ok: bool)
      modifies this
      ensures ok <==> AppendCommitment(old(View()), c).Some?
      ensures View() == if ok then AppendCommitment(old(View()), c).value else old(View())
    {
      var key := (c.nodeId, c.round);
      if key in keys {
        return false;
      }
      keys := keys + {key};
      commitments := commitments + [c];
      return true;
    }

    method AddProposal(p: ProposalRecord)
      modifies this
      ensures View() == old(View()).(proposals := old(proposals) + [p])
    {
      proposals := proposals + [p];
    }

    method AddProof(p: ProofRecord)
      modifies this
      ensures View() == old(View()).(proofs := old(proofs) + [p])
    {
      proofs := proofs + [p];
    }

    method AddReceipt(r: ReceiptRecord)
      modifies this
      ensures View() == old(View()).(receipts := old(receipts) + [r])
    {
      receipts := receipts + [r];
    }

    method AddRejection(r: RejectionRecord)
      modifies this
      ensures View() == Reject(old(View()), r)
    {
      rejections := rejections + [r];
    }

    method SetFinalRound(round: RoundId, done: bool)
      modifies this
      ensures View() == old(View()).(finalRound := round, finalized := done)
    {
      finalRound := round;
      finalized := done;
    }

    method SetAbortReason(reason: AbortReason)
      modifies this
      ensures View() == old(View()).(abortReason := Some(reason))
    {
      abortReason := Some(reason);
    }

    /** Rebuilds the index from the public vector, as after deserialization. */
    method Reindex() returns (ok: bool)
      modifies this
      ensures ok <==> KeysUnique(commitments)
      ensures ok ==> Indexed(View())
      ensures View().(keys := {}) == old(View()).(keys := {})
    {
      keys := {};
      var i := 0;
      while i < |commitments|
        invariant 0 <= i <= |commitments|
        invariant KeysUnique(commitments[..i]) && keys == KeySet(commitments[..i])
        invariant View().(keys := {}) == old(View()).(keys := {})
      {
        var c := commitments[i];
        var key := (c.nodeId, c.round);
        assert commitments[..i + 1] == commitments[..i] + [c];
        if key in keys {
          var d :| d in commitments[..i] && (d.nodeId, d.round) == key;
          return false;
        }
        assert KeySet(commitments[..i + 1]) == KeySet(commitments[..i]) + {key} by {
          assert forall x :: x in commitments[..i + 1] <==> x in commitments[..i] || x == c;
        }
        keys := keys + {key};
        i := i + 1;
      }
      assert commitments[..i] == commitments;
      return true;
    }
  }
}
