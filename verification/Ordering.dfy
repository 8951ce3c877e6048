/** Stable public-key order: sorting node ids and walking sets of them in order. */
module Ordering {
  import opened Bytes
  import opened Protocol

  /** The place of an id in stable public-key order. */
  function Rank(a: NodeId): (r: nat) {
    FromBigEndian(a.bytes)
  }

  predicate Leq(a: NodeId, b: NodeId) {
    Rank(a) <= Rank(b)
  }

  /** Stable public-key order compares the key bytes left to right. */
  lemma LeqIsLexicographic(a: NodeId, b: NodeId)
    ensures Leq(a, b) <==> LexLeq(a.bytes, b.bytes)
  {
    LexIsNumeric(a.bytes, b.bytes);
  }

  lemma LeqAntisymmetric(a: NodeId, b: NodeId)
    requires Leq(a, b) && Leq(b, a)
    ensures a == b
  {
    FromBigEndianRoundTrip(a.bytes);
    FromBigEndianRoundTrip(b.bytes);
  }

  predicate Sorted(s: seq<NodeId>) {
    forall i, j :: 0 <= i < j < |s| ==> Leq(s[i], s[j])
  }

  predicate Distinct(s: seq<NodeId>) {
    forall i, j :: 0 <= i < j < |s| ==> s[i] != s[j]
  }

  predicate IsLeast(m: NodeId, s: set<NodeId>) {
    m in s && forall x :: x in s ==> Leq(m, x)
  }

  /** Insertion into an ordered sequence, after the entries that do not exceed `x`. */
  function Insert(x: NodeId, s: seq<NodeId>): seq<NodeId> {
    if s == [] then [x]
    else if Leq(s[0], x) then [s[0]] + Insert(x, s[1..])
    else [x] + s
  }

  lemma {:induction false} InsertKeepsContents(x: NodeId, s: seq<NodeId>)
    ensures multiset(Insert(x, s)) == multiset(s) + multiset{x}
  {
    hide Leq;
    if s != [] && Leq(s[0], x) {
      assert s == [s[0]] + s[1..];
      InsertKeepsContents(x, s[1..]);
    }
  }

  lemma {:induction false} InsertKeepsOrder(x: NodeId, s: seq<NodeId>)
    requires Sorted(s)
    ensures Sorted(Insert(x, s))
  {
    if s == [] || !Leq(s[0], x) {
      assert s != [] ==> Leq(x, s[0]);
      InsertAtFront(x, s);
    } else {
      hide Leq;
      InsertKeepsOrder(x, s[1..]);
      InsertKeepsContents(x, s[1..]);
      var rest := Insert(x, s[1..]);
      forall i | 0 <= i < |rest| ensures Leq(s[0], rest[i]) {
        assert rest[i] in multiset(rest);
        assert rest[i] == x || rest[i] in s[1..];
      }
    }
  }

  lemma InsertAtFront(x: NodeId, s: seq<NodeId>)
    requires Sorted(s) && (s != [] ==> Leq(x, s[0]))
    ensures Sorted([x] + s)
  {
    hide Rank;
    forall i | 0 <= i < |s| ensures Leq(x, s[i]) {
      assert i > 0 ==> Leq(s[0], s[i]);
    }
  }

  function SortIds(s: seq<NodeId>): (r: seq<NodeId>)
    ensures Sorted(r)
    ensures multiset(r) == multiset(s)
  {
    if s == [] then []
    else
      assert s == [s[0]] + s[1..];
      InsertKeepsOrder(s[0], SortIds(s[1..]));
      InsertKeepsContents(s[0], SortIds(s[1..]));
      Insert(s[0], SortIds(s[1..]))
  }

  lemma SortIdsMembers(s: seq<NodeId>)
    ensures forall x :: x in SortIds(s) <==> x in s
  {
    forall x ensures x in SortIds(s) <==> x in s {
      assert x in SortIds(s) <==> x in multiset(SortIds(s));
    }
  }

  /** There is one ordered arrangement of a multiset of ids. */
  lemma {:induction false} SortedUnique(a: seq<NodeId>, b: seq<NodeId>)
    requires Sorted(a) && Sorted(b) && multiset(a) == multiset(b)
    ensures a == b
  {
    assert |a| == |multiset(a)| == |multiset(b)| == |b|;
    if a != [] {
      SortedHeads(a, b);
      assert a == [a[0]] + a[1..] && b == [b[0]] + b[1..];
      assert multiset(a[1..]) == multiset(a) - multiset{a[0]};
      assert multiset(b[1..]) == multiset(b) - multiset{b[0]};
      SortedUnique(a[1..], b[1..]);
    }
  }

  lemma SortedHeads(a: seq<NodeId>, b: seq<NodeId>)
    requires a != [] && b != [] && Sorted(a) && Sorted(b) && multiset(a) == multiset(b)
    ensures a[0] == b[0]
  {
    assert a[0] in multiset(b) && b[0] in multiset(a);
    var i :| 0 <= i < |b| && b[i] == a[0];
    var j :| 0 <= j < |a| && a[j] == b[0];
    LeqAntisymmetric(a[0], b[0]);
  }

  lemma DistinctByMultiset(a: seq<NodeId>, b: seq<NodeId>)
    requires multiset(a) == multiset(b) && Distinct(a)
    ensures Distinct(b)
  {
    forall i, j | 0 <= i < j < |b| ensures b[i] != b[j] {
      if b[i] == b[j] {
        var x := b[i];
        assert b == b[..j] + [x] + b[j + 1..];
        assert x in multiset(b[..j]) by { assert b[..j][i] == x; }
        assert multiset(b)[x] >= 2;
        DistinctCounts(a, x);
      }
    }
  }

  lemma {:induction false} DistinctCounts(a: seq<NodeId>, x: NodeId)
    requires Distinct(a)
    ensures multiset(a)[x] <= 1
  {
    if a != [] {
      assert a == [a[0]] + a[1..];
      DistinctCounts(a[1..], x);
      if a[0] == x {
        assert x !in a[1..];
      }
    }
  }

  // ---------------------------------------------------------------------
  // Walking the keys of an ordered map
  // ---------------------------------------------------------------------

  lemma {:induction false} LeastExists(s: set<NodeId>)
    requires s != {}
    ensures exists m :: IsLeast(m, s)
  {
    var a :| a in s;
    var rest := s - {a};
    if rest == {} {
      assert s == {a};
      assert IsLeast(a, s);
    } else {
      LeastExists(rest);
      var m :| IsLeast(m, rest);
      var least := if Leq(a, m) then a else m;
      assert forall x :: x in s ==> x == a || x in rest;
      assert IsLeast(least, s);
    }
  }

  lemma LeastUnique(s: set<NodeId>, m: NodeId, n: NodeId)
    requires IsLeast(m, s) && IsLeast(n, s)
    ensures m == n
  {
    LeqAntisymmetric(m, n);
  }

  /** The first key of an ordered map. */
  function Least(s: set<NodeId>): (m: NodeId)
    requires s != {}
    ensures IsLeast(m, s)
  {
    LeastExists(s);
    assert forall m, n :: IsLeast(m, s) && IsLeast(n, s) ==> m == n by {
      forall m, n | IsLeast(m, s) && IsLeast(n, s) ensures m == n {
        LeastUnique(s, m, n);
      }
    }
    var m :| IsLeast(m, s);
    m
  }

  /** The keys of an ordered map, in the order its iterator yields them. */
  function SortedKeys(s: set<NodeId>): (r: seq<NodeId>)
    ensures Sorted(r) && Distinct(r)
    ensures forall x :: x in r <==> x in s
    decreases |s|
  {
    if s == {} then []
    else
      var m := Least(s);
      LeastFirst(m, SortedKeys(s - {m}), s);
      [m] + SortedKeys(s - {m})
  }

  lemma LeastFirst(m: NodeId, rest: seq<NodeId>, s: set<NodeId>)
    requires IsLeast(m, s) && Sorted(rest) && Distinct(rest) && forall x :: x in rest <==> x in s - {m}
    ensures Sorted([m] + rest) && Distinct([m] + rest) && forall x :: x in [m] + rest <==> x in s
  {
    hide Leq;
    assert forall i :: 0 <= i < |rest| ==> rest[i] in s - {m};
  }
}
