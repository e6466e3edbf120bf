/** Finite directed graphs as successor sets. Edges to nodes outside the map do not count:
    the depth-first searches of the policy engine all skip what they cannot look up. */
module Digraph {

  type Graph<!N(==)> = map<N, set<N>>

  predicate Edge<N(!new)>(g: Graph<N>, a: N, b: N) {
    a in g && b in g && b in g[a]
  }

  /** Consecutive nodes are joined by edges. */
  ghost predicate IsWalk<N(!new)>(g: Graph<N>, p: seq<N>) {
    forall i :: 0 <= i < |p| - 1 ==> Edge(g, p[i], p[i + 1])
  }

  ghost predicate WalkFromTo<N(!new)>(g: Graph<N>, p: seq<N>, a: N, b: N) {
    p != [] && p[0] == a && p[|p| - 1] == b && IsWalk(g, p)
  }

  /** There is a walk, possibly without any edge, from a to b. */
  ghost predicate Reaches<N(!new)>(g: Graph<N>, a: N, b: N) {
    exists p :: WalkFromTo(g, p, a, b)
  }

  /** m can be reached from one of its own successors. */
  ghost predicate OnCycle<N(!new)>(g: Graph<N>, m: N) {
    exists v :: Edge(g, m, v) && Reaches(g, v, m)
  }

  ghost predicate HasCycle<N(!new)>(g: Graph<N>) {
    exists m :: OnCycle(g, m)
  }

  lemma ReachesSelf<N(!new)>(g: Graph<N>, a: N)
    ensures Reaches(g, a, a)
  {
    assert WalkFromTo(g, [a], a, a);
  }

  lemma ReachesOneMore<N(!new)>(g: Graph<N>, a: N, b: N, c: N)
    requires Reaches(g, a, b) && Edge(g, b, c)
    ensures Reaches(g, a, c)
  {
    var p :| WalkFromTo(g, p, a, b);
    assert WalkFromTo(g, p + [c], a, c);
  }

  lemma ReachesTransitive<N(!new)>(g: Graph<N>, a: N, b: N, c: N)
    requires Reaches(g, a, b) && Reaches(g, b, c)
    ensures Reaches(g, a, c)
  {
    var p :| WalkFromTo(g, p, a, b);
    var q :| WalkFromTo(g, q, b, c);
    var r := p + q[1..];
    forall i | 0 <= i < |r| - 1 ensures Edge(g, r[i], r[i + 1]) {
      if i >= |p| - 1 {
        assert r[i] == q[i - (|p| - 1)];
      }
    }
    assert WalkFromTo(g, r, a, c);
  }

  lemma EdgeReaches<N(!new)>(g: Graph<N>, a: N, b: N)
    requires Edge(g, a, b)
    ensures Reaches(g, a, b)
  {
    ReachesSelf(g, a);
    ReachesOneMore(g, a, a, b);
  }

  /** A walk stays where it is or starts with an edge. */
  lemma FirstEdge<N(!new)>(g: Graph<N>, a: N, b: N) returns (v: N)
    requires Reaches(g, a, b) && a != b
    ensures Edge(g, a, v) && Reaches(g, v, b)
  {
    var p :| WalkFromTo(g, p, a, b);
    v := p[1];
    assert Edge(g, p[0], p[1]);
    var tail := p[1..];
    forall i | 0 <= i < |tail| - 1 ensures Edge(g, tail[i], tail[i + 1]) {
      assert Edge(g, p[i + 1], p[i + 2]);
    }
    assert WalkFromTo(g, tail, v, b);
  }

  ghost predicate Closed<N(!new)>(g: Graph<N>, s: set<N>) {
    forall a, b :: a in s && Edge(g, a, b) ==> b in s
  }

  lemma {:induction false} WalkStaysInClosed<N(!new)>(g: Graph<N>, s: set<N>, p: seq<N>)
    requires Closed(g, s) && IsWalk(g, p) && p != [] && p[0] in s
    ensures forall i :: 0 <= i < |p| ==> p[i] in s
  {
    if |p| > 1 {
      assert Edge(g, p[0], p[1]);
      WalkStaysInClosed(g, s, p[1..]);
      forall i | 0 <= i < |p| ensures p[i] in s {
        assert i > 0 ==> p[i] == p[1..][i - 1];
      }
    }
  }

  /** A set that no edge leaves contains everything it reaches. */
  lemma ClosedContainsReachable<N(!new)>(g: Graph<N>, s: set<N>, a: N, b: N)
    requires Closed(g, s) && a in s && Reaches(g, a, b)
    ensures b in s
  {
    var p :| WalkFromTo(g, p, a, b);
    WalkStaysInClosed(g, s, p);
  }

  // ----- finishing orders -----

  /** Every node is listed at most once and after all of its successors. */
  ghost predicate Ordered<N(!new)>(g: Graph<N>, order: seq<N>) {
    && (forall i, j :: 0 <= i < j < |order| ==> order[i] != order[j])
    && (forall i, b :: 0 <= i < |order| && Edge(g, order[i], b) ==> b in order[..i])
  }

  lemma OrderedExtend<N(!new)>(g: Graph<N>, order: seq<N>, m: N)
    requires Ordered(g, order) && m !in order
    requires forall b :: Edge(g, m, b) ==> b in order
    ensures Ordered(g, order + [m])
  {
    var o := order + [m];
    forall i, b | 0 <= i < |o| && Edge(g, o[i], b) ensures b in o[..i] {
      assert o[..i] == order[..i];
    }
  }

  lemma {:induction false} WalkDescends<N(!new)>(g: Graph<N>, order: seq<N>, p: seq<N>, i: nat) returns (j: nat)
    requires Ordered(g, order) && IsWalk(g, p) && p != []
    requires i < |order| && order[i] == p[0]
    ensures j <= i && order[j] == p[|p| - 1]
    ensures |p| > 1 ==> j < i
  {
    if |p| == 1 {
      return i;
    }
    assert Edge(g, p[0], p[1]);
    assert p[1] in order[..i];
    var k :| 0 <= k < i && order[..i][k] == p[1];
    j := WalkDescends(g, order, p[1..], k);
  }

  /** A graph whose nodes can be listed after their successors has no cycle. */
  lemma OrderedHasNoCycle<N(!new)>(g: Graph<N>, order: seq<N>)
    requires Ordered(g, order) && forall m :: m in g ==> m in order
    ensures !HasCycle(g)
  {
    if HasCycle(g) {
      var m :| OnCycle(g, m);
      var v :| Edge(g, m, v) && Reaches(g, v, m);
      var p :| WalkFromTo(g, p, v, m);
      var walk := [m] + p;
      forall i | 0 <= i < |walk| - 1 ensures Edge(g, walk[i], walk[i + 1]) {
        assert i > 0 ==> walk[i] == p[i - 1];
      }
      var i :| 0 <= i < |order| && order[i] == m;
      var j := WalkDescends(g, order, walk, i);
      assert false;
    }
  }

  /** Positions in such a list strictly decrease along edges. */
  function Position<N(==)>(order: seq<N>, m: N): (i: nat)
    ensures i <= |order|
    ensures m in order ==> i < |order| && order[i] == m
    ensures m !in order ==> i == |order|
    ensures m !in order[..i]
  {
    if order == [] || order[0] == m then 0 else 1 + Position(order[1..], m)
  }

  lemma PositionDescends<N(!new)>(g: Graph<N>, order: seq<N>, a: N, b: N)
    requires Ordered(g, order) && a in order && Edge(g, a, b)
    ensures b in order && Position(order, b) < Position(order, a)
  {
    var i := Position(order, a);
    assert b in order[..i];
    var k :| 0 <= k < i && order[..i][k] == b;
    PositionIsFirst(order, b, k);
  }

  lemma {:induction false} PositionIsFirst<N>(order: seq<N>, m: N, k: nat)
    requires k < |order| && order[k] == m
    ensures Position(order, m) <= k
  {
    if order[0] != m {
      PositionIsFirst(order[1..], m, k - 1);
    }
  }

  // ----- depth-first output on graphs that may have cycles -----

  /** Every node comes after its successors, except for successors that lead back to it. */
  ghost predicate SuccessorsFirst<N(!new)>(g: Graph<N>, emitted: seq<N>) {
    forall i, b :: 0 <= i < |emitted| && Edge(g, emitted[i], b) ==> b in emitted[..i] || Reaches(g, b, emitted[i])
  }

  ghost predicate AllReach<N(!new)>(g: Graph<N>, from: set<N>, m: N) {
    forall a :: a in from ==> Reaches(g, a, m)
  }

  ghost predicate ReachedFrom<N(!new)>(g: Graph<N>, a: N, reached: seq<N>) {
    forall m :: m in reached ==> Reaches(g, a, m)
  }

  lemma AllReachSuccessor<N(!new)>(g: Graph<N>, from: set<N>, a: N, b: N)
    requires AllReach(g, from, a) && Edge(g, a, b)
    ensures AllReach(g, from, b)
  {
    forall m | m in from ensures Reaches(g, m, b) {
      ReachesOneMore(g, m, a, b);
    }
  }

  lemma ReachedThrough<N(!new)>(g: Graph<N>, a: N, b: N, before: seq<N>, after: seq<N>, n: nat)
    requires n <= |before| && before <= after
    requires after != before ==> Edge(g, a, b)
    requires ReachedFrom(g, a, before[n..]) && ReachedFrom(g, b, after[|before|..])
    ensures ReachedFrom(g, a, after[n..])
  {
    forall m | m in after[n..] ensures Reaches(g, a, m) {
      assert after[n..] == before[n..] + after[|before|..];
      if m !in before[n..] {
        EdgeReaches(g, a, b);
        ReachesTransitive(g, a, b, m);
      }
    }
  }

  /** Emitting a node once each of its successors is out, or still pending and so leads back to it. */
  lemma SuccessorsFirstExtend<N(!new)>(g: Graph<N>, emitted: seq<N>, pending: set<N>, m: N)
    requires SuccessorsFirst(g, emitted) && AllReach(g, pending, m)
    requires forall b :: Edge(g, m, b) ==> b in emitted || b in pending
    ensures SuccessorsFirst(g, emitted + [m])
  {
    var e := emitted + [m];
    forall i, b | 0 <= i < |e| && Edge(g, e[i], b) ensures b in e[..i] || Reaches(g, b, e[i]) {
      assert e[..i] == emitted[..i];
      if i == |emitted| {
        assert emitted[..i] == emitted;
      }
    }
  }

  /** Without cycles the exception is void. */
  lemma AcyclicIsOrdered<N(!new)>(g: Graph<N>, emitted: seq<N>)
    requires SuccessorsFirst(g, emitted) && !HasCycle(g)
    requires forall i, j :: 0 <= i < j < |emitted| ==> emitted[i] != emitted[j]
    ensures Ordered(g, emitted)
  {
    forall i, b | 0 <= i < |emitted| && Edge(g, emitted[i], b) ensures b in emitted[..i] {
      if Reaches(g, b, emitted[i]) {
        assert OnCycle(g, emitted[i]);
      }
    }
  }
}
