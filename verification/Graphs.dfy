/**
 Walks in a directed graph given by its successor function, shared by the import
 resolver, the value-nature search and the input-reachability worklist.
 */
module Graphs {

  /** Consecutive nodes of `p` are joined by edges. */
  ghost predicate IsWalk<N(!new)>(edges: N -> seq<N>, p: seq<N>) {
    && |p| > 0
    && forall i :: 0 < i < |p| ==> p[i] in edges(p[i - 1])
  }

  ghost predicate WalkFromTo<N(!new)>(edges: N -> seq<N>, p: seq<N>, a: N, b: N) {
    IsWalk(edges, p) && p[0] == a && p[|p| - 1] == b
  }

  ghost predicate Reaches<N(!new)>(edges: N -> seq<N>, a: N, b: N) {
    exists p :: WalkFromTo(edges, p, a, b)
  }

  /** `p` walks from `a` and comes back, at its last step, to a node it visited before. */
  ghost predicate Lasso<N(!new)>(edges: N -> seq<N>, p: seq<N>, a: N) {
    && IsWalk(edges, p)
    && p[0] == a
    && p[|p| - 1] in p[..|p| - 1]
  }

  /** Some cycle can be reached from `a`. */
  ghost predicate ReachesCycle<N(!new)>(edges: N -> seq<N>, a: N) {
    exists p :: Lasso(edges, p, a)
  }

  ghost predicate ClosedUnder<N(!new)>(edges: N -> seq<N>, s: set<N>) {
    forall x, y :: x in s && y in edges(x) ==> y in s
  }

  lemma ReachesSelf<N(!new)>(edges: N -> seq<N>, a: N)
    ensures Reaches(edges, a, a)
  {
    assert WalkFromTo(edges, [a], a, a);
  }

  lemma ReachesStep<N(!new)>(edges: N -> seq<N>, a: N, b: N, c: N)
    requires Reaches(edges, a, b) && c in edges(b)
    ensures Reaches(edges, a, c)
  {
    var p :| WalkFromTo(edges, p, a, b);
    assert WalkFromTo(edges, p + [c], a, c);
  }

  lemma ReachesFirst<N(!new)>(edges: N -> seq<N>, a: N, b: N, c: N)
    requires b in edges(a) && Reaches(edges, b, c)
    ensures Reaches(edges, a, c)
  {
    var p :| WalkFromTo(edges, p, b, c);
    assert WalkFromTo(edges, [a] + p, a, c);
  }

  /** A walk cannot leave a closed set. */
  lemma {:induction false} WalkStaysClosed<N(!new)>(edges: N -> seq<N>, s: set<N>, p: seq<N>, i: nat)
    requires ClosedUnder(edges, s) && IsWalk(edges, p) && p[0] in s && i < |p|
    ensures p[i] in s
    decreases i
  {
    if i > 0 {
      WalkStaysClosed(edges, s, p, i - 1);
      assert p[i] in edges(p[i - 1]);
    }
  }

  lemma ClosedContainsReached<N(!new)>(edges: N -> seq<N>, s: set<N>, a: N, b: N)
    requires ClosedUnder(edges, s) && a in s && Reaches(edges, a, b)
    ensures b in s
  {
    var p :| WalkFromTo(edges, p, a, b);
    WalkStaysClosed(edges, s, p, |p| - 1);
  }

  /** Every edge out of a ranked node leads to a ranked node of smaller rank. */
  ghost predicate Ranked<N(!new)>(edges: N -> seq<N>, rank: map<N, nat>) {
    forall x, y :: x in rank && y in edges(x) ==> y in rank && rank[y] < rank[x]
  }

  lemma {:induction false} RankFalls<N(!new)>(edges: N -> seq<N>, rank: map<N, nat>, p: seq<N>, i: nat, j: nat)
    requires Ranked(edges, rank) && IsWalk(edges, p) && p[0] in rank && i < j < |p|
    ensures p[i] in rank && p[j] in rank && rank[p[j]] < rank[p[i]]
    decreases j
  {
    assert ClosedUnder(edges, rank.Keys);
    WalkStaysClosed(edges, rank.Keys, p, i);
    WalkStaysClosed(edges, rank.Keys, p, j - 1);
    assert p[j] in edges(p[j - 1]);
    if i < j - 1 {
      RankFalls(edges, rank, p, i, j - 1);
    }
  }

  ghost predicate RanksBelowSize<N(!new)>(rank: map<N, nat>) {
    forall x :: x in rank ==> rank[x] < |rank|
  }

  /** A node whose successors are all ranked can be ranked last. */
  lemma RankExtends<N(!new)>(edges: N -> seq<N>, rank: map<N, nat>, n: N)
    requires Ranked(edges, rank) && RanksBelowSize(rank) && n !in rank
    requires forall y :: y in edges(n) ==> y in rank
    ensures Ranked(edges, rank[n := |rank|]) && RanksBelowSize(rank[n := |rank|])
    ensures rank[n := |rank|].Keys == rank.Keys + {n}
  {
    var r := rank[n := |rank|];
    assert r.Keys == rank.Keys + {n};
    assert |r| == |r.Keys| == |rank.Keys| + 1;
  }

  /** A ranking rules out every cycle that can be reached from a ranked node. */
  lemma RankedHasNoCycle<N(!new)>(edges: N -> seq<N>, rank: map<N, nat>, a: N)
    requires Ranked(edges, rank) && a in rank
    ensures !ReachesCycle(edges, a)
  {
    if ReachesCycle(edges, a) {
      var p :| Lasso(edges, p, a);
      var i :| 0 <= i < |p| - 1 && p[i] == p[|p| - 1];
      RankFalls(edges, rank, p, i, |p| - 1);
      assert false;
    }
  }
}
