/**
 Paths and cycles in a finite directed graph given as a list of edges.
 */
module Digraph {
  import opened Collections

  type Edges<T> = seq<(T, T)>

  ghost predicate IsPath<T>(edges: Edges<T>, p: seq<T>) {
    forall i | 0 <= i < |p| - 1 :: (p[i], p[i + 1]) in edges
  }

  /** A closed walk of at least one edge. */
  ghost predicate IsCycle<T>(edges: Edges<T>, p: seq<T>) {
    |p| >= 2 && p[0] == p[|p| - 1] && IsPath(edges, p)
  }

  ghost predicate Cyclic<T(!new)>(edges: Edges<T>) {
    exists p :: IsCycle(edges, p)
  }

  predicate Within<T(==)>(nodes: set<T>, edges: Edges<T>) {
    forall e | e in edges :: e.0 in nodes && e.1 in nodes
  }

  /** Every edge leaving a listed node ends at one listed before it. */
  ghost predicate Settled<T>(edges: Edges<T>, order: seq<T>) {
    forall i, e | 0 <= i < |order| && e in edges && e.0 == order[i] :: e.1 in order[..i]
  }

  /** A walk from a listed node moves to the front of the list with each edge. */
  lemma {:induction false} SettledWalk<T>(edges: Edges<T>, order: seq<T>, p: seq<T>, k: nat, i: nat)
    requires Settled(edges, order) && IsPath(edges, p) && k < |p| && i < |order| && order[i] == p[0]
    ensures exists j: nat :: j + k <= i && order[j] == p[k]
  {
    if k == 0 {
      assert i + 0 <= i;
    } else {
      SettledWalk(edges, order, p, k - 1, i);
      var j: nat :| j + (k - 1) <= i && order[j] == p[k - 1];
      assert (p[k - 1], p[k]) in edges;
      assert p[k] in order[..j];
      var m :| 0 <= m < j && order[..j][m] == p[k];
      assert m + k <= i && order[m] == p[k];
    }
  }

  /** When every node is settled and listed once, there is no cycle. */
  lemma {:induction false} SettledIsAcyclic<T(!new)>(nodes: set<T>, edges: Edges<T>, order: seq<T>)
    requires Within(nodes, edges) && Settled(edges, order) && Distinct(order)
    requires forall n | n in nodes :: n in order
    ensures !Cyclic(edges)
  {
    forall p ensures !IsCycle(edges, p) {
      if IsCycle(edges, p) {
        assert (p[0], p[1]) in edges;
        var i :| 0 <= i < |order| && order[i] == p[0];
        SettledWalk(edges, order, p, |p| - 1, i);
        assert false;
      }
    }
  }

  // ---------------------------------------------------------------- walking backwards

  lemma {:induction false} DistinctFits<T>(s: seq<T>, into: set<T>)
    requires Distinct(s) && forall x | x in s :: x in into
    ensures |s| <= |into|
  {
    if s != [] {
      var x := s[|s| - 1];
      var rest := s[..|s| - 1];
      assert forall y | y in rest :: y in into - {x};
      DistinctFits(rest, into - {x});
    }
  }

  ghost predicate HasPredecessor<T(!new)>(edges: Edges<T>, nodes: set<T>, n: T) {
    exists m :: m in nodes && (m, n) in edges
  }

  /** Each of `nodes` is entered from inside `nodes`. */
  ghost predicate EnteredFromInside<T(!new)>(edges: Edges<T>, nodes: set<T>) {
    forall n {:trigger HasPredecessor(edges, nodes, n)} | n in nodes :: HasPredecessor(edges, nodes, n)
  }

  lemma {:induction false} BackwardWalk<T(!new)>(edges: Edges<T>, nodes: set<T>, length: nat, last: T) returns (p: seq<T>)
    requires EnteredFromInside(edges, nodes) && last in nodes
    ensures |p| == length + 1 && IsPath(edges, p) && p[|p| - 1] == last && forall x | x in p :: x in nodes
  {
    if length == 0 {
      p := [last];
    } else {
      assert HasPredecessor(edges, nodes, last);
      var m :| m in nodes && (m, last) in edges;
      var q := BackwardWalk(edges, nodes, length - 1, m);
      p := q + [last];
    }
  }

  /** A finite nonempty part of the graph in which every node has a predecessor contains a cycle. */
  lemma {:induction false} NoSourceMeansCycle<T(!new)>(edges: Edges<T>, nodes: set<T>)
    requires nodes != {} && EnteredFromInside(edges, nodes)
    ensures Cyclic(edges)
  {
    var last :| last in nodes;
    var p := BackwardWalk(edges, nodes, |nodes|, last);
    if Distinct(p) {
      DistinctFits(p, nodes);
      assert false;
    }
    var i, j :| 0 <= i < j < |p| && p[i] == p[j];
    var c := p[i..j + 1];
    forall k | 0 <= k < |c| - 1 ensures (c[k], c[k + 1]) in edges {
      assert (p[i + k], p[i + k + 1]) in edges;
    }
    assert IsCycle(edges, c);
  }

  lemma NoEdgesNoCycle<T(!new)>()
    ensures !Cyclic<T>([])
  {
    var none: Edges<T> := [];
    forall p: seq<T> ensures !IsCycle(none, p) {
      assert |p| >= 2 ==> (p[0], p[1]) !in none;
    }
  }
}
