/**
 The three-colour depth-first search of smart-router/src/smart_router/graph_v59.py:205-223.
 */
module CycleCheck {
  import opened Collections
  import opened Digraph

  datatype Colour = White | Grey | Black

  /** The targets of a node's edges, in edge order. */
  function Successors<T(==)>(edges: Edges<T>, n: T): seq<T> {
    if edges == [] then []
    else Successors(edges[..|edges| - 1], n)
         + if edges[|edges| - 1].0 == n then [edges[|edges| - 1].1] else []
  }

  lemma {:induction false} SuccessorsAreEdges<T>(edges: Edges<T>, n: T, m: T)
    ensures m in Successors(edges, n) <==> (n, m) in edges
  {
    if edges != [] {
      SuccessorsAreEdges(edges[..|edges| - 1], n, m);
      assert edges == edges[..|edges| - 1] + [edges[|edges| - 1]];
    }
  }

  /** The adjacency lists hold the edges, and the black nodes lead to earlier black nodes only. */
  ghost predicate Sound<T(!new)>(nodes: set<T>, edges: Edges<T>, adjacency: map<T, seq<T>>, state: map<T, Colour>, finished: seq<T>) {
    && Within(nodes, edges) && adjacency.Keys == nodes && state.Keys == nodes
    && (forall n | n in nodes :: adjacency[n] == Successors(edges, n))
    && (forall n | n in nodes :: state[n].Black? <==> n in finished)
    && (forall n | n in finished :: n in nodes)
    && Distinct(finished) && Settled(edges, finished)
  }

  /** The grey nodes are the search stack, a path. */
  ghost predicate GreyPath<T(!new)>(nodes: set<T>, edges: Edges<T>, state: map<T, Colour>, stack: seq<T>) {
    && IsPath(edges, stack) && (forall n | n in stack :: n in nodes)
    && (forall n | n in nodes && n in state :: state[n].Grey? <==> n in stack)
  }

  ghost function Whites<T(!new)>(state: map<T, Colour>): set<T> {
    set n | n in state && state[n].White?
  }

  lemma Push<T(!new)>(nodes: set<T>, edges: Edges<T>, adjacency: map<T, seq<T>>, state: map<T, Colour>, finished: seq<T>,
                      node: T, stack: seq<T>)
    requires Sound(nodes, edges, adjacency, state, finished) && GreyPath(nodes, edges, state, stack)
    requires node in nodes && state[node].White?
    requires stack != [] ==> (stack[|stack| - 1], node) in edges
    ensures var state' := state[node := Grey];
      && Sound(nodes, edges, adjacency, state', finished) && GreyPath(nodes, edges, state', stack + [node])
      && Whites(state') < Whites(state)
  {
    assert node in Whites(state) && node !in Whites(state[node := Grey]);
  }

  lemma SettleLast<T(!new)>(edges: Edges<T>, finished: seq<T>, node: T)
    requires Settled(edges, finished) && node !in finished
    requires forall m | (node, m) in edges :: m in finished
    ensures Settled(edges, finished + [node])
  {
    var order := finished + [node];
    forall i, e | 0 <= i < |order| && e in edges && e.0 == order[i] ensures e.1 in order[..i] {
      if i < |finished| {
        assert order[..i] == finished[..i];
      } else {
        assert order[..i] == finished;
        assert (node, e.1) in edges;
      }
    }
  }

  /** A node whose successors are all finished is finished and leaves the stack. */
  lemma Pop<T(!new)>(nodes: set<T>, edges: Edges<T>, adjacency: map<T, seq<T>>, state: map<T, Colour>, finished: seq<T>,
                     node: T, stack: seq<T>)
    requires Sound(nodes, edges, adjacency, state, finished) && GreyPath(nodes, edges, state, stack + [node])
    requires node in nodes && node !in stack
    requires forall j | 0 <= j < |adjacency[node]| :: adjacency[node][j] in finished
    ensures var state' := state[node := Black];
      && Sound(nodes, edges, adjacency, state', finished + [node]) && GreyPath(nodes, edges, state', stack)
      && Whites(state') <= Whites(state)
  {
    assert node in stack + [node];
    forall m | (node, m) in edges ensures m in finished {
      SuccessorsAreEdges(edges, node, m);
    }
    SettleLast(edges, finished, node);
    assert IsPath(edges, stack) by {
      forall i | 0 <= i < |stack| - 1 ensures (stack[i], stack[i + 1]) in edges {
        assert ((stack + [node])[i], (stack + [node])[i + 1]) in edges;
      }
    }
    forall n | n in nodes ensures n in stack + [node] <==> n in stack || n == node {
    }
  }

  class Search<T(==,!new)> {
    const nodes: set<T>
    const edges: Edges<T>
    const adjacency: map<T, seq<T>>
    var state: map<T, Colour>
    ghost var finished: seq<T>   // the black nodes, in the order they were finished

    ghost predicate Valid()
      reads this
    {
      Sound(nodes, edges, adjacency, state, finished)
    }

    ghost predicate Stack(stack: seq<T>)
      reads this
    {
      GreyPath(nodes, edges, state, stack)
    }

    constructor (nodes: set<T>, edges: Edges<T>)
      requires Within(nodes, edges)
      ensures Valid() && Stack([]) && this.nodes == nodes && this.edges == edges
      ensures forall n | n in nodes :: state[n].White?
    {
      this.nodes := nodes;
      this.edges := edges;
      var lists := map n | n in nodes :: [];
      var i := 0;
      while i < |edges|
        invariant 0 <= i <= |edges| && lists.Keys == nodes
        invariant forall n | n in nodes :: lists[n] == Successors(edges[..i], n)
      {
        assert edges[..i + 1][..i] == edges[..i];
        lists := lists[edges[i].0 := lists[edges[i].0] + [edges[i].1]];
        i := i + 1;
      }
      assert edges[..|edges|] == edges;
      adjacency := lists;
      state := map n | n in nodes :: White;
      finished := [];
    }

    /** True only with a cycle at hand; false leaves the node finished and the stack as it was. */
    method Visit(node: T, ghost stack: seq<T>) returns (found: bool)
      requires Valid() && Stack(stack) && node in nodes
      requires stack != [] ==> (stack[|stack| - 1], node) in edges
      modifies this
      ensures found ==> Cyclic(edges)
      ensures !found ==> Valid() && Stack(stack) && node in finished && old(finished) <= finished
      ensures !found ==> Whites(state) <= old(Whites(state))
      decreases Whites(state), 0
    {
      if state[node].Grey? {
        ClosesTheStack(edges, stack, node);
        return true;
      }
      if state[node].Black? {
        return false;
      }
      Push(nodes, edges, adjacency, state, finished, node, stack);
      state := state[node := Grey];
      SuccessorsLeave(edges, node);
      found := VisitAny(adjacency[node], stack + [node]);
      if found {
        return true;
      }
      Pop(nodes, edges, adjacency, state, finished, node, stack);
      state := state[node := Black];
      finished := finished + [node];
    }

    /** The inner loop: stops at the first cycle. */
    method VisitAny(targets: seq<T>, ghost stack: seq<T>) returns (found: bool)
      requires Valid() && Stack(stack) && stack != []
      requires forall m | m in targets :: (stack[|stack| - 1], m) in edges
      modifies this
      ensures found ==> Cyclic(edges)
      ensures !found ==> Valid() && Stack(stack) && old(finished) <= finished && Whites(state) <= old(Whites(state))
      ensures !found ==> forall j | 0 <= j < |targets| :: targets[j] in finished
      decreases Whites(state), 1
    {
      ghost var whites, done := Whites(state), finished;
      var i := 0;
      while i < |targets|
        invariant Valid() && Stack(stack) && 0 <= i <= |targets|
        invariant done <= finished && Whites(state) <= whites
        invariant forall j | 0 <= j < i :: targets[j] in finished
      {
        assert (stack[|stack| - 1], targets[i]) in edges by { assert targets[i] in targets; }
        found := Visit(targets[i], stack);
        if found {
          return true;
        }
        i := i + 1;
      }
      return false;
    }
  }

  lemma SuccessorsLeave<T(!new)>(edges: Edges<T>, n: T)
    ensures forall m | m in Successors(edges, n) :: (n, m) in edges
  {
    forall m | m in Successors(edges, n) ensures (n, m) in edges {
      SuccessorsAreEdges(edges, n, m);
    }
  }

  lemma ClosesTheStack<T(!new)>(edges: Edges<T>, stack: seq<T>, node: T)
    requires IsPath(edges, stack) && node in stack && (stack[|stack| - 1], node) in edges
    ensures Cyclic(edges)
  {
    var i :| 0 <= i < |stack| && stack[i] == node;
    var c := stack[i..] + [node];
    forall k | 0 <= k < |c| - 1 ensures (c[k], c[k + 1]) in edges {
      if k < |stack| - i - 1 {
        assert (stack[i + k], stack[i + k + 1]) in edges;
      }
    }
    assert IsCycle(edges, c);
  }

  /** True exactly when the edge relation has a cycle, whatever order the nodes are visited in. */
  method HasCycle<T(==,!new)>(nodes: set<T>, edges: Edges<T>) returns (r: bool)
    requires Within(nodes, edges)
    ensures r <==> Cyclic(edges)
  {
    var search := new Search(nodes, edges);
    var rest := nodes;
    while rest != {}
      invariant search.Valid() && search.Stack([]) && search.nodes == nodes && search.edges == edges
      invariant rest <= nodes && forall n | n in nodes && n !in rest :: n in search.finished
      decreases rest
    {
      var node :| node in rest;
      rest := rest - {node};
      if search.state[node].White? {
        var found := search.Visit(node, []);
        if found {
          return true;
        }
      }
    }
    SettledIsAcyclic(nodes, edges, search.finished);
    return false;
  }
}
