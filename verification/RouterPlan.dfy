/**
 Compiling a router graph (smart-router/src/smart_router/graph_v59.py:367-413): an entry, a transition
 table and a stable topological stage list.
 */
module RouterPlan {
  import opened Collections
  import opened Digraph
  import opened CycleCheck

  type Id = string

  datatype Edge = Edge(source: Id, port: Id, target: Id)

  type Transitions = map<Id, map<Id, Id>>

  datatype PlanResult =
    | Plan(entry: Option<Id>, order: seq<Id>, transitions: Transitions)
    | PortTwice
    | NotOneStart
    | Disconnected
    | NotAcyclic

  function Topology(edges: seq<Edge>): Edges<Id> {
    if edges == [] then []
    else Topology(edges[..|edges| - 1]) + [(edges[|edges| - 1].source, edges[|edges| - 1].target)]
  }

  lemma {:induction false} TopologyHas(edges: seq<Edge>, a: Id, b: Id)
    ensures (a, b) in Topology(edges) <==> exists e :: e in edges && e.source == a && e.target == b
  {
    if edges != [] {
      var rest, last := edges[..|edges| - 1], edges[|edges| - 1];
      TopologyHas(rest, a, b);
      assert edges == rest + [last];
      if (a, b) in Topology(rest) {
        var e :| e in rest && e.source == a && e.target == b;
        assert e in edges;
      }
      if exists e :: e in edges && e.source == a && e.target == b {
        var e :| e in edges && e.source == a && e.target == b;
        assert e in rest || e == last;
      }
    }
  }

  // ---------------------------------------------------------------- what a plan is

  ghost predicate Endpoints(ids: seq<Id>, edges: seq<Edge>) {
    forall e | e in edges :: e.source in ids && e.target in ids
  }

  ghost predicate PortUsedTwice(edges: seq<Edge>) {
    exists i, j :: 0 <= i < j < |edges| && edges[i].source == edges[j].source && edges[i].port == edges[j].port
  }

  /** The number of edges into `n` from nodes not yet done. */
  function Waiting(t: Edges<Id>, done: set<Id>, n: Id): nat {
    if t == [] then 0
    else Waiting(t[..|t| - 1], done, n) + if t[|t| - 1].1 == n && t[|t| - 1].0 !in done then 1 else 0
  }

  /** The nodes without incoming edges, in node order. */
  function Starts(ids: seq<Id>, t: Edges<Id>): seq<Id> {
    if ids == [] then []
    else Starts(ids[..|ids| - 1], t) + if Waiting(t, {}, ids[|ids| - 1]) == 0 then [ids[|ids| - 1]] else []
  }

  /** Sources come before targets. */
  ghost predicate Topological(t: Edges<Id>, order: seq<Id>) {
    forall j, e | 0 <= j < |order| && e in t && e.1 == order[j] :: e.0 in order[..j]
  }

  function Count(s: seq<Id>, n: Id): nat {
    if s == [] then 0 else Count(s[..|s| - 1], n) + if s[|s| - 1] == n then 1 else 0
  }

  ghost function Elements(s: seq<Id>): set<Id> {
    set n | n in s
  }

  /** Of one node's targets, those whose last awaited edge is among them, in edge order. */
  ghost function Released(t: Edges<Id>, done: set<Id>, targets: seq<Id>): seq<Id> {
    if targets == [] then [] else
    var last := targets[|targets| - 1];
    Released(t, done, targets[..|targets| - 1]) + if Waiting(t, done, last) == Count(targets, last) then [last] else []
  }

  /** The queue's whole history: the starts, then what each finished node released. */
  ghost function Arrivals(ids: seq<Id>, t: Edges<Id>, order: seq<Id>): seq<Id> {
    if order == [] then Starts(ids, t) else
    var rest, last := order[..|order| - 1], order[|order| - 1];
    Arrivals(ids, t, rest) + Released(t, Elements(rest), Successors(t, last))
  }

  /** Nodes are finished in the order of their arrival, until none is left. */
  ghost predicate FirstCome(ids: seq<Id>, t: Edges<Id>, order: seq<Id>) {
    Queued(ids, t, order, [])
  }

  ghost predicate Queued(ids: seq<Id>, t: Edges<Id>, order: seq<Id>, ready: seq<Id>) {
    order + ready == Arrivals(ids, t, order) && forall k | 0 <= k < |order| :: k < |Arrivals(ids, t, order[..k])|
  }

  ghost predicate SameElements(a: seq<Id>, b: seq<Id>) {
    forall x :: x in a <==> x in b
  }

  /** The table sends exactly the edges' ports to exactly the edges' targets. */
  ghost predicate Carries(ids: seq<Id>, edges: seq<Edge>, table: Transitions) {
    && (forall n :: n in table <==> n in ids)
    && (forall n, p | n in table && p in table[n] :: Edge(n, p, table[n][p]) in edges)
    && (forall e | e in edges :: e.source in table && e.port in table[e.source] && table[e.source][e.port] == e.target)
  }

  ghost predicate PlanFits(ids: seq<Id>, edges: seq<Edge>, plan: PlanResult)
    requires plan.Plan?
  {
    && Distinct(plan.order) && |plan.order| == |ids| && SameElements(plan.order, ids)
    && Topological(Topology(edges), plan.order) && FirstCome(ids, Topology(edges), plan.order)
    && Carries(ids, edges, plan.transitions)
    && (if ids == [] then plan.entry.None? else plan.entry == Some(plan.order[0]))
  }

  // ---------------------------------------------------------------- counting edges

  lemma {:induction false} WaitingNone(t: Edges<Id>, done: set<Id>, n: Id)
    ensures Waiting(t, done, n) == 0 <==> forall e | e in t && e.1 == n :: e.0 in done
  {
    if t != [] {
      var rest, last := t[..|t| - 1], t[|t| - 1];
      WaitingNone(rest, done, n);
      assert t == rest + [last];
      assert last in t;
    }
  }

  lemma {:induction false} WaitingSome(t: Edges<Id>, done: set<Id>, n: Id) returns (m: Id)
    requires Waiting(t, done, n) > 0
    ensures (m, n) in t && m !in done
  {
    WaitingNone(t, done, n);
    var e :| e in t && e.1 == n && e.0 !in done;
    m := e.0;
  }

  lemma {:induction false} CountAppend(a: seq<Id>, b: seq<Id>, n: Id)
    ensures Count(a + b, n) == Count(a, n) + Count(b, n)
  {
    if b == [] {
      assert a + b == a;
    } else {
      CountAppend(a, b[..|b| - 1], n);
      assert (a + b)[..|a + b| - 1] == a + b[..|b| - 1];
    }
  }

  lemma CountPrefix(s: seq<Id>, i: nat, n: Id)
    requires i <= |s|
    ensures Count(s[..i], n) <= Count(s, n)
  {
    CountAppend(s[..i], s[i..], n);
    assert s[..i] + s[i..] == s;
  }

  lemma CountAtMostOne(s: seq<Id>, n: Id)
    requires |s| <= 1
    ensures Count(s, n) == if s != [] && s[0] == n then 1 else 0
  {
    if s != [] {
      assert s[..0] == [];
    }
  }

  /** Finishing a node takes its outgoing edges off the counts of their targets. */
  lemma {:induction false} WaitingAfter(t: Edges<Id>, done: set<Id>, node: Id, n: Id)
    requires node !in done
    ensures Waiting(t, done + {node}, n) + Count(Successors(t, node), n) == Waiting(t, done, n)
  {
    if t != [] {
      var rest, last := t[..|t| - 1], t[|t| - 1];
      WaitingAfter(rest, done, node, n);
      var tail := if last.0 == node then [last.1] else [];
      CountAppend(Successors(rest, node), tail, n);
      CountAtMostOne(tail, n);
      assert Successors(t, node) == Successors(rest, node) + tail;
    }
  }

  lemma {:induction false} InStarts(ids: seq<Id>, t: Edges<Id>, n: Id)
    ensures n in Starts(ids, t) <==> n in ids && Waiting(t, {}, n) == 0
  {
    if ids != [] {
      InStarts(ids[..|ids| - 1], t, n);
      assert ids == ids[..|ids| - 1] + [ids[|ids| - 1]];
    }
  }

  lemma {:induction false} DistinctStarts(ids: seq<Id>, t: Edges<Id>)
    requires Distinct(ids)
    ensures Distinct(Starts(ids, t))
  {
    if ids != [] {
      var rest, last := ids[..|ids| - 1], ids[|ids| - 1];
      DistinctStarts(rest, t);
      InStarts(rest, t, last);
    }
  }

  lemma EndpointsWithin(ids: seq<Id>, edges: seq<Edge>, e: (Id, Id))
    requires Endpoints(ids, edges) && e in Topology(edges)
    ensures e.0 in ids && e.1 in ids
  {
    TopologyHas(edges, e.0, e.1);
  }

  // ---------------------------------------------------------------- the three passes

  /** The tables of the edges so far, no port of which is used twice. */
  ghost predicate Built(ids: seq<Id>, edges: seq<Edge>, adjacency: map<Id, seq<Id>>, transitions: Transitions,
                        indegree: map<Id, nat>) {
    && !PortUsedTwice(edges) && Carries(ids, edges, transitions)
    && (forall n :: n in adjacency <==> n in ids)
    && (forall n :: n in indegree <==> n in ids)
    && (forall n | n in ids :: adjacency[n] == Successors(Topology(edges), n))
    && (forall n | n in ids :: indegree[n] == Waiting(Topology(edges), {}, n))
  }

  /** One edge of the first pass. */
  method AddEdge(ids: seq<Id>, edges: seq<Edge>, k: nat, adjacency: map<Id, seq<Id>>, transitions: Transitions,
                 indegree: map<Id, nat>)
    returns (ok: bool, adjacency': map<Id, seq<Id>>, transitions': Transitions, indegree': map<Id, nat>)
    requires Endpoints(ids, edges) && k < |edges| && Built(ids, edges[..k], adjacency, transitions, indegree)
    ensures !ok ==> PortUsedTwice(edges)
    ensures ok ==> Built(ids, edges[..k + 1], adjacency', transitions', indegree')
  {
    var e := edges[k];
    BuiltKnows(ids, edges, k, adjacency, transitions, indegree);
    if e.port in transitions[e.source] {
      TwiceNow(ids, edges, k, transitions);
      return false, adjacency, transitions, indegree;
    }
    BuiltNext(ids, edges[..k], adjacency, transitions, indegree, e);
    assert edges[..k + 1] == edges[..k] + [e];
    ok, transitions' := true, transitions[e.source := transitions[e.source][e.port := e.target]];
    adjacency' := adjacency[e.source := adjacency[e.source] + [e.target]];
    indegree' := indegree[e.target := indegree[e.target] + 1];
  }

  method EmptyTables(ids: seq<Id>) returns (adjacency: map<Id, seq<Id>>, transitions: Transitions, indegree: map<Id, nat>)
    ensures Built(ids, [], adjacency, transitions, indegree)
  {
    adjacency := map n | n in ids :: [];
    transitions := map n | n in ids :: map[];
    indegree := map n | n in ids :: 0;
    BuiltFirst(ids, adjacency, transitions, indegree);
  }

  /** First pass: the tables, or a port used twice. */
  method BuildTables(ids: seq<Id>, edges: seq<Edge>)
    returns (ok: bool, adjacency: map<Id, seq<Id>>, transitions: Transitions, indegree: map<Id, nat>)
    requires Endpoints(ids, edges)
    ensures ok <==> !PortUsedTwice(edges)
    ensures ok ==> Built(ids, edges, adjacency, transitions, indegree)
  {
    adjacency, transitions, indegree := EmptyTables(ids);
    assert edges[..0] == [];
    var k := 0;
    while k < |edges|
      invariant 0 <= k <= |edges|
      invariant Built(ids, edges[..k], adjacency, transitions, indegree)
    {
      ok, adjacency, transitions, indegree := AddEdge(ids, edges, k, adjacency, transitions, indegree);
      if !ok {
        return;
      }
      k := k + 1;
    }
    assert edges[..|edges|] == edges;
    ok := true;
  }

  lemma BuiltFirst(ids: seq<Id>, adjacency: map<Id, seq<Id>>, transitions: Transitions, indegree: map<Id, nat>)
    requires forall n :: n in adjacency <==> n in ids
    requires forall n :: n in transitions <==> n in ids
    requires forall n :: n in indegree <==> n in ids
    requires forall n | n in ids :: adjacency[n] == [] && transitions[n] == map[] && indegree[n] == 0
    ensures Built(ids, [], adjacency, transitions, indegree)
  {
  }

  /** The ends of the next edge have entries in every table. */
  lemma BuiltKnows(ids: seq<Id>, edges: seq<Edge>, k: nat, adjacency: map<Id, seq<Id>>, transitions: Transitions,
                   indegree: map<Id, nat>)
    requires Endpoints(ids, edges) && k < |edges| && Built(ids, edges[..k], adjacency, transitions, indegree)
    ensures edges[k].source in ids && edges[k].target in ids && Carries(ids, edges[..k], transitions)
    ensures edges[k].source in transitions && edges[k].source in adjacency && edges[k].target in indegree
  {
    assert edges[k] in edges;
  }

  lemma TwiceNow(ids: seq<Id>, edges: seq<Edge>, k: nat, table: Transitions)
    requires k < |edges| && Carries(ids, edges[..k], table)
    requires edges[k].source in table && edges[k].port in table[edges[k].source]
    ensures PortUsedTwice(edges)
  {
    var e := edges[k];
    var e' := Edge(e.source, e.port, table[e.source][e.port]);
    assert e' in edges[..k];
    var i :| 0 <= i < k && edges[i] == e';
    assert edges[i].source == edges[k].source && edges[i].port == edges[k].port;
  }

  lemma BuiltNext(ids: seq<Id>, edges: seq<Edge>, adjacency: map<Id, seq<Id>>, transitions: Transitions,
                  indegree: map<Id, nat>, e: Edge)
    requires Built(ids, edges, adjacency, transitions, indegree)
    requires e.source in ids && e.target in ids && e.port !in transitions[e.source]
    ensures Built(ids, edges + [e], adjacency[e.source := adjacency[e.source] + [e.target]],
                  transitions[e.source := transitions[e.source][e.port := e.target]],
                  indegree[e.target := indegree[e.target] + 1])
  {
    CarriesNext(ids, edges, transitions, e);
    TopologyNext(edges, e);
  }

  lemma TopologyNext(edges: seq<Edge>, e: Edge)
    ensures Topology(edges + [e]) == Topology(edges) + [(e.source, e.target)]
    ensures forall n :: Successors(Topology(edges + [e]), n)
                     == Successors(Topology(edges), n) + if e.source == n then [e.target] else []
    ensures forall n :: Waiting(Topology(edges + [e]), {}, n)
                     == Waiting(Topology(edges), {}, n) + if e.target == n then 1 else 0
  {
    assert (edges + [e])[..|edges|] == edges;
    var t := Topology(edges) + [(e.source, e.target)];
    assert t[..|t| - 1] == Topology(edges);
  }

  lemma CarriesNext(ids: seq<Id>, edges: seq<Edge>, table: Transitions, e: Edge)
    requires Carries(ids, edges, table) && e.source in ids && e.port !in table[e.source]
    requires !PortUsedTwice(edges)
    ensures Carries(ids, edges + [e], table[e.source := table[e.source][e.port := e.target]])
    ensures !PortUsedTwice(edges + [e])
  {
    var all := edges + [e];
    forall i, j | 0 <= i < j < |all| ensures !(all[i].source == all[j].source && all[i].port == all[j].port) {
      if j == |edges| {
        assert all[i] == edges[i] && edges[i] in edges;
      } else {
        assert all[i] == edges[i] && all[j] == edges[j];
      }
    }
  }

  /** Second pass: the nodes reached from the start. */
  method Reach(ghost ids: seq<Id>, ghost t: Edges<Id>, adjacency: map<Id, seq<Id>>, start: Id) returns (seen: set<Id>)
    requires start in ids && forall n :: n in adjacency <==> n in ids
    requires forall n | n in ids :: adjacency[n] == Successors(t, n)
    requires forall e | e in t :: e.0 in ids && e.1 in ids
    ensures start in seen && forall n | n in seen :: n in ids
    ensures forall e | e in t && e.0 in seen :: e.1 in seen
  {
    var queue := [start];
    seen := {};
    ghost var all := set n | n in ids;
    while queue != []
      invariant start in seen || start in queue
      invariant seen <= all && forall n | n in queue :: n in ids
      invariant forall e | e in t && e.0 in seen :: e.1 in seen || e.1 in queue
      decreases all - seen, |queue|
    {
      var node := queue[0];
      ghost var before := queue;
      queue := queue[1..];
      assert before == [node] + queue;
      if node in seen {
        continue;
      }
      forall m ensures m in Successors(t, node) <==> (node, m) in t {
        SuccessorsAreEdges(t, node, m);
      }
      seen := seen + {node};
      queue := queue + adjacency[node];
    }
  }

  /** Unless every node is reached from the only start, there is a cycle. */
  lemma UnreachedMeansCycle(ids: seq<Id>, t: Edges<Id>, start: Id, seen: set<Id>)
    requires forall e | e in t :: e.0 in ids && e.1 in ids
    requires start in seen && forall n | n in seen :: n in ids
    requires forall n | n in ids && Waiting(t, {}, n) == 0 :: n == start
    requires forall e | e in t && e.0 in seen :: e.1 in seen
    requires exists n :: n in ids && n !in seen
    ensures Cyclic(t)
  {
    var part := set n | n in ids && n !in seen;
    forall n | n in part ensures HasPredecessor(t, part, n) {
      var m := WaitingSome(t, {}, n);
      assert m in part;
    }
    var x :| x in ids && x !in seen;
    assert x in part;
    NoSourceMeansCycle(t, part);
  }

  /** Third pass, Kahn's algorithm: what holds between two nodes. `order` is done, `ready` waits for
      nothing, and every other node waits for as many edges as its count says. */
  ghost predicate Halfway(ids: seq<Id>, t: Edges<Id>, order: seq<Id>, ready: seq<Id>, indegree: map<Id, nat>) {
    && Distinct(order + ready) && (forall n | n in order + ready :: n in ids)
    && (forall n :: n in indegree <==> n in ids)
    && (forall n | n in ids :: indegree[n] == Waiting(t, Elements(order), n))
    && (forall n | n in ids :: indegree[n] == 0 <==> n in order + ready)
    && Topological(t, order)
  }

  /** Within the pass over one node's targets, `i` of them are taken off. */
  ghost predicate Midway(ids: seq<Id>, t: Edges<Id>, order: seq<Id>, ready: seq<Id>, indegree: map<Id, nat>, node: Id, i: nat) {
    && i <= |Successors(t, node)| && node !in order
    && Distinct(order + [node] + ready) && (forall n | n in order + [node] + ready :: n in ids)
    && (forall n :: n in indegree <==> n in ids)
    && (forall n | n in ids :: indegree[n] + Count(Successors(t, node)[..i], n) == Waiting(t, Elements(order), n))
    && (forall n | n in ids :: indegree[n] == 0 <==> n in order + [node] + ready)
    && Topological(t, order + [node])
  }

  lemma Begin(ids: seq<Id>, t: Edges<Id>, indegree: map<Id, nat>)
    requires Distinct(ids) && (forall n :: n in indegree <==> n in ids)
    requires forall n | n in ids :: indegree[n] == Waiting(t, {}, n)
    ensures Halfway(ids, t, [], Starts(ids, t), indegree)
  {
    assert [] + Starts(ids, t) == Starts(ids, t);
    assert Elements([]) == {};
    DistinctStarts(ids, t);
    forall n ensures n in Starts(ids, t) <==> n in ids && Waiting(t, {}, n) == 0 {
      InStarts(ids, t, n);
    }
  }

  /** Taking the first ready node. */
  lemma Take(ids: seq<Id>, t: Edges<Id>, order: seq<Id>, ready: seq<Id>, indegree: map<Id, nat>)
    requires Halfway(ids, t, order, ready, indegree) && ready != []
    ensures Midway(ids, t, order, ready[1..], indegree, ready[0], 0)
  {
    var node := ready[0];
    assert order + [node] + ready[1..] == order + ready;
    assert node in ready;
    assert (order + ready)[|order|] == node;
    forall j | 0 <= j < |order| ensures order[j] != node {
      assert (order + ready)[j] == order[j];
    }
    assert node in order + ready;
    WaitingNone(t, Elements(order), node);
    var longer := order + [node];
    forall j, e | 0 <= j < |longer| && e in t && e.1 == longer[j] ensures e.0 in longer[..j] {
      if j < |order| {
        assert longer[..j] == order[..j];
      } else {
        assert longer[..j] == order;
        assert e.0 in Elements(order);
      }
    }
  }

  /** Taking one target off, and making it ready when nothing is left to wait for. */
  lemma Relax(ids: seq<Id>, t: Edges<Id>, order: seq<Id>, ready: seq<Id>, indegree: map<Id, nat>, node: Id, i: nat)
    requires Midway(ids, t, order, ready, indegree, node, i) && i < |Successors(t, node)|
    requires Successors(t, node)[i] in ids
    ensures var target := Successors(t, node)[i];
      && indegree[target] > 0
      && var indegree' := indegree[target := indegree[target] - 1];
      && Midway(ids, t, order, if indegree'[target] == 0 then ready + [target] else ready, indegree', node, i + 1)
  {
    var targets := Successors(t, node);
    var target := targets[i];
    assert targets[..i + 1] == targets[..i] + [target];
    forall n ensures Count(targets[..i + 1], n) == Count(targets[..i], n) + if n == target then 1 else 0 {
      CountAppend(targets[..i], [target], n);
    }
    CountPrefix(targets, i + 1, target);
    WaitingAfter(t, Elements(order), node, target);
    assert indegree[target] > 0;
    if indegree[target] == 1 {
      assert order + [node] + (ready + [target]) == order + [node] + ready + [target];
      assert target !in order + [node] + ready;
    }
  }

  /** All targets are off: the node is done. */
  lemma Complete(ids: seq<Id>, t: Edges<Id>, order: seq<Id>, ready: seq<Id>, indegree: map<Id, nat>, node: Id)
    requires Midway(ids, t, order, ready, indegree, node, |Successors(t, node)|)
    ensures Halfway(ids, t, order + [node], ready, indegree)
  {
    var targets := Successors(t, node);
    assert targets[..|targets|] == targets;
    assert Elements(order + [node]) == Elements(order) + {node};
    forall n | n in ids ensures indegree[n] == Waiting(t, Elements(order + [node]), n) {
      WaitingAfter(t, Elements(order), node, n);
    }
  }

  lemma {:induction false} ArrivalsOnlyGrow(ids: seq<Id>, t: Edges<Id>, order: seq<Id>, k: nat)
    requires k <= |order|
    ensures Arrivals(ids, t, order[..k]) <= Arrivals(ids, t, order)
  {
    if k < |order| {
      ArrivalsOnlyGrow(ids, t, order[..|order| - 1], k);
      assert order[..|order| - 1][..k] == order[..k];
    } else {
      assert order[..k] == order;
    }
  }

  lemma {:induction false} FirstComeAgree(ids: seq<Id>, t: Edges<Id>, a: seq<Id>, b: seq<Id>, k: nat)
    requires FirstCome(ids, t, a) && FirstCome(ids, t, b) && k <= |a| && k <= |b|
    ensures a[..k] == b[..k]
  {
    if k > 0 {
      FirstComeAgree(ids, t, a, b, k - 1);
      NthArrival(ids, t, a, k - 1);
      NthArrival(ids, t, b, k - 1);
      OneLonger(a, b, k);
    }
  }

  lemma OneLonger(a: seq<Id>, b: seq<Id>, k: nat)
    requires 0 < k <= |a| && k <= |b| && a[..k - 1] == b[..k - 1] && a[k - 1] == b[k - 1]
    ensures a[..k] == b[..k]
  {
    assert a[..k] == a[..k - 1] + [a[k - 1]] && b[..k] == b[..k - 1] + [b[k - 1]];
  }

  lemma NthArrival(ids: seq<Id>, t: Edges<Id>, order: seq<Id>, k: nat)
    requires FirstCome(ids, t, order) && k < |order|
    ensures k < |Arrivals(ids, t, order[..k])| && order[k] == Arrivals(ids, t, order[..k])[k]
  {
    ArrivalsOnlyGrow(ids, t, order, k);
    assert order + [] == order;
  }

  /** First come, first served leaves no choice. */
  lemma FirstComeIsUnique(ids: seq<Id>, t: Edges<Id>, a: seq<Id>, b: seq<Id>)
    requires FirstCome(ids, t, a) && FirstCome(ids, t, b)
    ensures a == b
  {
    assert a[..|a|] == a && a + [] == a && b[..|b|] == b && b + [] == b;
    if |a| <= |b| {
      FirstComeAgree(ids, t, a, b, |a|);
    } else {
      FirstComeAgree(ids, t, a, b, |b|);
    }
  }

  /** The first start is finished first. */
  lemma FirstStartIsFirst(ids: seq<Id>, t: Edges<Id>, order: seq<Id>)
    requires FirstCome(ids, t, order) && Starts(ids, t) != []
    ensures order != [] && order[0] == Starts(ids, t)[0]
  {
    ArrivalsOnlyGrow(ids, t, order, 0);
    assert order[..0] == [] && order + [] == order;
  }

  lemma ServeNext(ids: seq<Id>, t: Edges<Id>, order: seq<Id>, ready: seq<Id>)
    requires Queued(ids, t, order, ready) && ready != []
    ensures Queued(ids, t, order + [ready[0]], ready[1..] + Released(t, Elements(order), Successors(t, ready[0])))
  {
    var longer := order + [ready[0]];
    assert longer[..|order|] == order;
    assert longer + (ready[1..] + Released(t, Elements(order), Successors(t, ready[0])))
        == order + ready + Released(t, Elements(order), Successors(t, ready[0]));
    forall k | 0 <= k < |longer| ensures k < |Arrivals(ids, t, longer[..k])| {
      if k < |order| {
        assert longer[..k] == order[..k];
      }
    }
  }

  /** The nodes whose count is zero, in node order. */
  method StartsOf(ids: seq<Id>, ghost t: Edges<Id>, indegree: map<Id, nat>) returns (starts: seq<Id>)
    requires forall n :: n in indegree <==> n in ids
    requires forall n | n in ids :: indegree[n] == Waiting(t, {}, n)
    ensures starts == Starts(ids, t)
  {
    starts := [];
    var i := 0;
    while i < |ids|
      invariant 0 <= i <= |ids| && starts == Starts(ids[..i], t)
    {
      assert ids[..i + 1][..i] == ids[..i];
      if indegree[ids[i]] == 0 {
        starts := starts + [ids[i]];
      }
      i := i + 1;
    }
    assert ids[..|ids|] == ids;
  }

  method Kahn(ids: seq<Id>, ghost t: Edges<Id>, adjacency: map<Id, seq<Id>>, degrees: map<Id, nat>) returns (order: seq<Id>)
    requires Distinct(ids) && forall e | e in t :: e.0 in ids && e.1 in ids
    requires forall n :: n in adjacency <==> n in ids
    requires forall n :: n in degrees <==> n in ids
    requires forall n | n in ids :: adjacency[n] == Successors(t, n)
    requires forall n | n in ids :: degrees[n] == Waiting(t, {}, n)
    ensures Distinct(order) && Topological(t, order) && forall n | n in order :: n in ids
    ensures forall n | n in ids && n !in order :: Waiting(t, Elements(order), n) > 0
    ensures FirstCome(ids, t, order)
  {
    var indegree := degrees;
    var ready := StartsOf(ids, t, indegree);
    order := [];
    Begin(ids, t, indegree);
    assert [] + ready == ready;
    while ready != []
      invariant Halfway(ids, t, order, ready, indegree) && Queued(ids, t, order, ready)
      decreases |Elements(ids)| - |order|
    {
      var node := ready[0];
      TakenIsKnown(ids, t, order, ready, indegree);
      indegree, ready := Finish(ids, t, order, node, adjacency[node], indegree, ready);
      order := order + [node];
      Fits(ids, t, order, ready, indegree);
    }
    Nothing(ids, t, order, indegree);
  }

  lemma TakenIsKnown(ids: seq<Id>, t: Edges<Id>, order: seq<Id>, ready: seq<Id>, indegree: map<Id, nat>)
    requires Halfway(ids, t, order, ready, indegree) && ready != []
    ensures ready[0] in ids
  {
    assert ready[0] in order + ready;
  }

  lemma Fits(ids: seq<Id>, t: Edges<Id>, order: seq<Id>, ready: seq<Id>, indegree: map<Id, nat>)
    requires Halfway(ids, t, order, ready, indegree)
    ensures |order| <= |Elements(ids)|
  {
    DistinctFits(order + ready, Elements(ids));
  }

  lemma Nothing(ids: seq<Id>, t: Edges<Id>, order: seq<Id>, indegree: map<Id, nat>)
    requires Halfway(ids, t, order, [], indegree)
    ensures Distinct(order) && Topological(t, order) && forall n | n in order :: n in ids
    ensures forall n | n in ids && n !in order :: Waiting(t, Elements(order), n) > 0
  {
    assert order + [] == order;
  }

  /** One round: the first ready node is finished, and its targets that wait for nothing else get ready. */
  method Finish(ghost ids: seq<Id>, ghost t: Edges<Id>, ghost order: seq<Id>, node: Id, targets: seq<Id>,
                indegree: map<Id, nat>, ready: seq<Id>)
    returns (indegree': map<Id, nat>, ready': seq<Id>)
    requires Halfway(ids, t, order, ready, indegree) && Queued(ids, t, order, ready)
    requires ready != [] && node == ready[0] && targets == Successors(t, node)
    requires forall e | e in t :: e.0 in ids && e.1 in ids
    ensures Halfway(ids, t, order + [node], ready', indegree') && Queued(ids, t, order + [node], ready')
  {
    Take(ids, t, order, ready, indegree);
    ServeNext(ids, t, order, ready);
    indegree', ready' := RelaxTargets(ids, t, order, node, targets, indegree, ready[1..]);
  }

  lemma ReleasedNext(ids: seq<Id>, t: Edges<Id>, order: seq<Id>, ready: seq<Id>, indegree: map<Id, nat>, node: Id, i: nat)
    requires Midway(ids, t, order, ready, indegree, node, i) && i < |Successors(t, node)|
    requires Successors(t, node)[i] in ids
    ensures var targets := Successors(t, node);
      Released(t, Elements(order), targets[..i + 1])
      == Released(t, Elements(order), targets[..i]) + if indegree[targets[i]] == 1 then [targets[i]] else []
  {
    var targets := Successors(t, node);
    assert targets[..i + 1][..i] == targets[..i];
    assert targets[..i + 1] == targets[..i] + [targets[i]];
    CountAppend(targets[..i], [targets[i]], targets[i]);
    CountAtMostOne([targets[i]], targets[i]);
  }

  /** Midway, with what the node has released so far at the end of the queue. */
  ghost predicate Underway(ids: seq<Id>, t: Edges<Id>, order: seq<Id>, first: seq<Id>, ready: seq<Id>, indegree: map<Id, nat>,
                           node: Id, i: nat) {
    Midway(ids, t, order, ready, indegree, node, i)
    && ready == first + Released(t, Elements(order), Successors(t, node)[..i])
  }

  lemma UnderwayFirst(ids: seq<Id>, t: Edges<Id>, order: seq<Id>, ready: seq<Id>, indegree: map<Id, nat>, node: Id)
    requires Midway(ids, t, order, ready, indegree, node, 0)
    ensures Underway(ids, t, order, ready, ready, indegree, node, 0)
  {
    assert ready == ready + [];
  }

  lemma UnderwayNext(ids: seq<Id>, t: Edges<Id>, order: seq<Id>, first: seq<Id>, ready: seq<Id>, indegree: map<Id, nat>,
                     node: Id, i: nat)
    requires Underway(ids, t, order, first, ready, indegree, node, i) && i < |Successors(t, node)|
    requires forall e | e in t :: e.0 in ids && e.1 in ids
    ensures var target := Successors(t, node)[i];
      && target in indegree && indegree[target] > 0
      && Underway(ids, t, order, first, if indegree[target] == 1 then ready + [target] else ready,
                  indegree[target := indegree[target] - 1], node, i + 1)
  {
    SuccessorsAreEdges(t, node, Successors(t, node)[i]);
    Relax(ids, t, order, ready, indegree, node, i);
    ReleasedNext(ids, t, order, ready, indegree, node, i);
  }

  lemma UnderwayLast(ids: seq<Id>, t: Edges<Id>, order: seq<Id>, first: seq<Id>, ready: seq<Id>, indegree: map<Id, nat>,
                     node: Id)
    requires Underway(ids, t, order, first, ready, indegree, node, |Successors(t, node)|)
    ensures Halfway(ids, t, order + [node], ready, indegree)
    ensures ready == first + Released(t, Elements(order), Successors(t, node))
  {
    assert Successors(t, node)[..|Successors(t, node)|] == Successors(t, node);
    Complete(ids, t, order, ready, indegree, node);
  }

  /** The inner loop over one node's targets. */
  method RelaxTargets(ghost ids: seq<Id>, ghost t: Edges<Id>, ghost order: seq<Id>, node: Id, targets: seq<Id>,
                      indegree: map<Id, nat>, ready: seq<Id>)
    returns (indegree': map<Id, nat>, ready': seq<Id>)
    requires Midway(ids, t, order, ready, indegree, node, 0) && targets == Successors(t, node)
    requires forall e | e in t :: e.0 in ids && e.1 in ids
    ensures Halfway(ids, t, order + [node], ready', indegree')
    ensures ready' == ready + Released(t, Elements(order), targets)
  {
    indegree', ready' := indegree, ready;
    UnderwayFirst(ids, t, order, ready, indegree, node);
    var i := 0;
    while i < |targets|
      invariant 0 <= i <= |targets|
      invariant Underway(ids, t, order, ready, ready', indegree', node, i)
    {
      var target := targets[i];
      UnderwayNext(ids, t, order, ready, ready', indegree', node, i);
      indegree' := indegree'[target := indegree'[target] - 1];
      if indegree'[target] == 0 {
        ready' := ready' + [target];
      }
      i := i + 1;
    }
    UnderwayLast(ids, t, order, ready, ready', indegree', node);
  }

  lemma UnfinishedMeansCycle(ids: seq<Id>, t: Edges<Id>, order: seq<Id>)
    requires forall e | e in t :: e.0 in ids && e.1 in ids
    requires forall n | n in ids && n !in order :: Waiting(t, Elements(order), n) > 0
    requires exists n :: n in ids && n !in order
    ensures Cyclic(t)
  {
    var part := set n | n in ids && n !in order;
    forall n | n in part ensures HasPredecessor(t, part, n) {
      var m := WaitingSome(t, Elements(order), n);
      assert m in part;
    }
    var x :| x in ids && x !in order;
    assert x in part;
    NoSourceMeansCycle(t, part);
  }

  /** Walking an edge backwards moves to the front of a topological order. */
  lemma {:induction false} TopologicalWalk(t: Edges<Id>, order: seq<Id>, p: seq<Id>, k: nat, i: nat)
    requires Topological(t, order) && IsPath(t, p) && k < |p| && i < |order| && order[i] == p[|p| - 1]
    ensures exists j: nat :: j + k <= i && order[j] == p[|p| - 1 - k]
  {
    if k == 0 {
      assert i + 0 <= i;
    } else {
      TopologicalWalk(t, order, p, k - 1, i);
      var j: nat :| j + (k - 1) <= i && order[j] == p[|p| - k];
      assert (p[|p| - 1 - k], p[|p| - 1 - k + 1]) in t;
      assert p[|p| - 1 - k] in order[..j];
      var m :| 0 <= m < j && order[..j][m] == p[|p| - 1 - k];
      assert m + k <= i && order[m] == p[|p| - 1 - k];
    }
  }

  /** Only an acyclic graph has a plan. */
  lemma PlannedIsAcyclic(ids: seq<Id>, edges: seq<Edge>, plan: PlanResult)
    requires plan.Plan? && Endpoints(ids, edges) && PlanFits(ids, edges, plan)
    ensures !Cyclic(Topology(edges))
  {
    var t := Topology(edges);
    forall p ensures !IsCycle(t, p) {
      if IsCycle(t, p) {
        assert (p[|p| - 2], p[|p| - 2 + 1]) in t;
        EndpointsWithin(ids, edges, (p[|p| - 2], p[|p| - 1]));
        var i :| 0 <= i < |plan.order| && plan.order[i] == p[|p| - 1];
        TopologicalWalk(t, plan.order, p, |p| - 1, i);
        assert false;
      }
    }
  }

  lemma TablesAgree(ids: seq<Id>, edges: seq<Edge>, a: Transitions, b: Transitions)
    requires Carries(ids, edges, a) && Carries(ids, edges, b)
    ensures a == b
  {
    assert forall n :: n in a <==> n in b;
    forall n | n in a ensures a[n] == b[n] {
      assert forall p | p in a[n] :: Edge(n, p, a[n][p]) in edges;
      assert forall p | p in b[n] :: Edge(n, p, b[n][p]) in edges;
    }
  }

  /** The description leaves one plan: entry, order and table. */
  lemma PlanIsDetermined(ids: seq<Id>, edges: seq<Edge>, a: PlanResult, b: PlanResult)
    requires a.Plan? && b.Plan? && PlanFits(ids, edges, a) && PlanFits(ids, edges, b)
    ensures a == b
  {
    FirstComeIsUnique(ids, Topology(edges), a.order, b.order);
    TablesAgree(ids, edges, a.transitions, b.transitions);
  }

  // ---------------------------------------------------------------- the compiler

  method RouterGraphPlan(ids: seq<Id>, edges: seq<Edge>) returns (r: PlanResult)
    requires Distinct(ids) && Endpoints(ids, edges)
    ensures r.PortTwice? <==> ids != [] && PortUsedTwice(edges)
    ensures r.NotOneStart? <==> ids != [] && !PortUsedTwice(edges) && |Starts(ids, Topology(edges))| != 1
    ensures r.Disconnected? || r.NotAcyclic?
      <==> ids != [] && !PortUsedTwice(edges) && |Starts(ids, Topology(edges))| == 1 && Cyclic(Topology(edges))
    ensures r.Plan? ==> PlanFits(ids, edges, r) && (ids != [] ==> Starts(ids, Topology(edges)) == [r.entry.value])
  {
    if ids == [] {
      NoNodesNoEdges(edges);
      return Plan(None, [], map[]);
    }
    var ok, adjacency, transitions, indegree := BuildTables(ids, edges);
    if !ok {
      return PortTwice;
    }
    r := PlanFromTables(ids, edges, adjacency, transitions, indegree);
    if r.Plan? {
      PlannedIsAcyclic(ids, edges, r);
    }
  }

  method PlanFromTables(ids: seq<Id>, ghost edges: seq<Edge>, adjacency: map<Id, seq<Id>>, transitions: Transitions,
                        indegree: map<Id, nat>) returns (r: PlanResult)
    requires ids != [] && Distinct(ids) && Endpoints(ids, edges)
    requires Built(ids, edges, adjacency, transitions, indegree)
    ensures !r.PortTwice? && (r.NotOneStart? <==> |Starts(ids, Topology(edges))| != 1)
    ensures r.Disconnected? || r.NotAcyclic? ==> Cyclic(Topology(edges))
    ensures r.Plan? ==> PlanFits(ids, edges, r) && Starts(ids, Topology(edges)) == [r.entry.value]
  {
    var starts := StartsOf(ids, Topology(edges), indegree);
    if |starts| != 1 {
      return NotOneStart;
    }
    r := PlanFromStart(ids, edges, adjacency, transitions, indegree, starts[0]);
  }

  /** The two passes from the only start. */
  method PlanFromStart(ids: seq<Id>, ghost edges: seq<Edge>, adjacency: map<Id, seq<Id>>, transitions: Transitions,
                       indegree: map<Id, nat>, start: Id) returns (r: PlanResult)
    requires ids != [] && Distinct(ids) && Endpoints(ids, edges)
    requires Built(ids, edges, adjacency, transitions, indegree) && Starts(ids, Topology(edges)) == [start]
    ensures r.Disconnected? || r.NotAcyclic? || (r.Plan? && r.entry == Some(start))
    ensures r.Disconnected? || r.NotAcyclic? ==> Cyclic(Topology(edges))
    ensures r.Plan? ==> PlanFits(ids, edges, r)
  {
    ghost var t := Topology(edges);
    AllWithin(ids, edges);
    OnlyStart(ids, t, start);
    var seen := Reach(ids, t, adjacency, start);
    if exists n :: n in ids && n !in seen {
      UnreachedMeansCycle(ids, t, start, seen);
      return Disconnected;
    }
    var order := Kahn(ids, t, adjacency, indegree);
    if |order| != |ids| {
      SomethingLeft(order, ids);
      UnfinishedMeansCycle(ids, t, order);
      return NotAcyclic;
    }
    Full(order, ids);
    FirstStartIsFirst(ids, t, order);
    return Plan(Some(start), order, transitions);
  }

  lemma AllWithin(ids: seq<Id>, edges: seq<Edge>)
    requires Endpoints(ids, edges)
    ensures forall e | e in Topology(edges) :: e.0 in ids && e.1 in ids
  {
    forall e | e in Topology(edges) ensures e.0 in ids && e.1 in ids {
      EndpointsWithin(ids, edges, e);
    }
  }

  lemma OnlyStart(ids: seq<Id>, t: Edges<Id>, start: Id)
    requires Starts(ids, t) == [start]
    ensures start in ids && forall n | n in ids && Waiting(t, {}, n) == 0 :: n == start
  {
    InStarts(ids, t, start);
    assert start in [start];
    forall n | n in ids && Waiting(t, {}, n) == 0 ensures n == start {
      InStarts(ids, t, n);
    }
  }

  lemma SomethingLeft(order: seq<Id>, ids: seq<Id>)
    requires Distinct(order) && Distinct(ids) && (forall n | n in order :: n in ids) && |order| != |ids|
    ensures exists n :: n in ids && n !in order
  {
    if forall n | n in ids :: n in order {
      SameSize(order, ids);
    }
  }

  lemma SomeEdge(edges: seq<Edge>)
    ensures edges == [] || exists e :: e in edges
  {
    if edges != [] {
      assert edges[0] in edges;
    }
  }

  lemma NoNodesNoEdges(edges: seq<Edge>)
    requires Endpoints([], edges)
    ensures edges == [] && PlanFits([], edges, Plan(None, [], map[]))
  {
    assert [] + [] == Starts([], Topology(edges));
    SomeEdge(edges);
  }

  lemma SameSize(a: seq<Id>, b: seq<Id>)
    requires Distinct(a) && Distinct(b) && (forall n | n in a :: n in b) && (forall n | n in b :: n in a)
    ensures |a| == |b|
  {
    ElementCount(a);
    ElementCount(b);
    assert Elements(a) == Elements(b);
  }

  lemma {:induction false} ElementCount(s: seq<Id>)
    requires Distinct(s)
    ensures |Elements(s)| == |s|
  {
    if s != [] {
      var rest, last := s[..|s| - 1], s[|s| - 1];
      ElementCount(rest);
      assert Elements(s) == Elements(rest) + {last};
    }
  }

  lemma Full(a: seq<Id>, b: seq<Id>)
    requires Distinct(a) && Distinct(b) && (forall n | n in a :: n in b) && |a| == |b|
    ensures SameElements(a, b)
  {
    ElementCount(a);
    ElementCount(b);
    assert Elements(a) <= Elements(b);
    if x :| x in b && x !in a {
      SubsetSize(Elements(a) + {x}, Elements(b));
    }
  }
}
