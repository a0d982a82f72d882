/**
 What normalize_graph makes of what it is given, element by element, and which check refuses it
 (smart-router/src/smart_router/graph_v59.py:226-320), told from the raw lists alone.
 */
module GraphInput {
  import opened Collections
  import opened Digraph
  import opened Ports
  import opened Text
  import opened GraphNormal

  // ---------------------------------------------------------------- what each raw node says

  /** The trimmed id, at most 80 characters of it. */
  function RawId(raw: RawNode): string {
    Cut(Strip(raw.id), 80)
  }

  predicate Repeats(raws: seq<Entry<RawNode>>, k: nat)
    requires k < |raws| && raws[k].Object?
  {
    exists j | 0 <= j < k && raws[j].Object? :: RawId(raws[j].value) == RawId(raws[k].value)
  }

  predicate GoodId(raws: seq<Entry<RawNode>>, k: nat)
    requires k < |raws| && raws[k].Object?
  {
    RawId(raws[k].value) != "" && !Repeats(raws, k)
  }

  /** Node `k` passes every check, given the nodes before it. */
  predicate NodeFine(s: Settings, raws: seq<Entry<RawNode>>, k: nat)
    requires k < |raws|
  {
    && raws[k].Object? && GoodId(raws, k) && PortsFor(s.studio, Strip(raws[k].value.kind)).Some?
    && (s.numericRef ==> !raws[k].value.ref.OtherRef?)
  }

  /** `e` is the first check that node `k` fails. */
  predicate NodeFault(s: Settings, raws: seq<Entry<RawNode>>, k: nat, e: Error)
    requires k < |raws|
  {
    match e
    case NodeNotObject => raws[k].NotAnObject?
    case NodeIdNotUnique => raws[k].Object? && !GoodId(raws, k)
    case UnsupportedType => raws[k].Object? && GoodId(raws, k) && PortsFor(s.studio, Strip(raws[k].value.kind)).None?
    case RefNotNumeric =>
      raws[k].Object? && GoodId(raws, k) && PortsFor(s.studio, Strip(raws[k].value.kind)).Some?
      && s.numericRef && raws[k].value.ref.OtherRef?
    case _ => false
  }

  /** What an accepted raw node becomes. */
  predicate NodeFrom(s: Settings, n: Node, entry: Entry<RawNode>) {
    entry.Object? &&
    var raw := entry.value;
    && n.id == RawId(raw) && n.kind == Strip(raw.kind) && PortsFor(s.studio, n.kind) == Some(n.ports)
    && (match raw.caption case Some(text) => n.caption == Cut(text, 160) case None => n.caption == n.id)
    && (match raw.config case Some(config) => n.config == config case None => n.config == "{}")
    && (match raw.ref
        case Numeral(value) => n.ref == if s.numericRef then Number(value) else raw.ref
        case _ => n.ref == raw.ref)
  }

  ghost predicate NodesFrom(s: Settings, nodes: seq<Node>, raws: seq<Entry<RawNode>>) {
    |nodes| == |raws| && forall i | 0 <= i < |raws| :: NodeFrom(s, nodes[i], raws[i])
  }

  lemma KnownIds(s: Settings, nodes: seq<Node>, raws: seq<Entry<RawNode>>, k: nat)
    requires k < |raws| && raws[k].Object? && NodesFrom(s, nodes, raws[..k])
    ensures HasId(nodes, RawId(raws[k].value)) <==> Repeats(raws, k)
  {
    if Repeats(raws, k) {
      var j :| 0 <= j < k && raws[j].Object? && RawId(raws[j].value) == RawId(raws[k].value);
      assert NodeFrom(s, nodes[j], raws[..k][j]) && nodes[j] in nodes;
    }
    if HasId(nodes, RawId(raws[k].value)) {
      var n :| n in nodes && n.id == RawId(raws[k].value);
      var j :| 0 <= j < k && nodes[j] == n;
      assert NodeFrom(s, nodes[j], raws[..k][j]);
    }
  }

  /** One node: cleaned exactly when fine, refused for exactly its first fault. */
  lemma NodeIsCleaned(s: Settings, nodes: seq<Node>, raws: seq<Entry<RawNode>>, k: nat, r: Result<Node>)
    requires k < |raws| && NodesFrom(s, nodes, raws[..k]) && r == CleanNode(s, nodes, raws[k])
    ensures r.Ok? <==> NodeFine(s, raws, k)
    ensures r.Ok? ==> NodeFrom(s, r.value, raws[k])
    ensures forall e :: r == Err(e) <==> NodeFault(s, raws, k, e)
  {
    if raws[k].Object? {
      KnownIds(s, nodes, raws, k);
    }
  }

  ghost predicate NodesFine(s: Settings, raws: seq<Entry<RawNode>>, k: nat)
    requires k <= |raws|
  {
    forall j | 0 <= j < k :: NodeFine(s, raws, j)
  }

  ghost predicate FirstNodeFault(s: Settings, raws: seq<Entry<RawNode>>, k: nat, e: Error) {
    k < |raws| && NodesFine(s, raws, k) && NodeFault(s, raws, k, e)
  }

  lemma NodesOneMore(s: Settings, nodes: seq<Node>, raws: seq<Entry<RawNode>>, k: nat, n: Node)
    requires k < |raws| && NodesFrom(s, nodes, raws[..k]) && NodeFrom(s, n, raws[k])
    ensures NodesFrom(s, nodes + [n], raws[..k + 1])
  {
    forall i | 0 <= i < k + 1 ensures NodeFrom(s, (nodes + [n])[i], raws[..k + 1][i]) {
      if i < k {
        assert NodeFrom(s, nodes[i], raws[..k][i]);
      }
    }
  }

  /** The nodes are accepted up to `k` exactly when all are fine, and are then what the raw ones say. */
  lemma {:induction false} NodesUpTo(s: Settings, raws: seq<Entry<RawNode>>, k: nat)
    requires k <= |raws|
    ensures CleanNodes(s, raws[..k]).Ok? <==> NodesFine(s, raws, k)
    ensures CleanNodes(s, raws[..k]).Ok? ==> NodesFrom(s, CleanNodes(s, raws[..k]).value, raws[..k])
    ensures forall e :: CleanNodes(s, raws[..k]) == Err(e) <==> exists j | 0 <= j < k :: FirstNodeFault(s, raws, j, e)
  {
    if k > 0 {
      NodesUpTo(s, raws, k - 1);
      assert raws[..k][..k - 1] == raws[..k - 1];
      NodesStepTo(s, raws, k - 1, CleanNodes(s, raws[..k - 1]), CleanNodes(s, raws[..k]));
    }
  }

  lemma NodesStepTo(s: Settings, raws: seq<Entry<RawNode>>, k: nat, before: Result<seq<Node>>, after: Result<seq<Node>>)
    requires k < |raws| && after == if before.Err? then before else Extend(before.value, CleanNode(s, before.value, raws[k]))
    requires before.Ok? <==> NodesFine(s, raws, k)
    requires before.Ok? ==> NodesFrom(s, before.value, raws[..k])
    requires forall e :: before == Err(e) <==> exists j | 0 <= j < k :: FirstNodeFault(s, raws, j, e)
    ensures after.Ok? <==> NodesFine(s, raws, k + 1)
    ensures after.Ok? ==> NodesFrom(s, after.value, raws[..k + 1])
    ensures forall e :: after == Err(e) <==> exists j | 0 <= j < k + 1 :: FirstNodeFault(s, raws, j, e)
  {
    if before.Ok? {
      var r := CleanNode(s, before.value, raws[k]);
      NodeIsCleaned(s, before.value, raws, k, r);
      if r.Ok? {
        NodesOneMore(s, before.value, raws, k, r.value);
      }
      forall j, e | 0 <= j < k && NodeFine(s, raws, j) ensures !FirstNodeFault(s, raws, j, e) {
      }
      forall e ensures after == Err(e) <==> FirstNodeFault(s, raws, k, e) {
      }
    }
  }

  // ---------------------------------------------------------------- what each raw edge says

  /** The node an edge names: under the present name, else under the old one. */
  function Named(name: Option<string>, oldName: Option<string>): string {
    match name
    case Some(n) => Strip(n)
    case None => match oldName case Some(n) => Strip(n) case None => ""
  }

  function Source(raw: RawEdge): string {
    Named(raw.sourceNode, raw.from_)
  }

  function Target(raw: RawEdge): string {
    Named(raw.targetNode, raw.to_)
  }

  predicate Joins(nodes: seq<Node>, raw: RawEdge) {
    HasId(nodes, Source(raw)) && HasId(nodes, Target(raw)) && Source(raw) != Target(raw)
  }

  /** A port name, if there is one after trimming. */
  function PortName(name: string): Option<string> {
    if Strip(name) != "" then Some(Strip(name)) else None
  }

  function PortsTaken(nodes: seq<Node>, raw: RawEdge): Resolution
    requires Joins(nodes, raw)
  {
    ResolvePorts(NodeAt(nodes, Source(raw)).ports, NodeAt(nodes, Target(raw)).ports, PortName(raw.sourcePort), PortName(raw.targetPort))
  }

  predicate Connects(nodes: seq<Node>, entry: Entry<RawEdge>) {
    entry.Object? && Joins(nodes, entry.value) && PortsTaken(nodes, entry.value).Resolved?
  }

  function Connection(nodes: seq<Node>, raw: RawEdge): Key
    requires Joins(nodes, raw) && PortsTaken(nodes, raw).Resolved?
  {
    (Source(raw), PortsTaken(nodes, raw).source.id, Target(raw), PortsTaken(nodes, raw).target.id)
  }

  predicate Doubles(nodes: seq<Node>, raws: seq<Entry<RawEdge>>, k: nat)
    requires k < |raws| && Connects(nodes, raws[k])
  {
    exists j | 0 <= j < k && Connects(nodes, raws[j]) :: Connection(nodes, raws[j].value) == Connection(nodes, raws[k].value)
  }

  predicate EdgeFine(nodes: seq<Node>, raws: seq<Entry<RawEdge>>, k: nat)
    requires k < |raws|
  {
    Connects(nodes, raws[k]) && !Doubles(nodes, raws, k)
  }

  /** `e` is the first check that edge `k` fails. */
  predicate EdgeFault(nodes: seq<Node>, raws: seq<Entry<RawEdge>>, k: nat, e: Error)
    requires k < |raws|
  {
    match e
    case EdgeNotObject => raws[k].NotAnObject?
    case UnknownNode => raws[k].Object? && !(HasId(nodes, Source(raws[k].value)) && HasId(nodes, Target(raws[k].value)))
    case SelfConnection =>
      raws[k].Object? && HasId(nodes, Source(raws[k].value)) && Source(raws[k].value) == Target(raws[k].value)
    case PortError(r) =>
      raws[k].Object? && Joins(nodes, raws[k].value) && r == PortsTaken(nodes, raws[k].value) && !r.Resolved?
    case DuplicateConnection => Connects(nodes, raws[k]) && Doubles(nodes, raws, k)
    case _ => false
  }

  /** What an accepted raw edge becomes. */
  ghost predicate EdgeFrom(s: Settings, nodes: seq<Node>, e: Edge, entry: Entry<RawEdge>) {
    Connects(nodes, entry) &&
    var raw := entry.value;
    && KeyOf(e) == Connection(nodes, raw) && e.from_ == Source(raw) && e.to_ == Target(raw)
    && e.id == (if Cut(Strip(raw.id), 120) != "" then Cut(Strip(raw.id), 120) else s.hash(Connection(nodes, raw)))
    && e.condition == Cut(raw.condition, 500)
    && (match raw.caption
        case Some(text) => e.caption == Some(Cut(text, 160))
        case None => e.caption == if raw.condition != "" then Some(Cut(raw.condition, 160)) else None)
    && (match raw.metadata case Some(metadata) => e.metadata == metadata case None => e.metadata == "{}")
  }

  ghost predicate EdgesFrom(s: Settings, nodes: seq<Node>, edges: seq<Edge>, raws: seq<Entry<RawEdge>>) {
    |edges| == |raws| && forall i | 0 <= i < |raws| :: EdgeFrom(s, nodes, edges[i], raws[i])
  }

  lemma KnownKeys(s: Settings, nodes: seq<Node>, edges: seq<Edge>, raws: seq<Entry<RawEdge>>, k: nat)
    requires k < |raws| && Connects(nodes, raws[k]) && EdgesFrom(s, nodes, edges, raws[..k])
    ensures HasKey(edges, Connection(nodes, raws[k].value)) <==> Doubles(nodes, raws, k)
  {
    if Doubles(nodes, raws, k) {
      var j :| 0 <= j < k && Connects(nodes, raws[j]) && Connection(nodes, raws[j].value) == Connection(nodes, raws[k].value);
      assert EdgeFrom(s, nodes, edges[j], raws[..k][j]) && edges[j] in edges;
    }
    if HasKey(edges, Connection(nodes, raws[k].value)) {
      var e :| e in edges && KeyOf(e) == Connection(nodes, raws[k].value);
      var j :| 0 <= j < k && edges[j] == e;
      assert EdgeFrom(s, nodes, edges[j], raws[..k][j]);
    }
  }

  lemma CutTwice(text: string)
    ensures Cut(Cut(text, 500), 160) == Cut(text, 160) && (Cut(text, 500) == "" <==> text == "") && (Cut(text, 160) == "" <==> text == "")
  {
  }

  /** The checks before the ports. */
  lemma EndsAreChecked(s: Settings, nodes: seq<Node>, before: seq<Edge>, raw: RawEdge)
    ensures var r := CleanEdge(s, nodes, before, Object(raw));
      && (!(HasId(nodes, Source(raw)) && HasId(nodes, Target(raw))) ==> r == Err(UnknownNode))
      && (HasId(nodes, Source(raw)) && Source(raw) == Target(raw) ==> r == Err(SelfConnection))
  {
  }

  lemma PortsAreChecked(s: Settings, nodes: seq<Node>, before: seq<Edge>, raw: RawEdge)
    requires Joins(nodes, raw)
    ensures var r := CleanEdge(s, nodes, before, Object(raw));
      && (!PortsTaken(nodes, raw).Resolved? ==> r == Err(PortError(PortsTaken(nodes, raw))))
      && (PortsTaken(nodes, raw).Resolved? && HasKey(before, Connection(nodes, raw)) ==> r == Err(DuplicateConnection))
      && (PortsTaken(nodes, raw).Resolved? && !HasKey(before, Connection(nodes, raw)) ==>
            r.Ok? && EdgeFrom(s, nodes, r.value, Object(raw)))
  {
    CutTwice(raw.condition);
  }

  /** One edge: cleaned exactly when fine, refused for exactly its first fault. */
  lemma EdgeIsCleaned(s: Settings, nodes: seq<Node>, edges: seq<Edge>, raws: seq<Entry<RawEdge>>, k: nat, r: Result<Edge>)
    requires k < |raws| && EdgesFrom(s, nodes, edges, raws[..k]) && r == CleanEdge(s, nodes, edges, raws[k])
    ensures r.Ok? ==> EdgeFine(nodes, raws, k) && EdgeFrom(s, nodes, r.value, raws[k])
    ensures r.Err? ==> !EdgeFine(nodes, raws, k) && EdgeFault(nodes, raws, k, r.error)
  {
    if raws[k].Object? {
      var raw := raws[k].value;
      EndsAreChecked(s, nodes, edges, raw);
      if Joins(nodes, raw) {
        PortsAreChecked(s, nodes, edges, raw);
        if Connects(nodes, raws[k]) {
          KnownKeys(s, nodes, edges, raws, k);
        }
      }
    }
  }

  lemma OneEdgeFault(nodes: seq<Node>, raws: seq<Entry<RawEdge>>, k: nat, d: Error, e: Error)
    requires k < |raws| && EdgeFault(nodes, raws, k, d) && EdgeFault(nodes, raws, k, e)
    ensures d == e && !EdgeFine(nodes, raws, k)
  {
  }

  ghost predicate EdgesFine(nodes: seq<Node>, raws: seq<Entry<RawEdge>>, k: nat)
    requires k <= |raws|
  {
    forall j | 0 <= j < k :: EdgeFine(nodes, raws, j)
  }

  ghost predicate FirstEdgeFault(nodes: seq<Node>, raws: seq<Entry<RawEdge>>, k: nat, e: Error) {
    k < |raws| && EdgesFine(nodes, raws, k) && EdgeFault(nodes, raws, k, e)
  }

  lemma EdgesOneMore(s: Settings, nodes: seq<Node>, edges: seq<Edge>, raws: seq<Entry<RawEdge>>, k: nat, e: Edge)
    requires k < |raws| && EdgesFrom(s, nodes, edges, raws[..k]) && EdgeFrom(s, nodes, e, raws[k])
    ensures EdgesFrom(s, nodes, edges + [e], raws[..k + 1])
  {
    forall i | 0 <= i < k + 1 ensures EdgeFrom(s, nodes, (edges + [e])[i], raws[..k + 1][i]) {
      if i < k {
        assert EdgeFrom(s, nodes, edges[i], raws[..k][i]);
      }
    }
  }

  /** The edges are accepted up to `k` exactly when all are fine, and are then what the raw ones say. */
  lemma {:induction false} EdgesUpTo(s: Settings, nodes: seq<Node>, raws: seq<Entry<RawEdge>>, k: nat)
    requires k <= |raws|
    ensures CleanEdges(s, nodes, raws[..k]).Ok? <==> EdgesFine(nodes, raws, k)
    ensures CleanEdges(s, nodes, raws[..k]).Ok? ==> EdgesFrom(s, nodes, CleanEdges(s, nodes, raws[..k]).value, raws[..k])
    ensures forall e :: CleanEdges(s, nodes, raws[..k]) == Err(e) <==> exists j | 0 <= j < k :: FirstEdgeFault(nodes, raws, j, e)
  {
    if k > 0 {
      EdgesUpTo(s, nodes, raws, k - 1);
      assert raws[..k][..k - 1] == raws[..k - 1];
      EdgesStepTo(s, nodes, raws, k - 1, CleanEdges(s, nodes, raws[..k - 1]), CleanEdges(s, nodes, raws[..k]));
    }
  }

  lemma EdgesStepTo(s: Settings, nodes: seq<Node>, raws: seq<Entry<RawEdge>>, k: nat, before: Result<seq<Edge>>,
                    after: Result<seq<Edge>>)
    requires k < |raws|
    requires after == if before.Err? then before else Extend(before.value, CleanEdge(s, nodes, before.value, raws[k]))
    requires before.Ok? <==> EdgesFine(nodes, raws, k)
    requires before.Ok? ==> EdgesFrom(s, nodes, before.value, raws[..k])
    requires forall e :: before == Err(e) <==> exists j | 0 <= j < k :: FirstEdgeFault(nodes, raws, j, e)
    ensures after.Ok? <==> EdgesFine(nodes, raws, k + 1)
    ensures after.Ok? ==> EdgesFrom(s, nodes, after.value, raws[..k + 1])
    ensures forall e :: after == Err(e) <==> exists j | 0 <= j < k + 1 :: FirstEdgeFault(nodes, raws, j, e)
  {
    if before.Ok? {
      var r := CleanEdge(s, nodes, before.value, raws[k]);
      EdgeIsCleaned(s, nodes, before.value, raws, k, r);
      if r.Ok? {
        EdgesOneMore(s, nodes, before.value, raws, k, r.value);
      }
      forall j, e | 0 <= j < k && EdgeFine(nodes, raws, j) ensures !FirstEdgeFault(nodes, raws, j, e) {
        if EdgeFault(nodes, raws, j, e) { OneEdgeFault(nodes, raws, j, e, e); }
      }
      forall e ensures after == Err(e) <==> FirstEdgeFault(nodes, raws, k, e) {
        if EdgeFault(nodes, raws, k, e) {
          OneEdgeFault(nodes, raws, k, e, if r.Err? then r.error else e);
        }
      }
    }
  }

  // ---------------------------------------------------------------- the whole input

  predicate Sized(s: Settings, value: RawGraph) {
    value.RawGraph? && |value.nodes| <= s.maxNodes && |value.edges| <= s.maxEdges
  }

  /** The ends of the edges, as the raw ones name them. */
  function Ends(raws: seq<Entry<RawEdge>>): Edges<string> {
    if raws == [] then [] else
    var last := raws[|raws| - 1];
    Ends(raws[..|raws| - 1]) + if last.Object? then [(Source(last.value), Target(last.value))] else []
  }

  lemma EdgesLess(s: Settings, nodes: seq<Node>, edges: seq<Edge>, raws: seq<Entry<RawEdge>>)
    requires EdgesFrom(s, nodes, edges, raws) && raws != []
    ensures EdgesFrom(s, nodes, edges[..|raws| - 1], raws[..|raws| - 1])
    ensures var e, entry := edges[|raws| - 1], raws[|raws| - 1];
      entry.Object? && e.sourceNode == Source(entry.value) && e.targetNode == Target(entry.value)
  {
    var last := |raws| - 1;
    assert EdgeFrom(s, nodes, edges[last], raws[last]);
    forall i | 0 <= i < last ensures EdgeFrom(s, nodes, edges[..last][i], raws[..last][i]) {
      assert EdgeFrom(s, nodes, edges[i], raws[i]);
    }
  }

  lemma {:induction false} PairsAreEnds(s: Settings, nodes: seq<Node>, edges: seq<Edge>, raws: seq<Entry<RawEdge>>)
    requires EdgesFrom(s, nodes, edges, raws)
    ensures Pairs(edges) == Ends(raws)
  {
    if raws != [] {
      EdgesLess(s, nodes, edges, raws);
      PairsAreEnds(s, nodes, edges[..|raws| - 1], raws[..|raws| - 1]);
    }
  }

  ghost predicate NodesRefused(s: Settings, raws: seq<Entry<RawNode>>, e: Error) {
    exists j | 0 <= j < |raws| :: FirstNodeFault(s, raws, j, e)
  }

  ghost predicate EdgesRefused(nodes: seq<Node>, raws: seq<Entry<RawEdge>>, e: Error) {
    exists j | 0 <= j < |raws| :: FirstEdgeFault(nodes, raws, j, e)
  }

  /** The reason against the edges and their topology, once the nodes are accepted. */
  ghost predicate Disconnects(nodes: seq<Node>, raws: seq<Entry<RawEdge>>, e: Error) {
    if !EdgesFine(nodes, raws, |raws|) then EdgesRefused(nodes, raws, e) else e == HasACycle && Cyclic(Ends(raws))
  }

  lemma NodesAreDetermined(s: Settings, a: seq<Node>, b: seq<Node>, raws: seq<Entry<RawNode>>)
    requires NodesFrom(s, a, raws) && NodesFrom(s, b, raws)
    ensures a == b
  {
    forall i | 0 <= i < |raws| ensures a[i] == b[i] {
      assert NodeFrom(s, a[i], raws[i]) && NodeFrom(s, b[i], raws[i]);
    }
  }

  lemma AllNodes(s: Settings, raws: seq<Entry<RawNode>>)
    ensures CleanNodes(s, raws).Ok? <==> NodesFine(s, raws, |raws|)
    ensures CleanNodes(s, raws).Ok? ==> NodesFrom(s, CleanNodes(s, raws).value, raws)
    ensures forall e :: CleanNodes(s, raws) == Err(e) <==> NodesRefused(s, raws, e)
  {
    NodesUpTo(s, raws, |raws|);
    assert raws[..|raws|] == raws;
  }

  lemma AllEdges(s: Settings, nodes: seq<Node>, raws: seq<Entry<RawEdge>>)
    ensures CleanEdges(s, nodes, raws).Ok? <==> EdgesFine(nodes, raws, |raws|)
    ensures CleanEdges(s, nodes, raws).Ok? ==> EdgesFrom(s, nodes, CleanEdges(s, nodes, raws).value, raws)
    ensures forall e :: CleanEdges(s, nodes, raws) == Err(e) <==> EdgesRefused(nodes, raws, e)
  {
    EdgesUpTo(s, nodes, raws, |raws|);
    assert raws[..|raws|] == raws;
  }

  lemma NormalizeParts(s: Settings, value: RawGraph)
    requires Normalize(s, value).Ok?
    ensures value.RawGraph? && CleanNodes(s, value.nodes) == Ok(Normalize(s, value).value.nodes)
    ensures CleanEdges(s, Normalize(s, value).value.nodes, value.edges) == Ok(Normalize(s, value).value.edges)
  {
  }

  /** An accepted graph, element by element: each node and each edge is what its raw form says. */
  lemma AcceptedSaysWhatWasSent(s: Settings, value: RawGraph)
    requires Normalize(s, value).Ok?
    ensures var g := Normalize(s, value).value;
      NodesFrom(s, g.nodes, value.nodes) && EdgesFrom(s, g.nodes, g.edges, value.edges)
  {
    NormalizeParts(s, value);
    AllNodes(s, value.nodes);
    AllEdges(s, Normalize(s, value).value.nodes, value.edges);
  }

  lemma EdgesDecide(s: Settings, value: RawGraph, nodes: seq<Node>, e: Error)
    requires Sized(s, value) && CleanNodes(s, value.nodes) == Ok(nodes)
    ensures Normalize(s, value) == Err(e) <==> Disconnects(nodes, value.edges, e)
  {
    AllEdges(s, nodes, value.edges);
    var edges := CleanEdges(s, nodes, value.edges);
    if edges.Ok? {
      PairsAreEnds(s, nodes, edges.value, value.edges);
    }
  }

  /** Which input is refused for what, the first failing check deciding: the form, the size, the first faulty node, the
      first faulty edge, a cycle. */
  lemma RefusedExactly(s: Settings, value: RawGraph, e: Error)
    ensures value.NotGraph? ==> (Normalize(s, value) == Err(e) <==> e == GraphNotObject)
    ensures value.NotLists? ==> (Normalize(s, value) == Err(e) <==> e == ListsExpected)
    ensures value.RawGraph? && !Sized(s, value) ==> (Normalize(s, value) == Err(e) <==> e == TooLarge)
    ensures Sized(s, value) && !NodesFine(s, value.nodes, |value.nodes|) ==>
      (Normalize(s, value) == Err(e) <==> NodesRefused(s, value.nodes, e))
    ensures Sized(s, value) && NodesFine(s, value.nodes, |value.nodes|) ==>
      exists nodes :: NodesFrom(s, nodes, value.nodes) && (Normalize(s, value) == Err(e) <==> Disconnects(nodes, value.edges, e))
  {
    if Sized(s, value) {
      AllNodes(s, value.nodes);
      if NodesFine(s, value.nodes, |value.nodes|) {
        EdgesDecide(s, value, CleanNodes(s, value.nodes).value, e);
      }
    }
  }
}
