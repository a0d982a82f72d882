/**
 Normalizing a studio graph (smart-router/src/smart_router/graph_v59.py:226-320): nodes, then edges, then
 the cycle check; the first failing check decides the error.
 */
module GraphNormal {
  import opened Collections
  import opened Digraph
  import CycleCheck
  import opened Ports
  import opened Text

  type Blob = string   // a JSON object carried through unread

  /** A node's ref_id, as int() sees it. */
  datatype Ref = Absent | Number(n: int) | Numeral(value: int) | OtherRef(text: string)

  datatype RawNode = RawNode(id: string, kind: string, caption: Option<string>, ref: Ref, config: Option<Blob>)

  datatype RawEdge = RawEdge(id: string, sourceNode: Option<string>, from_: Option<string>, targetNode: Option<string>,
                             to_: Option<string>, sourcePort: string, targetPort: string, condition: string,
                             caption: Option<string>, metadata: Option<Blob>)

  /** A list element, which may fail to be an object at all. */
  datatype Entry<T> = Object(value: T) | NotAnObject

  datatype RawGraph = RawGraph(nodes: seq<Entry<RawNode>>, edges: seq<Entry<RawEdge>>) | NotGraph | NotLists

  datatype Node = Node(id: string, kind: string, caption: string, ref: Ref, config: Blob, ports: NodePorts)

  datatype Edge = Edge(id: string, sourceNode: string, sourcePort: string, targetNode: string, targetPort: string,
                       from_: string, to_: string, condition: string, caption: Option<string>, metadata: Blob)

  datatype Graph = Graph(nodes: seq<Node>, edges: seq<Edge>)

  datatype Error =
    | GraphNotObject | ListsExpected | TooLarge | NodeNotObject | NodeIdNotUnique | UnsupportedType | RefNotNumeric
    | EdgeNotObject | UnknownNode | SelfConnection | PortError(r: Resolution) | DuplicateConnection | HasACycle

  datatype Result<T> = Ok(value: T) | Err(error: Error)

  /** The parameters of one call. `hash` stands for the digest behind generated edge ids. */
  datatype Settings = Settings(studio: Studio, maxNodes: nat, maxEdges: nat, numericRef: bool, hash: Key -> string)

  type Key = (string, string, string, string)

  const EMPTY_OBJECT: Blob := "{}"

  // ---------------------------------------------------------------- nodes

  function CleanRef(numericRef: bool, ref: Ref): Result<Ref> {
    if !numericRef || ref.Absent? || ref.Number? then Ok(ref)
    else if ref.Numeral? then Ok(Number(ref.value))
    else Err(RefNotNumeric)
  }

  predicate HasId(nodes: seq<Node>, id: string) {
    exists n :: n in nodes && n.id == id
  }

  function CleanNode(s: Settings, before: seq<Node>, entry: Entry<RawNode>): Result<Node> {
    if entry.NotAnObject? then Err(NodeNotObject) else
    var raw := entry.value;
    var id := Cut(Strip(raw.id), 80);
    var kind := Strip(raw.kind);
    if id == "" || HasId(before, id) then Err(NodeIdNotUnique)
    else if PortsFor(s.studio, kind).None? then Err(UnsupportedType)
    else if CleanRef(s.numericRef, raw.ref).Err? then Err(RefNotNumeric)
    else Ok(Node(id, kind, Cut(if raw.caption.Some? then raw.caption.value else id, 160), CleanRef(s.numericRef, raw.ref).value,
                 if raw.config.Some? then raw.config.value else EMPTY_OBJECT, PortsFor(s.studio, kind).value))
  }

  /** One more element, unless it failed. */
  function Extend<T>(before: seq<T>, item: Result<T>): Result<seq<T>> {
    if item.Err? then Err(item.error) else Ok(before + [item.value])
  }

  function CleanNodes(s: Settings, raws: seq<Entry<RawNode>>): Result<seq<Node>> {
    if raws == [] then Ok([]) else
    var before := CleanNodes(s, raws[..|raws| - 1]);
    if before.Err? then before else Extend(before.value, CleanNode(s, before.value, raws[|raws| - 1]))
  }

  function NodeAt(nodes: seq<Node>, id: string): Node
    requires HasId(nodes, id)
  {
    if nodes[|nodes| - 1].id == id then nodes[|nodes| - 1] else NodeAt(nodes[..|nodes| - 1], id)
  }

  // ---------------------------------------------------------------- edges

  function OrNone(s: string): Option<string> {
    if s == "" then None else Some(s)
  }

  function Either(first: Option<string>, second: Option<string>): string {
    if first.Some? then first.value else if second.Some? then second.value else ""
  }

  function KeyOf(e: Edge): Key {
    (e.sourceNode, e.sourcePort, e.targetNode, e.targetPort)
  }

  predicate HasKey(edges: seq<Edge>, key: Key) {
    exists e :: e in edges && KeyOf(e) == key
  }

  function EdgeLabel(caption: Option<string>, condition: string): Option<string> {
    if caption.Some? then Some(Cut(caption.value, 160)) else OrNone(Cut(condition, 160))
  }

  function CleanEdge(s: Settings, nodes: seq<Node>, before: seq<Edge>, entry: Entry<RawEdge>): Result<Edge> {
    if entry.NotAnObject? then Err(EdgeNotObject) else
    var raw := entry.value;
    var source := Strip(Either(raw.sourceNode, raw.from_));
    var target := Strip(Either(raw.targetNode, raw.to_));
    if !HasId(nodes, source) || !HasId(nodes, target) then Err(UnknownNode)
    else if source == target then Err(SelfConnection)
    else
      var r := ResolvePorts(NodeAt(nodes, source).ports, NodeAt(nodes, target).ports,
                            OrNone(Strip(raw.sourcePort)), OrNone(Strip(raw.targetPort)));
      if !r.Resolved? then Err(PortError(r)) else
      var key := (source, r.source.id, target, r.target.id);
      if HasKey(before, key) then Err(DuplicateConnection) else
      var condition := Cut(raw.condition, 500);
      var given := Cut(Strip(raw.id), 120);
      Ok(Edge(if given == "" then s.hash(key) else given, source, r.source.id, target, r.target.id, source, target, condition,
              EdgeLabel(raw.caption, condition), if raw.metadata.Some? then raw.metadata.value else EMPTY_OBJECT))
  }

  function CleanEdges(s: Settings, nodes: seq<Node>, raws: seq<Entry<RawEdge>>): Result<seq<Edge>> {
    if raws == [] then Ok([]) else
    var before := CleanEdges(s, nodes, raws[..|raws| - 1]);
    if before.Err? then before else Extend(before.value, CleanEdge(s, nodes, before.value, raws[|raws| - 1]))
  }

  function Pairs(edges: seq<Edge>): Edges<string> {
    if edges == [] then [] else Pairs(edges[..|edges| - 1]) + [(edges[|edges| - 1].sourceNode, edges[|edges| - 1].targetNode)]
  }

  // ---------------------------------------------------------------- the whole

  ghost function Normalize(s: Settings, value: RawGraph): Result<Graph> {
    match value
    case NotGraph => Err(GraphNotObject)
    case NotLists => Err(ListsExpected)
    case RawGraph(rawNodes, rawEdges) =>
      if |rawNodes| > s.maxNodes || |rawEdges| > s.maxEdges then Err(TooLarge) else
      var nodes := CleanNodes(s, rawNodes);
      if nodes.Err? then Err(nodes.error) else
      var edges := CleanEdges(s, nodes.value, rawEdges);
      if edges.Err? then Err(edges.error)
      else if Cyclic(Pairs(edges.value)) then Err(HasACycle)
      else Ok(Graph(nodes.value, edges.value))
  }

  lemma {:induction false} PairsHave(edges: seq<Edge>, a: string, b: string)
    ensures (a, b) in Pairs(edges) <==> exists e :: e in edges && e.sourceNode == a && e.targetNode == b
  {
    if edges != [] {
      var rest, last := edges[..|edges| - 1], edges[|edges| - 1];
      PairsHave(rest, a, b);
      assert edges == rest + [last];
      if (a, b) in Pairs(rest) {
        var e :| e in rest && e.sourceNode == a && e.targetNode == b;
        assert e in edges;
      }
      if exists e :: e in edges && e.sourceNode == a && e.targetNode == b {
        var e :| e in edges && e.sourceNode == a && e.targetNode == b;
        assert e in rest || e == last;
      }
    }
  }

  function Ids(nodes: seq<Node>): set<string> {
    set n | n in nodes :: n.id
  }

  // ---------------------------------------------------------------- what an accepted graph looks like

  ghost predicate SoundNode(s: Settings, n: Node) {
    n.id != "" && |n.id| <= 80 && |n.caption| <= 160 && Trimmed(n.kind) && PortsFor(s.studio, n.kind) == Some(n.ports)
    && CleanRef(s.numericRef, n.ref) == Ok(n.ref)
  }

  ghost predicate SoundEdge(s: Settings, nodes: seq<Node>, e: Edge) {
    && HasId(nodes, e.sourceNode) && HasId(nodes, e.targetNode) && e.sourceNode != e.targetNode
    && e.from_ == e.sourceNode && e.to_ == e.targetNode && |e.condition| <= 500
    && (e.caption.Some? ==> |e.caption.value| <= 160) && (e.caption.None? ==> e.condition == "")
    && (e.id == s.hash(KeyOf(e)) || (e.id != "" && |e.id| <= 120))
    && exists p, q :: p in NodeAt(nodes, e.sourceNode).ports.outputs && q in NodeAt(nodes, e.targetNode).ports.inputs
                      && Compatible(p.dataType, q.dataType) && p.id == e.sourcePort && q.id == e.targetPort
  }

  ghost predicate SoundNodes(s: Settings, nodes: seq<Node>) {
    (forall n | n in nodes :: SoundNode(s, n)) && forall i, j | 0 <= i < j < |nodes| :: nodes[i].id != nodes[j].id
  }

  ghost predicate SoundEdges(s: Settings, nodes: seq<Node>, edges: seq<Edge>) {
    && (forall e | e in edges :: SoundEdge(s, nodes, e))
    && forall i, j | 0 <= i < j < |edges| :: KeyOf(edges[i]) != KeyOf(edges[j])
  }

  /** Distinct node ids and edge keys, every edge between declared compatible ports, no self-loop, no cycle. */
  ghost predicate NormalForm(s: Settings, g: Graph) {
    && |g.nodes| <= s.maxNodes && |g.edges| <= s.maxEdges
    && SoundNodes(s, g.nodes) && SoundEdges(s, g.nodes, g.edges)
    && !Cyclic(Pairs(g.edges))
  }

  lemma CleanNodeIsSound(s: Settings, before: seq<Node>, entry: Entry<RawNode>)
    requires CleanNode(s, before, entry).Ok?
    ensures SoundNode(s, CleanNode(s, before, entry).value)
  {
    StripTrims(entry.value.kind);
  }

  lemma {:induction false} CleanNodesAreSound(s: Settings, raws: seq<Entry<RawNode>>)
    requires CleanNodes(s, raws).Ok?
    ensures var nodes := CleanNodes(s, raws).value;
      && |nodes| == |raws| && (forall n | n in nodes :: SoundNode(s, n))
      && forall i, j | 0 <= i < j < |nodes| :: nodes[i].id != nodes[j].id
  {
    if raws != [] {
      CleanNodesAreSound(s, raws[..|raws| - 1]);
      CleanNodeIsSound(s, CleanNodes(s, raws[..|raws| - 1]).value, raws[|raws| - 1]);
    }
  }

  lemma {:induction false} NodeAtIsThere(nodes: seq<Node>, id: string)
    requires HasId(nodes, id)
    ensures NodeAt(nodes, id) in nodes && NodeAt(nodes, id).id == id
  {
    var last := nodes[|nodes| - 1];
    assert nodes == nodes[..|nodes| - 1] + [last];
    if last.id != id {
      NodeAtIsThere(nodes[..|nodes| - 1], id);
    }
  }

  lemma CleanEdgeIsSound(s: Settings, nodes: seq<Node>, before: seq<Edge>, entry: Entry<RawEdge>)
    requires CleanEdge(s, nodes, before, entry).Ok?
    ensures SoundEdge(s, nodes, CleanEdge(s, nodes, before, entry).value)
    ensures !HasKey(before, KeyOf(CleanEdge(s, nodes, before, entry).value))
  {
    var raw := entry.value;
    var e := CleanEdge(s, nodes, before, entry).value;
    ResolutionIsTyped(NodeAt(nodes, e.sourceNode).ports, NodeAt(nodes, e.targetNode).ports,
                      OrNone(Strip(raw.sourcePort)), OrNone(Strip(raw.targetPort)));
  }

  lemma {:induction false} CleanEdgesAreSound(s: Settings, nodes: seq<Node>, raws: seq<Entry<RawEdge>>)
    requires CleanEdges(s, nodes, raws).Ok?
    ensures var edges := CleanEdges(s, nodes, raws).value;
      && |edges| == |raws| && (forall e | e in edges :: SoundEdge(s, nodes, e))
      && forall i, j | 0 <= i < j < |edges| :: KeyOf(edges[i]) != KeyOf(edges[j])
  {
    if raws != [] {
      var rest := raws[..|raws| - 1];
      CleanEdgesAreSound(s, nodes, rest);
      CleanEdgeIsSound(s, nodes, CleanEdges(s, nodes, rest).value, raws[|raws| - 1]);
    }
  }

  /** Everything normalize_graph accepts is in normal form. */
  lemma AcceptedIsNormal(s: Settings, value: RawGraph)
    requires Normalize(s, value).Ok?
    ensures NormalForm(s, Normalize(s, value).value)
  {
    CleanNodesAreSound(s, value.nodes);
    CleanEdgesAreSound(s, CleanNodes(s, value.nodes).value, value.edges);
  }

  // ---------------------------------------------------------------- normalizing twice

  function AsRawNode(n: Node): Entry<RawNode> {
    Object(RawNode(n.id, n.kind, Some(n.caption), n.ref, Some(n.config)))
  }

  function AsRawEdge(e: Edge): Entry<RawEdge> {
    Object(RawEdge(e.id, Some(e.sourceNode), Some(e.from_), Some(e.targetNode), Some(e.to_), e.sourcePort, e.targetPort,
                   e.condition, e.caption, Some(e.metadata)))
  }

  function AsRaw(g: Graph): RawGraph {
    RawGraph(seq(|g.nodes|, i requires 0 <= i < |g.nodes| => AsRawNode(g.nodes[i])),
             seq(|g.edges|, i requires 0 <= i < |g.edges| => AsRawEdge(g.edges[i])))
  }

  /** Node and edge ids that survive another trim. */
  ghost predicate Tidy(g: Graph) {
    (forall n | n in g.nodes :: Trimmed(n.id)) && (forall e | e in g.edges :: Trimmed(e.id))
  }

  /** "edge-" and sixteen hexadecimal digits. */
  ghost predicate PlainHash(s: Settings) {
    forall k :: s.hash(k) != "" && Trimmed(s.hash(k)) && |s.hash(k)| <= 120
  }

  lemma NodeAgain(s: Settings, before: seq<Node>, n: Node)
    requires SoundNode(s, n) && !HasId(before, n.id)
    ensures CleanNode(s, before, AsRawNode(n)) == Ok(n) <==> Trimmed(n.id)
  {
    StripTrims(n.id);
    StripTrims(n.kind);
    StripShortens(n.id);
  }

  lemma ExtendIs<T>(before: seq<T>, item: Result<T>, rest: seq<T>, last: T)
    ensures Extend(before, item) == Ok(rest + [last]) <==> before == rest && item == Ok(last)
  {
    if Extend(before, item) == Ok(rest + [last]) {
      assert (before + [item.value])[..|before|] == before && (rest + [last])[..|rest|] == rest;
      assert (before + [item.value])[|before|] == item.value && (rest + [last])[|rest|] == last;
    }
  }

  lemma NodesStep(s: Settings, raws: seq<Entry<RawNode>>, rest: seq<Node>, last: Node)
    requires raws != []
    ensures CleanNodes(s, raws) == Ok(rest + [last])
      <==> CleanNodes(s, raws[..|raws| - 1]) == Ok(rest) && CleanNode(s, rest, raws[|raws| - 1]) == Ok(last)
  {
    var before := CleanNodes(s, raws[..|raws| - 1]);
    if before.Ok? {
      ExtendIs(before.value, CleanNode(s, before.value, raws[|raws| - 1]), rest, last);
    }
  }

  lemma OneMoreNode(s: Settings, nodes: seq<Node>, raws: seq<Entry<RawNode>>, k: nat)
    requires SoundNodes(s, nodes) && k < |nodes| && |raws| == k + 1 && raws[k] == AsRawNode(nodes[k])
    ensures CleanNodes(s, raws) == Ok(nodes[..k + 1]) <==> CleanNodes(s, raws[..k]) == Ok(nodes[..k]) && Trimmed(nodes[k].id)
  {
    NodeAgain(s, nodes[..k], nodes[k]);
    assert nodes[..k + 1] == nodes[..k] + [nodes[k]];
    NodesStep(s, raws, nodes[..k], nodes[k]);
  }

  lemma {:induction false} NodesAgain(s: Settings, nodes: seq<Node>, raws: seq<Entry<RawNode>>, k: nat)
    requires SoundNodes(s, nodes)
    requires |raws| == k <= |nodes| && forall i | 0 <= i < k :: raws[i] == AsRawNode(nodes[i])
    ensures CleanNodes(s, raws) == Ok(nodes[..k]) <==> forall i | 0 <= i < k :: Trimmed(nodes[i].id)
  {
    if k > 0 {
      NodesAgain(s, nodes, raws[..k - 1], k - 1);
      OneMoreNode(s, nodes, raws, k - 1);
    }
  }

  lemma EdgeAgain(s: Settings, nodes: seq<Node>, before: seq<Edge>, e: Edge)
    requires PlainHash(s) && SoundEdge(s, nodes, e) && !HasKey(before, KeyOf(e))
    requires forall n | n in nodes :: SoundNode(s, n) && Trimmed(n.id)
    ensures CleanEdge(s, nodes, before, AsRawEdge(e)) == Ok(e) <==> Trimmed(e.id)
  {
    NodeAtIsThere(nodes, e.sourceNode);
    NodeAtIsThere(nodes, e.targetNode);
    var a, b := NodeAt(nodes, e.sourceNode), NodeAt(nodes, e.targetNode);
    StripTrims(a.id);
    StripTrims(b.id);
    PortsAgain(s, a, b, e);
    StripTrims(e.id);
    StripShortens(e.id);
    var clean := CleanEdge(s, nodes, before, AsRawEdge(e));
    assert clean.Ok? && clean.value == e.(id := clean.value.id) by {
      CaptionAgain(e.caption, e.condition);
    }
  }

  lemma CaptionAgain(caption: Option<string>, condition: string)
    requires |condition| <= 500 && (caption.Some? ==> |caption.value| <= 160) && (caption.None? ==> condition == "")
    ensures EdgeLabel(caption, Cut(condition, 500)) == caption
  {
  }

  lemma PlainIsTrimmed(id: string)
    requires PlainName(id)
    ensures Strip(id) == id
  {
    StripTrims(id);
  }

  lemma PortsAgain(s: Settings, a: Node, b: Node, e: Edge)
    requires SoundNode(s, a) && SoundNode(s, b)
    requires exists p, q :: p in a.ports.outputs && q in b.ports.inputs && Compatible(p.dataType, q.dataType)
                            && p.id == e.sourcePort && q.id == e.targetPort
    ensures OrNone(Strip(e.sourcePort)) == Some(e.sourcePort) && OrNone(Strip(e.targetPort)) == Some(e.targetPort)
    ensures var r := ResolvePorts(a.ports, b.ports, Some(e.sourcePort), Some(e.targetPort));
      r.Resolved? && r.source.id == e.sourcePort && r.target.id == e.targetPort
  {
    var p, q :| p in a.ports.outputs && q in b.ports.inputs && Compatible(p.dataType, q.dataType)
                && p.id == e.sourcePort && q.id == e.targetPort;
    StudioPortsAreWellNamed(s.studio, a.kind);
    StudioPortsAreWellNamed(s.studio, b.kind);
    WellNamedMeans(a.ports.outputs);
    WellNamedMeans(b.ports.inputs);
    NamingIsExact(a.ports, b.ports, p, q);
    PlainIsTrimmed(p.id);
    PlainIsTrimmed(q.id);
  }

  lemma EdgesStep(s: Settings, nodes: seq<Node>, raws: seq<Entry<RawEdge>>, rest: seq<Edge>, last: Edge)
    requires raws != []
    ensures CleanEdges(s, nodes, raws) == Ok(rest + [last])
      <==> CleanEdges(s, nodes, raws[..|raws| - 1]) == Ok(rest) && CleanEdge(s, nodes, rest, raws[|raws| - 1]) == Ok(last)
  {
    var before := CleanEdges(s, nodes, raws[..|raws| - 1]);
    if before.Ok? {
      ExtendIs(before.value, CleanEdge(s, nodes, before.value, raws[|raws| - 1]), rest, last);
    }
  }

  lemma NewKey(edges: seq<Edge>, k: nat)
    requires k < |edges| && forall i, j | 0 <= i < j < |edges| :: KeyOf(edges[i]) != KeyOf(edges[j])
    ensures !HasKey(edges[..k], KeyOf(edges[k]))
  {
  }

  lemma ThisEdgeAgain(s: Settings, nodes: seq<Node>, edges: seq<Edge>, k: nat)
    requires PlainHash(s) && forall n | n in nodes :: SoundNode(s, n) && Trimmed(n.id)
    requires SoundEdges(s, nodes, edges) && k < |edges|
    ensures CleanEdge(s, nodes, edges[..k], AsRawEdge(edges[k])) == Ok(edges[k]) <==> Trimmed(edges[k].id)
  {
    NewKey(edges, k);
    EdgeAgain(s, nodes, edges[..k], edges[k]);
  }

  lemma OneMoreEdge(s: Settings, nodes: seq<Node>, edges: seq<Edge>, raws: seq<Entry<RawEdge>>, k: nat, tidy: bool)
    requires k < |edges| && |raws| == k + 1 && (CleanEdge(s, nodes, edges[..k], raws[k]) == Ok(edges[k]) <==> tidy)
    ensures CleanEdges(s, nodes, raws) == Ok(edges[..k + 1]) <==> CleanEdges(s, nodes, raws[..k]) == Ok(edges[..k]) && tidy
  {
    assert edges[..k + 1] == edges[..k] + [edges[k]];
    EdgesStep(s, nodes, raws, edges[..k], edges[k]);
  }

  lemma {:induction false} EdgesAgain(s: Settings, nodes: seq<Node>, edges: seq<Edge>, raws: seq<Entry<RawEdge>>, k: nat)
    requires PlainHash(s) && forall n | n in nodes :: SoundNode(s, n) && Trimmed(n.id)
    requires SoundEdges(s, nodes, edges)
    requires |raws| == k <= |edges| && forall i | 0 <= i < k :: raws[i] == AsRawEdge(edges[i])
    ensures CleanEdges(s, nodes, raws) == Ok(edges[..k]) <==> forall i | 0 <= i < k :: Trimmed(edges[i].id)
  {
    if k > 0 {
      EdgesAgain(s, nodes, edges, raws[..k - 1], k - 1);
      ThisEdgeAgain(s, nodes, edges, k - 1);
      OneMoreEdge(s, nodes, edges, raws, k - 1, Trimmed(edges[k - 1].id));
    }
  }

  lemma AllNodesAgain(s: Settings, g: Graph)
    requires SoundNodes(s, g.nodes)
    ensures CleanNodes(s, AsRaw(g).nodes) == Ok(g.nodes) <==> forall n | n in g.nodes :: Trimmed(n.id)
  {
    NodesAgain(s, g.nodes, AsRaw(g).nodes, |g.nodes|);
    assert g.nodes[..|g.nodes|] == g.nodes;
  }

  lemma AllEdgesAgain(s: Settings, g: Graph)
    requires PlainHash(s) && SoundNodes(s, g.nodes) && SoundEdges(s, g.nodes, g.edges)
    requires forall n | n in g.nodes :: Trimmed(n.id)
    ensures CleanEdges(s, g.nodes, AsRaw(g).edges) == Ok(g.edges) <==> forall e | e in g.edges :: Trimmed(e.id)
  {
    EdgesAgain(s, g.nodes, g.edges, AsRaw(g).edges, |g.edges|);
    assert g.edges[..|g.edges|] == g.edges;
  }

  lemma NormalizeGives(s: Settings, raw: RawGraph, g: Graph)
    requires raw.RawGraph? && |raw.nodes| <= s.maxNodes && |raw.edges| <= s.maxEdges && !Cyclic(Pairs(g.edges))
    ensures Normalize(s, raw) == Ok(g)
      <==> CleanNodes(s, raw.nodes) == Ok(g.nodes) && CleanEdges(s, g.nodes, raw.edges) == Ok(g.edges)
  {
  }

  lemma NormalAgain(s: Settings, g: Graph)
    requires PlainHash(s) && NormalForm(s, g)
    ensures Normalize(s, AsRaw(g)) == Ok(g) <==> Tidy(g)
  {
    NormalizeGives(s, AsRaw(g), g);
    AllNodesAgain(s, g);
    if forall n | n in g.nodes :: Trimmed(n.id) {
      AllEdgesAgain(s, g);
    }
  }

  /** After trimming, the id fits the length or the cut falls behind a visible character. */
  predicate CutsCleanly(id: string, length: nat)
    requires length > 0
  {
    |Strip(id)| <= length || !IsSpace(Strip(id)[length - 1])
  }

  lemma CutOfTrimmed(id: string, length: nat)
    requires length > 0
    ensures Trimmed(Cut(Strip(id), length)) <==> CutsCleanly(id, length)
  {
    StripTrims(id);
  }

  /** Every id the caller sends cuts cleanly. */
  ghost predicate IdsCutCleanly(value: RawGraph) {
    && value.RawGraph?
    && (forall n | n in value.nodes && n.Object? :: CutsCleanly(n.value.id, 80))
    && (forall e | e in value.edges && e.Object? :: CutsCleanly(e.value.id, 120))
  }

  predicate NodeIdFrom(n: Node, entry: Entry<RawNode>) {
    entry.Object? && n.id == Cut(Strip(entry.value.id), 80)
  }

  ghost predicate EdgeIdFrom(s: Settings, e: Edge, entry: Entry<RawEdge>) {
    entry.Object? && var given := Cut(Strip(entry.value.id), 120); e.id == if given == "" then s.hash(KeyOf(e)) else given
  }

  lemma LastNode(s: Settings, raws: seq<Entry<RawNode>>) returns (before: seq<Node>, node: Node)
    requires raws != [] && CleanNodes(s, raws).Ok?
    ensures CleanNodes(s, raws[..|raws| - 1]) == Ok(before) && CleanNodes(s, raws) == Ok(before + [node])
    ensures NodeIdFrom(node, raws[|raws| - 1])
  {
    before := CleanNodes(s, raws[..|raws| - 1]).value;
    node := CleanNode(s, before, raws[|raws| - 1]).value;
  }

  lemma LastEdge(s: Settings, nodes: seq<Node>, raws: seq<Entry<RawEdge>>) returns (before: seq<Edge>, edge: Edge)
    requires raws != [] && CleanEdges(s, nodes, raws).Ok?
    ensures CleanEdges(s, nodes, raws[..|raws| - 1]) == Ok(before) && CleanEdges(s, nodes, raws) == Ok(before + [edge])
    ensures EdgeIdFrom(s, edge, raws[|raws| - 1])
  {
    before := CleanEdges(s, nodes, raws[..|raws| - 1]).value;
    edge := CleanEdge(s, nodes, before, raws[|raws| - 1]).value;
  }

  ghost predicate NodeIdsFrom(nodes: seq<Node>, raws: seq<Entry<RawNode>>) {
    |nodes| == |raws| && forall i | 0 <= i < |raws| :: NodeIdFrom(nodes[i], raws[i])
  }

  ghost predicate EdgeIdsFrom(s: Settings, edges: seq<Edge>, raws: seq<Entry<RawEdge>>) {
    |edges| == |raws| && forall i | 0 <= i < |raws| :: EdgeIdFrom(s, edges[i], raws[i])
  }

  lemma OneMoreNodeId(nodes: seq<Node>, raws: seq<Entry<RawNode>>, node: Node)
    requires raws != [] && NodeIdsFrom(nodes, raws[..|raws| - 1]) && NodeIdFrom(node, raws[|raws| - 1])
    ensures NodeIdsFrom(nodes + [node], raws)
  {
  }

  lemma OneMoreEdgeId(s: Settings, edges: seq<Edge>, raws: seq<Entry<RawEdge>>, edge: Edge)
    requires raws != [] && EdgeIdsFrom(s, edges, raws[..|raws| - 1]) && EdgeIdFrom(s, edge, raws[|raws| - 1])
    ensures EdgeIdsFrom(s, edges + [edge], raws)
  {
  }

  lemma {:induction false} NodesKeepTheirIds(s: Settings, raws: seq<Entry<RawNode>>)
    requires CleanNodes(s, raws).Ok?
    ensures NodeIdsFrom(CleanNodes(s, raws).value, raws)
  {
    if raws != [] {
      var before, node := LastNode(s, raws);
      NodesKeepTheirIds(s, raws[..|raws| - 1]);
      OneMoreNodeId(before, raws, node);
    }
  }

  lemma {:induction false} EdgesKeepTheirIds(s: Settings, nodes: seq<Node>, raws: seq<Entry<RawEdge>>)
    requires CleanEdges(s, nodes, raws).Ok?
    ensures EdgeIdsFrom(s, CleanEdges(s, nodes, raws).value, raws)
  {
    if raws != [] {
      var before, edge := LastEdge(s, nodes, raws);
      EdgesKeepTheirIds(s, nodes, raws[..|raws| - 1]);
      OneMoreEdgeId(s, before, raws, edge);
    }
  }

  lemma TidyNodes(s: Settings, raws: seq<Entry<RawNode>>)
    requires CleanNodes(s, raws).Ok?
    ensures (forall n | n in CleanNodes(s, raws).value :: Trimmed(n.id))
      <==> forall n | n in raws && n.Object? :: CutsCleanly(n.value.id, 80)
  {
    var nodes := CleanNodes(s, raws).value;
    NodesKeepTheirIds(s, raws);
    forall i | 0 <= i < |raws| ensures Trimmed(nodes[i].id) <==> CutsCleanly(raws[i].value.id, 80) {
      CutOfTrimmed(raws[i].value.id, 80);
    }
    if forall n | n in nodes :: Trimmed(n.id) {
      forall i | 0 <= i < |raws| ensures CutsCleanly(raws[i].value.id, 80) {
        assert nodes[i] in nodes;
      }
    }
    if forall n | n in raws && n.Object? :: CutsCleanly(n.value.id, 80) {
      forall i | 0 <= i < |raws| ensures Trimmed(nodes[i].id) {
        assert raws[i] in raws;
      }
    }
  }

  lemma TidyEdges(s: Settings, nodes: seq<Node>, raws: seq<Entry<RawEdge>>)
    requires PlainHash(s) && CleanEdges(s, nodes, raws).Ok?
    ensures (forall e | e in CleanEdges(s, nodes, raws).value :: Trimmed(e.id))
      <==> forall e | e in raws && e.Object? :: CutsCleanly(e.value.id, 120)
  {
    var edges := CleanEdges(s, nodes, raws).value;
    EdgesKeepTheirIds(s, nodes, raws);
    forall i | 0 <= i < |raws| ensures Trimmed(edges[i].id) <==> CutsCleanly(raws[i].value.id, 120) {
      CutOfTrimmed(raws[i].value.id, 120);
    }
    if forall e | e in edges :: Trimmed(e.id) {
      forall i | 0 <= i < |raws| ensures CutsCleanly(raws[i].value.id, 120) {
        assert edges[i] in edges;
      }
    }
    if forall e | e in raws && e.Object? :: CutsCleanly(e.value.id, 120) {
      forall i | 0 <= i < |raws| ensures Trimmed(edges[i].id) {
        assert raws[i] in raws;
      }
    }
  }

  /** Normalizing an accepted graph again gives the same graph (ports, edge keys, captions and the legacy from/to
      aliases included) exactly when every id that came in cuts cleanly. */
  lemma NormalizeTwice(s: Settings, value: RawGraph)
    requires PlainHash(s) && Normalize(s, value).Ok?
    ensures Normalize(s, AsRaw(Normalize(s, value).value)) == Normalize(s, value) <==> IdsCutCleanly(value)
  {
    AcceptedIsNormal(s, value);
    NormalAgain(s, Normalize(s, value).value);
    TidyNodes(s, value.nodes);
    TidyEdges(s, CleanNodes(s, value.nodes).value, value.edges);
  }

  /** In particular a graph whose ids, once trimmed, are no longer than the cuts. */
  lemma NormalizeIsFixpoint(s: Settings, value: RawGraph)
    requires PlainHash(s) && Normalize(s, value).Ok?
    requires forall n | n in value.nodes && n.Object? :: |Strip(n.value.id)| <= 80
    requires forall e | e in value.edges && e.Object? :: |Strip(e.value.id)| <= 120
    ensures Normalize(s, AsRaw(Normalize(s, value).value)) == Normalize(s, value)
  {
    NormalizeTwice(s, value);
  }

  /** Without that the fixpoint fails: cutting an id can expose a blank that the next trim removes. */
  lemma CutExposesABlank(s: Settings) returns (value: RawGraph)
    requires PlainHash(s) && s.studio == Workflow && s.maxNodes >= 1
    ensures Normalize(s, value).Ok?
    ensures Normalize(s, AsRaw(Normalize(s, value).value)) != Normalize(s, value)
  {
    var id := seq(79, _ => 'a') + " b";
    value := RawGraph([Object(RawNode(id, "input", None, Absent, None))], []);
    StripTrims(id);
    StripTrims("input");
    assert Cut(id, 80)[79] == ' ';
    var raws := value.nodes;
    var cut := Cut(id, 80);
    assert cut[0] == 'a' && Strip(id) == id && Strip("input") == "input";
    var node := Node(cut, "input", cut, Absent, EMPTY_OBJECT, WorkflowPorts("input").value);
    assert CleanNode(s, [], raws[0]) == Ok(node);
    assert raws[..0] == [] && CleanNodes(s, []) == Ok([]);
    NodesStep(s, raws, [], node);
    NoEdgesNoCycle<string>();
    assert raws[0] in raws && !CutsCleanly(id, 80);
    NormalizeTwice(s, value);
  }

  // ---------------------------------------------------------------- the loops

  lemma {:induction false} NodeErrorStands(s: Settings, raws: seq<Entry<RawNode>>, k: nat)
    requires k <= |raws| && CleanNodes(s, raws[..k]).Err?
    ensures CleanNodes(s, raws) == CleanNodes(s, raws[..k])
  {
    if k < |raws| {
      assert raws[..|raws| - 1][..k] == raws[..k];
      NodeErrorStands(s, raws[..|raws| - 1], k);
    } else {
      assert raws[..k] == raws;
    }
  }

  lemma {:induction false} EdgeErrorStands(s: Settings, nodes: seq<Node>, raws: seq<Entry<RawEdge>>, k: nat)
    requires k <= |raws| && CleanEdges(s, nodes, raws[..k]).Err?
    ensures CleanEdges(s, nodes, raws) == CleanEdges(s, nodes, raws[..k])
  {
    if k < |raws| {
      assert raws[..|raws| - 1][..k] == raws[..k];
      EdgeErrorStands(s, nodes, raws[..|raws| - 1], k);
    } else {
      assert raws[..k] == raws;
    }
  }

  lemma NextNode(s: Settings, raws: seq<Entry<RawNode>>, i: nat, clean: seq<Node>, node: Result<Node>)
    requires i < |raws| && CleanNodes(s, raws[..i]) == Ok(clean) && node == CleanNode(s, clean, raws[i])
    ensures node.Ok? ==> CleanNodes(s, raws[..i + 1]) == Ok(clean + [node.value])
    ensures node.Err? ==> CleanNodes(s, raws) == Err(node.error)
  {
    assert raws[..i + 1][..i] == raws[..i];
    assert CleanNodes(s, raws[..i + 1]) == Extend(clean, node);
    if node.Err? {
      NodeErrorStands(s, raws, i + 1);
    }
  }

  lemma NextEdge(s: Settings, nodes: seq<Node>, raws: seq<Entry<RawEdge>>, i: nat, clean: seq<Edge>, edge: Result<Edge>)
    requires i < |raws| && CleanEdges(s, nodes, raws[..i]) == Ok(clean) && edge == CleanEdge(s, nodes, clean, raws[i])
    ensures edge.Ok? ==> CleanEdges(s, nodes, raws[..i + 1]) == Ok(clean + [edge.value])
    ensures edge.Err? ==> CleanEdges(s, nodes, raws) == Err(edge.error)
  {
    assert raws[..i + 1][..i] == raws[..i];
    assert CleanEdges(s, nodes, raws[..i + 1]) == Extend(clean, edge);
    if edge.Err? {
      EdgeErrorStands(s, nodes, raws, i + 1);
    }
  }

  /** node_map: the accepted nodes by id. */
  ghost predicate Indexes(nodeMap: map<string, Node>, nodes: seq<Node>) {
    forall id :: (id in nodeMap <==> HasId(nodes, id)) && (id in nodeMap ==> nodeMap[id] == NodeAt(nodes, id))
  }

  lemma IndexOneMore(nodeMap: map<string, Node>, nodes: seq<Node>, node: Node)
    requires Indexes(nodeMap, nodes)
    ensures Indexes(nodeMap[node.id := node], nodes + [node])
  {
    var more := nodes + [node];
    assert more[..|more| - 1] == nodes && node in more;
    forall id ensures HasId(more, id) <==> id == node.id || HasId(nodes, id) {
      if HasId(nodes, id) {
        NodeAtIsThere(nodes, id);
        assert NodeAt(nodes, id) in more;
      }
    }
  }

  /** One pass of the first loop. */
  method CleanOneNode(s: Settings, nodeMap: map<string, Node>, ghost before: seq<Node>, entry: Entry<RawNode>) returns (r: Result<Node>)
    requires Indexes(nodeMap, before)
    ensures r == CleanNode(s, before, entry)
  {
    if entry.NotAnObject? {
      return Err(NodeNotObject);
    }
    var raw := entry.value;
    var id, kind := Cut(Strip(raw.id), 80), Strip(raw.kind);
    if id == "" || id in nodeMap {
      return Err(NodeIdNotUnique);
    }
    var ports := PortsFor(s.studio, kind);
    if ports.None? {
      return Err(UnsupportedType);
    }
    var ref := CleanRef(s.numericRef, raw.ref);
    if ref.Err? {
      return Err(RefNotNumeric);
    }
    var caption := if raw.caption.Some? then raw.caption.value else id;
    var config := if raw.config.Some? then raw.config.value else EMPTY_OBJECT;
    return Ok(Node(id, kind, Cut(caption, 160), ref.value, config, ports.value));
  }

  /** The first loop: clean, check and index the nodes. */
  method CollectNodes(s: Settings, raws: seq<Entry<RawNode>>) returns (r: Result<seq<Node>>, nodeMap: map<string, Node>)
    ensures r == CleanNodes(s, raws)
    ensures r.Ok? ==> Indexes(nodeMap, r.value)
  {
    var clean: seq<Node> := [];
    nodeMap := map[];
    var i := 0;
    while i < |raws|
      invariant 0 <= i <= |raws| && CleanNodes(s, raws[..i]) == Ok(clean) && Indexes(nodeMap, clean)
    {
      var node := CleanOneNode(s, nodeMap, clean, raws[i]);
      NextNode(s, raws, i, clean, node);
      if node.Err? {
        return Err(node.error), nodeMap;
      }
      IndexOneMore(nodeMap, clean, node.value);
      clean := clean + [node.value];
      nodeMap := nodeMap[node.value.id := node.value];
      i := i + 1;
    }
    assert raws[..|raws|] == raws;
    return Ok(clean), nodeMap;
  }

  ghost predicate Seen(seen: set<Key>, edges: seq<Edge>) {
    forall key :: key in seen <==> HasKey(edges, key)
  }

  lemma SeenOneMore(seen: set<Key>, edges: seq<Edge>, edge: Edge)
    requires Seen(seen, edges)
    ensures Seen(seen + {KeyOf(edge)}, edges + [edge])
  {
    var more := edges + [edge];
    assert edge in more;
    forall key ensures HasKey(more, key) <==> key == KeyOf(edge) || HasKey(edges, key) {
      if HasKey(edges, key) {
        var e :| e in edges && KeyOf(e) == key;
        assert e in more;
      }
    }
  }

  /** One pass of the second loop. */
  method CleanOneEdge(s: Settings, ghost nodes: seq<Node>, nodeMap: map<string, Node>, ghost before: seq<Edge>, seen: set<Key>,
                      entry: Entry<RawEdge>)
    returns (r: Result<Edge>)
    requires Indexes(nodeMap, nodes) && Seen(seen, before)
    ensures r == CleanEdge(s, nodes, before, entry)
  {
    if entry.NotAnObject? {
      return Err(EdgeNotObject);
    }
    var raw := entry.value;
    var source := Strip(Either(raw.sourceNode, raw.from_));
    var target := Strip(Either(raw.targetNode, raw.to_));
    if source !in nodeMap || target !in nodeMap {
      return Err(UnknownNode);
    }
    if source == target {
      return Err(SelfConnection);
    }
    var ports := ResolvePorts(nodeMap[source].ports, nodeMap[target].ports,
                              OrNone(Strip(raw.sourcePort)), OrNone(Strip(raw.targetPort)));
    if !ports.Resolved? {
      return Err(PortError(ports));
    }
    var key := (source, ports.source.id, target, ports.target.id);
    if key in seen {
      return Err(DuplicateConnection);
    }
    var condition := Cut(raw.condition, 500);
    var given := Cut(Strip(raw.id), 120);
    var id := if given == "" then s.hash(key) else given;
    var metadata := if raw.metadata.Some? then raw.metadata.value else EMPTY_OBJECT;
    return Ok(Edge(id, source, ports.source.id, target, ports.target.id, source, target, condition,
                   EdgeLabel(raw.caption, condition), metadata));
  }

  /** The second loop: clean and check the edges, and collect the topology. */
  method CollectEdges(s: Settings, nodes: seq<Node>, nodeMap: map<string, Node>, raws: seq<Entry<RawEdge>>)
    returns (r: Result<seq<Edge>>, topology: Edges<string>)
    requires Indexes(nodeMap, nodes)
    ensures r == CleanEdges(s, nodes, raws)
    ensures r.Ok? ==> topology == Pairs(r.value)
  {
    var clean: seq<Edge> := [];
    var seen: set<Key> := {};
    topology := [];
    var i := 0;
    while i < |raws|
      invariant 0 <= i <= |raws| && CleanEdges(s, nodes, raws[..i]) == Ok(clean)
      invariant Seen(seen, clean) && topology == Pairs(clean)
    {
      var edge := CleanOneEdge(s, nodes, nodeMap, clean, seen, raws[i]);
      NextEdge(s, nodes, raws, i, clean, edge);
      if edge.Err? {
        return Err(edge.error), topology;
      }
      SeenOneMore(seen, clean, edge.value);
      assert (clean + [edge.value])[..|clean|] == clean;
      clean := clean + [edge.value];
      seen := seen + {KeyOf(edge.value)};
      topology := topology + [(edge.value.sourceNode, edge.value.targetNode)];
      i := i + 1;
    }
    assert raws[..|raws|] == raws;
    return Ok(clean), topology;
  }

  lemma PairsStayWithin(s: Settings, nodes: seq<Node>, nodeMap: map<string, Node>, raws: seq<Entry<RawEdge>>)
    requires Indexes(nodeMap, nodes) && CleanEdges(s, nodes, raws).Ok?
    ensures Within(nodeMap.Keys, Pairs(CleanEdges(s, nodes, raws).value))
  {
    CleanEdgesAreSound(s, nodes, raws);
    var edges := CleanEdges(s, nodes, raws).value;
    forall pair | pair in Pairs(edges) ensures pair.0 in nodeMap && pair.1 in nodeMap {
      PairsHave(edges, pair.0, pair.1);
    }
  }

  /** The loops and the depth-first search accept, refuse and build exactly what Normalize says. */
  method NormalizeGraph(s: Settings, value: RawGraph) returns (r: Result<Graph>)
    ensures r == Normalize(s, value)
  {
    if value.NotGraph? {
      return Err(GraphNotObject);
    }
    if value.NotLists? {
      return Err(ListsExpected);
    }
    if |value.nodes| > s.maxNodes || |value.edges| > s.maxEdges {
      return Err(TooLarge);
    }
    var nodes, nodeMap := CollectNodes(s, value.nodes);
    if nodes.Err? {
      return Err(nodes.error);
    }
    var edges, topology := CollectEdges(s, nodes.value, nodeMap, value.edges);
    if edges.Err? {
      return Err(edges.error);
    }
    PairsStayWithin(s, nodes.value, nodeMap, value.edges);
    var cyclic := CycleCheck.HasCycle(nodeMap.Keys, topology);
    if cyclic {
      return Err(HasACycle);
    }
    return Ok(Graph(nodes.value, edges.value));
  }
}
