/**
 From a router graph as the studio sends it to a pipeline the interpreter can run
 (smart-router/src/smart_router/control_plane.py:2228-2266).
 */
module RouterStudio {
  import opened Collections
  import opened Digraph
  import G = GraphNormal
  import Ports
  import Text
  import R = RouterPlan
  import P = Pipeline

  const ALLOWED: set<string> := {"classifier", "condition", "capability_filter", "health_filter", "cost_latency_score",
                                 "load_balance", "route", "retry", "fallback", "approval"}

  function KindOf(config: P.Config): string {
    match config
    case Classifier => "classifier"
    case Condition(_) => "condition"
    case CapabilityFilter(_) => "capability_filter"
    case HealthFilter => "health_filter"
    case Approval => "approval"
    case CostLatencyScore => "cost_latency_score"
    case LoadBalance(_, _) => "load_balance"
    case Route(_, _) => "route"
    case Retry(_) => "retry"
    case Fallback(_) => "fallback"
  }

  /** How a stage of a kind reads a node's configuration object, which carries no `id` or `type` of its own. */
  type Reader = (string, G.Blob) -> P.Config

  ghost predicate KeepsKind(read: Reader) {
    forall kind, blob | kind in ALLOWED :: KindOf(read(kind, blob)) == kind
  }

  /** _sanitize_pipeline_stage; `generated` is the id a stage without one gets. */
  function Sanitize(id: string, kind: string, generated: string, blob: G.Blob, read: Reader): Option<P.Stage> {
    if kind !in ALLOWED then None
    else Some(P.Stage(Text.Cut(if id == "" then generated else id, 80), read(kind, blob)))
  }

  // ---------------------------------------------------------------- a normal graph is ready for planning

  function IdList(nodes: seq<G.Node>): seq<string> {
    seq(|nodes|, i requires 0 <= i < |nodes| => nodes[i].id)
  }

  function EdgeList(edges: seq<G.Edge>): seq<R.Edge> {
    seq(|edges|, i requires 0 <= i < |edges| => R.Edge(edges[i].sourceNode, edges[i].sourcePort, edges[i].targetNode))
  }

  lemma {:induction false} SameTopology(edges: seq<G.Edge>)
    ensures R.Topology(EdgeList(edges)) == G.Pairs(edges)
  {
    if edges != [] {
      SameTopology(edges[..|edges| - 1]);
      assert EdgeList(edges)[..|edges| - 1] == EdgeList(edges[..|edges| - 1]);
    }
  }

  lemma IdListHas(nodes: seq<G.Node>, id: string)
    ensures id in IdList(nodes) <==> G.HasId(nodes, id)
  {
    if id in IdList(nodes) {
      var i :| 0 <= i < |nodes| && IdList(nodes)[i] == id;
      assert nodes[i] in nodes;
    }
    if G.HasId(nodes, id) {
      var n :| n in nodes && n.id == id;
      var i :| 0 <= i < |nodes| && nodes[i] == n;
      assert IdList(nodes)[i] == id;
    }
  }

  lemma NoBlankId(s: G.Settings, nodes: seq<G.Node>)
    requires G.SoundNodes(s, nodes)
    ensures !G.HasId(nodes, "")
  {
    forall n | n in nodes ensures n.id != "" {
      assert G.SoundNode(s, n);
    }
  }

  /** What the planner asks of its input holds of every normal form, and no normal form is cyclic. */
  lemma NormalIsPlannable(s: G.Settings, g: G.Graph)
    requires G.NormalForm(s, g)
    ensures Distinct(IdList(g.nodes)) && R.Endpoints(IdList(g.nodes), EdgeList(g.edges))
    ensures !Cyclic(R.Topology(EdgeList(g.edges)))
    ensures "" !in IdList(g.nodes)
  {
    SameTopology(g.edges);
    IdListHas(g.nodes, "");
    NoBlankId(s, g.nodes);
    forall e | e in EdgeList(g.edges) ensures e.source in IdList(g.nodes) && e.target in IdList(g.nodes) {
      var i :| 0 <= i < |g.edges| && EdgeList(g.edges)[i] == e;
      SoundEnds(s, g.nodes, g.edges[i]);
      IdListHas(g.nodes, e.source);
      IdListHas(g.nodes, e.target);
    }
  }

  lemma SoundEnds(s: G.Settings, nodes: seq<G.Node>, e: G.Edge)
    requires G.SoundEdge(s, nodes, e)
    ensures G.HasId(nodes, e.sourceNode) && G.HasId(nodes, e.targetNode)
  {
  }

  /** Every node kind the router studio knows is a stage kind the pipeline accepts, and the other way round. */
  lemma SameKinds(kind: string)
    ensures Ports.RouterPorts(kind).Some? <==> kind in ALLOWED
  {
  }

  // ---------------------------------------------------------------- compiling

  datatype Outcome =
    | Refused(error: G.Error)
    | PortTwice
    | NotOneStart
    | Ready(graph: G.Graph, definition: P.Definition)

  ghost function ConfigsOf(nodes: seq<G.Node>, read: Reader): map<string, P.Config> {
    map id | id in G.Ids(nodes) :: read(KindAt(nodes, id), BlobAt(nodes, id))
  }

  function KindAt(nodes: seq<G.Node>, id: string): string {
    if G.HasId(nodes, id) then G.NodeAt(nodes, id).kind else ""
  }

  function BlobAt(nodes: seq<G.Node>, id: string): G.Blob {
    if G.HasId(nodes, id) then G.NodeAt(nodes, id).config else ""
  }

  lemma IdsHas(nodes: seq<G.Node>, id: string)
    ensures id in G.Ids(nodes) <==> G.HasId(nodes, id)
  {
  }

  ghost predicate CompiledFrom(g: G.Graph, read: Reader, plan: R.PlanResult, d: P.Definition) {
    && plan.Plan? && d.Compiled? && d.entry == plan.entry && d.transitions == plan.transitions
    && (forall n | n in plan.order :: n in ConfigsOf(g.nodes, read))
    && d.stages == P.StagesOf(plan.order, ConfigsOf(g.nodes, read))
    && R.PlanFits(IdList(g.nodes), EdgeList(g.edges), plan)
  }

  /** The node becomes a stage with its own id and kind. */
  ghost predicate Survives(g: G.Graph, read: Reader, configs: map<string, P.Config>, id: string) {
    id in configs && forall generated: string ::
      Sanitize(id, KindAt(g.nodes, id), generated, BlobAt(g.nodes, id), read) == Some(P.Stage(id, configs[id]))
  }

  lemma NodesSurvive(s: G.Settings, g: G.Graph, read: Reader, id: string)
    requires s.studio == Ports.Router && G.NormalForm(s, g) && id in IdList(g.nodes)
    ensures Survives(g, read, ConfigsOf(g.nodes, read), id)
  {
    IdListHas(g.nodes, id);
    IdsHas(g.nodes, id);
    G.NodeAtIsThere(g.nodes, id);
    assert G.SoundNode(s, G.NodeAt(g.nodes, id));
    SameKinds(KindAt(g.nodes, id));
  }

  /** The stage loop of _validate_pipeline_definition. */
  method CollectStages(g: G.Graph, read: Reader, order: seq<string>, generated: (string, nat) -> string,
                       ghost configs: map<string, P.Config>)
    returns (stages: seq<P.Stage>)
    requires forall n | n in order :: Survives(g, read, configs, n)
    ensures forall n | n in order :: n in configs
    ensures stages == P.StagesOf(order, configs)
  {
    stages := [];
    for i := 0 to |order|
      invariant |stages| == i
      invariant forall j | 0 <= j < i :: order[j] in configs && stages[j] == P.Stage(order[j], configs[order[j]])
    {
      var kind, blob := KindAt(g.nodes, order[i]), BlobAt(g.nodes, order[i]);
      assert Survives(g, read, configs, order[i]);
      var stage := Sanitize(order[i], kind, generated(kind, i + 1), blob, read);
      stages := stages + [stage.value];
    }
  }

  /** A router graph that normalizes compiles, unless a port is used twice or the starts are not exactly one;
      what it compiles to moves forward, so the interpreter runs it as one sweep. */
  method CompileDefinition(s: G.Settings, value: G.RawGraph, read: Reader, generated: (string, nat) -> string)
    returns (r: Outcome, ghost plan: R.PlanResult)
    requires s.studio == Ports.Router
    ensures r.Refused? <==> G.Normalize(s, value).Err?
    ensures r.Refused? ==> r.error == G.Normalize(s, value).error
    ensures !r.Refused? ==>
      var g := G.Normalize(s, value).value;
      var ids, edges := IdList(g.nodes), EdgeList(g.edges);
      && (r.PortTwice? <==> ids != [] && R.PortUsedTwice(edges))
      && (r.NotOneStart? <==> ids != [] && !R.PortUsedTwice(edges) && |R.Starts(ids, R.Topology(edges))| != 1)
      && (r.Ready? ==> r.graph == g && CompiledFrom(g, read, plan, r.definition) && P.Runnable(r.definition)
                       && (ids != [] ==> P.HasEntry(r.definition)))
  {
    plan := R.NotAcyclic;
    var normal := G.NormalizeGraph(s, value);
    if normal.Err? {
      return Refused(normal.error), plan;
    }
    var g := normal.value;
    G.AcceptedIsNormal(s, value);
    NormalIsPlannable(s, g);
    var planned := R.RouterGraphPlan(IdList(g.nodes), EdgeList(g.edges));
    plan := planned;
    if planned.PortTwice? {
      return PortTwice, plan;
    }
    if planned.NotOneStart? {
      return NotOneStart, plan;
    }
    ghost var configs := ConfigsOf(g.nodes, read);
    forall n | n in IdList(g.nodes) ensures n in configs && Survives(g, read, configs, n) {
      NodesSurvive(s, g, read, n);
    }
    var stages := CollectStages(g, read, planned.order, generated, configs);
    P.PlanMovesForward(IdList(g.nodes), EdgeList(g.edges), planned, configs);
    if IdList(g.nodes) != [] {
      assert stages[0] in stages;
    }
    return Ready(g, P.Compiled(stages, planned.entry, planned.transitions)), plan;
  }

  /** Every compiled stage has the kind of the node it came from. */
  lemma StagesKeepTheirKinds(s: G.Settings, g: G.Graph, read: Reader, plan: R.PlanResult, d: P.Definition, i: nat)
    requires s.studio == Ports.Router && G.NormalForm(s, g) && KeepsKind(read) && CompiledFrom(g, read, plan, d)
    requires i < |d.stages|
    ensures G.HasId(g.nodes, d.stages[i].id)
    ensures KindOf(d.stages[i].config) == G.NodeAt(g.nodes, d.stages[i].id).kind
  {
    var id := d.stages[i].id;
    assert id == plan.order[i] && id in plan.order;
    IdsHas(g.nodes, id);
    G.NodeAtIsThere(g.nodes, id);
    assert G.SoundNode(s, G.NodeAt(g.nodes, id));
    SameKinds(KindAt(g.nodes, id));
  }

  // ---------------------------------------------------------------- every outcome has a port

  predicate Offers(ports: seq<Ports.Port>, name: string) {
    exists p :: p in ports && p.id == name
  }

  /** Whatever a stage answers, its kind declares an output port of that name. */
  lemma OutcomeIsDeclared(env: P.Environment, config: P.Config, r: P.Routing)
    ensures Ports.RouterPorts(KindOf(config)).Some?
    ensures Offers(Ports.RouterPorts(KindOf(config)).value.outputs, P.ApplyStage(env, config, r).1)
  {
    var outputs := Ports.RouterPorts(KindOf(config)).value.outputs;
    var port := P.ApplyStage(env, config, r).1;
    assert outputs[|outputs| - 1].id == "default";
    if port == outputs[0].id {
      assert outputs[0] in outputs;
    } else if port == outputs[|outputs| - 1].id {
      assert outputs[|outputs| - 1] in outputs;
    } else {
      assert outputs[1].id == port && outputs[1] in outputs;
    }
  }
}
