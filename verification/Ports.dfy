/**
 The typed ports of the four graph studios (smart-router/src/smart_router/graph_v59.py:11-197).
 */
module Ports {
  import opened Collections

  datatype DataType =
    | Flow | Answer | Knowledge | Tool | Raw | Text | Chunks | Embeddings | Index | RouteFlow
    | TextOrRaw | ChunksOrText | KnowledgeSink | AnswerOrKnowledge

  datatype Port = Port(id: string, dataType: DataType)

  datatype NodePorts = NodePorts(inputs: seq<Port>, outputs: seq<Port>)

  datatype Studio = Workflow | Agent | KnowledgeStudio | Router

  const FLOW := Port("default", Flow)

  function WorkflowPorts(kind: string): Option<NodePorts> {
    if kind == "input" then Some(NodePorts([], [FLOW]))
    else if kind == "output" then Some(NodePorts([FLOW, Port("answer", Answer)], []))
    else if kind == "agent" then
      Some(NodePorts([FLOW, Port("context", Knowledge), Port("tools", Tool)], [FLOW, Port("result", Answer)]))
    else if kind == "team" then Some(NodePorts([FLOW], [FLOW, Port("result", Answer)]))
    else if kind == "knowledge" then Some(NodePorts([], [Port("context", Knowledge)]))
    else if kind == "skill" || kind == "plugin" then Some(NodePorts([], [Port("tools", Tool)]))
    else if kind == "approval" then
      Some(NodePorts([FLOW], [FLOW, Port("approved", Flow), Port("rejected", Flow), Port("timeout", Flow)]))
    else if kind == "branch" then Some(NodePorts([FLOW], [FLOW, Port("true", Flow), Port("false", Flow)]))
    else if kind == "parallel" then Some(NodePorts([FLOW], [FLOW]))
    else None
  }

  function AgentPorts(kind: string): Option<NodePorts> {
    if kind == "input" then Some(NodePorts([], [FLOW]))
    else if kind == "agent" then
      Some(NodePorts([FLOW, Port("context", Knowledge), Port("tools", Tool)], [Port("result", Answer)]))
    else if kind == "knowledge" then Some(NodePorts([], [Port("context", Knowledge)]))
    else if kind == "skill" || kind == "plugin" then Some(NodePorts([], [Port("tools", Tool)]))
    else if kind == "output" then Some(NodePorts([Port("answer", Answer)], []))
    else None
  }

  function Through(input: DataType, output: DataType): NodePorts {
    NodePorts([Port("default", input)], [Port("default", output)])
  }

  function KnowledgePorts(kind: string): Option<NodePorts> {
    if kind == "data_source" then Some(NodePorts([], [Port("default", Raw)]))
    else if kind == "extract" then Some(Through(Raw, Text))
    else if kind == "transform" then Some(Through(Text, Text))
    else if kind == "chunk" then Some(Through(TextOrRaw, Chunks))
    else if kind == "embed" then Some(Through(ChunksOrText, Embeddings))
    else if kind == "index" then Some(Through(Embeddings, Index))
    else if kind == "knowledge_base" then Some(Through(KnowledgeSink, Knowledge))
    else if kind == "qa" then Some(Through(Knowledge, Answer))
    else if kind == "output" then Some(NodePorts([Port("default", AnswerOrKnowledge)], []))
    else None
  }

  function RouteOutput(name: string): Port {
    Port(name, RouteFlow)
  }

  const ROUTE_DEFAULT := RouteOutput("default")

  function RouterPorts(kind: string): Option<NodePorts> {
    var into := [ROUTE_DEFAULT];
    if kind == "classifier" then Some(NodePorts(into, [RouteOutput("coding"), RouteOutput("vision"), ROUTE_DEFAULT]))
    else if kind == "condition" then Some(NodePorts(into, [RouteOutput("true"), RouteOutput("false"), ROUTE_DEFAULT]))
    else if kind == "capability_filter" then Some(NodePorts(into, [RouteOutput("matched"), RouteOutput("unmatched"), ROUTE_DEFAULT]))
    else if kind == "health_filter" then Some(NodePorts(into, [RouteOutput("healthy"), RouteOutput("unhealthy"), ROUTE_DEFAULT]))
    else if kind == "approval" then
      Some(NodePorts(into, [RouteOutput("approved"), RouteOutput("rejected"), RouteOutput("timeout"), ROUTE_DEFAULT]))
    else if kind in {"cost_latency_score", "load_balance", "route", "retry", "fallback"} then
      Some(NodePorts(into, [ROUTE_DEFAULT]))
    else None
  }

  function PortsFor(studio: Studio, kind: string): Option<NodePorts> {
    match studio
    case Workflow => WorkflowPorts(kind)
    case Agent => AgentPorts(kind)
    case KnowledgeStudio => KnowledgePorts(kind)
    case Router => RouterPorts(kind)
  }

  function Accepts(source: DataType): set<DataType> {
    match source
    case Flow => {Flow}
    case Answer => {Answer, Flow, AnswerOrKnowledge}
    case Knowledge => {Knowledge, AnswerOrKnowledge}
    case Tool => {Tool}
    case Raw => {Raw, TextOrRaw, ChunksOrText, KnowledgeSink}
    case Text => {Text, TextOrRaw, ChunksOrText, KnowledgeSink}
    case Chunks => {ChunksOrText, KnowledgeSink}
    case Embeddings => {Embeddings, KnowledgeSink}
    case Index => {Index, KnowledgeSink}
    case RouteFlow => {RouteFlow}
    case other => {other}
  }

  predicate Compatible(source: DataType, target: DataType) {
    target in Accepts(source)
  }

  function FindPort(ports: seq<Port>, id: string): Option<Port> {
    if ports == [] then None
    else if ports[0].id == id then Some(ports[0])
    else FindPort(ports[1..], id)
  }

  function Named(ports: seq<Port>, default_: bool): seq<Port> {
    if ports == [] then []
    else (if (ports[0].id == "default") == default_ then [ports[0]] else []) + Named(ports[1..], default_)
  }

  /** The stable sort that puts ports called "default" first. */
  function DefaultFirst(ports: seq<Port>): seq<Port> {
    Named(ports, true) + Named(ports, false)
  }

  datatype Resolution =
    | Resolved(source: Port, target: Port)
    | NoOutputs | NoInputs | UnknownOutput | UnknownInput | Incompatible

  function FirstTarget(source: Port, targets: seq<Port>): Option<Port> {
    if targets == [] then None
    else if Compatible(source.dataType, targets[0].dataType) then Some(targets[0])
    else FirstTarget(source, targets[1..])
  }

  function FirstPair(sources: seq<Port>, targets: seq<Port>): Resolution {
    if sources == [] then Incompatible
    else
      var target := FirstTarget(sources[0], targets);
      if target.Some? then Resolved(sources[0], target.value) else FirstPair(sources[1..], targets)
  }

  /** _resolve_ports; a name of None means the edge leaves the port to the studio. */
  function ResolvePorts(source: NodePorts, target: NodePorts, sourcePort: Option<string>, targetPort: Option<string>): Resolution {
    if source.outputs == [] then NoOutputs
    else if target.inputs == [] then NoInputs
    else if sourcePort.Some? && FindPort(source.outputs, sourcePort.value).None? then UnknownOutput
    else if targetPort.Some? && FindPort(target.inputs, targetPort.value).None? then UnknownInput
    else
      FirstPair(DefaultFirst(Candidates(source.outputs, sourcePort)), DefaultFirst(Candidates(target.inputs, targetPort)))
  }

  function Candidates(ports: seq<Port>, name: Option<string>): seq<Port>
    requires name.Some? ==> FindPort(ports, name.value).Some?
  {
    if name.Some? then [FindPort(ports, name.value).value] else ports
  }

  // ---------------------------------------------------------------- what resolution guarantees

  lemma {:induction false} FindPortFinds(ports: seq<Port>, id: string)
    ensures FindPort(ports, id).Some? ==> FindPort(ports, id).value in ports && FindPort(ports, id).value.id == id
    ensures FindPort(ports, id).None? ==> forall p | p in ports :: p.id != id
  {
    if ports != [] && ports[0].id != id {
      FindPortFinds(ports[1..], id);
      assert ports == [ports[0]] + ports[1..];
    }
  }

  lemma {:induction false} NamedSplits(ports: seq<Port>, default_: bool, p: Port)
    ensures p in Named(ports, default_) <==> p in ports && (p.id == "default") == default_
  {
    if ports != [] {
      NamedSplits(ports[1..], default_, p);
      assert ports == [ports[0]] + ports[1..];
    }
  }

  lemma {:induction false} FirstTargetFinds(source: Port, targets: seq<Port>)
    ensures var t := FirstTarget(source, targets);
      if t.Some? then
        exists j :: 0 <= j < |targets| && targets[j] == t.value && Compatible(source.dataType, targets[j].dataType)
                    && forall k | 0 <= k < j :: !Compatible(source.dataType, targets[k].dataType)
      else forall j | 0 <= j < |targets| :: !Compatible(source.dataType, targets[j].dataType)
  {
    if targets != [] && !Compatible(source.dataType, targets[0].dataType) {
      FirstTargetFinds(source, targets[1..]);
      var t := FirstTarget(source, targets);
      if t.Some? {
        var j :| 0 <= j < |targets[1..]| && targets[1..][j] == t.value && Compatible(source.dataType, targets[1..][j].dataType)
                 && forall k | 0 <= k < j :: !Compatible(source.dataType, targets[1..][k].dataType);
        assert targets[j + 1] == t.value;
        forall k | 0 <= k < j + 1 ensures !Compatible(source.dataType, targets[k].dataType) {
          if k > 0 {
            assert targets[k] == targets[1..][k - 1];
          }
        }
      } else {
        forall j | 0 <= j < |targets| ensures !Compatible(source.dataType, targets[j].dataType) {
          if j > 0 {
            assert targets[j] == targets[1..][j - 1];
          }
        }
      }
    }
  }

  predicate AnyCompatible(sources: seq<Port>, targets: seq<Port>) {
    exists s, t :: s in sources && t in targets && Compatible(s.dataType, t.dataType)
  }

  lemma {:induction false} FirstPairFinds(sources: seq<Port>, targets: seq<Port>)
    ensures var r := FirstPair(sources, targets);
      && (r.Incompatible? || r.Resolved?)
      && (r.Resolved? <==> AnyCompatible(sources, targets))
      && (r.Resolved? ==> r.source in sources && r.target in targets && Compatible(r.source.dataType, r.target.dataType))
  {
    if sources != [] {
      FirstTargetFinds(sources[0], targets);
      FirstPairFinds(sources[1..], targets);
      assert sources == [sources[0]] + sources[1..];
      var r := FirstPair(sources, targets);
      if r.Resolved? {
        assert r.source in sources && r.target in targets;
      } else {
        forall s, t | s in sources && t in targets ensures !Compatible(s.dataType, t.dataType) {
          assert s == sources[0] || s in sources[1..];
        }
      }
    }
  }

  /** The edge names a port that is not declared. */
  predicate Undeclared(ports: seq<Port>, name: Option<string>) {
    name.Some? && forall p | p in ports :: p.id != name.value
  }

  /** The ports an edge may take: the first one of the given name, or any. */
  predicate Asked(ports: seq<Port>, name: Option<string>, p: Port) {
    name.Some? ==> FindPort(ports, name.value) == Some(p)
  }

  lemma CandidatesAreAsked(ports: seq<Port>, name: Option<string>)
    requires !Undeclared(ports, name) && (name.Some? ==> FindPort(ports, name.value).Some?)
    ensures forall p :: p in Candidates(ports, name) <==> p in ports && Asked(ports, name, p)
  {
    if name.Some? {
      FindPortFinds(ports, name.value);
    }
  }

  lemma DeclaredIsFound(ports: seq<Port>, name: Option<string>)
    ensures Undeclared(ports, name) <==> name.Some? && FindPort(ports, name.value).None?
  {
    if name.Some? {
      FindPortFinds(ports, name.value);
    }
  }

  lemma SortingKeepsCandidates(ports: seq<Port>)
    ensures forall p :: p in DefaultFirst(ports) <==> p in ports
  {
    forall p ensures p in DefaultFirst(ports) <==> p in ports {
      NamedSplits(ports, true, p);
      NamedSplits(ports, false, p);
    }
  }

  /** A resolved edge joins declared, type-compatible ports that have the names the edge asked for. */
  lemma ResolutionIsTyped(source: NodePorts, target: NodePorts, sourcePort: Option<string>, targetPort: Option<string>)
    ensures var r := ResolvePorts(source, target, sourcePort, targetPort);
      r.Resolved? ==>
        && r.source in source.outputs && r.target in target.inputs && Compatible(r.source.dataType, r.target.dataType)
        && (sourcePort.Some? ==> r.source.id == sourcePort.value)
        && (targetPort.Some? ==> r.target.id == targetPort.value)
  {
    if sourcePort.Some? { FindPortFinds(source.outputs, sourcePort.value); }
    if targetPort.Some? { FindPortFinds(target.inputs, targetPort.value); }
    var r := ResolvePorts(source, target, sourcePort, targetPort);
    if r.Resolved? {
      var ss, ts := Candidates(source.outputs, sourcePort), Candidates(target.inputs, targetPort);
      FirstPairFinds(DefaultFirst(ss), DefaultFirst(ts));
      SortingKeepsCandidates(ss);
      SortingKeepsCandidates(ts);
    }
  }

  /** Each error when due: the first check that fails decides, and types are refused exactly when the asked-for
      ports allow no compatible pair. */
  lemma ResolutionFailsExactly(source: NodePorts, target: NodePorts, sourcePort: Option<string>, targetPort: Option<string>)
    ensures var r := ResolvePorts(source, target, sourcePort, targetPort);
      && (r.NoOutputs? <==> source.outputs == [])
      && (r.NoInputs? <==> source.outputs != [] && target.inputs == [])
      && (r.UnknownOutput? <==> source.outputs != [] && target.inputs != [] && Undeclared(source.outputs, sourcePort))
      && (r.UnknownInput? <==> source.outputs != [] && target.inputs != []
                               && !Undeclared(source.outputs, sourcePort) && Undeclared(target.inputs, targetPort))
      && (r.Incompatible? <==>
            && source.outputs != [] && target.inputs != []
            && !Undeclared(source.outputs, sourcePort) && !Undeclared(target.inputs, targetPort)
            && forall p, q | p in source.outputs && q in target.inputs && Asked(source.outputs, sourcePort, p)
                             && Asked(target.inputs, targetPort, q) :: !Compatible(p.dataType, q.dataType))
  {
    DeclaredIsFound(source.outputs, sourcePort);
    DeclaredIsFound(target.inputs, targetPort);
    if !Undeclared(source.outputs, sourcePort) && !Undeclared(target.inputs, targetPort) {
      var ss, ts := Candidates(source.outputs, sourcePort), Candidates(target.inputs, targetPort);
      FirstPairFinds(DefaultFirst(ss), DefaultFirst(ts));
      SortingKeepsCandidates(ss);
      SortingKeepsCandidates(ts);
      CandidatesAreAsked(source.outputs, sourcePort);
      CandidatesAreAsked(target.inputs, targetPort);
    }
  }

  /** An unnamed edge takes the ports called "default" whenever they fit. */
  lemma DefaultsArePreferred(source: NodePorts, target: NodePorts, s: Port, t: Port)
    requires s in source.outputs && s.id == "default" && t in target.inputs && t.id == "default"
    requires forall p | p in source.outputs && p.id == "default" :: p == s
    requires forall p | p in target.inputs && p.id == "default" :: p == t
    requires Compatible(s.dataType, t.dataType)
    ensures ResolvePorts(source, target, None, None) == Resolved(s, t)
  {
    DefaultLeads(source.outputs, s);
    DefaultLeads(target.inputs, t);
  }

  lemma DefaultLeads(ports: seq<Port>, d: Port)
    requires d in ports && d.id == "default" && forall p | p in ports && p.id == "default" :: p == d
    ensures DefaultFirst(ports) != [] && DefaultFirst(ports)[0] == d
  {
    NamedSplits(ports, true, d);
    var lead := Named(ports, true);
    assert lead != [];
    NamedSplits(ports, true, lead[0]);
  }

  predicate UniqueNames(ports: seq<Port>) {
    forall p, q | p in ports && q in ports && p.id == q.id :: p == q
  }

  /** Naming two compatible ports explicitly resolves to exactly these two. */
  lemma NamingIsExact(source: NodePorts, target: NodePorts, p: Port, q: Port)
    requires UniqueNames(source.outputs) && UniqueNames(target.inputs)
    requires p in source.outputs && q in target.inputs && Compatible(p.dataType, q.dataType)
    ensures ResolvePorts(source, target, Some(p.id), Some(q.id)) == Resolved(p, q)
  {
    FindPortFinds(source.outputs, p.id);
    FindPortFinds(target.inputs, q.id);
    Alone(p);
    Alone(q);
  }

  lemma Alone(p: Port)
    ensures DefaultFirst([p]) == [p]
  {
    assert Named([p][1..], true) == [] && Named([p][1..], false) == [];
    if p.id == "default" {
      assert Named([p], true) == [p] && Named([p], false) == [];
    } else {
      assert Named([p], true) == [] && Named([p], false) == [p];
    }
  }

  /** A non-empty name without surrounding blanks. */
  predicate PlainName(id: string) {
    id != "" && 'a' <= id[0] <= 'z' && 'a' <= id[|id| - 1] <= 'z'
  }

  predicate Fresh(id: string, ports: seq<Port>) {
    ports == [] || (ports[0].id != id && Fresh(id, ports[1..]))
  }

  /** Distinct plain names. */
  predicate WellNamed(ports: seq<Port>) {
    ports == [] || (PlainName(ports[0].id) && Fresh(ports[0].id, ports[1..]) && WellNamed(ports[1..]))
  }

  lemma {:induction false} FreshMeans(id: string, ports: seq<Port>)
    requires Fresh(id, ports)
    ensures forall p | p in ports :: p.id != id
  {
    if ports != [] {
      FreshMeans(id, ports[1..]);
      assert ports == [ports[0]] + ports[1..];
    }
  }

  lemma {:induction false} WellNamedMeans(ports: seq<Port>)
    requires WellNamed(ports)
    ensures UniqueNames(ports) && forall p | p in ports :: PlainName(p.id)
  {
    if ports != [] {
      FreshMeans(ports[0].id, ports[1..]);
      WellNamedMeans(ports[1..]);
      assert ports == [ports[0]] + ports[1..];
    }
  }

  lemma Lists1(a: Port)
    requires PlainName(a.id)
    ensures WellNamed([a])
  {
    assert [a][1..] == [];
  }

  lemma Lists2(a: Port, b: Port)
    requires PlainName(a.id) && PlainName(b.id) && a.id != b.id
    ensures WellNamed([a, b])
  {
    assert [a, b][1..] == [b] && [b][1..] == [];
  }

  lemma Lists3(a: Port, b: Port, c: Port)
    requires PlainName(a.id) && PlainName(b.id) && PlainName(c.id) && a.id != b.id && a.id != c.id && b.id != c.id
    ensures WellNamed([a, b, c])
  {
    Lists2(b, c);
    assert [a, b, c][1..] == [b, c] && [b, c][1..] == [c] && [c][1..] == [];
    assert Fresh(a.id, [c]) && Fresh(a.id, [b, c]);
  }

  lemma Lists4(a: Port, b: Port, c: Port, d: Port)
    requires PlainName(a.id) && PlainName(b.id) && PlainName(c.id) && PlainName(d.id)
    requires a.id != b.id && a.id != c.id && a.id != d.id && b.id != c.id && b.id != d.id && c.id != d.id
    ensures WellNamed([a, b, c, d])
  {
    Lists3(b, c, d);
    assert [a, b, c, d][1..] == [b, c, d] && [b, c, d][1..] == [c, d] && [c, d][1..] == [d] && [d][1..] == [];
    assert Fresh(a.id, [d]) && Fresh(a.id, [c, d]) && Fresh(a.id, [b, c, d]);
  }

  predicate BothWellNamed(ports: Option<NodePorts>) {
    ports.Some? ==> WellNamed(ports.value.inputs) && WellNamed(ports.value.outputs)
  }

  lemma WorkflowNames(kind: string)
    ensures BothWellNamed(WorkflowPorts(kind))
  {
    Lists1(FLOW);
    if kind == "approval" {
      Lists4(FLOW, Port("approved", Flow), Port("rejected", Flow), Port("timeout", Flow));
    } else if kind == "branch" {
      Lists3(FLOW, Port("true", Flow), Port("false", Flow));
    } else if kind == "agent" {
      Lists3(FLOW, Port("context", Knowledge), Port("tools", Tool));
      Lists2(FLOW, Port("result", Answer));
    } else {
      Lists2(FLOW, Port("answer", Answer));
      Lists2(FLOW, Port("result", Answer));
      Lists1(Port("context", Knowledge));
      Lists1(Port("tools", Tool));
    }
  }

  lemma AgentNames(kind: string)
    ensures BothWellNamed(AgentPorts(kind))
  {
    Lists1(FLOW);
    Lists3(FLOW, Port("context", Knowledge), Port("tools", Tool));
    Lists1(Port("result", Answer));
    Lists1(Port("context", Knowledge));
    Lists1(Port("tools", Tool));
    Lists1(Port("answer", Answer));
  }

  lemma KnowledgeNames(kind: string)
    ensures BothWellNamed(KnowledgePorts(kind))
  {
    forall d: DataType ensures WellNamed([Port("default", d)]) {
      Lists1(Port("default", d));
    }
  }

  lemma RouterNames(kind: string)
    ensures BothWellNamed(RouterPorts(kind))
  {
    Lists1(ROUTE_DEFAULT);
    if kind == "classifier" {
      Lists3(RouteOutput("coding"), RouteOutput("vision"), ROUTE_DEFAULT);
    } else if kind == "condition" {
      Lists3(RouteOutput("true"), RouteOutput("false"), ROUTE_DEFAULT);
    } else if kind == "capability_filter" {
      Lists3(RouteOutput("matched"), RouteOutput("unmatched"), ROUTE_DEFAULT);
    } else if kind == "health_filter" {
      Lists3(RouteOutput("healthy"), RouteOutput("unhealthy"), ROUTE_DEFAULT);
    } else if kind == "approval" {
      Lists4(RouteOutput("approved"), RouteOutput("rejected"), RouteOutput("timeout"), ROUTE_DEFAULT);
    }
  }

  lemma StudioPortsAreWellNamed(studio: Studio, kind: string)
    ensures BothWellNamed(PortsFor(studio, kind))
  {
    match studio
    case Workflow => WorkflowNames(kind);
    case Agent => AgentNames(kind);
    case KnowledgeStudio => KnowledgeNames(kind);
    case Router => RouterNames(kind);
  }
}
