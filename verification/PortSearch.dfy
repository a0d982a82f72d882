/**
 Which ports an edge gets, told by places in the declared lists (smart-router/src/smart_router/graph_v59.py:103-197).
 */
module PortSearch {
  import opened Collections
  import opened Ports

  /** Told by the input: what it accepts besides its own type. A `chunks` output fits no `chunks` input. */
  predicate Fits(output: DataType, input: DataType) {
    || (output == input && !input.Chunks?)
    || (input.Flow? && output.Answer?)
    || (input.AnswerOrKnowledge? && (output.Answer? || output.Knowledge?))
    || (input.TextOrRaw? && (output.Raw? || output.Text?))
    || (input.ChunksOrText? && (output.Raw? || output.Text? || output.Chunks?))
    || (input.KnowledgeSink? && (output.Raw? || output.Text? || output.Chunks? || output.Embeddings? || output.Index?))
  }

  lemma CompatibleFits(output: DataType, input: DataType)
    ensures Compatible(output, input) <==> Fits(output, input)
  {
  }

  /** The edge may take the port at this place: any, or the first of the name it asks for. */
  predicate MayTake(ports: seq<Port>, name: Option<string>, i: nat)
    requires i < |ports|
  {
    name.Some? ==> ports[i].id == name.value && forall j | 0 <= j < i :: ports[j].id != name.value
  }

  /** Place `i` is tried no later than place `j`: default ports first, then as declared. */
  predicate NoLater(ports: seq<Port>, i: nat, j: nat)
    requires i < |ports| && j < |ports|
  {
    if ports[i].id == "default" then ports[j].id == "default" ==> i <= j
    else ports[j].id != "default" && i <= j
  }

  // ---------------------------------------------------------------- the order of trial

  function PlacesNamed(ports: seq<Port>, default_: bool, n: nat): seq<nat>
    requires n <= |ports|
  {
    if n == 0 then []
    else PlacesNamed(ports, default_, n - 1) + if (ports[n - 1].id == "default") == default_ then [n - 1] else []
  }

  lemma {:induction false} NamedMore(ports: seq<Port>, default_: bool, p: Port)
    ensures Named(ports + [p], default_) == Named(ports, default_) + if (p.id == "default") == default_ then [p] else []
  {
    if ports == [] {
      assert [p][1..] == [] && ports + [p] == [p];
    } else {
      NamedMore(ports[1..], default_, p);
      assert (ports + [p])[1..] == ports[1..] + [p];
    }
  }

  /** The ports at these places, in this order. */
  ghost predicate LiesAt(ports: seq<Port>, list: seq<Port>, places: seq<nat>) {
    |list| == |places| && forall k | 0 <= k < |places| :: places[k] < |ports| && list[k] == ports[places[k]]
  }

  ghost predicate Rises(places: seq<nat>) {
    forall j, k | 0 <= j < k < |places| :: places[j] < places[k]
  }

  /** Exactly the places of this kind before `n`, ascending. */
  ghost predicate PlacesOf(ports: seq<Port>, default_: bool, n: nat, places: seq<nat>)
    requires n <= |ports|
  {
    && Rises(places) && (forall k | 0 <= k < |places| :: places[k] < n && (ports[places[k]].id == "default") == default_)
    && forall i: nat | i < n && (ports[i].id == "default") == default_ :: i in places
  }

  lemma {:induction false} NamedLies(ports: seq<Port>, default_: bool, n: nat)
    requires n <= |ports|
    ensures LiesAt(ports, Named(ports[..n], default_), PlacesNamed(ports, default_, n))
  {
    if n > 0 {
      NamedLies(ports, default_, n - 1);
      NamedMore(ports[..n - 1], default_, ports[n - 1]);
      assert ports[..n] == ports[..n - 1] + [ports[n - 1]];
    }
  }

  lemma {:induction false} NamedPlaces(ports: seq<Port>, default_: bool, n: nat)
    requires n <= |ports|
    ensures PlacesOf(ports, default_, n, PlacesNamed(ports, default_, n))
  {
    if n > 0 {
      NamedPlaces(ports, default_, n - 1);
      var before, places := PlacesNamed(ports, default_, n - 1), PlacesNamed(ports, default_, n);
      forall i: nat | i < n && (ports[i].id == "default") == default_ ensures i in places {
        assert i < n - 1 ==> i in before;
      }
    }
  }

  /** The places in the order in which they are tried. */
  function Order(ports: seq<Port>): seq<nat> {
    PlacesNamed(ports, true, |ports|) + PlacesNamed(ports, false, |ports|)
  }

  /** No place is tried before one listed earlier. */
  ghost predicate InTrialOrder(ports: seq<Port>, places: seq<nat>) {
    && (forall k | 0 <= k < |places| :: places[k] < |ports|)
    && forall j, k | 0 <= j <= k < |places| :: NoLater(ports, places[j], places[k])
  }

  lemma DefaultsLead(ports: seq<Port>, lead: seq<nat>, rest: seq<nat>)
    requires PlacesOf(ports, true, |ports|, lead) && PlacesOf(ports, false, |ports|, rest)
    ensures InTrialOrder(ports, lead + rest)
  {
    var places := lead + rest;
    forall j, k | 0 <= j <= k < |places| ensures NoLater(ports, places[j], places[k]) {
      if k < |lead| {
        assert places[j] == lead[j] && places[k] == lead[k];
      } else {
        assert places[k] == rest[k - |lead|];
      }
    }
  }

  lemma OrderLies(ports: seq<Port>)
    ensures LiesAt(ports, DefaultFirst(ports), Order(ports)) && InTrialOrder(ports, Order(ports))
    ensures forall i: nat | i < |ports| :: i in Order(ports)
  {
    NamedLies(ports, true, |ports|);
    NamedLies(ports, false, |ports|);
    assert ports[..|ports|] == ports;
    var lead, rest := PlacesNamed(ports, true, |ports|), PlacesNamed(ports, false, |ports|);
    NamedPlaces(ports, true, |ports|);
    NamedPlaces(ports, false, |ports|);
    DefaultsLead(ports, lead, rest);
    forall i: nat | i < |ports| ensures i in lead + rest {
      assert i in lead || i in rest;
    }
  }

  /** The list that is searched for one end of an edge: complete, and in the order of trial. */
  ghost predicate Searches(ports: seq<Port>, name: Option<string>, list: seq<Port>, places: seq<nat>) {
    && LiesAt(ports, list, places) && InTrialOrder(ports, places)
    && (forall k | 0 <= k < |places| :: MayTake(ports, name, places[k]))
    && forall i: nat | i < |ports| && MayTake(ports, name, i) :: i in places
  }

  lemma {:induction false} FoundAt(ports: seq<Port>, id: string) returns (i: nat)
    requires FindPort(ports, id).Some?
    ensures i < |ports| && ports[i] == FindPort(ports, id).value && MayTake(ports, Some(id), i)
  {
    i := 0;
    if ports[0].id != id {
      var j := FoundAt(ports[1..], id);
      i := j + 1;
      forall k | 0 <= k < i ensures ports[k].id != id {
        if k > 0 {
          assert ports[k] == ports[1..][k - 1];
        }
      }
    }
  }

  lemma CandidatesSearch(ports: seq<Port>, name: Option<string>) returns (places: seq<nat>)
    requires name.Some? ==> FindPort(ports, name.value).Some?
    ensures Searches(ports, name, DefaultFirst(Candidates(ports, name)), places)
  {
    if name.None? {
      OrderLies(ports);
      places := Order(ports);
    } else {
      var i := FoundAt(ports, name.value);
      Alone(ports[i]);
      places := [i];
      forall j: nat | j < |ports| && MayTake(ports, name, j) ensures j == i {
      }
    }
  }

  // ---------------------------------------------------------------- the first pair that fits

  /** The pair at these places fits, no target fits an earlier source, and no earlier target fits this one. */
  ghost predicate FirstAt(sources: seq<Port>, targets: seq<Port>, a: nat, b: nat) {
    && a < |sources| && b < |targets| && Compatible(sources[a].dataType, targets[b].dataType)
    && (forall i, j | 0 <= i < a && 0 <= j < |targets| :: !Compatible(sources[i].dataType, targets[j].dataType))
    && forall j | 0 <= j < b :: !Compatible(sources[a].dataType, targets[j].dataType)
  }

  lemma {:induction false} FirstPairAt(sources: seq<Port>, targets: seq<Port>) returns (a: nat, b: nat)
    requires FirstPair(sources, targets).Resolved?
    ensures FirstAt(sources, targets, a, b) && FirstPair(sources, targets) == Resolved(sources[a], targets[b])
  {
    FirstTargetFinds(sources[0], targets);
    var t := FirstTarget(sources[0], targets);
    if t.Some? {
      a := 0;
      b :| 0 <= b < |targets| && targets[b] == t.value && Compatible(sources[0].dataType, targets[b].dataType)
           && forall k | 0 <= k < b :: !Compatible(sources[0].dataType, targets[k].dataType);
    } else {
      a, b := FirstPairAt(sources[1..], targets);
      FirstLater(sources, targets, a, b);
      a := a + 1;
    }
  }

  lemma FirstLater(sources: seq<Port>, targets: seq<Port>, a: nat, b: nat)
    requires sources != [] && FirstAt(sources[1..], targets, a, b)
    requires forall j | 0 <= j < |targets| :: !Compatible(sources[0].dataType, targets[j].dataType)
    ensures FirstAt(sources, targets, a + 1, b)
  {
    forall i, j | 0 <= i < a + 1 && 0 <= j < |targets| ensures !Compatible(sources[i].dataType, targets[j].dataType) {
      if i > 0 {
        assert sources[i] == sources[1..][i - 1];
      }
    }
  }

  /** Some port the edge may take at the other end fits this one. */
  predicate HasPartner(source: Port, targets: seq<Port>, name: Option<string>) {
    exists j | 0 <= j < |targets| :: MayTake(targets, name, j) && Fits(source.dataType, targets[j].dataType)
  }

  /** Nothing that could be taken and would fit is tried before what is taken: of the sources, then of its targets. */
  ghost predicate TakesFirst(sources: seq<Port>, targets: seq<Port>, sourceName: Option<string>, targetName: Option<string>,
                             a: nat, b: nat) {
    && a < |sources| && MayTake(sources, sourceName, a) && b < |targets| && MayTake(targets, targetName, b)
    && Fits(sources[a].dataType, targets[b].dataType)
    && (forall i | 0 <= i < |sources| && MayTake(sources, sourceName, i) && HasPartner(sources[i], targets, targetName) ::
          NoLater(sources, a, i))
    && forall j | 0 <= j < |targets| && MayTake(targets, targetName, j) && Fits(sources[a].dataType, targets[j].dataType) ::
         NoLater(targets, b, j)
  }

  lemma SourceIsFirst(sources: seq<Port>, targets: seq<Port>, sourceName: Option<string>, targetName: Option<string>,
                      ss: seq<Port>, ts: seq<Port>, ps: seq<nat>, pt: seq<nat>, a: nat, b: nat, i: nat)
    requires Searches(sources, sourceName, ss, ps) && Searches(targets, targetName, ts, pt) && FirstAt(ss, ts, a, b)
    requires i < |sources| && MayTake(sources, sourceName, i) && HasPartner(sources[i], targets, targetName)
    ensures NoLater(sources, ps[a], i)
  {
    var j :| 0 <= j < |targets| && MayTake(targets, targetName, j) && Fits(sources[i].dataType, targets[j].dataType);
    CompatibleFits(sources[i].dataType, targets[j].dataType);
    assert i in ps && j in pt;
    var k :| 0 <= k < |ps| && ps[k] == i;
    var m :| 0 <= m < |pt| && pt[m] == j;
    assert ss[k] == sources[i] && ts[m] == targets[j];
    assert a <= k;
  }

  lemma TargetIsFirst(sources: seq<Port>, targets: seq<Port>, targetName: Option<string>, ss: seq<Port>, ts: seq<Port>,
                      ps: seq<nat>, pt: seq<nat>, a: nat, b: nat, j: nat)
    requires LiesAt(sources, ss, ps) && Searches(targets, targetName, ts, pt) && FirstAt(ss, ts, a, b)
    requires j < |targets| && MayTake(targets, targetName, j) && Fits(sources[ps[a]].dataType, targets[j].dataType)
    ensures NoLater(targets, pt[b], j)
  {
    CompatibleFits(sources[ps[a]].dataType, targets[j].dataType);
    assert j in pt;
    var m :| 0 <= m < |pt| && pt[m] == j;
    assert ts[m] == targets[j] && b <= m;
  }

  /** However many ports the edge names: the resolved pair is the one tried first among all that it may take and that fit. */
  lemma FirstFitIsTaken(source: NodePorts, target: NodePorts, sourceName: Option<string>, targetName: Option<string>)
    returns (a: nat, b: nat)
    requires ResolvePorts(source, target, sourceName, targetName).Resolved?
    ensures TakesFirst(source.outputs, target.inputs, sourceName, targetName, a, b)
    ensures ResolvePorts(source, target, sourceName, targetName) == Resolved(source.outputs[a], target.inputs[b])
  {
    var ss, ts := DefaultFirst(Candidates(source.outputs, sourceName)), DefaultFirst(Candidates(target.inputs, targetName));
    var ps := CandidatesSearch(source.outputs, sourceName);
    var pt := CandidatesSearch(target.inputs, targetName);
    var k, m := FirstPairAt(ss, ts);
    a, b := ps[k], pt[m];
    CompatibleFits(source.outputs[a].dataType, target.inputs[b].dataType);
    forall i: nat | i < |source.outputs| && MayTake(source.outputs, sourceName, i) && HasPartner(source.outputs[i], target.inputs, targetName)
      ensures NoLater(source.outputs, a, i)
    {
      SourceIsFirst(source.outputs, target.inputs, sourceName, targetName, ss, ts, ps, pt, k, m, i);
    }
    forall j: nat | j < |target.inputs| && MayTake(target.inputs, targetName, j) && Fits(source.outputs[a].dataType, target.inputs[j].dataType)
      ensures NoLater(target.inputs, b, j)
    {
      TargetIsFirst(source.outputs, target.inputs, targetName, ss, ts, ps, pt, k, m, j);
    }
  }

  /** At most one pair is tried first, so the answer is determined by the ports and the names. */
  lemma FirstFitIsUnique(sources: seq<Port>, targets: seq<Port>, sourceName: Option<string>, targetName: Option<string>,
                         a: nat, b: nat, c: nat, d: nat)
    requires TakesFirst(sources, targets, sourceName, targetName, a, b)
    requires TakesFirst(sources, targets, sourceName, targetName, c, d)
    ensures a == c && b == d
  {
    assert HasPartner(sources[a], targets, targetName) && HasPartner(sources[c], targets, targetName);
  }

  // ---------------------------------------------------------------- what connects without naming a port

  function Unnamed(source: Option<NodePorts>, target: Option<NodePorts>): Resolution
    requires source.Some? && target.Some?
  {
    ResolvePorts(source.value, target.value, None, None)
  }

  lemma OneByOne(p: Port, q: Port)
    ensures FirstPair(DefaultFirst([p]), DefaultFirst([q])) == if Fits(p.dataType, q.dataType) then Resolved(p, q) else Incompatible
  {
    Alone(p);
    Alone(q);
    CompatibleFits(p.dataType, q.dataType);
    assert [p][1..] == [] && [q][1..] == [];
    assert FirstTarget(p, [q]) == if Compatible(p.dataType, q.dataType) then Some(q) else FirstTarget(p, []);
    assert FirstPair([], [q]) == Incompatible;
  }

  lemma KnowledgeMeets(source: NodePorts, target: NodePorts)
    requires |source.outputs| <= 1 && |target.inputs| <= 1
    ensures ResolvePorts(source, target, None, None).Resolved?
      <==> source.outputs != [] && target.inputs != [] && Fits(source.outputs[0].dataType, target.inputs[0].dataType)
  {
    if source.outputs != [] && target.inputs != [] {
      OneByOne(source.outputs[0], target.inputs[0]);
      assert source.outputs == [source.outputs[0]] && target.inputs == [target.inputs[0]];
    }
  }

  /** The kinds of the knowledge studio that take a value of this type. */
  function Takers(d: DataType): set<string> {
    match d
    case Raw => {"extract", "chunk", "embed", "knowledge_base"}
    case Text => {"transform", "chunk", "embed", "knowledge_base"}
    case Chunks => {"embed", "knowledge_base"}
    case Embeddings => {"index", "knowledge_base"}
    case Index => {"knowledge_base"}
    case Knowledge => {"qa", "output"}
    case Answer => {"output"}
    case _ => {}
  }

  lemma TakersTake(d: DataType, b: string)
    requires d in {Raw, Text, Chunks, Embeddings, Index, Knowledge, Answer} && KnowledgePorts(b).Some?
    ensures b in Takers(d) <==> KnowledgePorts(b).value.inputs != [] && Fits(d, KnowledgePorts(b).value.inputs[0].dataType)
  {
  }

  lemma KnowledgeInputs(kind: string)
    requires KnowledgePorts(kind).Some?
    ensures |KnowledgePorts(kind).value.inputs| <= 1
  {
  }

  lemma KnowledgeOutputs(kind: string)
    requires KnowledgePorts(kind).Some?
    ensures var outputs := KnowledgePorts(kind).value.outputs;
      if kind == "output" then outputs == []
      else
        && |outputs| == 1 && outputs[0].dataType in {Raw, Text, Chunks, Embeddings, Index, Knowledge, Answer}
        && (outputs[0].dataType.Raw? <==> kind == "data_source") && (outputs[0].dataType.Text? <==> kind in {"extract", "transform"})
        && (outputs[0].dataType.Chunks? <==> kind == "chunk") && (outputs[0].dataType.Embeddings? <==> kind == "embed")
        && (outputs[0].dataType.Index? <==> kind == "index") && (outputs[0].dataType.Knowledge? <==> kind == "knowledge_base")
        && (outputs[0].dataType.Answer? <==> kind == "qa")
  {
  }

  /** Knowledge studio: a source feeds extraction, or skips ahead as old graphs did; only a knowledge base is asked. */
  lemma KnowledgeConnects(a: string, b: string)
    requires KnowledgePorts(a).Some? && KnowledgePorts(b).Some?
    ensures Unnamed(KnowledgePorts(a), KnowledgePorts(b)).Resolved? <==>
      if a == "data_source" then b in {"extract", "chunk", "embed", "knowledge_base"}
      else if a in {"extract", "transform"} then b in {"transform", "chunk", "embed", "knowledge_base"}
      else if a == "chunk" then b in {"embed", "knowledge_base"}
      else if a == "embed" then b in {"index", "knowledge_base"}
      else if a == "index" then b == "knowledge_base"
      else if a == "knowledge_base" then b in {"qa", "output"}
      else a == "qa" && b == "output"
  {
    KnowledgeOutputs(a);
    KnowledgeInputs(b);
    KnowledgeMeets(KnowledgePorts(a).value, KnowledgePorts(b).value);
    if a != "output" {
      TakersTake(KnowledgePorts(a).value.outputs[0].dataType, b);
    }
  }

  lemma RouteDefaults(outputs: seq<Port>)
    requires ROUTE_DEFAULT in outputs && forall p | p in outputs && p.id == "default" :: p == ROUTE_DEFAULT
    ensures FirstPair(DefaultFirst(outputs), DefaultFirst([ROUTE_DEFAULT])) == Resolved(ROUTE_DEFAULT, ROUTE_DEFAULT)
  {
    DefaultsArePreferred(NodePorts([ROUTE_DEFAULT], outputs), NodePorts([ROUTE_DEFAULT], outputs), ROUTE_DEFAULT, ROUTE_DEFAULT);
  }

  /** Router studio: any two nodes connect, from default port to default port. */
  lemma RouterConnects(a: string, b: string)
    requires RouterPorts(a).Some? && RouterPorts(b).Some?
    ensures Unnamed(RouterPorts(a), RouterPorts(b)) == Resolved(ROUTE_DEFAULT, ROUTE_DEFAULT)
  {
    var outputs := RouterPorts(a).value.outputs;
    assert outputs[|outputs| - 1] == ROUTE_DEFAULT;
    RouteDefaults(outputs);
  }

  const CONTEXT := Port("context", Knowledge)
  const TOOLS := Port("tools", Tool)

  /** Only default ports are searched first, and here they lead anyway. */
  lemma AgentInputs()
    ensures DefaultFirst([FLOW, CONTEXT, TOOLS]) == [FLOW, CONTEXT, TOOLS]
  {
    var ports := [FLOW, CONTEXT, TOOLS];
    assert ports[1..] == [CONTEXT, TOOLS] && [CONTEXT, TOOLS][1..] == [TOOLS] && [TOOLS][1..] == [];
    assert Named([], true) == [] && Named([], false) == [];
    assert Named([TOOLS], true) == [] && Named([TOOLS], false) == [TOOLS];
    assert Named([CONTEXT, TOOLS], true) == [] && Named([CONTEXT, TOOLS], false) == [CONTEXT, TOOLS];
    assert Named(ports, true) == [FLOW] && Named(ports, false) == [CONTEXT, TOOLS];
  }

  /** One output meets an agent: a flow or an answer at its default port, knowledge and tools at their own. */
  lemma MeetsAgent(p: Port)
    ensures FirstPair(DefaultFirst([p]), DefaultFirst([FLOW, CONTEXT, TOOLS]))
      == match p.dataType
         case Flow => Resolved(p, FLOW)
         case Answer => Resolved(p, FLOW)
         case Knowledge => Resolved(p, CONTEXT)
         case Tool => Resolved(p, TOOLS)
         case _ => Incompatible
  {
    Alone(p);
    AgentInputs();
    var ports := [FLOW, CONTEXT, TOOLS];
    assert ports[1..] == [CONTEXT, TOOLS] && [CONTEXT, TOOLS][1..] == [TOOLS] && [TOOLS][1..] == [] && [p][1..] == [];
    assert FirstTarget(p, []) == None && FirstPair([], ports) == Incompatible;
    assert FirstTarget(p, [TOOLS]) == if Compatible(p.dataType, Tool) then Some(TOOLS) else None;
    assert FirstTarget(p, [CONTEXT, TOOLS]) == if Compatible(p.dataType, Knowledge) then Some(CONTEXT) else FirstTarget(p, [TOOLS]);
    assert FirstTarget(p, ports) == if Compatible(p.dataType, Flow) then Some(FLOW) else FirstTarget(p, [CONTEXT, TOOLS]);
  }

  lemma AgentTakes(a: string)
    requires AgentPorts(a).Some?
    ensures var r := Unnamed(AgentPorts(a), AgentPorts("agent"));
      if a == "input" then r == Resolved(FLOW, FLOW)
      else if a == "agent" then r == Resolved(Port("result", Answer), FLOW)
      else if a == "knowledge" then r == Resolved(CONTEXT, CONTEXT)
      else if a in {"skill", "plugin"} then r == Resolved(TOOLS, TOOLS)
      else !r.Resolved?
  {
    var source := AgentPorts(a).value;
    if source.outputs != [] {
      assert source.outputs == [source.outputs[0]];
      MeetsAgent(source.outputs[0]);
    }
  }

  lemma OnlyAgentsAnswer(a: string)
    requires AgentPorts(a).Some?
    ensures var r := Unnamed(AgentPorts(a), AgentPorts("output"));
      if a == "agent" then r == Resolved(Port("result", Answer), Port("answer", Answer)) else !r.Resolved?
  {
    var source := AgentPorts(a).value;
    if source.outputs != [] {
      assert source.outputs == [source.outputs[0]];
      OneByOne(source.outputs[0], Port("answer", Answer));
    }
  }

  /** Agent studio: a question, an answer, knowledge and tools go into an agent, and only an agent answers. */
  lemma AgentConnects(a: string, b: string)
    requires AgentPorts(a).Some? && AgentPorts(b).Some?
    ensures Unnamed(AgentPorts(a), AgentPorts(b)).Resolved? <==> (b == "agent" && a != "output") || (a == "agent" && b == "output")
  {
    if b == "agent" {
      AgentTakes(a);
    } else if b == "output" {
      OnlyAgentsAnswer(a);
    }
  }

  predicate Flows(kind: string) {
    kind in {"agent", "team", "approval", "branch", "parallel"}
  }

  lemma FlowLeads(ports: seq<Port>)
    requires ports != [] && ports[0] == FLOW && UniqueNames(ports)
    ensures DefaultFirst(ports) != [] && DefaultFirst(ports)[0] == FLOW
  {
    DefaultLeads(ports, FLOW);
  }

  lemma FlowToFlow(source: NodePorts, target: NodePorts)
    requires source.outputs != [] && source.outputs[0] == FLOW && UniqueNames(source.outputs)
    requires target.inputs != [] && target.inputs[0] == FLOW && UniqueNames(target.inputs)
    ensures ResolvePorts(source, target, None, None) == Resolved(FLOW, FLOW)
  {
    FlowLeads(source.outputs);
    FlowLeads(target.inputs);
  }

  /** A single output that no input takes. */
  lemma NobodyTakes(p: Port, inputs: seq<Port>)
    requires forall q | q in inputs :: !Fits(p.dataType, q.dataType)
    ensures FirstPair(DefaultFirst([p]), DefaultFirst(inputs)).Incompatible?
  {
    FirstPairFinds(DefaultFirst([p]), DefaultFirst(inputs));
    SortingKeepsCandidates([p]);
    SortingKeepsCandidates(inputs);
    forall q | q in inputs ensures !Compatible(p.dataType, q.dataType) {
      CompatibleFits(p.dataType, q.dataType);
    }
  }

  predicate Feeds(kind: string) {
    kind in {"knowledge", "skill", "plugin"}
  }

  lemma WorkflowOutputs(kind: string)
    requires WorkflowPorts(kind).Some?
    ensures var outputs := WorkflowPorts(kind).value.outputs;
      && (kind == "input" || Flows(kind) ==> outputs != [] && outputs[0] == FLOW)
      && (kind == "knowledge" ==> outputs == [CONTEXT]) && (kind in {"skill", "plugin"} ==> outputs == [TOOLS])
      && (kind == "output" <==> outputs == []) && (kind == "input" || kind == "output" || Flows(kind) || Feeds(kind))
  {
  }

  lemma WorkflowInputs(kind: string)
    requires WorkflowPorts(kind).Some?
    ensures var inputs := WorkflowPorts(kind).value.inputs;
      && (kind == "output" || Flows(kind) ==> inputs != [] && inputs[0] == FLOW)
      && (kind == "agent" ==> inputs == [FLOW, CONTEXT, TOOLS])
      && (kind == "input" || Feeds(kind) <==> inputs == [])
      && (kind != "agent" ==> forall q | q in inputs :: q.dataType.Flow? || q.dataType.Answer?)
  {
  }

  lemma FlowConnects(a: string, b: string)
    requires (a == "input" || Flows(a)) && (b == "output" || Flows(b)) && WorkflowPorts(a).Some? && WorkflowPorts(b).Some?
    ensures Unnamed(WorkflowPorts(a), WorkflowPorts(b)) == Resolved(FLOW, FLOW)
  {
    WorkflowOutputs(a);
    WorkflowInputs(b);
    StudioPortsAreWellNamed(Workflow, a);
    StudioPortsAreWellNamed(Workflow, b);
    WellNamedMeans(WorkflowPorts(a).value.outputs);
    WellNamedMeans(WorkflowPorts(b).value.inputs);
    FlowToFlow(WorkflowPorts(a).value, WorkflowPorts(b).value);
  }

  lemma FeedConnects(a: string, b: string)
    requires Feeds(a) && WorkflowPorts(a).Some? && WorkflowPorts(b).Some?
    ensures var r := Unnamed(WorkflowPorts(a), WorkflowPorts(b));
      if b == "agent" then r == if a == "knowledge" then Resolved(CONTEXT, CONTEXT) else Resolved(TOOLS, TOOLS) else !r.Resolved?
  {
    WorkflowOutputs(a);
    WorkflowInputs(b);
    var p := WorkflowPorts(a).value.outputs[0];
    if b == "agent" {
      MeetsAgent(p);
    } else {
      NobodyTakes(p, WorkflowPorts(b).value.inputs);
    }
  }

  /** Workflow studio: the flow runs from default port to default port; knowledge and tools only enter agents. */
  lemma WorkflowConnects(a: string, b: string)
    requires WorkflowPorts(a).Some? && WorkflowPorts(b).Some?
    ensures var r := Unnamed(WorkflowPorts(a), WorkflowPorts(b));
      if (a == "input" || Flows(a)) && (b == "output" || Flows(b)) then r == Resolved(FLOW, FLOW)
      else if a == "knowledge" && b == "agent" then r == Resolved(CONTEXT, CONTEXT)
      else if a in {"skill", "plugin"} && b == "agent" then r == Resolved(TOOLS, TOOLS)
      else !r.Resolved?
  {
    WorkflowOutputs(a);
    WorkflowInputs(b);
    if Feeds(a) {
      FeedConnects(a, b);
    } else if (a == "input" || Flows(a)) && (b == "output" || Flows(b)) {
      FlowConnects(a, b);
    }
  }
}
