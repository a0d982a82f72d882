/**
 Running the enabled router pipelines (smart-router/src/smart_router/control_plane.py:349-442).

 What a request says, what the profile table holds and what the health registry answers are an
 environment; the registry may change with every question, so its state is threaded through.
 */
module Pipeline {
  import opened Collections
  import opened Digraph
  import RouterPlan
  import opened Text

  type Id = string
  type Port = string
  type World = nat       // whatever the health registry holds
  type When = string     // a condition's expression

  /** A stage's type with the configuration its branch of apply_stage reads. */
  datatype Config =
    | Classifier
    | Condition(when_: When)
    | CapabilityFilter(require: set<string>)
    | HealthFilter
    | Approval
    | CostLatencyScore
    | LoadBalance(candidates: seq<string>, strategy: string)
    | Route(profile: string, candidates: seq<string>)
    | Retry(retries: int)
    | Fallback(models: seq<string>)

  datatype Stage = Stage(id: Id, config: Config)

  datatype Routing = Routing(profile: string, model: string, retries: int, fallbacks: seq<string>, world: World)

  datatype Environment = Environment(
    saysImage: bool, saysCode: bool, saysTools: bool,
    whenMatches: (When, string) -> bool,
    profileModel: string -> string,
    healthy: (string, World) -> (bool, World),
    best: (seq<string>, string, World) -> (string, World))

  const PROFILES: set<string> := {"fast", "standard", "strong", "coding", "vision"}

  /** The candidates that are not blank. */
  function KeepNonBlank(candidates: seq<string>): seq<string> {
    if candidates == [] then []
    else (if Strip(candidates[0]) == "" then [] else [candidates[0]]) + KeepNonBlank(candidates[1..])
  }

  // ---------------------------------------------------------------- one stage

  function Chosen(env: Environment, candidates: seq<string>, strategy: string, r: Routing): Routing {
    var usable := KeepNonBlank(candidates);
    if usable == [] then r
    else var (model, world) := env.best(usable, strategy, r.world); r.(model := model, world := world)
  }

  function Mapped(env: Environment, candidate: string): string {
    if candidate in PROFILES then env.profileModel(candidate) else candidate
  }

  /** The fallback list after one more candidate: mapped, not the current model, not listed yet. */
  function WithFallback(env: Environment, r: Routing, candidate: string): Routing {
    var mapped := Mapped(env, candidate);
    if mapped != "" && mapped != r.model && mapped !in r.fallbacks then r.(fallbacks := r.fallbacks + [mapped]) else r
  }

  function WithFallbacks(env: Environment, r: Routing, candidates: seq<string>): Routing {
    if candidates == [] then r
    else WithFallback(env, WithFallbacks(env, r, candidates[..|candidates| - 1]), candidates[|candidates| - 1])
  }

  function Clamp(n: int): int {
    if n < 0 then 0 else if n > 5 then 5 else n
  }

  function ApplyStage(env: Environment, config: Config, r: Routing): (Routing, Port) {
    match config
    case Classifier =>
      (r, if r.profile == "vision" || env.saysImage then "vision"
          else if r.profile == "coding" || env.saysCode then "coding" else "default")
    case Condition(w) => (r, if env.whenMatches(w, r.profile) then "true" else "false")
    case CapabilityFilter(require) =>
      var available := (if env.saysImage then {"vision"} else {}) + (if env.saysTools then {"tools"} else {});
      (r, if require <= available then "matched" else "unmatched")
    case HealthFilter =>
      if r.model == "" then (r, "healthy")
      else var (ok, world) := env.healthy(r.model, r.world);
           (r.(world := world), if ok then "healthy" else "unhealthy")
    case Approval => (r, "default")
    case CostLatencyScore => (r, "default")
    case LoadBalance(candidates, strategy) => (Chosen(env, candidates, strategy, r), "default")
    case Route(profile, candidates) =>
      var profiled :=
        if profile in PROFILES && env.profileModel(profile) != "" then
          r.(profile := profile, model := env.profileModel(profile))
        else r;
      (Chosen(env, candidates, "health_latency", profiled), "default")
    case Retry(n) => (r.(retries := if r.retries >= Clamp(n) then r.retries else Clamp(n)), "default")
    case Fallback(models) => (WithFallbacks(env, r, models), "default")
  }

  /** No fallback is listed twice and none is the model in use when it was added. */
  lemma {:induction false} FallbacksStayDistinct(env: Environment, r: Routing, candidates: seq<string>)
    requires Distinct(r.fallbacks)
    ensures Distinct(WithFallbacks(env, r, candidates).fallbacks)
    ensures r.fallbacks <= WithFallbacks(env, r, candidates).fallbacks
    ensures WithFallbacks(env, r, candidates).model == r.model && WithFallbacks(env, r, candidates).retries == r.retries
    ensures forall m | m in WithFallbacks(env, r, candidates).fallbacks && m !in r.fallbacks ::
      m != r.model && m != "" && exists c :: c in candidates && m == Mapped(env, c)
  {
    if candidates != [] {
      var rest, last := candidates[..|candidates| - 1], candidates[|candidates| - 1];
      FallbacksStayDistinct(env, r, rest);
      assert candidates == rest + [last];
      assert last in candidates;
      forall m | m in WithFallbacks(env, r, candidates).fallbacks && m !in r.fallbacks
        ensures m != r.model && m != "" && exists c :: c in candidates && m == Mapped(env, c)
      {
        if m in WithFallbacks(env, r, rest).fallbacks {
          var c :| c in rest && m == Mapped(env, c);
          assert c in candidates;
        }
      }
    }
  }

  /** Positions in strictly increasing order. */
  predicate Increasing(positions: seq<nat>) {
    forall a, b | 0 <= a < b < |positions| :: positions[a] < positions[b]
  }

  // ---------------------------------------------------------------- what each kind of stage does

  lemma {:induction false} KeptInOrder(a: seq<string>, b: seq<string>)
    ensures KeepNonBlank(a + b) == KeepNonBlank(a) + KeepNonBlank(b)
    ensures forall c :: c in KeepNonBlank(a) <==> c in a && Strip(c) != ""
  {
    if a == [] {
      assert a + b == b;
    } else {
      assert (a + b)[1..] == a[1..] + b && a == [a[0]] + a[1..];
      KeptInOrder(a[1..], b);
    }
  }

  /** The model a fallback candidate stands for: a profile's, or the one it names. */
  predicate StandsFor(env: Environment, candidate: string, model: string) {
    model == if candidate in {"fast", "standard", "strong", "coding", "vision"} then env.profileModel(candidate) else candidate
  }

  /** A model worth adding. */
  predicate Wanted(model: string, r: Routing) {
    model != "" && model != r.model
  }

  /** Every wanted candidate is listed afterwards, once. */
  lemma {:induction false} FallbacksAreComplete(env: Environment, r: Routing, candidates: seq<string>)
    ensures forall c, m | c in candidates && StandsFor(env, c, m) && Wanted(m, r) :: m in WithFallbacks(env, r, candidates).fallbacks
    ensures WithFallbacks(env, r, candidates) == r.(fallbacks := WithFallbacks(env, r, candidates).fallbacks)
  {
    if candidates != [] {
      var rest, last := candidates[..|candidates| - 1], candidates[|candidates| - 1];
      FallbacksAreComplete(env, r, rest);
      var before, after := WithFallbacks(env, r, rest), WithFallbacks(env, r, candidates);
      assert before.fallbacks <= after.fallbacks;
      forall c, m | c in candidates && StandsFor(env, c, m) && Wanted(m, r) ensures m in after.fallbacks {
        if c in rest {
          assert m in before.fallbacks;
        } else {
          assert candidates == rest + [last] && c == last;
        }
      }
    }
  }

  /** The added models stand for candidates at ascending places. */
  ghost predicate Placed(env: Environment, candidates: seq<string>, r: Routing, added: seq<string>, places: seq<nat>) {
    && |added| == |places| && Increasing(places) && (forall p | p in places :: p < |candidates|)
    && forall k | 0 <= k < |added| && places[k] < |candidates| ::
         StandsFor(env, candidates[places[k]], added[k]) && Wanted(added[k], r)
  }

  lemma PlacedOneMore(env: Environment, candidates: seq<string>, r: Routing, added: seq<string>, places: seq<nat>, model: string)
    requires candidates != [] && Placed(env, candidates[..|candidates| - 1], r, added, places)
    ensures Placed(env, candidates, r, added, places)
    ensures StandsFor(env, candidates[|candidates| - 1], model) && Wanted(model, r)
      ==> Placed(env, candidates, r, added + [model], places + [|candidates| - 1])
  {
    forall k | 0 <= k < |places| ensures places[k] < |candidates| - 1 {
      assert places[k] in places;
    }
  }

  lemma {:induction false} FallbacksInOrder(env: Environment, r: Routing, candidates: seq<string>) returns (places: seq<nat>)
    ensures var all := WithFallbacks(env, r, candidates).fallbacks;
      r.fallbacks <= all && Placed(env, candidates, r, all[|r.fallbacks|..], places)
  {
    if candidates == [] {
      places := [];
    } else {
      var rest, last := candidates[..|candidates| - 1], candidates[|candidates| - 1];
      places := FallbacksInOrder(env, r, rest);
      FallbacksAreComplete(env, r, rest);
      var before, after := WithFallbacks(env, r, rest).fallbacks, WithFallbacks(env, r, candidates).fallbacks;
      PlacedOneMore(env, candidates, r, before[|r.fallbacks|..], places, Mapped(env, last));
      if after != before {
        assert after[|r.fallbacks|..] == before[|r.fallbacks|..] + [Mapped(env, last)];
        places := places + [|candidates| - 1];
      }
    }
  }

  /** The stage's choice among candidates: nothing if all are blank, else the best of the others. */
  predicate Picks(env: Environment, candidates: seq<string>, strategy: string, r: Routing, r': Routing) {
    if forall c | c in candidates :: Strip(c) == "" then r' == r
    else
      var (model, world) := env.best(KeepNonBlank(candidates), strategy, r.world);
      r' == r.(model := model, world := world)
  }

  /** The list after a fallback stage: the old one, then each wanted candidate that is new, once, in order. */
  ghost predicate Extends(env: Environment, candidates: seq<string>, r: Routing, r': Routing) {
    && r' == r.(fallbacks := r'.fallbacks) && r.fallbacks <= r'.fallbacks && (Distinct(r.fallbacks) ==> Distinct(r'.fallbacks))
    && (forall c, m | c in candidates && StandsFor(env, c, m) && Wanted(m, r) :: m in r'.fallbacks)
    && exists places :: Placed(env, candidates, r, r'.fallbacks[|r.fallbacks|..], places)
  }

  /** What a stage of each kind does to the routing, and which port it answers. */
  ghost predicate StageDoes(env: Environment, config: Config, r: Routing, r': Routing, port: Port) {
    match config
    case Classifier =>
      && r' == r && (port == "vision" <==> r.profile == "vision" || env.saysImage)
      && (port == "coding" <==> !(r.profile == "vision" || env.saysImage) && (r.profile == "coding" || env.saysCode))
      && (port in {"vision", "coding", "default"})
    case Condition(w) =>
      && r' == r && (port == "true" <==> env.whenMatches(w, r.profile)) && (port == "false" <==> !env.whenMatches(w, r.profile))
    case CapabilityFilter(require) =>
      var available := forall c | c in require :: (c == "vision" && env.saysImage) || (c == "tools" && env.saysTools);
      r' == r && (port == "matched" <==> available) && (port == "unmatched" <==> !available)
    case HealthFilter =>
      if r.model == "" then r' == r && port == "healthy"
      else
        var (healthy, world) := env.healthy(r.model, r.world);
        r' == r.(world := world) && (port == "healthy" <==> healthy) && (port == "unhealthy" <==> !healthy)
    case Approval => r' == r && port == "default"
    case CostLatencyScore => r' == r && port == "default"
    case LoadBalance(candidates, strategy) => port == "default" && Picks(env, candidates, strategy, r, r')
    case Route(profile, candidates) =>
      var known := profile in {"fast", "standard", "strong", "coding", "vision"} && env.profileModel(profile) != "";
      port == "default" && Picks(env, candidates, "health_latency",
                                 if known then r.(profile := profile, model := env.profileModel(profile)) else r, r')
    case Retry(n) =>
      var wish := if n < 0 then 0 else if n > 5 then 5 else n;
      port == "default" && r' == r.(retries := if wish > r.retries then wish else r.retries)
    case Fallback(models) => port == "default" && Extends(env, models, r, r')
  }

  lemma ChosenPicks(env: Environment, candidates: seq<string>, strategy: string, r: Routing)
    ensures Picks(env, candidates, strategy, r, Chosen(env, candidates, strategy, r))
  {
    KeptInOrder(candidates, []);
    var usable := KeepNonBlank(candidates);
    if usable != [] {
      assert usable[0] in usable;
    }
    if c :| c in candidates && Strip(c) != "" {
      assert c in usable;
    }
  }

  lemma FallbacksExtend(env: Environment, models: seq<string>, r: Routing)
    ensures Extends(env, models, r, WithFallbacks(env, r, models))
  {
    FallbacksAreComplete(env, r, models);
    var places := FallbacksInOrder(env, r, models);
    if Distinct(r.fallbacks) {
      FallbacksStayDistinct(env, r, models);
    }
  }

  /** Every stage does that. */
  lemma StagesDo(env: Environment, config: Config, r: Routing)
    ensures StageDoes(env, config, r, ApplyStage(env, config, r).0, ApplyStage(env, config, r).1)
  {
    match config
    case LoadBalance(candidates, strategy) => ChosenPicks(env, candidates, strategy, r);
    case Route(profile, candidates) =>
      var known := profile in PROFILES && env.profileModel(profile) != "";
      ChosenPicks(env, candidates, "health_latency",
                  if known then r.(profile := profile, model := env.profileModel(profile)) else r);
    case Fallback(models) => FallbacksExtend(env, models, r);
    case _ =>
  }

  // ---------------------------------------------------------------- a compiled definition

  datatype Definition =
    | Compiled(stages: seq<Stage>, entry: Option<Id>, transitions: RouterPlan.Transitions)
    | Listed(stages: seq<Stage>)

  function StageIds(stages: seq<Stage>): seq<Id> {
    seq(|stages|, i requires 0 <= i < |stages| => stages[i].id)
  }

  function StagesOf(order: seq<Id>, configs: map<Id, Config>): seq<Stage>
    requires forall n | n in order :: n in configs
  {
    seq(|order|, i requires 0 <= i < |order| => Stage(order[i], configs[order[i]]))
  }

  /** choices.get(port) or choices.get("default") or "": absent and empty count alike. */
  function Next(transitions: RouterPlan.Transitions, current: Id, port: Port): Id {
    if current !in transitions then ""
    else
      var choices := transitions[current];
      if port in choices && choices[port] != "" then choices[port]
      else if "default" in choices then choices["default"]
      else ""
  }

  /** Over a graph's own table: the edge of the answered port, else the default edge, else the end. */
  lemma NextIsTheEdge(ids: seq<Id>, edges: seq<RouterPlan.Edge>, transitions: RouterPlan.Transitions, n: Id, port: Port)
    requires RouterPlan.Carries(ids, edges, transitions) && n in ids && "" !in ids && RouterPlan.Endpoints(ids, edges)
    ensures (exists e :: e in edges && e.source == n && e.port == port) ==> RouterPlan.Edge(n, port, Next(transitions, n, port)) in edges
    ensures (forall e | e in edges && e.source == n :: e.port != port) && (exists e :: e in edges && e.source == n && e.port == "default")
      ==> RouterPlan.Edge(n, "default", Next(transitions, n, port)) in edges
    ensures (forall e | e in edges && e.source == n :: e.port != port && e.port != "default") ==> Next(transitions, n, port) == ""
  {
    assert forall p | p in transitions[n] :: RouterPlan.Edge(n, p, transitions[n][p]) in edges;
    if e :| e in edges && e.source == n && e.port == port {
      assert transitions[n][port] == e.target;
    }
    if e :| e in edges && e.source == n && e.port == "default" {
      assert transitions[n]["default"] == e.target;
    }
  }

  /** Where a table leads: to the answered port's target if it names one, else to the default's, else nowhere. */
  lemma NextFollows(transitions: RouterPlan.Transitions, current: Id, port: Port)
    ensures current in transitions && port in transitions[current] && transitions[current][port] != ""
      ==> Next(transitions, current, port) == transitions[current][port]
    ensures current in transitions && (port !in transitions[current] || transitions[current][port] == "") && "default" in transitions[current]
      ==> Next(transitions, current, port) == transitions[current]["default"]
    ensures current !in transitions || (port !in transitions[current] && "default" !in transitions[current])
      ==> Next(transitions, current, port) == ""
  {
  }

  /** What the compiler guarantees the interpreter: every transition moves forward in the stage list. */
  ghost predicate MovesForward(stages: seq<Stage>, transitions: RouterPlan.Transitions) {
    && Distinct(StageIds(stages)) && (forall s | s in stages :: s.id != "")
    && (forall i, p | 0 <= i < |stages| && stages[i].id in transitions && p in transitions[stages[i].id] ::
          exists j :: i < j < |stages| && stages[j].id == transitions[stages[i].id][p])
  }

  lemma PlanMovesForward(ids: seq<Id>, edges: seq<RouterPlan.Edge>, plan: RouterPlan.PlanResult, configs: map<Id, Config>)
    requires plan.Plan? && RouterPlan.PlanFits(ids, edges, plan)
    requires RouterPlan.Endpoints(ids, edges) && "" !in ids && forall n | n in ids :: n in configs
    ensures MovesForward(StagesOf(plan.order, configs), plan.transitions)
    ensures ids != [] ==> plan.entry.Some? && StagesOf(plan.order, configs)[0].id == plan.entry.value
  {
    var stages := StagesOf(plan.order, configs);
    assert StageIds(stages) == plan.order;
    forall s | s in stages ensures s.id != "" {
      assert s.id in plan.order;
    }
    forall i, p | 0 <= i < |stages| && stages[i].id in plan.transitions && p in plan.transitions[stages[i].id]
      ensures exists j :: i < j < |stages| && stages[j].id == plan.transitions[stages[i].id][p]
    {
      var j := TargetIsLater(ids, edges, plan, i, p);
      assert stages[j].id == plan.transitions[stages[i].id][p];
    }
  }

  lemma TargetIsLater(ids: seq<Id>, edges: seq<RouterPlan.Edge>, plan: RouterPlan.PlanResult, i: nat, p: Port) returns (j: nat)
    requires plan.Plan? && RouterPlan.PlanFits(ids, edges, plan) && RouterPlan.Endpoints(ids, edges) && i < |plan.order|
    requires plan.order[i] in plan.transitions && p in plan.transitions[plan.order[i]]
    ensures i < j < |plan.order| && plan.order[j] == plan.transitions[plan.order[i]][p]
  {
    var n, target := plan.order[i], plan.transitions[plan.order[i]][p];
    var e := RouterPlan.Edge(n, p, target);
    assert e in edges;
    RouterPlan.TopologyHas(edges, n, target);
    TargetIsNode(ids, edges, plan, e);
    j :| 0 <= j < |plan.order| && plan.order[j] == target;
    assert (n, target) in RouterPlan.Topology(edges);
    assert n in plan.order[..j];
    var k :| 0 <= k < j && plan.order[k] == n;
    assert k == i;
  }

  lemma TargetIsNode(ids: seq<Id>, edges: seq<RouterPlan.Edge>, plan: RouterPlan.PlanResult, e: RouterPlan.Edge)
    requires plan.Plan? && RouterPlan.PlanFits(ids, edges, plan) && RouterPlan.Endpoints(ids, edges) && e in edges
    ensures e.target in plan.order
  {
  }

  // ---------------------------------------------------------------- the sweep

  /** One pass over the stage list from position `i`, running only the stage the pointer is at. */
  function Sweep(env: Environment, stages: seq<Stage>, transitions: RouterPlan.Transitions, i: nat, pointer: Id, r: Routing): Routing
    requires i <= |stages|
    decreases |stages| - i
  {
    if i == |stages| then r
    else if stages[i].id != pointer then Sweep(env, stages, transitions, i + 1, pointer, r)
    else
      var (r', port) := ApplyStage(env, stages[i].config, r);
      Sweep(env, stages, transitions, i + 1, Next(transitions, pointer, port), r')
  }

  /** The positions of the stages that the sweep runs. */
  function Trail(env: Environment, stages: seq<Stage>, transitions: RouterPlan.Transitions, i: nat, pointer: Id, r: Routing): seq<nat>
    requires i <= |stages|
    decreases |stages| - i
  {
    if i == |stages| then []
    else if stages[i].id != pointer then Trail(env, stages, transitions, i + 1, pointer, r)
    else
      var (r', port) := ApplyStage(env, stages[i].config, r);
      [i] + Trail(env, stages, transitions, i + 1, Next(transitions, pointer, port), r')
  }

  lemma {:induction false} SweepSkips(env: Environment, stages: seq<Stage>, transitions: RouterPlan.Transitions, i: nat, j: nat,
                                      pointer: Id, r: Routing)
    requires i <= j <= |stages| && forall k | i <= k < j :: stages[k].id != pointer
    ensures Sweep(env, stages, transitions, i, pointer, r) == Sweep(env, stages, transitions, j, pointer, r)
    ensures Trail(env, stages, transitions, i, pointer, r) == Trail(env, stages, transitions, j, pointer, r)
    decreases j - i
  {
    if i < j {
      SweepSkips(env, stages, transitions, i + 1, j, pointer, r);
    }
  }

  lemma SweepStep(env: Environment, stages: seq<Stage>, transitions: RouterPlan.Transitions, i: nat, j: nat, pointer: Id, r: Routing,
                  before: seq<nat>)
    requires i <= j < |stages| && stages[j].id == pointer && forall k | i <= k < j :: stages[k].id != pointer
    ensures var (r', port) := ApplyStage(env, stages[j].config, r);
      var next := Next(transitions, pointer, port);
      && Sweep(env, stages, transitions, i, pointer, r) == Sweep(env, stages, transitions, j + 1, next, r')
      && before + Trail(env, stages, transitions, i, pointer, r) == before + [j] + Trail(env, stages, transitions, j + 1, next, r')
  {
    SweepSkips(env, stages, transitions, i, j, pointer, r);
  }

  ghost function Appended(positions: seq<nat>, j: nat, at: nat): (r: seq<nat>)
    requires Increasing(positions) && at <= j && forall p | p in positions :: p < at
    ensures r == positions + [j] && Increasing(r) && forall p | p in r :: p < j + 1
  {
    var r := positions + [j];
    assert forall a, b | 0 <= a < b < |r| :: r[a] < r[b] by {
      forall a, b | 0 <= a < b < |r| ensures r[a] < r[b] {
        assert positions[a] in positions;
      }
    }
    r
  }

  /** The applied stages are the ones at these positions. */
  ghost predicate Recorded(stages: seq<Stage>, applied: seq<Id>, positions: seq<nat>) {
    |applied| == |positions|
    && forall k | 0 <= k < |positions| :: positions[k] < |stages| && applied[k] == stages[positions[k]].id
  }

  lemma RecordOne(stages: seq<Stage>, applied: seq<Id>, positions: seq<nat>, j: nat)
    requires Recorded(stages, applied, positions) && j < |stages|
    ensures Recorded(stages, applied + [stages[j].id], positions + [j])
  {
  }

  lemma {:induction false} IncreasingIsShort(positions: seq<nat>, bound: nat)
    requires Increasing(positions) && forall p | p in positions :: p < bound
    ensures |positions| <= bound
  {
    if positions != [] {
      var rest, last := positions[..|positions| - 1], positions[|positions| - 1];
      assert last in positions;
      forall p | p in rest ensures p < last {
        var a :| 0 <= a < |rest| && rest[a] == p;
        assert positions[a] < positions[|positions| - 1];
      }
      IncreasingIsShort(rest, last);
    }
  }

  /** The dictionary over the stage list: a later stage with the same id would win. */
  function ById(stages: seq<Stage>): map<Id, Stage> {
    if stages == [] then map[] else ById(stages[..|stages| - 1])[stages[|stages| - 1].id := stages[|stages| - 1]]
  }

  lemma {:induction false} ByIdLooksUp(stages: seq<Stage>)
    requires Distinct(StageIds(stages))
    ensures forall j | 0 <= j < |stages| :: stages[j].id in ById(stages) && ById(stages)[stages[j].id] == stages[j]
    ensures forall n | n in ById(stages) :: exists j :: 0 <= j < |stages| && stages[j].id == n
  {
    if stages != [] {
      var rest, last := stages[..|stages| - 1], |stages| - 1;
      assert StageIds(rest) == StageIds(stages)[..last];
      ByIdLooksUp(rest);
      forall j | 0 <= j < |stages| ensures stages[j].id in ById(stages) && ById(stages)[stages[j].id] == stages[j] {
        if j < last {
          assert StageIds(stages)[j] != StageIds(stages)[last];
          assert rest[j] == stages[j] && rest[j].id in ById(rest) && ById(rest)[rest[j].id] == rest[j];
        }
      }
      forall n | n in ById(stages) ensures exists j :: 0 <= j < |stages| && stages[j].id == n {
        if n == stages[last].id {
          assert last < |stages|;
        } else {
          assert n in ById(rest);
          var j :| 0 <= j < |rest| && rest[j].id == n;
          assert stages[j].id == n;
        }
      }
    }
  }

  lemma DistinctAt(stages: seq<Stage>, j: nat, at: nat)
    requires Distinct(StageIds(stages)) && at <= j < |stages|
    ensures forall k | 0 <= k < |stages| && k != j :: stages[k].id != stages[j].id
  {
    forall k | 0 <= k < |stages| && k != j ensures stages[k].id != stages[j].id {
      assert StageIds(stages)[k] != StageIds(stages)[j];
    }
  }

  lemma StepsForward(stages: seq<Stage>, transitions: RouterPlan.Transitions, j: nat, port: Port)
    requires MovesForward(stages, transitions) && j < |stages|
    ensures var next := Next(transitions, stages[j].id, port);
      next == "" || exists k :: j < k < |stages| && stages[k].id == next
    ensures forall s | s in stages :: s.id != ""
  {
  }

  // ---------------------------------------------------------------- walks, without saying how they are found

  /** One applied stage: its position, the routing before and after, and the port it answered. */
  datatype Stop = Stop(position: nat, before: Routing, after: Routing, port: Port)

  /** Where a walk from `entry` stands after its last stop. */
  ghost function Stands(stages: seq<Stage>, transitions: RouterPlan.Transitions, entry: Id, walk: seq<Stop>): Id {
    if walk == [] then entry else
    var last := walk[|walk| - 1];
    if last.position < |stages| then Next(transitions, stages[last.position].id, last.port) else ""
  }

  ghost function Holds(start: Routing, walk: seq<Stop>): Routing {
    if walk == [] then start else walk[|walk| - 1].after
  }

  /** Each stop is at the stage where the walk stood, which does to the routing what its kind does. */
  ghost predicate Walked(env: Environment, stages: seq<Stage>, transitions: RouterPlan.Transitions, entry: Id, start: Routing,
                         walk: seq<Stop>) {
    walk == [] ||
    var rest, last := walk[..|walk| - 1], walk[|walk| - 1];
    && Walked(env, stages, transitions, entry, start, rest)
    && last.position < |stages| && stages[last.position].id == Stands(stages, transitions, entry, rest)
    && last.before == Holds(start, rest) && StageDoes(env, stages[last.position].config, last.before, last.after, last.port)
  }

  lemma WalkOn(env: Environment, stages: seq<Stage>, transitions: RouterPlan.Transitions, entry: Id, start: Routing, walk: seq<Stop>,
               stop: Stop)
    requires Walked(env, stages, transitions, entry, start, walk) && stop.position < |stages|
    requires stages[stop.position].id == Stands(stages, transitions, entry, walk) && stop.before == Holds(start, walk)
    requires StageDoes(env, stages[stop.position].config, stop.before, stop.after, stop.port)
    ensures Walked(env, stages, transitions, entry, start, walk + [stop])
    ensures Stands(stages, transitions, entry, walk + [stop]) == Next(transitions, stages[stop.position].id, stop.port)
    ensures Holds(start, walk + [stop]) == stop.after
  {
    assert (walk + [stop])[..|walk|] == walk;
  }

  ghost predicate StopsAt(walk: seq<Stop>, positions: seq<nat>) {
    |walk| == |positions| && forall k | 0 <= k < |walk| :: walk[k].position == positions[k]
  }

  // ---------------------------------------------------------------- the interpreter

  /** The blank candidates drop out, and the best of the others is asked for. */
  method Choose(env: Environment, candidates: seq<string>, strategy: string, r: Routing) returns (r': Routing)
    ensures r' == Chosen(env, candidates, strategy, r)
  {
    r' := r;
    var usable := KeepNonBlank(candidates);
    if usable != [] {
      var (model, world) := env.best(usable, strategy, r.world);
      r' := r'.(model := model, world := world);
    }
  }

  /** The loop over the fallback candidates. */
  method AddFallbacks(env: Environment, models: seq<string>, r: Routing) returns (r': Routing)
    ensures r' == WithFallbacks(env, r, models)
  {
    r' := r;
    var i := 0;
    while i < |models|
      invariant 0 <= i <= |models| && r' == WithFallbacks(env, r, models[..i])
    {
      var mapped := if models[i] in PROFILES then env.profileModel(models[i]) else models[i];
      assert models[..i + 1][..i] == models[..i];
      if mapped != "" && mapped != r'.model && mapped !in r'.fallbacks {
        r' := r'.(fallbacks := r'.fallbacks + [mapped]);
      }
      i := i + 1;
    }
    assert models[..|models|] == models;
  }

  /** apply_stage: the branch of the stage's kind changes the routing step by step and answers a port. */
  method RunStage(env: Environment, config: Config, r: Routing) returns (r': Routing, port: Port)
    ensures (r', port) == ApplyStage(env, config, r) && StageDoes(env, config, r, r', port)
  {
    StagesDo(env, config, r);
    r', port := r, "default";
    match config {
      case Classifier =>
        if r.profile == "vision" || env.saysImage {
          port := "vision";
        } else if r.profile == "coding" || env.saysCode {
          port := "coding";
        }
      case Condition(w) =>
        port := if env.whenMatches(w, r.profile) then "true" else "false";
      case CapabilityFilter(require) =>
        var available: set<string> := {};
        if env.saysImage {
          available := available + {"vision"};
        }
        if env.saysTools {
          available := available + {"tools"};
        }
        port := if require <= available then "matched" else "unmatched";
      case HealthFilter =>
        port := "healthy";
        if r.model != "" {
          var (ok, world) := env.healthy(r.model, r.world);
          r' := r'.(world := world);
          if !ok {
            port := "unhealthy";
          }
        }
      case LoadBalance(candidates, strategy) =>
        r' := Choose(env, candidates, strategy, r);
      case Route(profile, candidates) =>
        if profile in PROFILES {
          var model := env.profileModel(profile);
          if model != "" {
            r' := r'.(profile := profile, model := model);
          }
        }
        r' := Choose(env, candidates, "health_latency", r');
      case Retry(n) =>
        var clamped := if n < 0 then 0 else if n > 5 then 5 else n;
        if r'.retries < clamped {
          r' := r'.(retries := clamped);
        }
      case Fallback(models) =>
        r' := AddFallbacks(env, models, r);
      case Approval =>
      case CostLatencyScore =>
    }
  }

  /** The walk up to stage `at`: what it did so far, and that a sweep from here does the rest. */
  ghost predicate OnTheWay(env: Environment, stages: seq<Stage>, transitions: RouterPlan.Transitions, entry: Id, start: Routing,
                           at: nat, current: Id, r: Routing, applied: seq<Id>, positions: seq<nat>, walk: seq<Stop>) {
    && at <= |stages| && Walked(env, stages, transitions, entry, start, walk) && StopsAt(walk, positions)
    && current == Stands(stages, transitions, entry, walk) && r == Holds(start, walk)
    && Sweep(env, stages, transitions, at, current, r) == Sweep(env, stages, transitions, 0, entry, start)
    && positions + Trail(env, stages, transitions, at, current, r) == Trail(env, stages, transitions, 0, entry, start)
    && Recorded(stages, applied, positions) && Increasing(positions) && forall p | p in positions :: p < at
  }

  lemma OneStop(env: Environment, stages: seq<Stage>, transitions: RouterPlan.Transitions, entry: Id, start: Routing, at: nat,
                r: Routing, applied: seq<Id>, positions: seq<nat>, walk: seq<Stop>, stop: Stop)
    requires at <= stop.position < |stages| && forall k | at <= k < stop.position :: stages[k].id != stages[stop.position].id
    requires OnTheWay(env, stages, transitions, entry, start, at, stages[stop.position].id, r, applied, positions, walk)
    requires stop.before == r && (stop.after, stop.port) == ApplyStage(env, stages[stop.position].config, r)
    ensures OnTheWay(env, stages, transitions, entry, start, stop.position + 1,
                     Next(transitions, stages[stop.position].id, stop.port), stop.after,
                     applied + [stages[stop.position].id], positions + [stop.position], walk + [stop])
  {
    var j := stop.position;
    StagesDo(env, stages[j].config, r);
    WalkOn(env, stages, transitions, entry, start, walk, stop);
    SweepStep(env, stages, transitions, at, j, stages[j].id, r, positions);
    RecordOne(stages, applied, positions, j);
    var longer := Appended(positions, j, at);
  }

  lemma WalkBegins(env: Environment, stages: seq<Stage>, transitions: RouterPlan.Transitions, entry: Id, start: Routing)
    requires MovesForward(stages, transitions)
    ensures OnTheWay(env, stages, transitions, entry, start, 0, entry, start, [], [], []) && Ahead(stages, 0, entry, {})
  {
    assert [] + Trail(env, stages, transitions, 0, entry, start) == Trail(env, stages, transitions, 0, entry, start);
  }

  /** No stage from `at` on was visited, and the walk stands at one of them or at none at all. */
  ghost predicate Ahead(stages: seq<Stage>, at: nat, current: Id, visited: set<Id>) {
    && (forall k | at <= k < |stages| :: stages[k].id !in visited)
    && (forall k | 0 <= k < |stages| && stages[k].id == current :: at <= k)
  }

  lemma Here(stages: seq<Stage>, at: nat, current: Id, visited: set<Id>) returns (j: nat)
    requires Distinct(StageIds(stages)) && Ahead(stages, at, current, visited) && current in ById(stages)
    ensures at <= j < |stages| && stages[j].id == current && ById(stages)[current] == stages[j]
    ensures forall k | at <= k < j :: stages[k].id != current
  {
    ByIdLooksUp(stages);
    j :| 0 <= j < |stages| && stages[j].id == current;
    DistinctAt(stages, j, at);
  }

  lemma StillAhead(stages: seq<Stage>, transitions: RouterPlan.Transitions, at: nat, j: nat, port: Port, visited: set<Id>)
    requires MovesForward(stages, transitions) && at <= j < |stages|
    requires forall k | at <= k < |stages| && stages[k].id in visited :: stages[k].id == stages[j].id
    ensures Ahead(stages, j + 1, Next(transitions, stages[j].id, port), visited)
  {
    DistinctAt(stages, j, at);
    StepsForward(stages, transitions, j, port);
    var next := Next(transitions, stages[j].id, port);
    forall k | 0 <= k < |stages| && stages[k].id == next ensures j + 1 <= k {
      assert stages[k] in stages;
      var m :| j < m < |stages| && stages[m].id == next;
      DistinctAt(stages, m, at);
    }
  }

  lemma WalkEnds(env: Environment, stages: seq<Stage>, transitions: RouterPlan.Transitions, entry: Id, start: Routing, at: nat,
                 current: Id, r: Routing, applied: seq<Id>, positions: seq<nat>, walk: seq<Stop>, visited: set<Id>)
    requires Distinct(StageIds(stages)) && OnTheWay(env, stages, transitions, entry, start, at, current, r, applied, positions, walk)
    requires Ahead(stages, at, current, visited) && (current !in ById(stages) || current in visited)
    ensures r == Sweep(env, stages, transitions, 0, entry, start) && positions == Trail(env, stages, transitions, 0, entry, start)
    ensures (forall s | s in stages :: s.id != current) && |positions| <= |stages|
  {
    ByIdLooksUp(stages);
    forall k | 0 <= k < |stages| ensures stages[k].id != current {
    }
    SweepSkips(env, stages, transitions, at, |stages|, current, r);
    IncreasingIsShort(positions, at);
  }

  /** Looking up the stage the walk stands at, and running it. */
  method RunStageAt(env: Environment, byId: map<Id, Stage>, current: Id, r: Routing) returns (r': Routing, port: Port)
    requires current in byId
    ensures (r', port) == ApplyStage(env, byId[current].config, r)
  {
    r', port := RunStage(env, byId[current].config, r);
  }

  /** The walk over the transition table does what one sweep over the stage list does: it visits strictly
      increasing positions and ends because the pointer leaves the list, never at the visited guard. */
  method WalkTable(env: Environment, stages: seq<Stage>, transitions: RouterPlan.Transitions, entry: Id, start: Routing)
    returns (r: Routing, last: Id, applied: seq<Id>, ghost positions: seq<nat>, ghost walk: seq<Stop>)
    requires MovesForward(stages, transitions)
    ensures Walked(env, stages, transitions, entry, start, walk) && StopsAt(walk, positions)
    ensures last == Stands(stages, transitions, entry, walk) && r == Holds(start, walk)
    ensures r == Sweep(env, stages, transitions, 0, entry, start)
    ensures forall s | s in stages :: s.id != last
    ensures positions == Trail(env, stages, transitions, 0, entry, start)
    ensures Increasing(positions) && |positions| <= |stages| && Recorded(stages, applied, positions)
  {
    var byId := ById(stages);
    var current, visited := entry, {};
    r := start;
    applied, positions, walk := [], [], [];
    ghost var at: nat := 0;
    WalkBegins(env, stages, transitions, entry, start);
    while current in byId && current !in visited
      invariant OnTheWay(env, stages, transitions, entry, start, at, current, r, applied, positions, walk)
      invariant Ahead(stages, at, current, visited)
      decreases |stages| - at
    {
      ghost var j := Here(stages, at, current, visited);
      visited := visited + {current};
      ghost var before := r;
      var port;
      r, port := RunStageAt(env, byId, current, r);
      OneStop(env, stages, transitions, entry, start, at, before, applied, positions, walk, Stop(j, before, r, port));
      StillAhead(stages, transitions, at, j, port, visited);
      positions, applied, walk := positions + [j], applied + [current], walk + [Stop(j, before, r, port)];
      current := Next(transitions, current, port);
      at := j + 1;
    }
    last := current;
    WalkEnds(env, stages, transitions, entry, start, at, current, r, applied, positions, walk, visited);
  }

  // ---------------------------------------------------------------- all enabled pipelines

  /** A definition without a graph: conditions gate everything after them. */
  function GatedPrefix(env: Environment, stages: seq<Stage>, i: nat, r: Routing): Routing
    requires i <= |stages|
    decreases |stages| - i
  {
    if i == |stages| then r
    else match stages[i].config
      case Condition(w) => if env.whenMatches(w, r.profile) then GatedPrefix(env, stages, i + 1, r) else r
      case config => GatedPrefix(env, stages, i + 1, ApplyStage(env, config, r).0)
  }

  ghost predicate PassesOne(env: Environment, config: Config, r: Routing, r': Routing) {
    if config.Condition? then env.whenMatches(config.when_, r.profile) && r' == r
    else exists port :: StageDoes(env, config, r, r', port)
  }

  /** The first `n` stages of a plain list, each with its routing before and after: the conditions among them match and
      change nothing, the other stages do what their kinds do. */
  ghost predicate Passes(env: Environment, stages: seq<Stage>, n: nat, routings: seq<Routing>) {
    && n <= |stages| && |routings| == n + 1
    && forall k | 0 <= k < n :: PassesOne(env, stages[k].config, routings[k], routings[k + 1])
  }

  /** It ends at the end of the list or before a condition that does not match. */
  ghost predicate EndsAt(env: Environment, stages: seq<Stage>, n: nat, r: Routing) {
    n == |stages| || (n < |stages| && stages[n].config.Condition? && !env.whenMatches(stages[n].config.when_, r.profile))
  }

  lemma PassesOneMore(env: Environment, stages: seq<Stage>, n: nat, routings: seq<Routing>, r: Routing)
    requires Passes(env, stages, n, routings) && n < |stages|
    requires PassesOne(env, stages[n].config, routings[n], r)
    ensures Passes(env, stages, n + 1, routings + [r])
  {
    var longer := routings + [r];
    forall k | 0 <= k < n ensures PassesOne(env, stages[k].config, longer[k], longer[k + 1]) {
    }
  }

  predicate HasEntry(d: Definition) {
    d.Compiled? && d.entry.Some? && exists s :: s in d.stages && s.id == d.entry.value
  }

  function RunDefinition(env: Environment, d: Definition, r: Routing): Routing {
    if HasEntry(d) then Sweep(env, d.stages, d.transitions, 0, d.entry.value, r)
    else GatedPrefix(env, d.stages, 0, r)
  }

  function RunAll(env: Environment, rows: seq<Definition>, r: Routing): Routing {
    if rows == [] then r else RunDefinition(env, rows[|rows| - 1], RunAll(env, rows[..|rows| - 1], r))
  }

  ghost predicate Runnable(d: Definition) {
    d.Compiled? ==> MovesForward(d.stages, d.transitions)
  }

  /** The loop for definitions without a usable transition table. */
  method RunGated(env: Environment, stages: seq<Stage>, start: Routing) returns (r: Routing, ghost n: nat, ghost routings: seq<Routing>)
    ensures r == GatedPrefix(env, stages, 0, start)
    ensures Passes(env, stages, n, routings) && routings[0] == start && routings[n] == r && EndsAt(env, stages, n, r)
  {
    var active := true;
    r, n, routings := start, 0, [start];
    for i := 0 to |stages|
      invariant GatedPrefix(env, stages, 0, start) == if active then GatedPrefix(env, stages, i, r) else r
      invariant Passes(env, stages, n, routings) && routings[0] == start && routings[n] == r
      invariant if active then n == i else n < i && EndsAt(env, stages, n, r)
    {
      if stages[i].config.Condition? {
        active := active && env.whenMatches(stages[i].config.when_, r.profile);
        if active {
          PassesOneMore(env, stages, n, routings, r);
          n, routings := n + 1, routings + [r];
        }
      } else if active {
        var port;
        r, port := RunStage(env, stages[i].config, r);
        PassesOneMore(env, stages, n, routings, r);
        n, routings := n + 1, routings + [r];
      }
    }
  }

  ghost predicate WalksTo(env: Environment, d: Definition, r: Routing, r': Routing, walk: seq<Stop>)
    requires d.Compiled? && d.entry.Some?
  {
    && Walked(env, d.stages, d.transitions, d.entry.value, r, walk) && r' == Holds(r, walk)
    && forall s | s in d.stages :: s.id != Stands(d.stages, d.transitions, d.entry.value, walk)
  }

  ghost predicate PassesTo(env: Environment, stages: seq<Stage>, r: Routing, r': Routing, n: nat, routings: seq<Routing>) {
    Passes(env, stages, n, routings) && routings[0] == r && routings[n] == r' && EndsAt(env, stages, n, r')
  }

  /** A compiled definition is walked from its entry to the end; any other passes its list up to a condition that fails. */
  ghost predicate DefinitionDoes(env: Environment, d: Definition, r: Routing, r': Routing) {
    if d.Compiled? && d.entry.Some? && exists s :: s in d.stages && s.id == d.entry.value then
      exists walk :: WalksTo(env, d, r, r', walk)
    else
      exists n, routings :: PassesTo(env, d.stages, r, r', n, routings)
  }

  /** One row of the table of pipelines. */
  method RunRow(env: Environment, d: Definition, start: Routing) returns (r: Routing)
    requires Runnable(d)
    ensures r == RunDefinition(env, d, start) && DefinitionDoes(env, d, start, r)
  {
    var compiled := HasEntry(d);
    if compiled {
      var last, applied;
      ghost var positions, walk;
      r, last, applied, positions, walk := WalkTable(env, d.stages, d.transitions, d.entry.value, start);
      assert WalksTo(env, d, start, r, walk);
    } else {
      ghost var n, routings;
      r, n, routings := RunGated(env, d.stages, start);
      assert PassesTo(env, d.stages, start, r, n, routings);
    }
  }

  /** The whole of _apply_router_pipelines, over the enabled rows in priority order; `passes` are the routings between
      the rows. */
  method ApplyRouterPipelines(env: Environment, rows: seq<Definition>, profile: string, model: string, world: World)
    returns (r: Routing, ghost passes: seq<Routing>)
    requires forall d | d in rows :: Runnable(d)
    ensures r == RunAll(env, rows, Routing(profile, model, 0, [], world))
    ensures |passes| == |rows| + 1 && passes[0] == Routing(profile, model, 0, [], world) && passes[|rows|] == r
    ensures forall i | 0 <= i < |rows| :: DefinitionDoes(env, rows[i], passes[i], passes[i + 1])
  {
    r := Routing(profile, model, 0, [], world);
    passes := [r];
    for i := 0 to |rows|
      invariant r == RunAll(env, rows[..i], Routing(profile, model, 0, [], world))
      invariant |passes| == i + 1 && passes[0] == Routing(profile, model, 0, [], world) && passes[i] == r
      invariant forall k | 0 <= k < i :: DefinitionDoes(env, rows[k], passes[k], passes[k + 1])
    {
      var d := rows[i];
      assert rows[..i + 1][..i] == rows[..i];
      assert d in rows;
      r := RunRow(env, d, r);
      passes := passes + [r];
    }
    assert rows[..|rows|] == rows;
  }

  /** Retries stay between 0 and 5 and never go down; fallbacks only grow and stay distinct. */
  ghost predicate Bounded(r: Routing) {
    0 <= r.retries <= 5 && Distinct(r.fallbacks)
  }

  lemma StageKeepsBounds(env: Environment, config: Config, r: Routing)
    requires Bounded(r)
    ensures var r' := ApplyStage(env, config, r).0;
      Bounded(r') && r.retries <= r'.retries && r.fallbacks <= r'.fallbacks
  {
    if config.Fallback? {
      FallbacksStayDistinct(env, r, config.models);
    }
  }

  lemma {:induction false} SweepKeepsBounds(env: Environment, stages: seq<Stage>, transitions: RouterPlan.Transitions, i: nat,
                                            pointer: Id, r: Routing)
    requires i <= |stages| && Bounded(r)
    ensures var r' := Sweep(env, stages, transitions, i, pointer, r);
      Bounded(r') && r.retries <= r'.retries && r.fallbacks <= r'.fallbacks
    decreases |stages| - i
  {
    if i < |stages| {
      if stages[i].id != pointer {
        SweepKeepsBounds(env, stages, transitions, i + 1, pointer, r);
      } else {
        StageKeepsBounds(env, stages[i].config, r);
        var (r', port) := ApplyStage(env, stages[i].config, r);
        SweepKeepsBounds(env, stages, transitions, i + 1, Next(transitions, pointer, port), r');
      }
    }
  }
}
