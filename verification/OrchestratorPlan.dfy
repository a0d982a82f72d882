/**
 Turning a planner's answer into bounded steps, and deciding which of them a person must approve
 (smart-router/src/smart_router/orchestrator_v60.py:233-335).
 */
module OrchestratorPlan {
  import opened Collections
  import opened Text

  /** A JSON value where a number is expected, as int() sees it. */
  datatype Given = Unreadable | Reads(n: int)

  type Agent = int

  datatype RawStep =
    | Object(title: string, action: string, agent: string, tools: seq<string>, flagged: bool, attempts: Given)
    | NotAnObject

  datatype Step = Step(idx: nat, title: string, action: string, agent: Agent, tools: seq<string>, flagged: bool, maxAttempts: nat)

  datatype PlanError = NoSteps | UnknownAgent(order: nat) | NothingUsable

  datatype Plan = Steps(steps: seq<Step>) | Invalid(error: PlanError)

  const MAX_STEPS_LIMIT := 20
  const MAX_ATTEMPTS_LIMIT := 3

  function Bounded(value: Given, missing: int, limit: int): (r: nat)
    requires 1 <= missing <= limit
    ensures 1 <= r <= limit
    ensures value.Reads? && 1 <= value.n <= limit ==> r == value.n
  {
    var n := if value.Reads? then value.n else missing;
    if n < 1 then 1 else if n > limit then limit else n
  }

  function BoundedSteps(value: Given): (r: nat)
    ensures 1 <= r <= 20
  {
    Bounded(value, 8, MAX_STEPS_LIMIT)
  }

  function BoundedAttempts(value: Given): (r: nat)
    ensures 1 <= r <= 3
  {
    Bounded(value, 2, MAX_ATTEMPTS_LIMIT)
  }

  // ---------------------------------------------------------------- one step of the plan

  function TitleOf(raw: RawStep): string
    requires raw.Object?
  {
    Cut(Strip(Or(raw.title, raw.action)), 400)
  }

  function ActionOf(raw: RawStep): string
    requires raw.Object?
  {
    Cut(Strip(Or(raw.action, raw.title)), 4000)
  }

  function NonBlank(items: seq<string>): seq<string> {
    if items == [] then []
    else (if Strip(items[0]) != "" then [Strip(items[0])] else []) + NonBlank(items[1..])
  }

  function FirstEight(items: seq<string>): seq<string> {
    if |items| <= 8 then items else items[..8]
  }

  predicate Usable(raw: RawStep) {
    raw.Object? && (TitleOf(raw) != "" || ActionOf(raw) != "")
  }

  function Clean(raw: RawStep, order: nat, agent: Agent): Step
    requires Usable(raw)
  {
    Step(order, Or(TitleOf(raw), Cut(ActionOf(raw), 120)), Or(ActionOf(raw), TitleOf(raw)), agent,
         FirstEight(NonBlank(raw.tools)), raw.flagged, BoundedAttempts(raw.attempts))
  }

  // ---------------------------------------------------------------- the plan

  function Considered(raws: seq<RawStep>, maxSteps: nat): seq<RawStep> {
    if |raws| <= maxSteps then raws else raws[..maxSteps]
  }

  predicate Ascending(steps: seq<Step>) {
    forall i, j | 0 <= i < j < |steps| :: steps[i].idx < steps[j].idx
  }

  predicate Within(steps: seq<Step>, limit: nat) {
    forall s | s in steps :: 1 <= s.idx <= limit && 1 <= s.maxAttempts <= MAX_ATTEMPTS_LIMIT
  }

  /** What the raw step at this place makes: nothing if it says nothing or its agent is unknown. */
  function Drawing(raws: seq<RawStep>, resolve: string -> Option<Agent>, idx: nat): Option<Step> {
    if 1 <= idx <= |raws| && Usable(raws[idx - 1]) && resolve(raws[idx - 1].agent).Some?
    then Some(Clean(raws[idx - 1], idx, resolve(raws[idx - 1].agent).value)) else None
  }

  /** Each step comes from the raw step at its own place in the answer, with a known agent. */
  ghost predicate Drawn(steps: seq<Step>, raws: seq<RawStep>, resolve: string -> Option<Agent>) {
    forall s | s in steps :: Drawing(raws, resolve, s.idx) == Some(s)
  }

  predicate Lists(steps: seq<Step>, idx: nat) {
    exists s :: s in steps && s.idx == idx
  }

  /** Every usable raw step before `n` is listed. */
  ghost predicate ListsAll(steps: seq<Step>, raws: seq<RawStep>, n: nat)
    requires n <= |raws|
  {
    forall i | 0 <= i < n && Usable(raws[i]) :: Lists(steps, i + 1)
  }

  predicate Assigned(raw: RawStep, resolve: string -> Option<Agent>) {
    Usable(raw) ==> resolve(raw.agent).Some?
  }

  /** What normalize_plan answers, without saying how it gets there. */
  ghost predicate PlanOf(raws: seq<RawStep>, maxSteps: nat, resolve: string -> Option<Agent>, plan: Plan) {
    var cut := Considered(raws, maxSteps);
    match plan
    case Invalid(NoSteps) => raws == []
    case Invalid(UnknownAgent(order)) =>
      && raws != [] && 1 <= order <= |cut| && !Assigned(cut[order - 1], resolve)
      && forall i | 0 <= i < order - 1 :: Assigned(cut[i], resolve)
    case Invalid(NothingUsable) => raws != [] && forall raw | raw in cut :: !Usable(raw)
    case Steps(steps) =>
      && raws != [] && steps != [] && Ascending(steps) && Within(steps, maxSteps) && |steps| <= |cut|
      && Drawn(steps, cut, resolve) && ListsAll(steps, cut, |cut|)
  }

  lemma AppendStep(steps: seq<Step>, step: Step, raws: seq<RawStep>, i: nat, resolve: string -> Option<Agent>)
    requires i < |raws| && Ascending(steps) && Drawn(steps, raws, resolve) && ListsAll(steps, raws, i)
    requires forall s | s in steps :: s.idx <= i
    requires step.idx == i + 1 && Drawing(raws, resolve, i + 1) == Some(step)
    ensures Ascending(steps + [step]) && Drawn(steps + [step], raws, resolve) && ListsAll(steps + [step], raws, i + 1)
  {
    var more := steps + [step];
    assert step in more;
    forall j | 0 <= j < i + 1 && Usable(raws[j]) ensures Lists(more, j + 1) {
      if j < i {
        StillLists(steps, step, raws, i, j);
      }
    }
    AppendAscends(steps, step);
    forall s | s in more ensures s in steps || s == step {
    }
  }

  lemma StillLists(steps: seq<Step>, step: Step, raws: seq<RawStep>, i: nat, j: nat)
    requires j < i <= |raws| && ListsAll(steps, raws, i) && Usable(raws[j])
    ensures Lists(steps + [step], j + 1)
  {
    assert Lists(steps, j + 1);
    var s :| s in steps && s.idx == j + 1;
    assert s in steps + [step];
  }

  lemma AppendAscends(steps: seq<Step>, step: Step)
    requires Ascending(steps) && forall s | s in steps :: s.idx < step.idx
    ensures Ascending(steps + [step])
  {
    forall a, b | 0 <= a < b < |steps + [step]| ensures (steps + [step])[a].idx < (steps + [step])[b].idx {
      assert (steps + [step])[a] in steps;
    }
  }

  lemma {:induction false} PlacesFit(steps: seq<Step>, n: nat)
    requires Ascending(steps) && forall s | s in steps :: 1 <= s.idx <= n
    ensures |steps| <= n
  {
    if steps != [] {
      var rest, last := steps[..|steps| - 1], steps[|steps| - 1];
      assert last in steps;
      forall s | s in rest ensures 1 <= s.idx <= last.idx - 1 {
        var a :| 0 <= a < |rest| && rest[a] == s;
        assert steps[a] in steps && steps[a].idx < steps[|steps| - 1].idx;
      }
      PlacesFit(rest, last.idx - 1);
    }
  }

  /** The first `i` raw steps are done: the usable ones are listed and assigned. */
  ghost predicate Sofar(steps: seq<Step>, raws: seq<RawStep>, i: nat, resolve: string -> Option<Agent>)
    requires i <= |raws|
  {
    && Ascending(steps) && Drawn(steps, raws, resolve) && ListsAll(steps, raws, i)
    && (forall s | s in steps :: s.idx <= i)
    && (steps == [] ==> forall j | 0 <= j < i :: !Usable(raws[j]))
    && forall j | 0 <= j < i :: Assigned(raws[j], resolve)
  }

  lemma PassOver(steps: seq<Step>, raws: seq<RawStep>, i: nat, resolve: string -> Option<Agent>)
    requires i < |raws| && Sofar(steps, raws, i, resolve) && !Usable(raws[i])
    ensures Sofar(steps, raws, i + 1, resolve)
  {
  }

  lemma TakeStep(steps: seq<Step>, step: Step, raws: seq<RawStep>, i: nat, resolve: string -> Option<Agent>)
    requires i < |raws| && Sofar(steps, raws, i, resolve)
    requires step.idx == i + 1 && Drawing(raws, resolve, i + 1) == Some(step)
    ensures Sofar(steps + [step], raws, i + 1, resolve)
  {
    AppendStep(steps, step, raws, i, resolve);
    forall s | s in steps + [step] ensures s.idx <= i + 1 {
      assert s in steps || s == step;
    }
  }

  lemma AllTaken(steps: seq<Step>, raws: seq<RawStep>, maxSteps: nat, resolve: string -> Option<Agent>)
    requires raws != [] && var cut := Considered(raws, maxSteps); Sofar(steps, cut, |cut|, resolve)
    ensures PlanOf(raws, maxSteps, resolve, if steps == [] then Invalid(NothingUsable) else Steps(steps))
  {
    PlacesFit(steps, |Considered(raws, maxSteps)|);
  }

  lemma FirstUnknown(steps: seq<Step>, raws: seq<RawStep>, maxSteps: nat, resolve: string -> Option<Agent>, i: nat)
    requires var cut := Considered(raws, maxSteps); i < |cut| && Sofar(steps, cut, i, resolve) && !Assigned(cut[i], resolve)
    ensures PlanOf(raws, maxSteps, resolve, Invalid(UnknownAgent(i + 1)))
  {
  }

  method NormalizePlan(raws: seq<RawStep>, maxSteps: nat, resolve: string -> Option<Agent>) returns (plan: Plan)
    ensures PlanOf(raws, maxSteps, resolve, plan)
  {
    if raws == [] {
      return Invalid(NoSteps);
    }
    var cut := Considered(raws, maxSteps);
    var steps: seq<Step> := [];
    for i := 0 to |cut|
      invariant Sofar(steps, cut, i, resolve)
    {
      if Usable(cut[i]) {
        var agent := resolve(cut[i].agent);
        if agent.None? {
          FirstUnknown(steps, raws, maxSteps, resolve, i);
          return Invalid(UnknownAgent(i + 1));
        }
        var step := Clean(cut[i], i + 1, agent.value);
        TakeStep(steps, step, cut, i, resolve);
        steps := steps + [step];
      } else {
        PassOver(steps, cut, i, resolve);
      }
    }
    AllTaken(steps, raws, maxSteps, resolve);
    return if steps == [] then Invalid(NothingUsable) else Steps(steps);
  }

  /** The answer is determined: no two plans meet the description. */
  lemma PlanIsDetermined(raws: seq<RawStep>, maxSteps: nat, resolve: string -> Option<Agent>, a: Plan, b: Plan)
    requires PlanOf(raws, maxSteps, resolve, a) && PlanOf(raws, maxSteps, resolve, b)
    ensures a == b
  {
    var cut := Considered(raws, maxSteps);
    if a.Steps? { StepsExclude(raws, maxSteps, resolve, a.steps, b); }
    if b.Steps? { StepsExclude(raws, maxSteps, resolve, b.steps, a); }
    if a.Steps? && b.Steps? {
      SameSteps(a.steps, b.steps, cut, resolve);
    }
  }

  lemma ListedAreAssigned(steps: seq<Step>, raws: seq<RawStep>, resolve: string -> Option<Agent>, i: nat)
    requires Drawn(steps, raws, resolve) && ListsAll(steps, raws, |raws|) && i < |raws|
    ensures Assigned(raws[i], resolve)
  {
    if Usable(raws[i]) {
      assert Lists(steps, i + 1);
      var t :| t in steps && t.idx == i + 1;
    }
  }

  lemma SomeUsable(steps: seq<Step>, raws: seq<RawStep>, resolve: string -> Option<Agent>)
    requires Drawn(steps, raws, resolve) && steps != []
    ensures exists raw :: raw in raws && Usable(raw)
  {
    assert steps[0] in steps && raws[steps[0].idx - 1] in raws;
  }

  lemma StepsExclude(raws: seq<RawStep>, maxSteps: nat, resolve: string -> Option<Agent>, steps: seq<Step>, other: Plan)
    requires PlanOf(raws, maxSteps, resolve, Steps(steps)) && PlanOf(raws, maxSteps, resolve, other)
    ensures other.Steps?
  {
    var cut := Considered(raws, maxSteps);
    SomeUsable(steps, cut, resolve);
    forall i: nat | i < |cut| ensures Assigned(cut[i], resolve) {
      ListedAreAssigned(steps, cut, resolve, i);
    }
  }

  lemma {:induction false} SameSteps(a: seq<Step>, b: seq<Step>, raws: seq<RawStep>, resolve: string -> Option<Agent>)
    requires Ascending(a) && Ascending(b) && Drawn(a, raws, resolve) && Drawn(b, raws, resolve)
    requires ListsAll(a, raws, |raws|) && ListsAll(b, raws, |raws|)
    ensures a == b
  {
    forall s ensures s in a <==> s in b {
      if s in a { Shared(a, b, raws, resolve, s); }
      if s in b { Shared(b, a, raws, resolve, s); }
    }
    SameAscending(a, b);
  }

  lemma ListedAt(b: seq<Step>, raws: seq<RawStep>, resolve: string -> Option<Agent>, idx: nat) returns (t: Step)
    requires ListsAll(b, raws, |raws|) && Drawing(raws, resolve, idx).Some?
    ensures t in b && t.idx == idx
  {
    assert Lists(b, idx - 1 + 1);
    t :| t in b && t.idx == idx;
  }

  lemma Shared(a: seq<Step>, b: seq<Step>, raws: seq<RawStep>, resolve: string -> Option<Agent>, s: Step)
    requires Drawn(a, raws, resolve) && Drawn(b, raws, resolve) && ListsAll(b, raws, |raws|) && s in a
    ensures s in b
  {
    var t := ListedAt(b, raws, resolve, s.idx);
  }

  lemma {:induction false} SameAscending(a: seq<Step>, b: seq<Step>)
    requires Ascending(a) && Ascending(b) && forall s :: s in a <==> s in b
    ensures a == b
  {
    BothEmpty(a, b);
    if a != [] {
      var la, lb := a[|a| - 1], b[|b| - 1];
      LastIsLargest(a);
      LastIsLargest(b);
      assert la in b && lb in a;
      assert la == lb;
      var ra, rb := a[..|a| - 1], b[..|b| - 1];
      forall s ensures s in ra <==> s in rb {
        InFront(a, b, s);
      }
      SameAscending(ra, rb);
      assert a == ra + [la] && b == rb + [lb];
    }
  }

  lemma LastIsLargest(a: seq<Step>)
    requires Ascending(a)
    ensures forall s | s in a :: s.idx <= a[|a| - 1].idx && (s.idx == a[|a| - 1].idx ==> s == a[|a| - 1])
  {
  }

  lemma InFront(a: seq<Step>, b: seq<Step>, s: Step)
    requires Ascending(a) && Ascending(b) && a != [] && b != [] && a[|a| - 1] == b[|b| - 1] && (s in a <==> s in b)
    ensures s in a[..|a| - 1] <==> s in b[..|b| - 1]
  {
    assert a == a[..|a| - 1] + [a[|a| - 1]] && b == b[..|b| - 1] + [b[|b| - 1]];
  }

  lemma BothEmpty(a: seq<Step>, b: seq<Step>)
    requires forall s :: s in a <==> s in b
    ensures a == [] <==> b == []
  {
    if a != [] { assert a[0] in a; }
    if b != [] { assert b[0] in b; }
  }

  /** fallback_plan: the whole task as one unflagged step without tools. */
  function FallbackPlan(task: string, agent: Agent): (steps: seq<Step>)
    ensures Ascending(steps) && Within(steps, MAX_STEPS_LIMIT)
    ensures |steps| == 1 && steps[0].action == task && steps[0].agent == agent && steps[0].tools == [] && !steps[0].flagged
  {
    [Step(1, "Handle the task directly", task, agent, [], false, 2)]
  }

  // ---------------------------------------------------------------- who must approve

  datatype Mode = Auto | Always | Never

  datatype Reason = ModeIsAlways | Flagged | Pattern | HighRisk(tool: string) | Unregistered(tool: string)

  predicate RiskyTool(tool: string, risk: string -> Option<string>) {
    risk(tool).None? || risk(tool).value == "high"
  }

  predicate Risky(step: Step, danger: string -> bool, risk: string -> Option<string>) {
    step.flagged || danger(step.title + " " + step.action) || exists t :: t in step.tools && RiskyTool(t, risk)
  }

  predicate MustApprove(step: Step, mode: Mode, danger: string -> bool, risk: string -> Option<string>) {
    mode.Always? || (mode.Auto? && Risky(step, danger, risk))
  }

  /** The risky tools, each with its reason, follow the reasons given before. */
  ghost predicate Named(tools: seq<string>, risk: string -> Option<string>, before: seq<Reason>, reasons: seq<Reason>) {
    && before <= reasons && (reasons == before <==> forall t | t in tools :: !RiskyTool(t, risk))
    && (forall t :: HighRisk(t) in reasons <==> t in tools && risk(t) == Some("high"))
    && (forall t :: Unregistered(t) in reasons <==> t in tools && risk(t).None?)
    && (forall r | r in [ModeIsAlways, Flagged, Pattern] :: r in reasons <==> r in before)
  }

  lemma NamedNext(tools: seq<string>, t: string, risk: string -> Option<string>, before: seq<Reason>, reasons: seq<Reason>,
                  named: seq<Reason>)
    requires Named(tools, risk, before, reasons)
    requires named == if risk(t).None? then [Unregistered(t)] else if risk(t).value == "high" then [HighRisk(t)] else []
    ensures Named(tools + [t], risk, before, reasons + named)
  {
    assert risk(t).Some? && risk(t).value != "high" ==> reasons + named == reasons;
    forall u ensures u in tools + [t] <==> u in tools || u == t {
    }
    if RiskyTool(t, risk) {
      assert t in tools + [t] && |reasons + named| > |before|;
    }
  }

  /** A person decides exactly when the mode asks for it always, or automatically for a step that is flagged, reads
      dangerous or uses a tool that is high risk or unknown; each cause is named. */
  method ApprovalDecision(step: Step, mode: Mode, danger: string -> bool, risk: string -> Option<string>)
    returns (required: bool, reasons: seq<Reason>)
    ensures required <==> MustApprove(step, mode, danger, risk)
    ensures required <==> reasons != []
    ensures ModeIsAlways in reasons <==> mode.Always?
    ensures Flagged in reasons <==> mode.Auto? && step.flagged
    ensures Pattern in reasons <==> mode.Auto? && danger(step.title + " " + step.action)
    ensures forall t :: HighRisk(t) in reasons <==> mode.Auto? && t in step.tools && risk(t) == Some("high")
    ensures forall t :: Unregistered(t) in reasons <==> mode.Auto? && t in step.tools && risk(t).None?
  {
    if mode.Never? {
      return false, [];
    }
    if mode.Always? {
      return true, [ModeIsAlways];
    }
    reasons := [];
    if step.flagged {
      reasons := reasons + [Flagged];
    }
    if danger(step.title + " " + step.action) {
      reasons := reasons + [Pattern];
    }
    ghost var before := reasons;
    for i := 0 to |step.tools|
      invariant Named(step.tools[..i], risk, before, reasons)
    {
      var known := risk(step.tools[i]);
      NamedNext(step.tools[..i], step.tools[i], risk, before, reasons,
                if known.None? then [Unregistered(step.tools[i])] else if known.value == "high" then [HighRisk(step.tools[i])] else []);
      assert step.tools[..i + 1] == step.tools[..i] + [step.tools[i]];
      if known.Some? && known.value == "high" {
        reasons := reasons + [HighRisk(step.tools[i])];
      } else if known.None? {
        reasons := reasons + [Unregistered(step.tools[i])];
      } else {
        assert reasons + [] == reasons;
      }
    }
    assert step.tools[..|step.tools|] == step.tools;
    required := reasons != [];
  }
}
