/**
 What normalize_plan makes of each step a planner sends (smart-router/src/smart_router/orchestrator_v60.py:233-296),
 told by the visible text of its title and its action.
 */
module OrchestratorInput {
  import opened Collections
  import opened Text
  import opened OrchestratorPlan

  /** A step that says anything: a title or an action that is not blank. */
  predicate Visible(raw: RawStep) {
    raw.Object? && (Strip(raw.title) != "" || Strip(raw.action) != "")
  }

  /** The shown title: the step's own, else its action, cut shorter when a blank title was sent. */
  predicate TitleFrom(raw: RawStep, title: string)
    requires raw.Object?
  {
    if Strip(raw.title) != "" then title == Cut(Strip(raw.title), 400)
    else if raw.title == "" then title == Cut(Strip(raw.action), 400)
    else title == Cut(Strip(raw.action), 120)
  }

  /** What the agent is told to do: the step's own action, else its title. */
  predicate ActionFrom(raw: RawStep, action: string)
    requires raw.Object?
  {
    if Strip(raw.action) != "" then action == Cut(Strip(raw.action), 4000)
    else if raw.action == "" then action == Cut(Strip(raw.title), 4000)
    else action == Cut(Strip(raw.title), 400)
  }

  /** `kept` are the non-blank items at these ascending places, trimmed. */
  ghost predicate TakenAt(items: seq<string>, kept: seq<string>, places: seq<nat>) {
    && |kept| == |places|
    && (forall k | 0 <= k < |places| :: places[k] < |items| && Strip(items[places[k]]) != "" && kept[k] == Strip(items[places[k]]))
    && forall j, k | 0 <= j < k < |places| :: places[j] < places[k]
  }

  /** At most eight are taken, and a non-blank item is left out only after the eighth. */
  ghost predicate EightTaken(items: seq<string>, places: seq<nat>) {
    |places| <= 8
    && forall i: nat | i < |items| && Strip(items[i]) != "" && i !in places :: |places| == 8 && places[7] < i
  }

  ghost predicate Picked(items: seq<string>, kept: seq<string>, places: seq<nat>) {
    TakenAt(items, kept, places) && EightTaken(items, places)
  }

  predicate AttemptsFrom(given: Given, n: nat) {
    match given
    case Unreadable => n == 2
    case Reads(m) => if m < 1 then n == 1 else if m > 3 then n == 3 else n == m
  }

  ghost predicate StepFrom(raw: RawStep, s: Step, resolve: string -> Option<Agent>) {
    && Visible(raw) && TitleFrom(raw, s.title) && ActionFrom(raw, s.action) && s.title != "" && s.action != ""
    && resolve(raw.agent) == Some(s.agent) && (exists places :: Picked(raw.tools, s.tools, places))
    && s.flagged == raw.flagged && AttemptsFrom(raw.attempts, s.maxAttempts)
  }

  lemma BlankOr(a: string, b: string)
    ensures Strip(Or(a, b)) != "" || Strip(Or(b, a)) != "" <==> Strip(a) != "" || Strip(b) != ""
  {
  }

  lemma UsableIsVisible(raw: RawStep)
    ensures Usable(raw) <==> Visible(raw)
  {
    if raw.Object? {
      BlankOr(raw.title, raw.action);
    }
  }

  // ---------------------------------------------------------------- the tools

  /** The places of the non-blank items among the first `n`. */
  function Places(items: seq<string>, n: nat): seq<nat>
    requires n <= |items|
  {
    if n == 0 then [] else Places(items, n - 1) + if Strip(items[n - 1]) != "" then [n - 1] else []
  }

  lemma {:induction false} PlacesHave(items: seq<string>, n: nat, i: nat)
    requires n <= |items|
    ensures i in Places(items, n) <==> i < n && Strip(items[i]) != ""
  {
    if n > 0 {
      PlacesHave(items, n - 1, i);
    }
  }

  lemma NonBlankMore(items: seq<string>, item: string)
    ensures NonBlank(items + [item]) == NonBlank(items) + if Strip(item) != "" then [Strip(item)] else []
  {
    if items == [] {
      assert [item][1..] == [] && items + [item] == [item];
    } else {
      NonBlankMore(items[1..], item);
      assert (items + [item])[1..] == items[1..] + [item];
    }
  }

  lemma {:induction false} NonBlankAre(items: seq<string>, n: nat)
    requires n <= |items|
    ensures TakenAt(items, NonBlank(items[..n]), Places(items, n))
    ensures forall k | 0 <= k < |Places(items, n)| :: Places(items, n)[k] < n
  {
    if n > 0 {
      NonBlankAre(items, n - 1);
      assert items[..n] == items[..n - 1] + [items[n - 1]];
      NonBlankMore(items[..n - 1], items[n - 1]);
    }
  }

  lemma FirstPlaces(all: seq<nat>, i: nat)
    requires |all| > 8 && i in all && forall j, k | 0 <= j < k < |all| :: all[j] < all[k]
    ensures i in all[..8] || all[7] < i
  {
    var k :| 0 <= k < |all| && all[k] == i;
    if k < 8 {
      assert all[..8][k] == i;
    }
  }

  lemma ToolsArePicked(items: seq<string>) returns (places: seq<nat>)
    ensures Picked(items, FirstEight(NonBlank(items)), places)
  {
    var all := Places(items, |items|);
    assert items[..|items|] == items;
    NonBlankAre(items, |items|);
    places := if |all| <= 8 then all else all[..8];
    forall i: nat | i < |items| && Strip(items[i]) != "" && i !in places ensures |places| == 8 && places[7] < i {
      PlacesHave(items, |items|, i);
      if |all| > 8 {
        FirstPlaces(all, i);
      }
    }
  }

  // ---------------------------------------------------------------- the whole plan

  lemma CutTwice(s: string)
    ensures Cut(Cut(s, 4000), 120) == Cut(s, 120)
  {
  }

  lemma CleanSays(raw: RawStep, order: nat, resolve: string -> Option<Agent>)
    requires Usable(raw) && resolve(raw.agent).Some?
    ensures StepFrom(raw, Clean(raw, order, resolve(raw.agent).value), resolve)
  {
    UsableIsVisible(raw);
    CutTwice(Strip(raw.action));
    var places := ToolsArePicked(raw.tools);
  }

  /** Nothing among the first `n` steps says anything. */
  predicate NothingVisible(raws: seq<RawStep>, n: nat) {
    forall i | 0 <= i < |raws| && i < n :: !Visible(raws[i])
  }

  /** Step `order` is the first visible one whose agent nobody knows. */
  predicate UnknownFirstAt(raws: seq<RawStep>, n: nat, resolve: string -> Option<Agent>, order: nat) {
    && 1 <= order <= |raws| && order <= n && Visible(raws[order - 1]) && resolve(raws[order - 1].agent).None?
    && forall i | 0 <= i < order - 1 && Visible(raws[i]) :: resolve(raws[i].agent).Some?
  }

  /** One step for each visible one, at its place, that says what its own fields say. */
  ghost predicate SaysAll(raws: seq<RawStep>, n: nat, resolve: string -> Option<Agent>, steps: seq<Step>) {
    && (forall i | 0 <= i < |raws| && i < n && Visible(raws[i]) :: Lists(steps, i + 1))
    && forall s | s in steps :: 1 <= s.idx <= |raws| && s.idx <= n && StepFrom(raws[s.idx - 1], s, resolve)
  }

  lemma Refusals(raws: seq<RawStep>, maxSteps: nat, resolve: string -> Option<Agent>, error: PlanError)
    requires PlanOf(raws, maxSteps, resolve, Invalid(error))
    ensures error.NoSteps? ==> raws == []
    ensures error.NothingUsable? ==> raws != [] && NothingVisible(raws, maxSteps)
    ensures error.UnknownAgent? ==> raws != [] && UnknownFirstAt(raws, maxSteps, resolve, error.order)
  {
    var cut := Considered(raws, maxSteps);
    forall raw ensures Usable(raw) <==> Visible(raw) {
      UsableIsVisible(raw);
    }
    forall i | 0 <= i < |raws| && i < maxSteps ensures cut[i] == raws[i] && raws[i] in cut {
    }
  }

  lemma StepsSayAll(raws: seq<RawStep>, maxSteps: nat, resolve: string -> Option<Agent>, steps: seq<Step>)
    requires PlanOf(raws, maxSteps, resolve, Steps(steps))
    ensures raws != [] && steps != [] && Ascending(steps) && SaysAll(raws, maxSteps, resolve, steps)
  {
    var cut := Considered(raws, maxSteps);
    forall s | s in steps ensures 1 <= s.idx <= |raws| && s.idx <= maxSteps && StepFrom(raws[s.idx - 1], s, resolve) {
      CleanSays(cut[s.idx - 1], s.idx, resolve);
    }
    forall i | 0 <= i < |raws| && i < maxSteps && Visible(raws[i]) ensures Lists(steps, i + 1) {
      UsableIsVisible(cut[i]);
    }
  }

  /** For every answer of a planner: which error is due, told by the visible steps among the first `maxSteps`; and
      otherwise, in order, one step for each visible one that says what its own fields say. */
  lemma PlansSayWhatWasSent(raws: seq<RawStep>, maxSteps: nat, resolve: string -> Option<Agent>, plan: Plan)
    requires PlanOf(raws, maxSteps, resolve, plan)
    ensures plan.Invalid? && plan.error.NoSteps? <==> raws == []
    ensures plan.Invalid? && plan.error.NothingUsable? <==> raws != [] && NothingVisible(raws, maxSteps)
    ensures plan.Invalid? && plan.error.UnknownAgent? ==> UnknownFirstAt(raws, maxSteps, resolve, plan.error.order)
    ensures plan.Steps? ==> Ascending(plan.steps) && SaysAll(raws, maxSteps, resolve, plan.steps)
  {
    if plan.Steps? {
      StepsSayAll(raws, maxSteps, resolve, plan.steps);
      assert plan.steps[0] in plan.steps;
    } else {
      Refusals(raws, maxSteps, resolve, plan.error);
    }
  }
}
