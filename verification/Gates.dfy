/**
 Capability gates and what they guarantee after the sticky tier, the override and the policy upgrade
 (smart-router/src/smart_router/routing.py:273-330, main.py:327-352, control_plane.py:229-232, config.py:186-200).

 Token estimates are real numbers times a factor, rounded up; floating-point error is not modelled.
 */
module Gates {
  import opened Collections
  import Sticky
  import Hysteresis

  /** fast, standard, strong. */
  type Tier = t: nat | t <= 2

  datatype TierConfig = TierConfig(maxOutput: int, tools: bool, vision: bool, maxContext: int)

  datatype Settings = Settings(fast: TierConfig, standard: TierConfig, strong: TierConfig, factor: real)

  /** `requestedOutput` is zero when the client sets no limit. */
  datatype Facts = Facts(hasTools: bool, hasVision: bool, estimatedTokens: nat, requestedOutput: nat)

  function Config(s: Settings, t: Tier): TierConfig {
    if t == 0 then s.fast else if t == 1 then s.standard else s.strong
  }

  /** math.ceil. */
  function Ceil(x: real): (n: int)
    ensures n as real >= x && n as real - 1.0 < x
  {
    -((-x).Floor)
  }

  lemma CeilAtMost(x: real, n: int)
    ensures Ceil(x) <= n <==> x <= n as real
  {
  }

  function Cost(estimate: nat, factor: real): int {
    Ceil(estimate as real * factor)
  }

  function PromptTokens(s: Settings, f: Facts): int {
    Cost(f.estimatedTokens, s.factor)
  }

  function RequiredContext(s: Settings, f: Facts, t: Tier): int {
    PromptTokens(s, f) + if f.requestedOutput != 0 then f.requestedOutput else Config(s, t).maxOutput
  }

  predicate Capable(s: Settings, f: Facts, t: Tier) {
    && (f.hasTools ==> Config(s, t).tools)
    && (f.hasVision ==> Config(s, t).vision)
    && RequiredContext(s, f, t) <= Config(s, t).maxContext
  }

  // ---------------------------------------------------------------- the gate

  datatype Reason = Vision | Tools | Context | UpgradeTo(tier: Tier)

  function ReasonFor(s: Settings, f: Facts, original: Tier, selected: Tier): Reason {
    if f.hasVision && !Config(s, original).vision then Vision
    else if f.hasTools && !Config(s, original).tools then Tools
    else if RequiredContext(s, f, original) > Config(s, original).maxContext then Context
    else UpgradeTo(selected)
  }

  /** What serving a request takes: vision and tools where it needs them, and room for its prompt at the token
      factor beside the output the client asked for, or else the tier's own limit. */
  predicate Serves(c: TierConfig, f: Facts, factor: real) {
    && (f.hasVision ==> c.vision) && (f.hasTools ==> c.tools)
    && f.estimatedTokens as real * factor + (if f.requestedOutput > 0 then f.requestedOutput else c.maxOutput) as real
       <= c.maxContext as real
  }

  /** The gate's test is that, with the prompt rounded up to whole tokens. */
  lemma CapableServes(s: Settings, f: Facts, t: Tier)
    ensures Capable(s, f, t) <==> Serves([s.fast, s.standard, s.strong][t], f, s.factor)
  {
    var c := [s.fast, s.standard, s.strong][t];
    CeilAtMost(f.estimatedTokens as real * s.factor, c.maxContext - if f.requestedOutput > 0 then f.requestedOutput else c.maxOutput);
  }

  /** The lowest tier at or above the proposal that can serve the request, and the first thing the proposal lacks; an
      error exactly when no tier at or above it can. */
  method ApplyCapabilityGates(s: Settings, f: Facts, tier: Tier) returns (gated: Option<Tier>, reason: Option<Reason>)
    ensures gated.None? <==> forall t: Tier | tier <= t :: !Serves([s.fast, s.standard, s.strong][t], f, s.factor)
    ensures gated.Some? ==>
      && tier <= gated.value && Serves([s.fast, s.standard, s.strong][gated.value], f, s.factor)
      && forall t: Tier | tier <= t < gated.value :: !Serves([s.fast, s.standard, s.strong][t], f, s.factor)
    ensures reason.Some? <==> gated.Some? && gated.value != tier
    ensures reason.Some? ==>
      var c := [s.fast, s.standard, s.strong][tier];
      reason.value == if f.hasVision && !c.vision then Vision else if f.hasTools && !c.tools then Tools else Context
  {
    var rank: nat := tier;
    CapableServes(s, f, tier);
    while rank <= 2
      invariant tier <= rank <= 3
      invariant forall t: Tier | tier <= t < rank :: !Serves([s.fast, s.standard, s.strong][t], f, s.factor)
    {
      CapableServes(s, f, rank);
      if Capable(s, f, rank) {
        if rank != tier {
          assert !Capable(s, f, tier);
          return Some(rank), Some(ReasonFor(s, f, tier, rank));
        }
        return Some(rank), None;
      }
      rank := rank + 1;
    }
    return None, None;
  }

  datatype StickyAnswer = Stateless | StoreFailed | Answered(tier: Tier)

  /** The sticky tier, unless it cannot serve the request: then the gated proposal. */
  method SelectTier(s: Settings, f: Facts, proposal: Tier, sticky: StickyAnswer) returns (selected: Tier, overridden: bool)
    requires Capable(s, f, proposal)
    ensures Serves([s.fast, s.standard, s.strong][selected], f, s.factor)
    ensures overridden <==> sticky.Answered? && !Serves([s.fast, s.standard, s.strong][sticky.tier], f, s.factor)
    ensures selected == if sticky.Answered? && !overridden then sticky.tier else proposal
  {
    selected, overridden := proposal, false;
    if sticky.Answered? {
      selected := sticky.tier;
    }
    CapableServes(s, f, proposal);
    CapableServes(s, f, selected);
    if !Capable(s, f, selected) {
      selected, overridden := proposal, true;
    }
  }

  // ---------------------------------------------------------------- upgrades

  /** What Settings.from_env checks. */
  predicate Validated(s: Settings) {
    && s.factor >= 1.0
    && s.fast.maxOutput > 0 && s.standard.maxOutput > 0 && s.strong.maxOutput > 0
    && s.fast.maxContext > 0 && s.standard.maxContext > 0 && s.strong.maxContext > 0
    && (s.fast.tools ==> s.standard.tools) && (s.standard.tools ==> s.strong.tools)
    && (s.fast.vision ==> s.standard.vision) && (s.standard.vision ==> s.strong.vision)
    && s.strong.tools && s.strong.vision
    && s.fast.maxContext <= s.standard.maxContext <= s.strong.maxContext
  }

  /** The prompt tokens that fit beside a tier's own output limit. */
  function Headroom(s: Settings, t: Tier): int {
    Config(s, t).maxContext - Config(s, t).maxOutput
  }

  /** From a capable tier an upgrade stays capable exactly when the client set an output limit or the prompt fits
      beside the higher tier's own. */
  lemma UpgradeStaysCapable(s: Settings, f: Facts, low: Tier, high: Tier)
    requires Validated(s) && low <= high && Capable(s, f, low)
    ensures Capable(s, f, high) <==> f.requestedOutput > 0 || PromptTokens(s, f) <= Headroom(s, high)
  {
    var a, b := Config(s, low), Config(s, high);
    assert (a.tools ==> b.tools) && (a.vision ==> b.vision) && a.maxContext <= b.maxContext by {
      if low == high {
      } else if low == 1 {
        assert high == 2;
      }
    }
  }

  /** The largest estimate that costs at most `room` tokens. */
  function LargestEstimate(room: nat, factor: real): nat
    requires factor >= 1.0
  {
    (room as real / factor).Floor
  }

  lemma QuotientTimes(room: real, factor: real)
    requires factor >= 1.0
    ensures room / factor * factor == room
  {
  }

  lemma TimesIsMonotone(x: real, y: real, factor: real)
    requires factor >= 1.0
    ensures x <= y ==> x * factor <= y * factor
    ensures x > y ==> x * factor > y * factor
  {
  }

  /** An estimate fits exactly up to the largest one. */
  lemma FitsExactly(estimate: nat, room: nat, factor: real)
    requires factor >= 1.0
    ensures Cost(estimate, factor) <= room <==> estimate <= LargestEstimate(room, factor)
  {
    var limit := room as real / factor;
    QuotientTimes(room as real, factor);
    TimesIsMonotone(estimate as real, limit, factor);
    CeilAtMost(estimate as real * factor, room);
  }

  lemma CostIsMonotone(e: nat, n: nat, factor: real)
    requires e <= n && factor >= 1.0
    ensures Cost(e, factor) <= Cost(n, factor)
  {
    TimesIsMonotone(e as real, n as real, factor);
    CeilAtMost(e as real * factor, Cost(n, factor));
  }

  /** The longest prompt that the tier admits when the client sets no limit. */
  function LargestPrompt(s: Settings, t: Tier): int
    requires s.factor >= 1.0 && Headroom(s, t) >= 0
  {
    Cost(LargestEstimate(Headroom(s, t), s.factor), s.factor)
  }

  /** For every validated configuration, all upgrades between two tiers keep every request exactly when the largest
      prompt that the lower tier admits fits beside the higher tier's own output limit. */
  lemma UpgradesAreSafeExactly(s: Settings, low: Tier, high: Tier)
    requires Validated(s) && low <= high
    ensures (forall f: Facts | Capable(s, f, low) :: Capable(s, f, high))
      <==> Headroom(s, low) < 0 || LargestPrompt(s, low) <= Headroom(s, high)
  {
    if Headroom(s, low) < 0 {
      forall f: Facts | Capable(s, f, low) ensures Capable(s, f, high) {
        UpgradeStaysCapable(s, f, low, high);
        CeilAtMost(f.estimatedTokens as real * s.factor, Headroom(s, low));
      }
    } else if LargestPrompt(s, low) <= Headroom(s, high) {
      forall f: Facts | Capable(s, f, low) ensures Capable(s, f, high) {
        UpgradeStaysCapable(s, f, low, high);
        if f.requestedOutput == 0 {
          FitsExactly(f.estimatedTokens, Headroom(s, low), s.factor);
          CostIsMonotone(f.estimatedTokens, LargestEstimate(Headroom(s, low), s.factor), s.factor);
        }
      }
    } else {
      var n := LargestEstimate(Headroom(s, low), s.factor);
      FitsExactly(n, Headroom(s, low), s.factor);
      var f := Facts(false, false, n, 0);
      assert Capable(s, f, low) && !Capable(s, f, high);
    }
  }

  /** The condition on the limits alone under which no upgrade breaks a request. */
  ghost predicate UpgradesFit(s: Settings)
    requires s.factor >= 1.0
  {
    forall low: Tier, high: Tier | low <= high && Headroom(s, low) >= 0 :: LargestPrompt(s, low) <= Headroom(s, high)
  }

  /** The policy's minimum tier cannot break a request when the limits meet that condition or the client set an
      output limit. */
  lemma PolicyUpgradeIsSafe(s: Settings, f: Facts, selected: Tier, forced: Tier)
    requires Validated(s) && Capable(s, f, selected) && (UpgradesFit(s) || f.requestedOutput > 0)
    ensures Capable(s, f, if forced > selected then forced else selected)
  {
    if forced > selected {
      UpgradesAreSafeExactly(s, selected, forced);
      UpgradeStaysCapable(s, f, selected, forced);
    }
  }

  predicate HeadroomRises(s: Settings) {
    Headroom(s, 0) <= Headroom(s, 1) <= Headroom(s, 2)
  }

  /** Headroom that never falls meets the condition, under every factor. */
  lemma RisingHeadroomFits(s: Settings)
    requires s.factor >= 1.0 && HeadroomRises(s)
    ensures UpgradesFit(s)
  {
    forall low: Tier, high: Tier | low <= high && Headroom(s, low) >= 0
      ensures LargestPrompt(s, low) <= Headroom(s, high)
    {
      FitsExactly(LargestEstimate(Headroom(s, low), s.factor), Headroom(s, low), s.factor);
    }
  }

  /** Falling headroom alone does not decide it: at the shipped factor a lower headroom can admit the same prompts. */
  lemma FallingHeadroomCanBeHarmless() returns (s: Settings)
    ensures Validated(s) && s.factor == 1.15 && Headroom(s, 0) > Headroom(s, 2)
    ensures forall f: Facts | Capable(s, f, 0) :: Capable(s, f, 2)
  {
    var lower := TierConfig(994, true, true, 1002);
    s := Settings(lower, lower, TierConfig(995, true, true, 1002), 1.15);
    FitsExactly(6, 8, 1.15);
    FitsExactly(7, 8, 1.15);
    UpgradesAreSafeExactly(s, 0, 2);
  }

  /** A configuration that passes every start-up check and still loses a request on upgrade. */
  lemma ValidationIsNotEnough() returns (s: Settings, f: Facts)
    ensures Validated(s) && Capable(s, f, 0) && !Capable(s, f, 2)
  {
    var lower := TierConfig(1000, true, true, 32000);
    s := Settings(lower, lower, TierConfig(8000, true, true, 32000), 1.0);
    f := Facts(false, false, 30000, 0);
    CeilAtMost(30000.0, 30000);
  }

  /** With the default limits, under any factor and whatever the tiers offer, no upgrade breaks a request. */
  lemma DefaultsNeverBreak(s: Settings, f: Facts, selected: Tier, forced: Tier)
    requires s.fast.maxOutput == 1024 && s.standard.maxOutput == 4096 && s.strong.maxOutput == 6144
    requires s.fast.maxContext == 32000 && s.standard.maxContext == 128000 && s.strong.maxContext == 200000
    requires Validated(s) && Capable(s, f, selected)
    ensures Capable(s, f, if forced > selected then forced else selected)
  {
    RisingHeadroomFits(s);
    PolicyUpgradeIsSafe(s, f, selected, forced);
  }

  // ---------------------------------------------------------------- with the sticky store

  lemma {:induction false} TurnsStayInRange(s: Sticky.Settings, turns: seq<Hysteresis.Turn>, p: nat)
    requires Hysteresis.AllLawful(s, turns) && p < |turns| && forall j | 0 <= j < |turns| :: turns[j].proposed <= 2
    ensures turns[p].selected <= 2
  {
    Hysteresis.LawfulAt(s, turns, p);
    if p > 0 {
      TurnsStayInRange(s, turns, p - 1);
    }
  }

  /** Whatever the session's history, if the limits meet the condition then the tier it sticks to can serve every request whose
      gated proposal can: the capability override is never needed. */
  lemma OverrideIsNeverNeeded(s: Settings, f: Facts, sticky: Sticky.Settings, ops: seq<Sticky.Op>, key: Sticky.Key, p: nat)
    requires Validated(s) && UpgradesFit(s)
    requires p < |Hysteresis.Turns(sticky, ops, key)|
    requires forall j | 0 <= j < |Hysteresis.Turns(sticky, ops, key)| :: Hysteresis.Turns(sticky, ops, key)[j].proposed <= 2
    requires Capable(s, f, Hysteresis.Turns(sticky, ops, key)[p].proposed)
    ensures Hysteresis.Turns(sticky, ops, key)[p].selected <= 2
    ensures Capable(s, f, Hysteresis.Turns(sticky, ops, key)[p].selected)
  {
    var turns := Hysteresis.Turns(sticky, ops, key);
    Hysteresis.StoreIsLawful(sticky, ops, key);
    TurnsStayInRange(sticky, turns, p);
    Hysteresis.NeverBelowProposal(sticky, ops, key, p);
    PolicyUpgradeIsSafe(s, f, turns[p].proposed, turns[p].selected);
  }
}
