/**
 What the sticky tier of one session does over time, told without counters or rows
 (smart-router/src/smart_router/database.py:105-193).
 */
module Hysteresis {
  import opened Collections
  import opened Sticky

  /** A proposal for one session and its reason: the tier it held then, if it was alive, and what was answered. */
  datatype Turn = Turn(proposed: Tier, reason: string, held: Option<Tier>, selected: Tier, action: Action)

  predicate Low(t: Turn) {
    t.action.Kept? && t.proposed < t.selected
  }

  /** How many proposals in a row, up to the last, were below the tier they left in place. */
  function LowRun(turns: seq<Turn>): (n: nat)
    ensures n <= |turns|
  {
    if turns == [] || !Low(turns[|turns| - 1]) then 0 else 1 + LowRun(turns[..|turns| - 1])
  }

  /** The law of the sticky tier: raise at once, lower only after enough low proposals in a row. */
  predicate Lawful(s: Settings, before: seq<Turn>, t: Turn) {
    && (t.held.Some? ==> before != [] && before[|before| - 1].selected == t.held.value)
    && t.action == (if t.held.None? then Created
                    else if t.proposed > t.held.value then Promoted
                    else if t.proposed < t.held.value && LowRun(before) + 1 >= s.demotionTurns then Demoted
                    else Kept)
    && t.selected == (if t.action.Kept? then t.held.value else t.proposed)
  }

  predicate AllLawful(s: Settings, turns: seq<Turn>) {
    turns == [] || (AllLawful(s, turns[..|turns| - 1]) && Lawful(s, turns[..|turns| - 1], turns[|turns| - 1]))
  }

  // ---------------------------------------------------------------- the store follows the law

  /** The turns of one session in a history of the store. */
  function Turns(s: Settings, ops: seq<Op>, key: Key): seq<Turn> {
    if ops == [] then [] else
    var rest, op := ops[..|ops| - 1], ops[|ops| - 1];
    if !op.Resolve? || op.key != key then Turns(s, rest, key)
    else
      var rows := SqlRows(s, rest);
      var view := SqlView(s, rows, key, op.at);
      var r := SqlResolve(s, rows, key, op.proposed, op.reason, op.at, op.pick).1;
      Turns(s, rest, key) + [Turn(op.proposed, op.reason, if view.Some? then Some(view.value.tier) else None, r.tier, r.action)]
  }

  /** The last turn that raised or lowered the tier since the session began. */
  function LastMove(turns: seq<Turn>): Option<Turn> {
    if turns == [] || turns[|turns| - 1].action.Created? then None
    else if turns[|turns| - 1].action.Kept? then LastMove(turns[..|turns| - 1])
    else Some(turns[|turns| - 1])
  }

  /** Where the tier came from and why: nothing before the first move, else what that move left and what it was for. */
  predicate Explained(fields: Fields, move: Option<Turn>) {
    && fields.previous == (if move.Some? then move.value.held else None)
    && fields.reason == (if move.None? then None
                         else if move.value.action.Demoted? then Some("consecutive_simple_turns")
                         else Some(move.value.reason))
  }

  /** The stored row is what the turns say. */
  predicate Remembers(rows: Rows, key: Key, turns: seq<Turn>) {
    key in rows ==>
      && turns != [] && rows[key].fields.tier == turns[|turns| - 1].selected
      && rows[key].fields.simpleTurns == LowRun(turns) && Explained(rows[key].fields, LastMove(turns))
  }

  lemma ResolveIsLawful(s: Settings, rows: Rows, turns: seq<Turn>, op: Op)
    requires op.Resolve? && Remembers(rows, op.key, turns)
    ensures var view := SqlView(s, rows, op.key, op.at);
      var (rows', r) := SqlResolve(s, rows, op.key, op.proposed, op.reason, op.at, op.pick);
      var t := Turn(op.proposed, op.reason, if view.Some? then Some(view.value.tier) else None, r.tier, r.action);
      Lawful(s, turns, t) && Remembers(rows', op.key, turns + [t])
  {
    PurgeChangesNoView(s, rows, op.at, op.pick, op.key, op.at);
    var view := SqlView(s, rows, op.key, op.at);
    var r := SqlResolve(s, rows, op.key, op.proposed, op.reason, op.at, op.pick).1;
    var t := Turn(op.proposed, op.reason, if view.Some? then Some(view.value.tier) else None, r.tier, r.action);
    assert (turns + [t])[..|turns|] == turns;
  }

  lemma OthersRemember(s: Settings, rows: Rows, turns: seq<Turn>, op: Op, key: Key)
    requires Remembers(rows, key, turns) && (op.Resolve? ==> op.key != key)
    ensures Remembers(SqlStep(s, rows, op).0, key, turns)
  {
  }

  /** Over every history, every session follows the law, and its row counts its run of low proposals. */
  lemma {:induction false} StoreIsLawful(s: Settings, ops: seq<Op>, key: Key)
    ensures AllLawful(s, Turns(s, ops, key))
    ensures Remembers(SqlRows(s, ops), key, Turns(s, ops, key))
  {
    if ops != [] {
      var rest, op := ops[..|ops| - 1], ops[|ops| - 1];
      StoreIsLawful(s, rest, key);
      if op.Resolve? && op.key == key {
        ResolveIsLawful(s, SqlRows(s, rest), Turns(s, rest, key), op);
        var turns := Turns(s, ops, key);
        assert turns[..|turns| - 1] == Turns(s, rest, key);
      } else {
        OthersRemember(s, SqlRows(s, rest), Turns(s, rest, key), op, key);
      }
    }
  }

  /** Over every history: where the kept tier came from, and why, is the last move of the session's turns. */
  lemma KeptTierIsExplained(s: Settings, ops: seq<Op>, key: Key)
    requires key in SqlRows(s, ops)
    ensures Explained(SqlRows(s, ops)[key].fields, LastMove(Turns(s, ops, key)))
  {
    StoreIsLawful(s, ops, key);
  }

  // ---------------------------------------------------------------- how long a session lives

  /** When a session began and when it was last seen. */
  datatype Span = Span(began: int, seen: int)

  predicate Alive(s: Settings, span: Option<Span>, now: int) {
    span.Some? && now < span.value.seen + s.ttl && now < span.value.began + s.maxAge
  }

  /** Told without rows and purges: a proposal continues a live session or begins one, a reset ends it. */
  function SpanOf(s: Settings, ops: seq<Op>, key: Key): Option<Span> {
    if ops == [] then None else
    var before, op := SpanOf(s, ops[..|ops| - 1], key), ops[|ops| - 1];
    if op.Resolve? && op.key == key then Some(Span(if Alive(s, before, op.at) then before.value.began else op.at, op.at))
    else if op.Reset? && op.key == key then None
    else before
  }

  /** What the store shows of a session is what its span says. */
  ghost predicate Shows(s: Settings, view: Option<Fields>, span: Option<Span>, now: int) {
    && (view.Some? <==> Alive(s, span, now))
    && (view.Some? && span.Some? ==> view.value.createdAt == span.value.began && view.value.lastSeenAt == span.value.seen)
  }

  /** Over every history in order, whatever the purges pick: a session is alive exactly while its last proposal is less
      than the time to live ago and its beginning less than the maximal age. */
  lemma {:induction false} SessionsEnd(s: Settings, ops: seq<Op>, key: Key, now: int)
    requires InOrder(ops) && (ops != [] ==> ops[|ops| - 1].at <= now)
    ensures Shows(s, SqlView(s, SqlRows(s, ops), key, now), SpanOf(s, ops, key), now)
  {
    if ops != [] {
      var rest, op := ops[..|ops| - 1], ops[|ops| - 1];
      var rows := SqlRows(s, rest);
      SessionsEnd(s, rest, key, now);
      SessionsEnd(s, rest, key, op.at);
      match op
      case Resolve(at, k, proposed, reason, pick) =>
        PurgeChangesNoView(s, rows, at, pick, key, now);
        PurgeChangesNoView(s, rows, at, pick, key, at);
      case Reset(_, _) =>
      case Purge(at, pick) => PurgeChangesNoView(s, rows, at, pick, key, now);
    }
  }

  lemma {:induction false} ResultAt(s: Settings, ops: seq<Op>, p: nat)
    requires p < |ops|
    ensures |SqlResults(s, ops)| == |ops| && SqlResults(s, ops)[p] == SqlStep(s, SqlRows(s, ops[..p]), ops[p]).1
  {
    var last := |ops| - 1;
    if p < last {
      ResultAt(s, ops[..last], p);
      assert ops[..last][..p] == ops[..p];
    } else if last > 0 {
      ResultAt(s, ops[..last], 0);
    }
  }

  /** What a caller is told: a proposal finds its session exactly when it is alive by its span, and begins one otherwise. */
  lemma ExistedExactly(s: Settings, ops: seq<Op>, p: nat)
    requires InOrder(ops) && p < |ops| && ops[p].Resolve?
    ensures |SqlResults(s, ops)| == |ops| && SqlResults(s, ops)[p].Some?
    ensures var r := SqlResults(s, ops)[p].value;
      && (r.existed <==> Alive(s, SpanOf(s, ops[..p], ops[p].key), ops[p].at))
      && (r.action.Created? <==> !r.existed)
  {
    ResultAt(s, ops, p);
    SessionsEnd(s, ops[..p], ops[p].key, ops[p].at);
    PurgeChangesNoView(s, SqlRows(s, ops[..p]), ops[p].at, ops[p].pick, ops[p].key, ops[p].at);
  }

  // ---------------------------------------------------------------- what the law means

  lemma {:induction false} LawfulAt(s: Settings, turns: seq<Turn>, p: nat)
    requires AllLawful(s, turns) && p < |turns|
    ensures AllLawful(s, turns[..p]) && Lawful(s, turns[..p], turns[p])
  {
    var last := |turns| - 1;
    if p < last {
      LawfulAt(s, turns[..last], p);
      assert turns[..last][..p] == turns[..p];
    }
  }

  /** The count never reaches the number of turns that demotes. */
  lemma {:induction false} RunStaysShort(s: Settings, turns: seq<Turn>)
    requires s.demotionTurns >= 1 && AllLawful(s, turns)
    ensures LowRun(turns) < s.demotionTurns
  {
    if turns != [] {
      RunStaysShort(s, turns[..|turns| - 1]);
    }
  }

  /** A run of low proposals leaves one tier in place throughout. */
  lemma {:induction false} RunHoldsOneTier(s: Settings, turns: seq<Turn>, j: nat)
    requires AllLawful(s, turns) && |turns| - LowRun(turns) <= j < |turns|
    ensures Low(turns[j]) && turns[j].selected == turns[|turns| - 1].selected && turns[j].held == Some(turns[j].selected)
  {
    var last := |turns| - 1;
    if j < last {
      RunHoldsOneTier(s, turns[..last], j);
    }
  }

  /** The selected tier is never below the proposed one. */
  lemma NeverBelowProposal(s: Settings, ops: seq<Op>, key: Key, p: nat)
    requires p < |Turns(s, ops, key)|
    ensures Turns(s, ops, key)[p].selected >= Turns(s, ops, key)[p].proposed
  {
    StoreIsLawful(s, ops, key);
    LawfulAt(s, Turns(s, ops, key), p);
  }

  /** The stored count stays below demotion_turns. */
  lemma CountStaysBelow(s: Settings, ops: seq<Op>, key: Key)
    requires s.demotionTurns >= 1 && key in SqlRows(s, ops)
    ensures SqlRows(s, ops)[key].fields.simpleTurns < s.demotionTurns
  {
    StoreIsLawful(s, ops, key);
    RunStaysShort(s, Turns(s, ops, key));
  }

  /** A turn demotes exactly when it is the last of demotion_turns proposals in a row, each made while the session
      was alive and each strictly below the tier it held, which was the same for all of them. */
  lemma DemotionIsEarned(s: Settings, ops: seq<Op>, key: Key, p: nat)
    requires s.demotionTurns >= 1 && p < |Turns(s, ops, key)|
    ensures var turns := Turns(s, ops, key);
      turns[p].action.Demoted? <==>
        && turns[p].held.Some? && p + 1 >= s.demotionTurns
        && forall j | p + 1 - s.demotionTurns <= j <= p ::
             turns[j].held == turns[p].held && turns[j].proposed < turns[p].held.value && (j < p ==> turns[j].action.Kept?)
  {
    var turns := Turns(s, ops, key);
    StoreIsLawful(s, ops, key);
    LawfulAt(s, turns, p);
    var before := turns[..p];
    RunStaysShort(s, before);
    if turns[p].action.Demoted? {
      forall j | p - LowRun(before) <= j < p
        ensures turns[j].held == turns[p].held && turns[j].proposed < turns[p].held.value && turns[j].action.Kept?
      {
        RunHoldsOneTier(s, before, j);
      }
    }
    if p + 1 >= s.demotionTurns && turns[p].held.Some?
       && forall j | p + 1 - s.demotionTurns <= j <= p ::
            turns[j].held == turns[p].held && turns[j].proposed < turns[p].held.value && (j < p ==> turns[j].action.Kept?)
    {
      LowsMakeARun(s, turns, p, s.demotionTurns - 1);
    }
  }

  lemma {:induction false} LowsMakeARun(s: Settings, turns: seq<Turn>, p: nat, n: nat)
    requires AllLawful(s, turns) && n <= p < |turns| && turns[p].held.Some?
    requires forall j | p - n <= j < p ::
      turns[j].held == turns[p].held && turns[j].proposed < turns[p].held.value && turns[j].action.Kept?
    ensures LowRun(turns[..p]) >= n
    decreases n
  {
    if n > 0 {
      LowsMakeARun(s, turns, p - 1, n - 1);
      LawfulAt(s, turns, p - 1);
      assert turns[..p][..p - 1] == turns[..p - 1];
    }
  }
}
