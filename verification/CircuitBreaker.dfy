/**
 The shared circuit breaker of a model's health row (smart-router/src/smart_router/provider_health.py:24-89).

 Rows that exist; the latency average and the metrics are left out.
 */
module CircuitBreaker {

  datatype State = Healthy | Degraded | Unhealthy | CircuitOpen | HalfOpen

  datatype Row = Row(state: State, total: nat, successes: nat, failures: nat, consecutive: nat, openUntil: real, fallbacks: nat)

  datatype Settings = Settings(threshold: nat, cooldown: real, degradedRate: real)

  predicate Success(status: int) {
    200 <= status < 400
  }

  predicate Qualifying(status: int) {
    status in {408, 425, 429} || status >= 500
  }

  // ---------------------------------------------------------------- one call

  function Asked(row: Row, now: real): (Row, bool) {
    if !row.state.CircuitOpen? then (row, true)
    else if row.openUntil > now then (row, false)
    else (row.(state := HalfOpen), true)
  }

  function Failed(s: Settings, row: Row, status: int, now: real): Row {
    var counted := row.(total := row.total + 1, failures := row.failures + 1,
                        consecutive := row.consecutive + if Qualifying(status) then 1 else 0);
    if counted.consecutive >= s.threshold then counted.(state := CircuitOpen, openUntil := now + s.cooldown)
    else if counted.failures as real / counted.total as real >= s.degradedRate then counted.(state := Degraded)
    else counted
  }

  function Succeeded(row: Row): Row {
    var counted := row.(total := row.total + 1, successes := row.successes + 1, consecutive := 0);
    if row.state.Healthy? then counted else counted.(state := Healthy, openUntil := 0.0)
  }

  function Recorded(s: Settings, row: Row, status: int, now: real): Row {
    if Success(status) then Succeeded(row) else Failed(s, row, status, now)
  }

  class ProviderHealthRegistry {
    const settings: Settings
    var rows: map<string, Row>

    constructor (settings: Settings, rows: map<string, Row>)
      ensures this.settings == settings && this.rows == rows
    {
      this.settings := settings;
      this.rows := rows;
    }

    method Available(model: string, now: real) returns (ok: bool)
      modifies this
      ensures model !in old(rows) ==> ok && rows == old(rows)
      ensures model in old(rows) ==>
        ok == Asked(old(rows)[model], now).1 && rows == old(rows)[model := Asked(old(rows)[model], now).0]
    {
      if model !in rows {
        return true;
      }
      var row := rows[model];
      if row.state.CircuitOpen? {
        if row.openUntil > now {
          assert rows == old(rows)[model := row];
          return false;
        }
        rows := rows[model := row.(state := HalfOpen)];
        return true;
      }
      assert rows == old(rows)[model := row];
      return true;
    }

    method Record(model: string, status: int, now: real)
      requires model in rows
      modifies this
      ensures rows == old(rows)[model := Recorded(settings, old(rows)[model], status, now)]
    {
      var row := rows[model];
      var qualifying := status in {408, 425, 429, 500, 502, 503, 504} || status >= 500;
      row := row.(total := row.total + 1);
      if 200 <= status < 400 {
        row := row.(successes := row.successes + 1, consecutive := 0);
        if row.state in {CircuitOpen, HalfOpen, Unhealthy, Degraded} {
          row := row.(state := Healthy, openUntil := 0.0);
        }
      } else {
        row := row.(failures := row.failures + 1);
        if qualifying {
          row := row.(consecutive := row.consecutive + 1);
        }
        if row.consecutive >= settings.threshold {
          row := row.(state := CircuitOpen, openUntil := now + settings.cooldown);
        } else {
          var rate := row.failures as real / row.total as real;
          row := row.(state := if rate >= settings.degradedRate then Degraded else row.state);
        }
      }
      rows := rows[model := row];
    }

    method Fallback(model: string)
      requires model in rows
      modifies this
      ensures rows == old(rows)[model := old(rows)[model].(fallbacks := old(rows)[model].fallbacks + 1)]
    {
      rows := rows[model := rows[model].(fallbacks := rows[model].fallbacks + 1)];
    }
  }

  // ---------------------------------------------------------------- histories

  datatype Event = Ask(at: real) | Answer(at: real, status: int) | FallBack(at: real)

  function After(s: Settings, row: Row, e: Event): Row {
    match e
    case Ask(at) => Asked(row, at).0
    case Answer(at, status) => Recorded(s, row, status, at)
    case FallBack(_) => row.(fallbacks := row.fallbacks + 1)
  }

  function Run(s: Settings, row: Row, events: seq<Event>): Row {
    if events == [] then row else After(s, Run(s, row, events[..|events| - 1]), events[|events| - 1])
  }

  /** Open or half-open exactly from the threshold on; every answer counted once, on one side. */
  predicate Sound(s: Settings, row: Row) {
    && (row.state.CircuitOpen? || row.state.HalfOpen? <==> row.consecutive >= s.threshold)
    && row.total == row.successes + row.failures
  }

  /** The qualifying failures since the last success: timeouts, early or too many requests, and server errors. */
  function Streak(row: Row, events: seq<Event>): nat {
    if events == [] then row.consecutive
    else
      var before, e := Streak(row, events[..|events| - 1]), events[|events| - 1];
      if !e.Answer? then before
      else if 200 <= e.status < 400 then 0
      else before + if e.status == 408 || e.status == 425 || e.status == 429 || e.status >= 500 then 1 else 0
  }

  /** The last failing answer, plus the cooldown. */
  function BlockedUntil(s: Settings, row: Row, events: seq<Event>): real {
    if events == [] then row.openUntil
    else
      var e := events[|events| - 1];
      if e.Answer? && !(200 <= e.status < 400) then e.at + s.cooldown else BlockedUntil(s, row, events[..|events| - 1])
  }

  /** How many answers there were, and how many of them failed. */
  function Answers(events: seq<Event>): nat {
    if events == [] then 0 else Answers(events[..|events| - 1]) + if events[|events| - 1].Answer? then 1 else 0
  }

  function Failures(events: seq<Event>): nat {
    if events == [] then 0
    else
      var e := events[|events| - 1];
      Failures(events[..|events| - 1]) + if e.Answer? && !(200 <= e.status < 400) then 1 else 0
  }

  /** Since the last success some failure below the threshold found the failure rate too high. */
  predicate TooManyFailed(s: Settings, row: Row, events: seq<Event>) {
    if events == [] then row.state.Degraded?
    else
      var before, e := TooManyFailed(s, row, events[..|events| - 1]), events[|events| - 1];
      if !e.Answer? then before
      else if 200 <= e.status < 400 || Streak(row, events) >= s.threshold then false
      else
        || before
        || (row.total + Answers(events) > 0
            && (row.failures + Failures(events)) as real / (row.total + Answers(events)) as real >= s.degradedRate)
  }

  /** The state, the counters and the streak agree over every history, and a closed circuit leaves no time behind. */
  lemma {:induction false} HistoriesAreSound(s: Settings, row: Row, events: seq<Event>)
    requires s.threshold >= 1 && Sound(s, row)
    ensures Sound(s, Run(s, row, events)) && Run(s, row, events).consecutive == Streak(row, events)
    ensures Run(s, row, events).consecutive >= s.threshold ==> Run(s, row, events).openUntil == BlockedUntil(s, row, events)
    ensures Run(s, row, events).consecutive < s.threshold ==> Run(s, row, events).openUntil in {0.0, row.openUntil}
  {
    if events != [] {
      HistoriesAreSound(s, row, events[..|events| - 1]);
    }
  }

  /** Degraded, told without states; every answer is counted, and every failure. */
  lemma {:induction false} DegradedExactly(s: Settings, row: Row, events: seq<Event>)
    requires s.threshold >= 1 && Sound(s, row)
    ensures Run(s, row, events).total == row.total + Answers(events)
    ensures Run(s, row, events).failures == row.failures + Failures(events)
    ensures Run(s, row, events).state.Degraded? <==> TooManyFailed(s, row, events)
  {
    if events != [] {
      DegradedExactly(s, row, events[..|events| - 1]);
      HistoriesAreSound(s, row, events[..|events| - 1]);
    }
  }

  ghost predicate InOrder(start: real, events: seq<Event>) {
    && (forall i, j | 0 <= i < j < |events| :: events[i].at <= events[j].at)
    && forall i | 0 <= i < |events| :: start <= events[i].at
  }

  function Latest(start: real, events: seq<Event>): real {
    if events == [] then start else events[|events| - 1].at
  }

  lemma {:induction false} HalfOpenIsPast(s: Settings, start: real, row: Row, events: seq<Event>)
    requires s.threshold >= 1 && Sound(s, row) && InOrder(start, events) && (row.state.HalfOpen? ==> row.openUntil <= start)
    ensures Run(s, row, events).state.HalfOpen? ==> Run(s, row, events).openUntil <= Latest(start, events)
  {
    if events != [] {
      var rest, e := events[..|events| - 1], events[|events| - 1];
      HalfOpenIsPast(s, start, row, rest);
      HistoriesAreSound(s, row, rest);
      assert Latest(start, rest) <= e.at;
    }
  }

  /** Told without states: a model is refused exactly when its qualifying failures since the last success have reached
      the threshold and its last failure is less than a cooldown ago. */
  lemma RefusedExactly(s: Settings, start: real, row: Row, events: seq<Event>, now: real)
    requires s.threshold >= 1 && Sound(s, row) && InOrder(start, events) && (row.state.HalfOpen? ==> row.openUntil <= start)
    requires Latest(start, events) <= now
    ensures Asked(Run(s, row, events), now).1 <==> !(Streak(row, events) >= s.threshold && now < BlockedUntil(s, row, events))
  {
    HistoriesAreSound(s, row, events);
    HalfOpenIsPast(s, start, row, events);
  }
}
