/**
 The sticky tier of a session, kept in SQLite or in Redis (smart-router/src/smart_router/database.py:70-353).

 Times are the effective ones: `now or int(time.time())`, never zero. A tier is its rank. The policy version
 does not change, so a key is an alias and a session hash.
 */
module Sticky {
  import opened Collections

  type Tier = nat

  type Key = (string, string)

  datatype Settings = Settings(ttl: int, maxAge: int, demotionTurns: int)

  datatype Fields = Fields(tier: Tier, previous: Option<Tier>, reason: Option<string>, simpleTurns: nat, createdAt: int,
                           lastSeenAt: int)

  datatype Action = Created | Kept | Promoted | Demoted

  datatype Result = Result(tier: Tier, existed: bool, action: Action)

  function Fresh(proposed: Tier, now: int): Fields {
    Fields(proposed, None, None, 0, now, now)
  }

  /** What one more proposal makes of a live session. */
  function Turned(s: Settings, f: Fields, proposed: Tier, reason: string, now: int): (Fields, Action) {
    var seen := f.(lastSeenAt := now);
    if proposed > f.tier then
      (seen.(tier := proposed, previous := Some(f.tier), reason := Some(reason), simpleTurns := 0), Promoted)
    else if proposed < f.tier then
      if f.simpleTurns + 1 >= s.demotionTurns then
        (seen.(tier := proposed, previous := Some(f.tier), reason := Some("consecutive_simple_turns"), simpleTurns := 0), Demoted)
      else
        (seen.(simpleTurns := f.simpleTurns + 1), Kept)
    else (seen.(simpleTurns := 0), Kept)
  }

  // ---------------------------------------------------------------- SQLite

  datatype Row = Row(fields: Fields, expiresAt: int)

  type Rows = map<Key, Row>

  predicate RowExpired(s: Settings, row: Row, now: int) {
    row.expiresAt <= now || row.fields.createdAt + s.maxAge <= now
  }

  /** DELETE ... LIMIT: of the expired rows, the ones the database picks. */
  function Purged(s: Settings, rows: Rows, now: int, pick: set<Key>): Rows {
    map k | k in rows && !(k in pick && RowExpired(s, rows[k], now)) :: rows[k]
  }

  function SqlResolve(s: Settings, rows: Rows, key: Key, proposed: Tier, reason: string, now: int, pick: set<Key>): (Rows, Result) {
    var purged := Purged(s, rows, now, pick);
    if key !in purged || RowExpired(s, purged[key], now) then
      (purged[key := Row(Fresh(proposed, now), now + s.ttl)], Result(proposed, false, Created))
    else
      var (fields, action) := Turned(s, purged[key].fields, proposed, reason, now);
      (purged[key := Row(fields, now + s.ttl)], Result(fields.tier, true, action))
  }

  function SqlReset(rows: Rows, key: Key): Rows {
    map k | k in rows && k != key :: rows[k]
  }

  class RouteStore {
    const settings: Settings
    var rows: Rows

    constructor (settings: Settings)
      ensures this.settings == settings && rows == map[]
    {
      this.settings := settings;
      rows := map[];
    }

    method PurgeExpired(now: int, pick: set<Key>)
      modifies this
      ensures rows == Purged(settings, old(rows), now, pick)
    {
      rows := map k | k in rows && !(k in pick && RowExpired(settings, rows[k], now)) :: rows[k];
    }

    method Reset(key: Key)
      modifies this
      ensures rows == SqlReset(old(rows), key)
    {
      rows := map k | k in rows && k != key :: rows[k];
    }

    method Resolve(key: Key, proposed: Tier, reason: string, now: int, pick: set<Key>) returns (r: Result)
      modifies this
      ensures (rows, r) == SqlResolve(settings, old(rows), key, proposed, reason, now, pick)
    {
      PurgeExpired(now, pick);
      ghost var purged := rows;
      var live := key in rows;
      if live && (rows[key].expiresAt <= now || rows[key].fields.createdAt + settings.maxAge <= now) {
        rows := map k | k in rows && k != key :: rows[k];
        live := false;
      }
      if !live {
        rows := rows[key := Row(Fresh(proposed, now), now + settings.ttl)];
        assert rows == purged[key := Row(Fresh(proposed, now), now + settings.ttl)];
        return Result(proposed, false, Created);
      }
      var current := rows[key].fields;
      var selected, action, simpleTurns, previous, why := current.tier, Kept, current.simpleTurns, current.previous, current.reason;
      if proposed > current.tier {
        selected, previous, why, simpleTurns, action := proposed, Some(current.tier), Some(reason), 0, Promoted;
      } else if proposed < current.tier {
        simpleTurns := simpleTurns + 1;
        if simpleTurns >= settings.demotionTurns {
          selected, previous, why := proposed, Some(current.tier), Some("consecutive_simple_turns");
          simpleTurns, action := 0, Demoted;
        }
      } else {
        simpleTurns := 0;
      }
      rows := rows[key := Row(Fields(selected, previous, why, simpleTurns, current.createdAt, now), now + settings.ttl)];
      return Result(selected, true, action);
    }
  }

  // ---------------------------------------------------------------- Redis

  /** A stored value and the moment its own expiry removes it. */
  datatype Entry = Entry(fields: Fields, expiresAt: int, gone: int)

  type Entries = map<Key, Entry>

  predicate EntryExpired(s: Settings, entry: Entry, now: int) {
    entry.gone <= now || entry.expiresAt <= now || entry.fields.createdAt + s.maxAge <= now
  }

  function Remaining(s: Settings, createdAt: int, now: int): int {
    var absolute := createdAt + s.maxAge - now;
    var ttl := if s.ttl <= absolute then s.ttl else absolute;
    if ttl < 1 then 1 else ttl
  }

  function Written(s: Settings, entries: Entries, key: Key, fields: Fields, now: int): Entries {
    var until := now + Remaining(s, fields.createdAt, now);
    entries[key := Entry(fields, until, until)]
  }

  function RedisResolve(s: Settings, entries: Entries, key: Key, proposed: Tier, reason: string, now: int): (Entries, Result) {
    if key !in entries || EntryExpired(s, entries[key], now) then
      (Written(s, entries, key, Fresh(proposed, now), now), Result(proposed, false, Created))
    else
      var (fields, action) := Turned(s, entries[key].fields, proposed, reason, now);
      (Written(s, entries, key, fields, now), Result(fields.tier, true, action))
  }

  function RedisReset(entries: Entries, key: Key): Entries {
    map k | k in entries && k != key :: entries[k]
  }

  class RedisRouteStore {
    const settings: Settings
    var entries: Entries

    constructor (settings: Settings)
      ensures this.settings == settings && entries == map[]
    {
      this.settings := settings;
      entries := map[];
    }

    /** GET: nothing once the key's own expiry has passed. */
    function Get(key: Key, now: int): (r: Option<Entry>)
      reads this
      ensures r.Some? <==> key in entries && entries[key].gone > now
      ensures r.Some? ==> r.value == entries[key]
    {
      if key in entries && entries[key].gone > now then Some(entries[key]) else None
    }

    method Write(key: Key, fields: Fields, now: int)
      modifies this
      ensures entries == Written(settings, old(entries), key, fields, now)
    {
      var absolute := fields.createdAt + settings.maxAge - now;
      var ttl := if settings.ttl <= absolute then settings.ttl else absolute;
      if ttl < 1 {
        ttl := 1;
      }
      entries := entries[key := Entry(fields, now + ttl, now + ttl)];
    }

    method Reset(key: Key)
      modifies this
      ensures entries == RedisReset(old(entries), key)
    {
      entries := map k | k in entries && k != key :: entries[k];
    }

    method Resolve(key: Key, proposed: Tier, reason: string, now: int) returns (r: Result)
      modifies this
      ensures (entries, r) == RedisResolve(settings, old(entries), key, proposed, reason, now)
    {
      ghost var before := entries;
      var row := Get(key, now);
      if row.Some? && (row.value.expiresAt <= now || row.value.fields.createdAt + settings.maxAge <= now) {
        Reset(key);
        row := None;
      }
      if row.None? {
        Write(key, Fresh(proposed, now), now);
        assert entries == Written(settings, before, key, Fresh(proposed, now), now);
        return Result(proposed, false, Created);
      }
      var current := row.value.fields;
      var selected, action, simpleTurns, previous, why := current.tier, Kept, current.simpleTurns, current.previous, current.reason;
      if proposed > current.tier {
        selected, previous, why, simpleTurns, action := proposed, Some(current.tier), Some(reason), 0, Promoted;
      } else if proposed < current.tier {
        simpleTurns := simpleTurns + 1;
        if simpleTurns >= settings.demotionTurns {
          selected, previous, why := proposed, Some(current.tier), Some("consecutive_simple_turns");
          simpleTurns, action := 0, Demoted;
        }
      } else {
        simpleTurns := 0;
      }
      Write(key, Fields(selected, previous, why, simpleTurns, current.createdAt, now), now);
      return Result(selected, true, action);
    }
  }

  // ---------------------------------------------------------------- histories

  datatype Op =
    | Resolve(at: int, key: Key, proposed: Tier, reason: string, pick: set<Key>)
    | Reset(at: int, key: Key)
    | Purge(at: int, pick: set<Key>)

  ghost predicate InOrder(ops: seq<Op>) {
    forall i, j | 0 <= i < j < |ops| :: ops[i].at <= ops[j].at
  }

  function SqlStep(s: Settings, rows: Rows, op: Op): (Rows, Option<Result>) {
    match op
    case Resolve(at, key, proposed, reason, pick) =>
      var (rows', r) := SqlResolve(s, rows, key, proposed, reason, at, pick); (rows', Some(r))
    case Reset(_, key) => (SqlReset(rows, key), None)
    case Purge(at, pick) => (Purged(s, rows, at, pick), None)
  }

  function RedisStep(s: Settings, entries: Entries, op: Op): (Entries, Option<Result>) {
    match op
    case Resolve(at, key, proposed, reason, _) =>
      var (entries', r) := RedisResolve(s, entries, key, proposed, reason, at); (entries', Some(r))
    case Reset(_, key) => (RedisReset(entries, key), None)
    case Purge(_, _) => (entries, None)
  }

  function SqlRows(s: Settings, ops: seq<Op>): Rows {
    if ops == [] then map[] else SqlStep(s, SqlRows(s, ops[..|ops| - 1]), ops[|ops| - 1]).0
  }

  function SqlResults(s: Settings, ops: seq<Op>): seq<Option<Result>> {
    if ops == [] then []
    else SqlResults(s, ops[..|ops| - 1]) + [SqlStep(s, SqlRows(s, ops[..|ops| - 1]), ops[|ops| - 1]).1]
  }

  function RedisEntries(s: Settings, ops: seq<Op>): Entries {
    if ops == [] then map[] else RedisStep(s, RedisEntries(s, ops[..|ops| - 1]), ops[|ops| - 1]).0
  }

  function RedisResults(s: Settings, ops: seq<Op>): seq<Option<Result>> {
    if ops == [] then []
    else RedisResults(s, ops[..|ops| - 1]) + [RedisStep(s, RedisEntries(s, ops[..|ops| - 1]), ops[|ops| - 1]).1]
  }

  // ---------------------------------------------------------------- the two stores agree

  function SqlView(s: Settings, rows: Rows, key: Key, u: int): Option<Fields> {
    if key in rows && !RowExpired(s, rows[key], u) then Some(rows[key].fields) else None
  }

  function RedisView(s: Settings, entries: Entries, key: Key, u: int): Option<Fields> {
    if key in entries && !EntryExpired(s, entries[key], u) then Some(entries[key].fields) else None
  }

  /** From time `t` on the two stores show the same sessions. */
  ghost predicate Agree(s: Settings, rows: Rows, entries: Entries, t: int) {
    forall key, u {:trigger SqlView(s, rows, key, u)} {:trigger RedisView(s, entries, key, u)} | u >= t ::
      SqlView(s, rows, key, u) == RedisView(s, entries, key, u)
  }

  ghost predicate Begun(rows: Rows, t: int) {
    forall k | k in rows :: rows[k].fields.createdAt <= t
  }

  /** A session's end is the same in both: two limits there, one here. */
  predicate SameEnd(s: Settings) {
    s.ttl >= 1 || s.maxAge <= 0
  }

  lemma PurgeChangesNoView(s: Settings, rows: Rows, now: int, pick: set<Key>, key: Key, u: int)
    requires now <= u
    ensures SqlView(s, Purged(s, rows, now, pick), key, u) == SqlView(s, rows, key, u)
  {
  }

  lemma SameView(s: Settings, fields: Fields, now: int, u: int)
    requires SameEnd(s) && fields.createdAt <= now <= u && (fields.createdAt == now || now < fields.createdAt + s.maxAge)
    ensures var until := now + Remaining(s, fields.createdAt, now);
      RowExpired(s, Row(fields, now + s.ttl), u) <==> EntryExpired(s, Entry(fields, until, until), u)
  {
  }

  lemma ResolveAgrees(s: Settings, rows: Rows, entries: Entries, t: int, key: Key, proposed: Tier, reason: string,
                      now: int, pick: set<Key>)
    requires SameEnd(s) && Agree(s, rows, entries, t) && Begun(rows, t) && t <= now
    ensures var (rows', r) := SqlResolve(s, rows, key, proposed, reason, now, pick);
      var (entries', r') := RedisResolve(s, entries, key, proposed, reason, now);
      r == r' && Agree(s, rows', entries', now) && Begun(rows', now)
  {
    PurgeChangesNoView(s, rows, now, pick, key, now);
    var before := SqlView(s, rows, key, now);
    assert before == RedisView(s, entries, key, now);
    var fields := if before.Some? then Turned(s, before.value, proposed, reason, now).0 else Fresh(proposed, now);
    var rows' := SqlResolve(s, rows, key, proposed, reason, now, pick).0;
    var entries' := RedisResolve(s, entries, key, proposed, reason, now).0;
    forall k, u | u >= now ensures SqlView(s, rows', k, u) == RedisView(s, entries', k, u) {
      if k == key {
        SameView(s, fields, now, u);
      } else {
        PurgeChangesNoView(s, rows, now, pick, k, u);
        assert SqlView(s, rows', k, u) == SqlView(s, rows, k, u);
        assert RedisView(s, entries', k, u) == RedisView(s, entries, k, u);
      }
    }
  }

  lemma StepAgrees(s: Settings, rows: Rows, entries: Entries, t: int, op: Op)
    requires SameEnd(s) && Agree(s, rows, entries, t) && Begun(rows, t) && t <= op.at
    ensures SqlStep(s, rows, op).1 == RedisStep(s, entries, op).1
    ensures Agree(s, SqlStep(s, rows, op).0, RedisStep(s, entries, op).0, op.at) && Begun(SqlStep(s, rows, op).0, op.at)
  {
    match op
    case Resolve(at, key, proposed, reason, pick) => ResolveAgrees(s, rows, entries, t, key, proposed, reason, at, pick);
    case Reset(at, key) =>
      forall k, u | u >= at ensures SqlView(s, SqlReset(rows, key), k, u) == RedisView(s, RedisReset(entries, key), k, u) {
        assert SqlView(s, rows, k, u) == RedisView(s, entries, k, u);
      }
    case Purge(at, pick) =>
      forall k, u | u >= at ensures SqlView(s, Purged(s, rows, at, pick), k, u) == RedisView(s, entries, k, u) {
        PurgeChangesNoView(s, rows, at, pick, k, u);
      }
  }

  lemma {:induction false} HistoriesAgree(s: Settings, ops: seq<Op>)
    requires SameEnd(s) && InOrder(ops)
    ensures SqlResults(s, ops) == RedisResults(s, ops)
    ensures ops != [] ==> Agree(s, SqlRows(s, ops), RedisEntries(s, ops), ops[|ops| - 1].at)
    ensures ops != [] ==> Begun(SqlRows(s, ops), ops[|ops| - 1].at)
  {
    if ops != [] {
      var rest, last := ops[..|ops| - 1], ops[|ops| - 1];
      HistoriesAgree(s, rest);
      var t := if rest == [] then last.at else rest[|rest| - 1].at;
      assert Agree(s, SqlRows(s, rest), RedisEntries(s, rest), t);
      StepAgrees(s, SqlRows(s, rest), RedisEntries(s, rest), t, last);
    }
  }

  /** Over every history in order both stores give the same answers, whatever the purges pick. */
  lemma StoresAgree(s: Settings, ops: seq<Op>)
    requires SameEnd(s) && InOrder(ops)
    ensures SqlResults(s, ops) == RedisResults(s, ops)
  {
    HistoriesAgree(s, ops);
  }

  /** Any other setting tells them apart: two proposals at one moment. */
  lemma StoresDisagree(s: Settings) returns (ops: seq<Op>)
    requires !SameEnd(s)
    ensures InOrder(ops) && SqlResults(s, ops) != RedisResults(s, ops)
  {
    var op := Resolve(1, ("", ""), 0, "", {});
    ops := [op, op];
    assert ops[..1] == [op] && [op][..0] == [];
    var rows, entries := SqlStep(s, map[], op).0, RedisStep(s, map[], op).0;
    assert SqlRows(s, []) == map[] && RedisEntries(s, []) == map[];
    assert SqlRows(s, [op]) == SqlStep(s, SqlRows(s, [op][..0]), op).0 == rows;
    assert RedisEntries(s, [op]) == RedisStep(s, RedisEntries(s, [op][..0]), op).0 == entries;
    assert SqlStep(s, rows, op).1 == Some(Result(0, false, Created));
    assert RedisStep(s, entries, op).1 == Some(Result(0, true, Kept));
    Last(s, ops, SqlStep(s, rows, op).1, RedisStep(s, entries, op).1);
  }

  lemma Last(s: Settings, ops: seq<Op>, a: Option<Result>, b: Option<Result>)
    requires ops != [] && a != b
    requires a == SqlStep(s, SqlRows(s, ops[..|ops| - 1]), ops[|ops| - 1]).1
    requires b == RedisStep(s, RedisEntries(s, ops[..|ops| - 1]), ops[|ops| - 1]).1
    ensures SqlResults(s, ops) != RedisResults(s, ops)
  {
    var x, y := SqlResults(s, ops), RedisResults(s, ops);
    assert x[|x| - 1] == a && y[|y| - 1] == b;
  }
}
